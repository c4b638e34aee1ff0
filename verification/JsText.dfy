/**
 JavaScript strings as sequences of UTF-16 code units, their JSON text as UTF-8
 bytes (section 7 of RFC 8259, section 3 of RFC 3629, section 25.5.2 of
 ECMA-262), and the string fitting of the bounded result projector.
 */
module JsText {

  type Unit = u: int | 0 <= u < 0x10000
  type Byte = b: int | 0 <= b < 0x100
  type Str = seq<Unit>
  type Bytes = seq<Byte>

  const MAX_SAFE_INTEGER: nat := 9007199254740991

  /** The code units of a literal. */
  function Ascii(text: string): (s: Str)
    ensures |s| == |text|
  {
    seq(|text|, i requires 0 <= i < |text| => if text[i] as int < 0x10000 then text[i] as int else 0)
  }

  /** Decimal digits of a natural number, as `String(n)` writes them. */
  function Decimal(n: nat): (s: Str)
    ensures |s| >= 1
    ensures forall i :: 0 <= i < |s| ==> 0x30 <= s[i] <= 0x39
  {
    if n < 10 then [0x30 + n] else Decimal(n / 10) + [0x30 + n % 10]
  }

  function Pow10(k: nat): nat {
    if k == 0 then 1 else 10 * Pow10(k - 1)
  }

  lemma {:induction false} DecimalLength(n: nat, k: nat)
    requires n < Pow10(k) && k >= 1
    ensures |Decimal(n)| <= k
  {
    if n >= 10 {
      assert k >= 2 by { assert Pow10(1) == 10 * Pow10(0); }
      DecimalLength(n / 10, k - 1);
    }
  }

  // ----- code points -----

  predicate IsHigh(u: Unit) { 0xD800 <= u <= 0xDBFF }

  predicate IsLow(u: Unit) { 0xDC00 <= u <= 0xDFFF }

  function WidthAt(s: Str, i: nat): nat
    requires i < |s|
  {
    if IsHigh(s[i]) && i + 1 < |s| && IsLow(s[i + 1]) then 2 else 1
  }

  function CodePointAt(s: Str, i: nat): int
    requires i < |s|
  {
    if WidthAt(s, i) == 2 then 0x10000 + (s[i] as int - 0xD800) * 0x400 + (s[i + 1] as int - 0xDC00) else s[i]
  }

  /** Position `k` does not fall between the two halves of a surrogate pair. */
  predicate Boundary(s: Str, k: nat) {
    !(0 < k < |s| && IsHigh(s[k - 1]) && IsLow(s[k]))
  }

  // ----- reference JSON text of a string -----

  function HexDigit(d: int): Byte
    requires 0 <= d < 16
  {
    if d < 10 then 0x30 + d else 0x61 + d - 10
  }

  /** `\uXXXX` */
  function EscapeUnit(u: Unit): Bytes {
    [0x5C, 0x75, HexDigit(u / 0x1000), HexDigit(u / 0x100 % 16), HexDigit(u / 16 % 16), HexDigit(u % 16)]
  }

  function Utf8(cp: int): Bytes
    requires 0 <= cp < 0x110000
  {
    if cp < 0x80 then [cp]
    else if cp < 0x800 then [0xC0 + cp / 0x40, 0x80 + cp % 0x40]
    else if cp < 0x10000 then [0xE0 + cp / 0x1000, 0x80 + cp / 0x40 % 0x40, 0x80 + cp % 0x40]
    else [0xF0 + cp / 0x40000, 0x80 + cp / 0x1000 % 0x40, 0x80 + cp / 0x40 % 0x40, 0x80 + cp % 0x40]
  }

  /** QuoteJSONString of one code point, UTF-8 encoded; lone surrogates are escaped. */
  function Quote(cp: int): Bytes
    requires 0 <= cp < 0x110000
  {
    if cp == 0x08 then [0x5C, 0x62]
    else if cp == 0x09 then [0x5C, 0x74]
    else if cp == 0x0A then [0x5C, 0x6E]
    else if cp == 0x0C then [0x5C, 0x66]
    else if cp == 0x0D then [0x5C, 0x72]
    else if cp == 0x22 || cp == 0x5C then [0x5C, cp]
    else if cp < 0x20 || 0xD800 <= cp <= 0xDFFF then EscapeUnit(cp)
    else Utf8(cp)
  }

  function Content(s: Str): Bytes
  {
    if s == [] then [] else Quote(CodePointAt(s, 0)) + Content(s[WidthAt(s, 0)..])
  }

  function RenderString(s: Str): Bytes {
    [0x22] + Content(s) + [0x22]
  }

  function StringSize(s: Str): nat {
    2 + |Content(s)|
  }

  /** Cutting at a boundary cuts the JSON text. */
  lemma {:induction false} ContentConcat(a: Str, b: Str)
    requires Boundary(a + b, |a|)
    ensures Content(a + b) == Content(a) + Content(b)
  {
    hide Quote;
    if a == [] {
      assert a + b == b;
    } else {
      var w := WidthAt(a, 0);
      assert WidthAt(a + b, 0) == w by {
        if |a| == 1 && |b| > 0 { assert (a + b)[1] == b[0]; }
      }
      assert CodePointAt(a + b, 0) == CodePointAt(a, 0);
      assert (a + b)[w..] == a[w..] + b;
      assert Boundary(a[w..] + b, |a[w..]|) by {
        if 0 < |a[w..]| < |a[w..] + b| {
          assert (a[w..] + b)[|a[w..]| - 1] == (a + b)[|a| - 1];
          assert (a[w..] + b)[|a[w..]|] == (a + b)[|a|];
        }
      }
      ContentConcat(a[w..], b);
    }
  }

  lemma ContentPositive(s: Str)
    requires s != []
    ensures |Content(s)| >= 1
  {
  }

  lemma ContentUnit(s: Str, k: nat)
    requires k < |s| && Boundary(s, k)
    ensures k + WidthAt(s, k) <= |s| && Boundary(s, k + WidthAt(s, k))
    ensures Content(s[..k + WidthAt(s, k)]) == Content(s[..k]) + Quote(CodePointAt(s, k))
  {
    hide Quote;
    var w := WidthAt(s, k);
    var a, b := s[..k], s[k..k + w];
    assert a + b == s[..k + w];
    assert Boundary(a + b, |a|) by {
      if 0 < k { assert (a + b)[k - 1] == s[k - 1] && (a + b)[k] == s[k]; }
    }
    ContentConcat(a, b);
    assert Content(b) == Quote(CodePointAt(b, 0)) + Content(b[w..]);
    assert b[w..] == [];
    assert CodePointAt(b, 0) == CodePointAt(s, k);
  }

  /** Printable ASCII without quote or backslash renders byte for byte. */
  predicate Verbatim(s: Str) {
    forall i :: 0 <= i < |s| ==> 0x20 <= s[i] < 0x7F && s[i] != 0x22 && s[i] != 0x5C
  }

  lemma {:induction false} VerbatimSize(s: Str)
    requires Verbatim(s)
    ensures |Content(s)| == |s|
  {
    if s != [] { VerbatimSize(s[1..]); }
  }

  predicate PlainText(text: string) {
    forall i :: 0 <= i < |text| ==> 0x20 <= text[i] as int < 0x7F && text[i] != '\"' && text[i] != '\\'
  }

  // ----- the projector's own size computation -----

  /** Bytes and code units taken by the JSON text at `index`. */
  function JsonStringUnit(s: Str, index: nat): (r: (nat, nat))
    requires index < |s|
    ensures 0 < r.1 <= |s| - index
    ensures r == (|Quote(CodePointAt(s, index))|, WidthAt(s, index))
  {
    var code := s[index];
    if code == 0x22 || code == 0x5C || code == 0x08 || code == 0x0C || code == 0x0A || code == 0x0D || code == 0x09
    then (2, 1)
    else if code <= 0x1F then (6, 1)
    else if code <= 0x7F then (1, 1)
    else if code <= 0x7FF then (2, 1)
    else if 0xD800 <= code <= 0xDBFF then
      if index + 1 < |s| && 0xDC00 <= s[index + 1] <= 0xDFFF then (4, 2) else (6, 1)
    else if 0xDC00 <= code <= 0xDFFF then (6, 1)
    else (3, 1)
  }

  lemma UnitStep(s: Str, k: nat, limit: nat)
    requires k < limit <= |s| && Boundary(s, k) && Boundary(s, limit)
    ensures var unit := JsonStringUnit(s, k);
            && k + unit.1 <= limit && Boundary(s, k + unit.1)
            && |Content(s[..k + unit.1])| == |Content(s[..k])| + unit.0
  {
    hide Quote, Content, JsonStringUnit;
    ContentUnit(s, k);
  }

  /** Exact size, or a number past `stopAfter` as soon as the scan exceeds it. */
  method JsonStringByteLength(value: Str, stopAfter: int) returns (n: int)
    ensures n == if StringSize(value) <= stopAfter || value == [] then StringSize(value) else stopAfter + 1
  {
    hide JsonStringUnit, Quote, CodePointAt, WidthAt;
    n := 2;
    var index := 0;
    assert value[..0] == [];
    while index < |value|
      invariant 0 <= index <= |value| && Boundary(value, index)
      invariant n == 2 + |Content(value[..index])| && (index > 0 ==> n <= stopAfter)
      decreases |value| - index
    {
      var unit := JsonStringUnit(value, index);
      UnitStep(value, index, |value|);
      n := n + unit.0;
      if n > stopAfter {
        ghost var k := index + unit.1;
        assert value[..k] + value[k..] == value;
        ContentConcat(value[..k], value[k..]);
        return stopAfter + 1;
      }
      index := index + unit.1;
    }
    assert value[..index] == value;
  }

  function SafePrefixEnd(value: Str, requestedEnd: nat): (end: nat)
    requires requestedEnd <= |value|
    ensures requestedEnd <= end + 1 && end <= requestedEnd && Boundary(value, end)
    ensures end == requestedEnd <==> Boundary(value, requestedEnd)
  {
    if 0 < requestedEnd < |value| && IsHigh(value[requestedEnd - 1]) && IsLow(value[requestedEnd])
    then requestedEnd - 1
    else requestedEnd
  }

  // ----- fitting a string into a byte budget -----

  /** The marker that replaces `dropped` code units. */
  function Marker(dropped: nat): Str {
    [0x2026] + Ascii("[truncated ") + Decimal(dropped) + Ascii(" chars]")
  }

  function CutAt(value: Str, k: nat): Str
    requires k <= |value|
  {
    value[..k] + Marker(|value| - k)
  }

  datatype Fit = Fit(text: FitText, overChars: bool, overBytes: bool)
  datatype FitText = Omitted | Text(s: Str)

  /** Longest whole-code-point run from `end` whose bytes stay within `budget`. */
  function ScanPrefix(value: Str, limit: nat, budget: int, end: nat, bytes: nat): (r: nat)
    requires limit <= |value| && end <= |value|
    ensures end <= r <= |value|
    decreases limit - end
  {
    if end >= limit then end
    else
      var unit := JsonStringUnit(value, end);
      if bytes + unit.0 > budget then end
      else ScanPrefix(value, limit, budget, end + unit.1, bytes + unit.0)
  }

  lemma {:induction false} ScanPrefixBytes(value: Str, limit: nat, budget: int, end: nat, bytes: nat)
    requires limit <= |value| && Boundary(value, limit) && end <= limit && Boundary(value, end)
    requires bytes == |Content(value[..end])|
    ensures var r := ScanPrefix(value, limit, budget, end, bytes);
            r <= limit && Boundary(value, r) && (r == end || |Content(value[..r])| <= budget)
    decreases limit - end
  {
    hide Content, JsonStringUnit, Quote, CodePointAt, WidthAt;
    if end < limit {
      var unit := JsonStringUnit(value, end);
      UnitStep(value, end, limit);
      if bytes + unit.0 <= budget {
        ScanPrefixBytes(value, limit, budget, end + unit.1, bytes + unit.0);
      }
    }
  }

  function CharLimit(value: Str, maxChars: nat): (k: nat)
    ensures k <= |value| && Boundary(value, k)
    ensures k == |value| <==> |value| <= maxChars
  {
    SafePrefixEnd(value, if |value| < maxChars then |value| else maxChars)
  }

  function CharLimited(value: Str, maxChars: nat): Str {
    var k := CharLimit(value, maxChars);
    if k == |value| then value else CutAt(value, k)
  }

  function FittedEnd(value: Str, maxBytes: int, maxChars: nat): (k: nat)
    ensures k <= |value|
  {
    ScanPrefix(value, CharLimit(value, maxChars), if maxBytes - 66 > 0 then maxBytes - 66 else 0, 0, 0)
  }

  lemma FittedEndBytes(value: Str, maxBytes: int, maxChars: nat)
    ensures var k := FittedEnd(value, maxBytes, maxChars);
            && k <= CharLimit(value, maxChars) && Boundary(value, k)
            && (k == 0 || |Content(value[..k])| <= (if maxBytes - 66 > 0 then maxBytes - 66 else 0))
  {
    assert value[..0] == [];
    ScanPrefixBytes(value, CharLimit(value, maxChars), if maxBytes - 66 > 0 then maxBytes - 66 else 0, 0, 0);
  }

  /** What `fitString` emits, and which truncation reasons it records. */
  function FitString(value: Str, maxBytes: int, maxChars: nat): Fit {
    var overChars := CharLimit(value, maxChars) < |value|;
    var limited := CharLimited(value, maxChars);
    if StringSize(limited) <= maxBytes then Fit(Text(limited), overChars, false)
    else if StringSize(Marker(|value|)) > maxBytes then
      Fit(if maxBytes < 2 then Omitted else Text([]), overChars, true)
    else
      var fitted := CutAt(value, FittedEnd(value, maxBytes, maxChars));
      if StringSize(fitted) > maxBytes then Fit(Text(Marker(|value|)), overChars, true)
      else Fit(Text(fitted), overChars, true)
  }

  /** `out` stands for `value`: itself, a marked cut at a code-point boundary, or the empty string. */
  ghost predicate Stands(value: Str, out: Str) {
    || out == value
    || out == []
    || exists k: nat | k < |value| :: Boundary(value, k) && out == CutAt(value, k)
  }

  lemma MarkerStart(n: nat)
    ensures |Marker(n)| > 0 && Marker(n)[0] == 0x2026
  {
  }

  lemma CutSize(value: Str, k: nat)
    requires k <= |value| && Boundary(value, k)
    ensures |Content(CutAt(value, k))| == |Content(value[..k])| + |Content(Marker(|value| - k))|
  {
    MarkerStart(|value| - k);
    ContentConcat(value[..k], Marker(|value| - k));
  }

  lemma AsciiVerbatim(text: string)
    requires PlainText(text)
    ensures Verbatim(Ascii(text))
  {
  }

  lemma MarkerTail(n: nat)
    ensures Verbatim(Ascii("[truncated ") + Decimal(n) + Ascii(" chars]"))
  {
    hide Ascii;
    assert PlainText("[truncated ");
    AsciiVerbatim("[truncated ");
    assert PlainText(" chars]");
    AsciiVerbatim(" chars]");
    assert Verbatim(Decimal(n)) by { hide Decimal; }
  }

  lemma MarkerSize(n: nat)
    ensures |Content(Marker(n))| == 21 + |Decimal(n)|
  {
    hide Ascii, Decimal, Verbatim;
    var tail := Ascii("[truncated ") + Decimal(n) + Ascii(" chars]");
    assert |tail| == 18 + |Decimal(n)|;
    MarkerTail(n);
    VerbatimSize(tail);
    assert [0x2026] + tail == Marker(n);
    ContentConcat([0x2026], tail);
    EllipsisSize();
    hide Content;
  }

  lemma EllipsisSize()
    ensures |Content([0x2026])| == 3
  {
    assert Content([0x2026]) == Quote(0x2026) + Content([]);
  }

  lemma FittedEndInside(value: Str, maxBytes: int, maxChars: nat)
    requires StringSize(CharLimited(value, maxChars)) > maxBytes >= 2
    ensures FittedEnd(value, maxBytes, maxChars) < |value|
  {
    FittedEndBytes(value, maxBytes, maxChars);
    assert value[..|value|] == value;
  }

  /** A fitted string respects the budget, and any change is recorded as a reason. */
  lemma FitStringSound(value: Str, maxBytes: int, maxChars: nat)
    ensures var f := FitString(value, maxBytes, maxChars);
            && (f.text.Omitted? ==> f.overBytes && maxBytes < 2)
            && (f.text.Text? ==> StringSize(f.text.s) <= maxBytes && Stands(value, f.text.s))
            && (!f.overChars && !f.overBytes <==> |value| <= maxChars && StringSize(value) <= maxBytes)
            && (!f.overChars && !f.overBytes ==> f.text == Text(value))
  {
    assert Content([]) == [];
    hide Marker, Content, FittedEnd;
    if StringSize(CharLimited(value, maxChars)) > maxBytes >= 2 {
      FittedEndInside(value, maxBytes, maxChars);
      FittedEndBytes(value, maxBytes, maxChars);
      assert Boundary(value, 0) && CutAt(value, 0) == Marker(|value|);
    }
  }

  /**
   The marker costs at most 64 bytes for every string length JavaScript can hold,
   so after the prefix scan the marker-only fallback is never taken.
   */
  lemma LateFallbackUnreachable(value: Str, maxBytes: int, maxChars: nat)
    requires |value| <= MAX_SAFE_INTEGER
    requires StringSize(Marker(|value|)) <= maxBytes
    ensures StringSize(CutAt(value, FittedEnd(value, maxBytes, maxChars))) <= maxBytes
  {
    hide Content, Decimal, FittedEnd;
    var k := FittedEnd(value, maxBytes, maxChars);
    FittedEndBytes(value, maxBytes, maxChars);
    if k == 0 {
      assert CutAt(value, 0) == Marker(|value|);
    } else {
      CutSize(value, k);
      MarkerSize(|value| - k);
      ContentPositive(value[..k]);
      assert Pow10(4) == 10000;
      assert Pow10(16) == 10000000000000000;
      DecimalLength(|value| - k, 16);
    }
  }

  method ScanPrefixLoop(value: Str, charLimit: nat, prefixBudget: int) returns (prefixEnd: nat)
    requires charLimit <= |value|
    ensures prefixEnd == ScanPrefix(value, charLimit, prefixBudget, 0, 0)
  {
    hide JsonStringUnit;
    var prefixBytes := 0;
    prefixEnd := 0;
    while prefixEnd < charLimit
      invariant prefixEnd <= |value| && prefixBytes >= 0
      invariant ScanPrefix(value, charLimit, prefixBudget, prefixEnd, prefixBytes)
             == ScanPrefix(value, charLimit, prefixBudget, 0, 0)
      decreases charLimit - prefixEnd
    {
      var unit := JsonStringUnit(value, prefixEnd);
      if prefixBytes + unit.0 > prefixBudget {
        break;
      }
      prefixBytes := prefixBytes + unit.0;
      prefixEnd := prefixEnd + unit.1;
    }
  }

  /** The imperative scan of `fitString`. */
  method FitStringScan(value: Str, maxBytes: int, maxChars: nat) returns (f: Fit)
    ensures f == FitString(value, maxBytes, maxChars)
  {
    hide Marker, StringSize;
    var charLimit := SafePrefixEnd(value, if |value| < maxChars then |value| else maxChars);
    var characterLimited := if charLimit == |value| then value else CutAt(value, charLimit);
    var bytes := JsonStringByteLength(characterLimited, maxBytes);
    if bytes <= maxBytes {
      return Fit(Text(characterLimited), charLimit < |value|, false);
    }
    var markerOnly := Marker(|value|);
    var markerOnlyBytes := JsonStringByteLength(markerOnly, maxBytes);
    if markerOnlyBytes > maxBytes {
      return Fit(if maxBytes < 2 then Omitted else Text([]), charLimit < |value|, true);
    }
    var prefixBudget := if maxBytes - 66 > 0 then maxBytes - 66 else 0;
    var prefixEnd := ScanPrefixLoop(value, charLimit, prefixBudget);
    var fitted := CutAt(value, prefixEnd);
    var fittedBytes := JsonStringByteLength(fitted, maxBytes);
    f := Fit(Text(if fittedBytes > maxBytes then markerOnly else fitted), charLimit < |value|, true);
  }
}
