/**
 The `java.util.Properties` printer and parser of `stage_jvm_natives.py`. Text is
 a sequence of code points, as in a Python string: lone surrogates are possible.
 */
module Properties {

  type Code = c: int | 0 <= c < 0x110000
  type Text = seq<Code>

  datatype Failure = MalformedEscape | LoneSurrogate
  datatype Result<+T> = Ok(value: T) | Err(error: Failure)

  datatype Entry = Entry(key: Text, value: Text)

  const TAB: Code := 0x09
  const LF: Code := 0x0A
  const FF: Code := 0x0C
  const CR: Code := 0x0D
  const SPACE: Code := 0x20
  const BANG: Code := 0x21
  const HASH: Code := 0x23
  const COLON: Code := 0x3A
  const EQUALS: Code := 0x3D
  const BACKSLASH: Code := 0x5C
  const LOWER_U: Code := 0x75

  predicate IsHigh(c: Code) { 0xD800 <= c <= 0xDBFF }

  predicate IsLow(c: Code) { 0xDC00 <= c <= 0xDFFF }

  /** No surrogate code points: text that UTF-16 can encode. */
  predicate Scalar(text: Text) {
    forall i :: 0 <= i < |text| ==> !IsHigh(text[i]) && !IsLow(text[i])
  }

  predicate Blank(c: Code) { c == SPACE || c == TAB || c == FF }

  predicate Separator(c: Code) { c == EQUALS || c == COLON || Blank(c) }

  // ----- escaping -----

  function HexDigit(d: int): (c: Code)
    requires 0 <= d < 16
  {
    if d < 10 then 0x30 + d else 0x57 + d
  }

  function HexValue(c: Code): (d: int)
    ensures -1 <= d < 16
  {
    if 0x30 <= c <= 0x39 then c - 0x30
    else if 0x61 <= c <= 0x66 then c - 0x57
    else if 0x41 <= c <= 0x46 then c - 0x37
    else -1
  }

  /** One `\u` escape. */
  function Escape16(u: Code): (e: Text)
    requires u < 0x10000
    ensures |e| == 6 && e[0] == BACKSLASH && e[1] == LOWER_U
  {
    [BACKSLASH, LOWER_U, HexDigit(u / 0x1000), HexDigit(u / 0x100 % 0x10), HexDigit(u / 0x10 % 0x10),
     HexDigit(u % 0x10)]
  }

  /** The UTF-16 code units of a code point. */
  function Units(c: Code): seq<Code> {
    if c < 0x10000 then [c] else [0xD800 + (c - 0x10000) / 0x400, 0xDC00 + (c - 0x10000) % 0x400]
  }

  function EscapeUnits(c: Code): Text {
    if c < 0x10000 then Escape16(c) else Escape16(Units(c)[0]) + Escape16(Units(c)[1])
  }

  function EscapeCode(c: Code, key: bool, first: bool): Text {
    if c == BACKSLASH then [BACKSLASH, BACKSLASH]
    else if c == TAB then [BACKSLASH, 0x74]
    else if c == LF then [BACKSLASH, 0x6E]
    else if c == CR then [BACKSLASH, 0x72]
    else if c == FF then [BACKSLASH, 0x66]
    else if c < 0x20 || c > 0x7E then EscapeUnits(c)
    else if (key && (c == SPACE || c == EQUALS || c == COLON)) || (first && (c == SPACE || c == HASH || c == BANG))
    then [BACKSLASH, c]
    else [c]
  }

  function Escaped(text: Text, key: bool, first: bool): Text {
    if text == [] then [] else EscapeCode(text[0], key, first) + Escaped(text[1..], key, false)
  }

  /** `_escape_properties`: encoding a lone surrogate fails. */
  function Escape(text: Text, key: bool): Result<Text> {
    if Scalar(text) then Ok(Escaped(text, key, true)) else Err(LoneSurrogate)
  }

  lemma EscapedStep(before: Text, text: Text, index: nat, key: bool)
    requires index < |text|
    ensures var c := EscapeCode(text[index], key, index == 0);
            before + Escaped(text[index..], key, index == 0) == before + c + Escaped(text[index + 1..], key, false)
  {
    hide EscapeCode;
    var c, rest := EscapeCode(text[index], key, index == 0), Escaped(text[index + 1..], key, false);
    assert text[index..][1..] == text[index + 1..];
    assert before + (c + rest) == before + c + rest;
  }

  lemma EscapedEnds(before: Text, key: bool, first: bool)
    ensures before + Escaped([], key, first) == before && [] + before == before
  {
  }

  method EscapeProperties(text: Text, key: bool) returns (r: Result<Text>)
    ensures r == Escape(text, key)
  {
    hide EscapeCode, Escaped;
    var escaped: Text := [];
    assert text[0..] == text;
    EscapedEnds(Escaped(text, key, true), key, true);
    for index := 0 to |text|
      invariant Scalar(text[..index])
      invariant Escaped(text, key, true) == escaped + Escaped(text[index..], key, index == 0)
    {
      var c := text[index];
      if IsHigh(c) || IsLow(c) {
        return Err(LoneSurrogate);
      }
      EscapedStep(escaped, text, index, key);
      escaped := escaped + EscapeCode(c, key, index == 0);
    }
    assert text[..|text|] == text && text[|text|..] == [];
    EscapedEnds(escaped, key, |text| == 0);
    return Ok(escaped);
  }

  // ----- unescaping -----

  predicate HexDigits(text: Text) {
    |text| == 4 && forall i :: 0 <= i < 4 ==> HexValue(text[i]) >= 0
  }

  function HexNumber(text: Text): (c: Code)
    requires HexDigits(text)
  {
    HexValue(text[0]) * 0x1000 + HexValue(text[1]) * 0x100 + HexValue(text[2]) * 0x10 + HexValue(text[3])
  }

  function Unletter(c: Code): Code {
    if c == 0x74 then TAB else if c == 0x6E then LF else if c == 0x72 then CR else if c == 0x66 then FF else c
  }

  function Min(a: int, b: int): int { if a < b then a else b }

  function Prepend(head: seq<Code>, r: Result<seq<Code>>): Result<seq<Code>> {
    if r.Ok? then Ok(head + r.value) else r
  }

  lemma PrependTwice(a: seq<Code>, b: seq<Code>, r: Result<seq<Code>>)
    ensures Prepend(a, Prepend(b, r)) == Prepend(a + b, r)
    ensures Prepend([], r) == r
  {
    if r.Ok? {
      assert a + (b + r.value) == a + b + r.value;
      assert [] + r.value == r.value;
    }
  }

  /** Escapes resolved, surrogates not yet joined. */
  function Unescaped(text: Text): Result<seq<Code>>
    decreases |text|
  {
    if text == [] then Ok([])
    else if text[0] != BACKSLASH || |text| == 1 then Prepend([text[0]], Unescaped(text[1..]))
    else if text[1] != LOWER_U then Prepend([Unletter(text[1])], Unescaped(text[2..]))
    else
      var digits := text[2..Min(6, |text|)];
      if HexDigits(digits) then Prepend([HexNumber(digits)], Unescaped(text[6..])) else Err(MalformedEscape)
  }

  /** Surrogate pairs joined; a lone surrogate cannot be decoded. */
  function Rejoined(codes: seq<Code>): Result<Text>
    decreases |codes|
  {
    if codes == [] then Ok([])
    else if IsHigh(codes[0]) then
      if |codes| > 1 && IsLow(codes[1])
      then Prepend([0x10000 + (codes[0] - 0xD800) * 0x400 + (codes[1] - 0xDC00)], Rejoined(codes[2..]))
      else Err(LoneSurrogate)
    else if IsLow(codes[0]) then Err(LoneSurrogate)
    else Prepend([codes[0]], Rejoined(codes[1..]))
  }

  /** `_unescape_properties` */
  function Unescape(text: Text): Result<Text> {
    var codes := Unescaped(text);
    if codes.Ok? then Rejoined(codes.value) else codes
  }

  lemma SliceOfTail(text: Text, index: nat, a: nat, b: nat)
    requires a <= b && index + b <= |text|
    ensures text[index..][a..b] == text[index + a..index + b]
  {
  }

  method UnescapeProperties(text: Text) returns (r: Result<Text>)
    ensures r == Unescape(text)
  {
    var result: seq<Code> := [];
    var index := 0;
    assert text[0..] == text;
    PrependTwice([], [], Unescaped(text));
    while index < |text|
      invariant 0 <= index <= |text|
      invariant Unescaped(text) == Prepend(result, Unescaped(text[index..]))
    {
      var rest := text[index..];
      var c := text[index];
      if c != BACKSLASH || index + 1 == |text| {
        assert rest[1..] == text[index + 1..];
        PrependTwice(result, [c], Unescaped(text[index + 1..]));
        result := result + [c];
        index := index + 1;
        continue;
      }
      var escaped := text[index + 1];
      if escaped == LOWER_U {
        var digits := text[index + 2..Min(index + 6, |text|)];
        SliceOfTail(text, index, 2, Min(6, |rest|));
        if !HexDigits(digits) {
          return Err(MalformedEscape);
        }
        assert rest[6..] == text[index + 6..];
        PrependTwice(result, [HexNumber(digits)], Unescaped(text[index + 6..]));
        result := result + [HexNumber(digits)];
        index := index + 6;
        continue;
      }
      assert rest[2..] == text[index + 2..];
      PrependTwice(result, [Unletter(escaped)], Unescaped(text[index + 2..]));
      result := result + [Unletter(escaped)];
      index := index + 2;
    }
    assert text[index..] == [] && result + [] == result;
    return Rejoined(result);
  }

  // ----- lines -----

  predicate LineBreak(c: Code) {
    0x0A <= c <= 0x0D || 0x1C <= c <= 0x1E || c == 0x85 || c == 0x2028 || c == 0x2029
  }

  /** Where the first line ends, and where the next one starts. */
  function LineEnd(text: Text): (n: nat)
    ensures n <= |text|
  {
    if text == [] || LineBreak(text[0]) then 0 else 1 + LineEnd(text[1..])
  }

  /** `str.splitlines` */
  function SplitLines(text: Text): seq<Text>
    decreases |text|
  {
    if text == [] then []
    else
      var n := LineEnd(text);
      if n == |text| then [text]
      else
        var next := if text[n] == CR && n + 1 < |text| && text[n + 1] == LF then n + 2 else n + 1;
        [text[..n]] + SplitLines(text[next..])
  }

  /** `lstrip(" \t\f")` */
  function Stripped(line: Text): Text {
    if line != [] && Blank(line[0]) then Stripped(line[1..]) else line
  }

  function TrailingBackslashes(line: Text): nat {
    if line != [] && line[|line| - 1] == BACKSLASH then 1 + TrailingBackslashes(line[..|line| - 1]) else 0
  }

  predicate Continues(line: Text) { TrailingBackslashes(line) % 2 == 1 }

  /** The length of the key: up to the first separator that is not escaped. */
  function KeyEnd(line: Text): (n: nat)
    decreases |line|
  {
    if line == [] then 0
    else if line[0] == BACKSLASH then if |line| == 1 then 2 else 2 + KeyEnd(line[2..])
    else if Separator(line[0]) then 0
    else 1 + KeyEnd(line[1..])
  }

  function SplitAt(line: Text, n: nat): (Text, Text) {
    var k := Min(n, |line|);
    var rest := line[k..];
    var value :=
      if rest != [] && Blank(rest[0]) then
        var after := Stripped(rest);
        if after != [] && (after[0] == EQUALS || after[0] == COLON) then after[1..] else after
      else if rest != [] && (rest[0] == EQUALS || rest[0] == COLON) then rest[1..]
      else rest;
    (line[..k], Stripped(value))
  }

  /** `_split_property` */
  method SplitProperty(line: Text) returns (key: Text, value: Text)
    ensures (key, value) == SplitAt(line, KeyEnd(line))
  {
    var index := 0;
    assert line[0..] == line;
    while index < |line|
      invariant 0 <= index <= |line| + 1
      invariant index <= |line| ==> KeyEnd(line) == index + KeyEnd(line[index..])
      invariant index > |line| ==> KeyEnd(line) == index
      decreases |line| + 1 - index
    {
      var rest := line[index..];
      if line[index] == BACKSLASH {
        assert index + 1 < |line| ==> rest[2..] == line[index + 2..];
        index := index + 2;
        continue;
      }
      if Separator(line[index]) {
        break;
      }
      assert rest[1..] == line[index + 1..];
      index := index + 1;
    }
    var k := Min(index, |line|);
    key := line[..k];
    var rest := line[k..];
    if rest != [] && Blank(rest[0]) {
      rest := Stripped(rest);
      if rest != [] && (rest[0] == EQUALS || rest[0] == COLON) {
        rest := rest[1..];
      }
    } else if rest != [] && (rest[0] == EQUALS || rest[0] == COLON) {
      rest := rest[1..];
    }
    value := Stripped(rest);
  }

  // ----- parsing -----

  datatype Logical = Logical(line: Text, rest: seq<Text>)

  /** A line with its continuation lines. */
  function Joined(line: Text, rest: seq<Text>): (r: Logical)
    ensures |r.rest| <= |rest|
    decreases |rest|
  {
    if !Continues(line) then Logical(line, rest)
    else
      var line := line[..|line| - 1];
      if rest == [] then Logical(line, []) else Joined(line + Stripped(rest[0]), rest[1..])
  }

  predicate Skipped(line: Text) { line == [] || line[0] == HASH || line[0] == BANG }

  function Assigned(values: map<Text, Text>, line: Text): Result<map<Text, Text>> {
    var (k, v) := SplitAt(line, KeyEnd(line));
    var value := Unescape(v);
    var key := Unescape(k);
    if value.Err? then Err(value.error) else if key.Err? then Err(key.error) else Ok(values[key.value := value.value])
  }

  function ParsedLines(lines: seq<Text>, values: map<Text, Text>): Result<map<Text, Text>>
    decreases |lines|
  {
    if lines == [] then Ok(values)
    else
      var line := Stripped(lines[0]);
      if Skipped(line) then ParsedLines(lines[1..], values)
      else
        var l := Joined(line, lines[1..]);
        var next := Assigned(values, l.line);
        if next.Err? then next else ParsedLines(l.rest, next.value)
  }

  function Parsed(text: Text): Result<map<Text, Text>> { ParsedLines(SplitLines(text), map[]) }

  method JoinContinuations(first: Text, lines: seq<Text>, start: nat) returns (line: Text, index: nat)
    requires start <= |lines|
    ensures start <= index <= |lines| && Joined(first, lines[start..]) == Logical(line, lines[index..])
  {
    hide Stripped, Continues;
    line, index := first, start;
    while Continues(line)
      invariant start <= index <= |lines|
      invariant Joined(line, lines[index..]) == Joined(first, lines[start..])
      decreases |lines| - index
    {
      ghost var rest := lines[index..];
      assert line != [] by { ContinuesLong(line); }
      line := line[..|line| - 1];
      if index == |lines| {
        break;
      }
      line := line + Stripped(lines[index]);
      assert rest[1..] == lines[index + 1..];
      index := index + 1;
    }
  }

  lemma ContinuesLong(line: Text)
    ensures Continues(line) ==> line != []
  {
  }

  method ParseProperties(text: Text) returns (r: Result<map<Text, Text>>)
    ensures r == Parsed(text)
  {
    hide Joined, Stripped, Continues, Unescape, KeyEnd, SplitAt, Skipped, SplitLines;
    var values: map<Text, Text> := map[];
    var lines := SplitLines(text);
    var index := 0;
    assert lines[0..] == lines;
    while index < |lines|
      invariant 0 <= index <= |lines|
      invariant ParsedLines(lines[index..], values) == Parsed(text)
      decreases |lines| - index
    {
      ghost var start := lines[index..];
      var line := Stripped(lines[index]);
      index := index + 1;
      assert start[1..] == lines[index..];
      if Skipped(line) {
        continue;
      }
      ghost var logical := Joined(line, lines[index..]);
      line, index := JoinContinuations(line, lines, index);
      var key, value := SplitProperty(line);
      var v := UnescapeProperties(value);
      if v.Err? {
        return Err(v.error);
      }
      var k := UnescapeProperties(key);
      if k.Err? {
        return Err(k.error);
      }
      values := values[k.value := v.value];
    }
    return Ok(values);
  }

  // ----- printing -----

  predicate Less(a: Text, b: Text) {
    b != [] && (a == [] || a[0] < b[0] || (a[0] == b[0] && Less(a[1..], b[1..])))
  }

  predicate Ascending(items: seq<Entry>) {
    forall i, j :: 0 <= i < j < |items| ==> Less(items[i].key, items[j].key)
  }

  /** `items` are the items of `values`, sorted by key. */
  ghost predicate Listing(items: seq<Entry>, values: map<Text, Text>) {
    && Ascending(items)
    && (forall i :: 0 <= i < |items| ==> items[i].key in values && values[items[i].key] == items[i].value)
    && (forall k :: k in values ==> exists i :: 0 <= i < |items| && items[i].key == k)
  }

  function Codes(text: string): (codes: Text)
    ensures |codes| == |text|
  {
    seq(|text|, i requires 0 <= i < |text| => if text[i] as int < 0x110000 then text[i] as int else 0)
  }

  const HEADER := Codes("# Written by ") + Codes("scripts/stage") + Codes("_jvm_natives.py") + Codes("; do not edit.")

  function Line(e: Entry): Text {
    Escaped(e.key, true, true) + [EQUALS] + Escaped(e.value, false, true)
  }

  function Lines(items: seq<Entry>): Text {
    if items == [] then [] else Line(items[0]) + [LF] + Lines(items[1..])
  }

  predicate Printable(items: seq<Entry>) {
    forall i :: 0 <= i < |items| ==> Scalar(items[i].key) && Scalar(items[i].value)
  }

  /** `properties_text` for the sorted items. */
  function Printed(items: seq<Entry>): Result<Text> {
    if Printable(items) then Ok(HEADER + [LF] + Lines(items)) else Err(LoneSurrogate)
  }

  // ----- unescaping undoes escaping -----

  lemma HexInverse(d: int)
    requires 0 <= d < 16
    ensures HexValue(HexDigit(d)) == d
  {
  }

  lemma UnescapeHex(digits: Text, rest: Text)
    requires HexDigits(digits)
    ensures Unescaped([BACKSLASH, LOWER_U] + digits + rest) == Prepend([HexNumber(digits)], Unescaped(rest))
  {
    hide HexDigits, HexNumber;
    var text := [BACKSLASH, LOWER_U] + digits + rest;
    assert |digits| == 4 by { FourDigits(digits); }
    assert text[2..Min(6, |text|)] == digits && text[6..] == rest;
  }

  lemma FourDigits(digits: Text)
    requires HexDigits(digits)
    ensures |digits| == 4
  {
  }

  lemma HexParts(u: Code)
    requires u < 0x10000
    ensures var digits := Escape16(u)[2..]; HexDigits(digits) && HexNumber(digits) == u
  {
    hide HexDigit, HexValue;
    var a, b, c, d := u / 0x1000, u / 0x100 % 0x10, u / 0x10 % 0x10, u % 0x10;
    HexInverse(a);
    HexInverse(b);
    HexInverse(c);
    HexInverse(d);
    HexSum(u);
  }

  lemma HexSum(u: nat)
    requires u < 0x10000
    ensures u == u / 0x1000 * 0x1000 + u / 0x100 % 0x10 * 0x100 + u / 0x10 % 0x10 * 0x10 + u % 0x10
  {
    var a, b := u / 0x10, u / 0x100;
    assert u == a * 0x10 + u % 0x10;
    assert a == b * 0x10 + a % 0x10 by { assert a / 0x10 == b; }
    assert b == u / 0x1000 * 0x10 + b % 0x10 by { assert b / 0x10 == u / 0x1000; }
  }

  lemma UnescapeUnit(u: Code, rest: Text)
    requires u < 0x10000
    ensures Unescaped(Escape16(u) + rest) == Prepend([u], Unescaped(rest))
  {
    hide Escape16, HexDigits, HexNumber, Unescaped;
    HexParts(u);
    UnescapeHex(Escape16(u)[2..], rest);
    assert Escape16(u) == [BACKSLASH, LOWER_U] + Escape16(u)[2..];
  }

  lemma UnescapePlain(c: Code, rest: Text)
    requires c != BACKSLASH
    ensures Unescaped([c] + rest) == Prepend([c], Unescaped(rest))
  {
    assert ([c] + rest)[1..] == rest;
  }

  lemma UnescapeLetter(c: Code, rest: Text)
    requires c != LOWER_U
    ensures Unescaped([BACKSLASH, c] + rest) == Prepend([Unletter(c)], Unescaped(rest))
  {
    assert ([BACKSLASH, c] + rest)[2..] == rest;
  }

  lemma UnescapeUnits(c: Code, rest: Text)
    requires !IsHigh(c) && !IsLow(c)
    ensures Unescaped(EscapeUnits(c) + rest) == Prepend(Units(c), Unescaped(rest))
  {
    hide Escape16, Unescaped, Prepend;
    var u := Units(c);
    if c < 0x10000 {
      UnescapeUnit(c, rest);
    } else {
      UnescapeUnit(u[0], Escape16(u[1]) + rest);
      UnescapeUnit(u[1], rest);
      assert Escape16(u[0]) + Escape16(u[1]) + rest == Escape16(u[0]) + (Escape16(u[1]) + rest);
      PrependTwice([u[0]], [u[1]], Unescaped(rest));
      assert [u[0]] + [u[1]] == u;
    }
  }

  lemma UnescapeCode(c: Code, key: bool, first: bool, rest: Text)
    requires !IsHigh(c) && !IsLow(c)
    ensures Unescaped(EscapeCode(c, key, first) + rest) == Prepend(Units(c), Unescaped(rest))
  {
    hide EscapeUnits, Unescaped, Prepend;
    var e := EscapeCode(c, key, first);
    if c == BACKSLASH || c == TAB || c == LF || c == CR || c == FF {
      UnescapeLetter(e[1], rest);
    } else if c < 0x20 || c > 0x7E {
      UnescapeUnits(c, rest);
    } else {
      UnescapePlain(c, rest);
      if e != [c] { UnescapeLetter(c, rest); }
    }
  }

  function AllUnits(text: Text): seq<Code> {
    if text == [] then [] else Units(text[0]) + AllUnits(text[1..])
  }

  lemma {:induction false} UnescapedEscaped(text: Text, key: bool, first: bool)
    requires Scalar(text)
    ensures Unescaped(Escaped(text, key, first)) == Ok(AllUnits(text))
  {
    hide EscapeCode, Units;
    if text != [] {
      UnescapeCode(text[0], key, first, Escaped(text[1..], key, false));
      UnescapedEscaped(text[1..], key, false);
    }
  }

  lemma RejoinedUnit(c: Code, rest: seq<Code>)
    requires !IsHigh(c) && !IsLow(c)
    ensures Rejoined(Units(c) + rest) == Prepend([c], Rejoined(rest))
  {
    hide Prepend;
    var codes := Units(c) + rest;
    if c < 0x10000 {
      assert codes[1..] == rest;
    } else {
      assert codes[2..] == rest;
      assert codes[0] == 0xD800 + (c - 0x10000) / 0x400 && codes[1] == 0xDC00 + (c - 0x10000) % 0x400;
    }
  }

  lemma {:induction false} RejoinedUnits(text: Text)
    requires Scalar(text)
    ensures Rejoined(AllUnits(text)) == Ok(text)
  {
    hide Units, IsHigh, IsLow;
    if text != [] {
      RejoinedUnits(text[1..]);
      RejoinedUnit(text[0], AllUnits(text[1..]));
      assert [text[0]] + text[1..] == text;
    }
  }

  /** The round trip of one key or value. */
  lemma UnescapeEscape(text: Text, key: bool)
    requires Escape(text, key).Ok?
    ensures Unescape(Escape(text, key).value) == Ok(text)
  {
    UnescapedEscaped(text, key, true);
    RejoinedUnits(text);
  }

  // ----- a printed line is read back as one logical line -----

  predicate Visible(text: Text) {
    forall i :: 0 <= i < |text| ==> 0x20 <= text[i] <= 0x7E
  }

  lemma HexVisible(d: int)
    requires 0 <= d < 16
    ensures 0x20 <= HexDigit(d) <= 0x7E && HexDigit(d) != BACKSLASH && !Separator(HexDigit(d))
  {
  }

  lemma UnitVisible(u: Code)
    requires u < 0x10000
    ensures Visible(Escape16(u))
    ensures forall i :: 2 <= i < 6 ==> Escape16(u)[i] != BACKSLASH && !Separator(Escape16(u)[i])
  {
    hide HexDigit, Separator;
    HexVisible(u / 0x1000);
    HexVisible(u / 0x100 % 0x10);
    HexVisible(u / 0x10 % 0x10);
    HexVisible(u % 0x10);
  }

  lemma CodeVisible(c: Code, key: bool, first: bool)
    ensures Visible(EscapeCode(c, key, first))
  {
    hide Escape16;
    if c < 0x10000 {
      UnitVisible(c);
    } else {
      UnitVisible(Units(c)[0]);
      UnitVisible(Units(c)[1]);
    }
  }

  lemma {:induction false} EscapedVisible(text: Text, key: bool, first: bool)
    ensures Visible(Escaped(text, key, first))
  {
    hide EscapeCode;
    if text != [] {
      CodeVisible(text[0], key, first);
      EscapedVisible(text[1..], key, false);
    }
  }

  /** Where the escape of one code point ends, an even number of backslashes ends. */
  lemma CodeBackslashes(before: Text, c: Code, key: bool, first: bool)
    requires TrailingBackslashes(before) % 2 == 0
    ensures TrailingBackslashes(before + EscapeCode(c, key, first)) % 2 == 0
  {
    hide Escape16;
    var e := EscapeCode(c, key, first);
    if c < 0x10000 { UnitVisible(c); } else { UnitVisible(Units(c)[1]); }
    var text := before + e;
    assert e != [];
    if c == BACKSLASH {
      assert text[..|text| - 1][..|before|] == before;
      assert text[|text| - 1] == BACKSLASH && text[..|text| - 1][|before|] == BACKSLASH;
      assert TrailingBackslashes(text) == 1 + TrailingBackslashes(text[..|text| - 1]);
    } else {
      assert text[|text| - 1] == e[|e| - 1] != BACKSLASH;
    }
  }

  lemma {:induction false} EscapedBackslashes(before: Text, text: Text, key: bool, first: bool)
    requires TrailingBackslashes(before) % 2 == 0
    ensures TrailingBackslashes(before + Escaped(text, key, first)) % 2 == 0
    decreases |text|
  {
    hide EscapeCode, TrailingBackslashes;
    if text == [] {
      assert before + [] == before;
    } else {
      var e := EscapeCode(text[0], key, first);
      CodeBackslashes(before, text[0], key, first);
      EscapedBackslashes(before + e, text[1..], key, false);
      assert before + e + Escaped(text[1..], key, false) == before + (e + Escaped(text[1..], key, false));
    }
  }

  lemma UnitKeyEnd(u: Code, rest: Text)
    requires u < 0x10000
    ensures KeyEnd(Escape16(u) + rest) == 6 + KeyEnd(rest)
  {
    hide Separator;
    var text := Escape16(u) + rest;
    UnitVisible(u);
    hide Escape16;
    assert text[2..][1..] == text[3..] && text[3..][1..] == text[4..] && text[4..][1..] == text[5..]
           && text[5..][1..] == rest;
    assert KeyEnd(text) == 2 + KeyEnd(text[2..]);
    assert KeyEnd(text[2..]) == 1 + KeyEnd(text[3..]);
    assert KeyEnd(text[3..]) == 1 + KeyEnd(text[4..]);
    assert KeyEnd(text[4..]) == 1 + KeyEnd(text[5..]);
  }

  lemma CodeKeyEnd(c: Code, first: bool, rest: Text)
    ensures KeyEnd(EscapeCode(c, true, first) + rest) == |EscapeCode(c, true, first)| + KeyEnd(rest)
  {
    var e := EscapeCode(c, true, first);
    if |e| == 12 {
      var u := Units(c);
      UnitKeyEnd(u[0], Escape16(u[1]) + rest);
      UnitKeyEnd(u[1], rest);
      assert Escape16(u[0]) + Escape16(u[1]) + rest == Escape16(u[0]) + (Escape16(u[1]) + rest);
    } else if |e| == 6 {
      UnitKeyEnd(c, rest);
    } else if |e| == 2 {
      assert (e + rest)[2..] == rest;
    } else {
      assert (e + rest)[1..] == rest;
    }
  }

  lemma {:induction false} EscapedKeyEnd(key: Text, first: bool, rest: Text)
    requires rest != [] && rest[0] == EQUALS
    ensures KeyEnd(Escaped(key, true, first) + rest) == |Escaped(key, true, first)|
    decreases |key|
  {
    hide EscapeCode;
    if key == [] {
      assert [] + rest == rest;
    } else {
      var e, more := EscapeCode(key[0], true, first), Escaped(key[1..], true, false);
      CodeKeyEnd(key[0], first, more + rest);
      EscapedKeyEnd(key[1..], false, rest);
      assert e + more + rest == e + (more + rest);
    }
  }

  lemma FirstCode(text: Text, key: bool)
    requires text != []
    ensures var e := Escaped(text, key, true); e != [] && !Blank(e[0]) && e[0] != HASH && e[0] != BANG
  {
    var e := EscapeCode(text[0], key, true);
    assert e != [] && Escaped(text, key, true)[0] == e[0];
  }

  lemma LineFacts(e: Entry)
    ensures Visible(Line(e)) && Line(e) != [] && !Blank(Line(e)[0]) && !Skipped(Line(e)) && !Continues(Line(e))
    ensures SplitAt(Line(e), KeyEnd(Line(e))) == (Escaped(e.key, true, true), Escaped(e.value, false, true))
  {
    hide Escaped, KeyEnd, TrailingBackslashes;
    var k, v := Escaped(e.key, true, true), Escaped(e.value, false, true);
    EscapedVisible(e.key, true, true);
    EscapedVisible(e.value, false, true);
    if e.key != [] { FirstCode(e.key, true); } else { EscapedNothing(true); }
    if e.value != [] { FirstCode(e.value, false); } else { EscapedNothing(false); }
    assert TrailingBackslashes(k + [EQUALS]) == 0 by { EqualsLast(k); }
    EscapedBackslashes(k + [EQUALS], e.value, false, true);
    assert Line(e) == k + ([EQUALS] + v);
    EscapedKeyEnd(e.key, true, [EQUALS] + v);
    assert Line(e)[|k|..] == [EQUALS] + v && Line(e)[..|k|] == k && ([EQUALS] + v)[1..] == v;
  }

  lemma EscapedNothing(key: bool)
    ensures Escaped([], key, true) == []
  {
  }

  lemma EqualsLast(k: Text)
    ensures TrailingBackslashes(k + [EQUALS]) == 0
  {
  }

  lemma {:induction false} VisibleLineEnd(line: Text, rest: Text)
    requires Visible(line) && rest != [] && LineBreak(rest[0])
    ensures LineEnd(line + rest) == |line|
    decreases |line|
  {
    if line == [] {
      assert line + rest == rest;
    } else {
      assert (line + rest)[1..] == line[1..] + rest;
      VisibleLineEnd(line[1..], rest);
    }
  }

  lemma SplitLine(line: Text, rest: Text)
    requires Visible(line)
    ensures SplitLines(line + [LF] + rest) == [line] + SplitLines(rest)
  {
    var text := line + [LF] + rest;
    assert text == line + ([LF] + rest);
    VisibleLineEnd(line, [LF] + rest);
    assert text[..|line|] == line && text[|line| + 1..] == rest && text[|line|] == LF;
  }

  // ----- the round trip -----

  function Updated(values: map<Text, Text>, items: seq<Entry>): map<Text, Text>
    decreases |items|
  {
    if items == [] then values else Updated(values[items[0].key := items[0].value], items[1..])
  }

  lemma LineAssigned(values: map<Text, Text>, e: Entry)
    requires Scalar(e.key) && Scalar(e.value)
    ensures Assigned(values, Line(e)) == Ok(values[e.key := e.value])
  {
    hide Line, SplitAt, KeyEnd, Unescape, Escaped;
    LineFacts(e);
    UnescapeEscape(e.key, true);
    UnescapeEscape(e.value, false);
  }

  lemma {:induction false} LinesParsed(values: map<Text, Text>, items: seq<Entry>)
    requires Printable(items)
    ensures ParsedLines(SplitLines(Lines(items)), values) == Ok(Updated(values, items))
    decreases |items|
  {
    hide Line, Assigned, SplitLines, Scalar;
    if items == [] {
      assert SplitLines([]) == [] by { NoLines(); }
    } else {
      var line, rest := Line(items[0]), SplitLines(Lines(items[1..]));
      LineFacts(items[0]);
      SplitLine(line, Lines(items[1..]));
      var lines := SplitLines(Lines(items));
      assert lines == [line] + rest && lines[1..] == rest;
      LineAssigned(values, items[0]);
      LinesParsed(values[items[0].key := items[0].value], items[1..]);
    }
  }

  lemma NoLines()
    ensures SplitLines([]) == []
  {
  }

  lemma {:induction false} UpdatedAt(values: map<Text, Text>, items: seq<Entry>, k: Text)
    requires forall i, j :: 0 <= i < j < |items| ==> items[i].key != items[j].key
    ensures k in Updated(values, items) <==> k in values || exists i :: 0 <= i < |items| && items[i].key == k
    ensures forall i :: 0 <= i < |items| && items[i].key == k ==> Updated(values, items)[k] == items[i].value
    ensures k in values && (forall i :: 0 <= i < |items| ==> items[i].key != k) ==>
              Updated(values, items)[k] == values[k]
    decreases |items|
  {
    if items != [] {
      var values' := values[items[0].key := items[0].value];
      UpdatedAt(values', items[1..], k);
      assert forall i :: 1 <= i < |items| ==> items[i] == items[1..][i - 1];
    }
  }

  lemma {:induction false} LessIrreflexive(a: Text)
    ensures !Less(a, a)
  {
    if a != [] { LessIrreflexive(a[1..]); }
  }

  lemma ListingUpdated(items: seq<Entry>, values: map<Text, Text>)
    requires Listing(items, values)
    ensures Updated(map[], items) == values
  {
    hide Less;
    forall i, j | 0 <= i < j < |items| ensures items[i].key != items[j].key { LessIrreflexive(items[i].key); }
    forall k ensures k in Updated(map[], items) <==> k in values
             ensures k in values ==> k in Updated(map[], items) && Updated(map[], items)[k] == values[k]
    {
      UpdatedAt(map[], items, k);
    }
  }

  lemma HeaderFacts()
    ensures Visible(HEADER) && HEADER != [] && HEADER[0] == HASH
  {
    assert Visible(Codes("# Written by "));
    assert Visible(Codes("scripts/stage"));
    assert Visible(Codes("_jvm_natives.py"));
    assert Visible(Codes("; do not edit."));
    assert Codes("# Written by ")[0] == 0x23;
  }

  /** Whatever can be printed is parsed back, and only lone surrogates cannot be printed. */
  lemma RoundTrip(items: seq<Entry>, values: map<Text, Text>)
    requires Listing(items, values)
    ensures Printed(items).Ok? <==> forall k :: k in values ==> Scalar(k) && Scalar(values[k])
    ensures Printed(items).Ok? ==> Parsed(Printed(items).value) == Ok(values)
  {
    hide SplitLines, ParsedLines, Less, Scalar, Lines;
    if Printable(items) {
      HeaderFacts();
      SplitLine(HEADER, Lines(items));
      SkipHeader(SplitLines(Lines(items)));
      LinesParsed(map[], items);
      ListingUpdated(items, values);
    }
    assert (forall k :: k in values ==> Scalar(k) && Scalar(values[k])) ==> Printable(items);
    if Printable(items) {
      forall k | k in values ensures Scalar(k) && Scalar(values[k]) {
        var i :| 0 <= i < |items| && items[i].key == k;
        assert values[items[i].key] == items[i].value;
      }
    }
  }

  lemma SkipHeader(lines: seq<Text>)
    ensures ParsedLines([HEADER] + lines, map[]) == ParsedLines(lines, map[])
  {
    HeaderFacts();
    hide Codes, HEADER;
    assert ([HEADER] + lines)[1..] == lines;
    assert Stripped(HEADER) == HEADER;
  }

  // ----- printing is deterministic -----

  lemma {:induction false} LessTotal(a: Text, b: Text)
    ensures a == b || Less(a, b) || Less(b, a)
    ensures !(Less(a, b) && Less(b, a))
  {
    if a != [] && b != [] {
      LessTotal(a[1..], b[1..]);
      if a[0] == b[0] && a[1..] == b[1..] {
        assert a == [a[0]] + a[1..] && b == [b[0]] + b[1..];
      }
    }
  }

  lemma {:induction false} LessTrans(a: Text, b: Text, c: Text)
    requires Less(a, b) && Less(b, c)
    ensures Less(a, c)
  {
    if a != [] && a[0] == b[0] && b[0] == c[0] { LessTrans(a[1..], b[1..], c[1..]); }
  }

  /** The sorted items of a map are unique, so equal maps print equal text. */
  lemma {:induction false} ListingUnique(a: seq<Entry>, b: seq<Entry>, values: map<Text, Text>)
    requires Listing(a, values) && Listing(b, values)
    ensures a == b
    decreases |a|
  {
    hide Less;
    if a == [] || b == [] {
      SameEmpty(a, b, values);
      SameEmpty(b, a, values);
    } else {
      SmallestFirst(a, b, values);
      SmallestFirst(b, a, values);
      LessTotal(a[0].key, b[0].key);
      assert a[0] == b[0];
      var rest := values - {a[0].key};
      ListingRest(a, values);
      ListingRest(b, values);
      ListingUnique(a[1..], b[1..], rest);
      assert a == [a[0]] + a[1..] && b == [b[0]] + b[1..];
    }
  }

  lemma SameEmpty(a: seq<Entry>, b: seq<Entry>, values: map<Text, Text>)
    requires Listing(a, values) && Listing(b, values)
    ensures a != [] ==> b != []
  {
    hide Less;
    assert a != [] ==> a[0].key in values;
  }

  lemma SmallestFirst(a: seq<Entry>, b: seq<Entry>, values: map<Text, Text>)
    requires a != [] && b != [] && Listing(a, values) && Listing(b, values)
    ensures !Less(b[0].key, a[0].key)
  {
    hide Less;
    assert b[0].key in values;
    var i :| 0 <= i < |a| && a[i].key == b[0].key;
    if i > 0 { LessTotal(a[0].key, a[i].key); } else { LessIrreflexive(a[0].key); }
  }

  lemma ListingRest(a: seq<Entry>, values: map<Text, Text>)
    requires a != [] && Listing(a, values)
    ensures Listing(a[1..], values - {a[0].key})
  {
    hide Less;
    forall i | 0 < i < |a| ensures a[i].key != a[0].key { LessIrreflexive(a[0].key); }
    forall k | k in values - {a[0].key} ensures exists i :: 0 <= i < |a[1..]| && a[1..][i].key == k {
      var i :| 0 <= i < |a| && a[i].key == k;
      assert a[1..][i - 1].key == k;
    }
  }

  // ----- the whole printer -----

  function Insert(items: seq<Entry>, e: Entry): seq<Entry> {
    if items == [] || Less(e.key, items[0].key) then [e] + items else [items[0]] + Insert(items[1..], e)
  }

  lemma {:induction false} InsertMembers(items: seq<Entry>, e: Entry)
    ensures forall x :: x in Insert(items, e) <==> x in items || x == e
  {
    hide Less;
    if items != [] && !Less(e.key, items[0].key) {
      InsertMembers(items[1..], e);
      assert forall x :: x in items <==> x == items[0] || x in items[1..];
    }
  }

  lemma {:induction false} InsertAscending(items: seq<Entry>, e: Entry)
    requires Ascending(items) && forall i :: 0 <= i < |items| ==> items[i].key != e.key
    ensures Ascending(Insert(items, e))
  {
    hide Less;
    var r := Insert(items, e);
    if items != [] && Less(e.key, items[0].key) {
      forall i | 0 < i < |items| ensures Less(e.key, items[i].key) { LessTrans(e.key, items[0].key, items[i].key); }
    } else if items != [] {
      LessTotal(e.key, items[0].key);
      InsertAscending(items[1..], e);
      InsertMembers(items[1..], e);
      forall i | 0 < i < |r| ensures Less(items[0].key, r[i].key) {
        assert r[i] == Insert(items[1..], e)[i - 1] && r[i] in Insert(items[1..], e);
        if r[i] != e {
          var k :| 0 <= k < |items[1..]| && items[1..][k] == r[i];
          assert items[k + 1] == r[i];
        }
      }
    }
  }

  lemma InsertListing(items: seq<Entry>, values: map<Text, Text>, e: Entry)
    requires Listing(items, values) && e.key !in values
    ensures Listing(Insert(items, e), values[e.key := e.value])
  {
    hide Less, Insert;
    InsertAscending(items, e);
    InsertMembers(items, e);
    var r, values' := Insert(items, e), values[e.key := e.value];
    forall i | 0 <= i < |r| ensures r[i].key in values' && values'[r[i].key] == r[i].value {
      assert r[i] in r;
    }
    forall k | k in values' ensures exists i :: 0 <= i < |r| && r[i].key == k {
      var x := e;
      if k != e.key {
        var i :| 0 <= i < |items| && items[i].key == k;
        x := items[i];
      }
      assert x in r;
      var i :| 0 <= i < |r| && r[i] == x;
    }
  }

  /** `sorted(values.items())` */
  method SortedItems(values: map<Text, Text>) returns (items: seq<Entry>)
    ensures Listing(items, values)
  {
    hide Less, Insert;
    items := [];
    var rest := values.Keys;
    ghost var done: map<Text, Text> := map[];
    while rest != {}
      invariant rest <= values.Keys && done == values - rest
      invariant Listing(items, done)
      decreases rest
    {
      var k :| k in rest;
      InsertListing(items, done, Entry(k, values[k]));
      items := Insert(items, Entry(k, values[k]));
      done := done[k := values[k]];
      rest := rest - {k};
    }
    assert done == values;
  }

  lemma LinesStep(before: Text, items: seq<Entry>, i: nat)
    requires i < |items|
    ensures before + Lines(items[i..]) == before + (Line(items[i]) + [LF]) + Lines(items[i + 1..])
  {
    hide Line;
    assert items[i..][1..] == items[i + 1..];
    var line, rest := Line(items[i]) + [LF], Lines(items[i + 1..]);
    assert before + (line + rest) == before + line + rest;
  }

  /** The lines one after the other, each with its key and value escaped. */
  method PrintItems(items: seq<Entry>) returns (r: Result<Text>)
    ensures r == Printed(items)
  {
    hide Line, Lines, Escaped, Scalar, HEADER;
    var text := HEADER + [LF];
    assert items[0..] == items;
    for i := 0 to |items|
      invariant Printable(items[..i])
      invariant HEADER + [LF] + Lines(items) == text + Lines(items[i..])
    {
      var key := EscapeProperties(items[i].key, true);
      if key.Err? {
        return Err(LoneSurrogate);
      }
      var value := EscapeProperties(items[i].value, false);
      if value.Err? {
        return Err(LoneSurrogate);
      }
      LineIs(items[i]);
      LinesStep(text, items, i);
      text := text + (key.value + [EQUALS] + value.value + [LF]);
    }
    assert items[..|items|] == items && items[|items|..] == [];
    NoMoreLines(text);
    return Ok(text);
  }

  lemma LineIs(e: Entry)
    ensures Line(e) == Escaped(e.key, true, true) + [EQUALS] + Escaped(e.value, false, true)
  {
  }

  lemma NoMoreLines(text: Text)
    ensures text + Lines([]) == text
  {
  }

  method PropertiesText(values: map<Text, Text>) returns (r: Result<Text>)
    ensures r.Ok? <==> forall k :: k in values ==> Scalar(k) && Scalar(values[k])
    ensures r.Ok? ==> Parsed(r.value) == Ok(values)
    ensures forall items :: Listing(items, values) ==> r == Printed(items)
  {
    hide Printed, Parsed, Listing, Scalar;
    var items := SortedItems(values);
    r := PrintItems(items);
    RoundTrip(items, values);
    forall other | Listing(other, values) ensures r == Printed(other) { ListingUnique(items, other, values); }
  }
}
