/**
 Stamping the release version into the manifest (`stamp_workspace_version.py`). After a
 stamp the manifest reads back with the same anchors, all at the new version, and nothing
 outside their quotes has changed.
 */
module VersionStamp {
  import opened Properties
  import opened Manifest
  import opened Relexing

  // ----- release versions -----

  predicate Digit(c: Code) { 0x30 <= c <= 0x39 }

  predicate IdentifierCode(c: Code) { Digit(c) || 0x41 <= c <= 0x5A || 0x61 <= c <= 0x7A || c == 0x2D }

  const DOT: Code := 0x2E
  const PLUS: Code := 0x2B
  const DASH: Code := 0x2D

  function DigitsEnd(s: Text): (n: nat)
    ensures n <= |s| && forall i :: 0 <= i < n ==> Digit(s[i])
    ensures n < |s| ==> !Digit(s[n])
  {
    if s != [] && Digit(s[0]) then 1 + DigitsEnd(s[1..]) else 0
  }

  function Value(digits: Text): nat
    requires forall i :: 0 <= i < |digits| ==> Digit(digits[i])
  {
    if digits == [] then 0
    else
      assert Digit(digits[|digits| - 1]);
      var last: int := digits[|digits| - 1];
      10 * Value(digits[..|digits| - 1]) + (last - 0x30)
  }

  /** A number without leading zeros that fits 64 bits, at the start of `s`. */
  function NumberEnd(s: Text): (n: Option<nat>)
    ensures n.Some? ==> 0 < n.value <= |s| && forall i :: 0 <= i < n.value ==> Digit(s[i])
  {
    var n := DigitsEnd(s);
    if n == 0 || (s[0] == 0x30 && n > 1) then None else Some(n)
  }

  predicate Fits(digits: Text)
    requires forall i :: 0 <= i < |digits| ==> Digit(digits[i])
  {
    Value(digits) < 0x1_0000_0000_0000_0000
  }

  /** `n.n.n` at the start of `s`: where it ends, and whether every part fits. */
  function CoreEnd(s: Text): (r: Option<(nat, bool)>)
    ensures r.Some? ==> 0 < r.value.0 <= |s| && Digit(s[0])
  {
    var a := NumberEnd(s);
    if a.None? || a.value == |s| || s[a.value] != DOT then None
    else
      var t := s[a.value + 1..];
      var b := NumberEnd(t);
      if b.None? || b.value == |t| || t[b.value] != DOT then None
      else
        var u := t[b.value + 1..];
        var c := NumberEnd(u);
        if c.None? then None
        else
          Some((a.value + b.value + c.value + 2, Fits(s[..a.value]) && Fits(t[..b.value]) && Fits(u[..c.value])))
  }

  lemma CoreCodes(s: Text, i: nat)
    requires CoreEnd(s).Some? && i < CoreEnd(s).value.0
    ensures Digit(s[i]) || s[i] == DOT
  {
    hide DigitsEnd, Fits;
    var a := NumberEnd(s).value;
    var t := s[a + 1..];
    var b := NumberEnd(t).value;
    var u := t[b + 1..];
    if a < i <= a + 1 + b {
      assert s[i] == t[i - a - 1];
    } else if i > a + 1 + b {
      assert s[i] == t[i - a - 1] == u[i - a - b - 2];
    }
  }

  function Release(rest: Text): Option<Text> {
    if rest != [] && rest[0] == 0x61 then Some(Codes("alpha"))
    else if rest != [] && rest[0] == 0x62 then Some(Codes("beta"))
    else if |rest| > 1 && rest[0] == 0x72 && rest[1] == 0x63 then Some(Codes("rc"))
    else None
  }

  function NoZeros(digits: Text): Text {
    if |digits| > 1 && digits[0] == 0x30 then NoZeros(digits[1..]) else digits
  }

  /** A Python prerelease such as `1.2.3rc1`. */
  datatype Prerelease = Prerelease(core: Text, kind: Text, digits: Text)

  function FromPython(s: Text): Option<Prerelease> {
    var core := CoreEnd(s);
    if core.None? then None
    else
      var rest := s[core.value.0..];
      var kind := Release(rest);
      if kind.None? then None
      else
        var digits := rest[if rest[0] == 0x72 then 2 else 1..];
        if digits == []
            || DigitsEnd(digits) != |digits| then None else Some(Prerelease(s[..core.value.0], kind.value, digits))
  }

  /** The longest text that Python's `int` converts. */
  const MAX_INT_DIGITS := 4300

  /** Identifiers separated by dots. */
  predicate Identifiers(s: Text) {
    && s != [] && s[0] != DOT && s[|s| - 1] != DOT
    && (forall i :: 0 <= i < |s| ==> IdentifierCode(s[i]) || s[i] == DOT)
    && forall i :: 0 <= i < |s| - 1 ==> !(s[i] == DOT && s[i + 1] == DOT)
  }

  function DotEnd(s: Text): (n: nat)
    ensures n <= |s|
  {
    if s == [] || s[0] == DOT then 0 else 1 + DotEnd(s[1..])
  }

  /** No numeric identifier has a leading zero. */
  predicate Canonical(s: Text)
    decreases |s|
  {
    var n := DotEnd(s);
    && !(n > 1 && s[0] == 0x30 && DigitsEnd(s[..n]) == n)
    && (n == |s| || Canonical(s[n + 1..]))
  }

  function PlusEnd(s: Text): (n: nat)
    ensures n <= |s|
  {
    if s == [] || s[0] == PLUS then 0 else 1 + PlusEnd(s[1..])
  }

  predicate BuildOk(s: Text) { s == [] || (s[0] == PLUS && Identifiers(s[1..])) }

  predicate SuffixOk(rest: Text) {
    var n := PlusEnd(rest);
    && (n == 0 || (rest[0] == DASH && Identifiers(rest[1..n]) && Canonical(rest[1..n])))
    && BuildOk(rest[n..])
  }

  predicate IsCargo(s: Text) {
    CoreEnd(s).Some? && CoreEnd(s).value.1 && SuffixOk(s[CoreEnd(s).value.0..])
  }

  /** `cargo_version`: the normalised version, or none if it is refused. */
  function CargoVersion(value: Text): Option<Text> {
    var s := if value != [] && value[0] == 0x76 then value[1..] else value;
    var p := FromPython(s);
    if p.Some? && |p.value.digits| > MAX_INT_DIGITS then None
    else
      var version := if p.Some? then p.value.core + [DASH] + p.value.kind + [DOT] + NoZeros(p.value.digits) else s;
      if IsCargo(version) then Some(version) else None
  }

  lemma CargoIdempotent(value: Text)
    ensures CargoVersion(value).Some? ==> CargoVersion(CargoVersion(value).value) == CargoVersion(value)
  {
    hide CoreEnd, Identifiers, Canonical, Codes;
    if CargoVersion(value).Some? {
      var v := CargoVersion(value).value;
      assert Digit(v[0]);
      var rest := v[CoreEnd(v).value.0..];
      assert rest == [] || rest[0] == DASH || rest[0] == PLUS;
    }
  }

  predicate VersionCode(c: Code) { IdentifierCode(c) || c == DOT || c == PLUS }

  lemma SuffixCodes(rest: Text, i: nat)
    requires SuffixOk(rest) && i < |rest|
    ensures VersionCode(rest[i])
  {
    hide Canonical;
    var n := PlusEnd(rest);
    if i == 0 && n > 0 {
    } else if i < n {
      assert rest[1..n][i - 1] == rest[i];
    } else if i == n {
    } else {
      assert rest[n..][1..][i - n - 1] == rest[i];
    }
  }

  /** A release version has nothing in it that quotes or lines could trip over. */
  lemma CargoPlain(v: Text)
    requires IsCargo(v)
    ensures Plain(v)
  {
    hide CoreEnd, SuffixOk;
    var n := CoreEnd(v).value.0;
    forall i | 0 <= i < |v| ensures VersionCode(v[i]) {
      if i < n {
        CoreCodes(v, i);
      } else {
        SuffixCodes(v[n..], i - n);
        assert v[n..][i - n] == v[i];
      }
    }
  }

  // ----- one line -----

  lemma VersionPieceSame(ps: seq<Piece>, section: Text, v: Text)
    requires Stable(ps) && VersionPiece(ps, section).Some? && Plain(v)
    ensures var k := VersionPiece(ps, section).value;
            && ps[k].kind == Quoted && |ps[k].text| >= 2
            && VersionPiece(ps[k := Requoted(ps[k], v)], section) == Some(k)
  {
    hide Dependency, PieceOk, Codes;
    var ix := Tokens(ps, 0).value;
    var toks := Picked(ps, ix);
    var k := VersionPiece(ps, section).value;
    forall i | 0 <= i < |toks| && toks[i].kind == Quoted ensures toks[i].text != [] && IsQuote(toks[i].text[0]) {
      assert PieceOk(ps[ix[i]]);
      RequotedOk(ps[ix[i]], v);
    }
    if section == PACKAGE {
      assert PieceOk(ps[k]);
      RequotedOk(ps[k], v);
      TokensSame(ps, k, Requoted(ps[k], v), 0);
    } else {
      var j := Dependency(toks).value;
      DependencyQuoted(toks, j);
      assert PieceOk(ps[k]);
      RequotedOk(ps[k], v);
      var p := Requoted(ps[k], v);
      DependencySame(toks, j, p);
      TokensSame(ps, k, p, 0);
      TokensDistinct(ps, 0);
      assert Picked(ps[k := p], ix) == toks[j := p];
    }
  }

  lemma DependencyQuoted(toks: seq<Piece>, j: nat)
    requires Dependency(toks) == Some(j)
    requires forall i :: 0 <= i < |toks| && toks[i].kind == Quoted ==> toks[i].text != [] && IsQuote(toks[i].text[0])
    ensures j < |toks| && toks[j].kind == Quoted
  {
    DependencySame(toks, j, Piece(Quoted, [QUOTE, QUOTE]));
  }

  lemma {:induction false} TokensDistinct(ps: seq<Piece>, i: nat)
    requires i <= |ps|
    ensures var r := Tokens(ps, i); r.Some? ==> forall a, b :: 0 <= a < b < |r.value| ==> r.value[a] < r.value[b]
    decreases |ps| - i
  {
    if i < |ps| { TokensDistinct(ps, i + 1); }
  }

  lemma TailPrefix(c: Text, d: Text, m: nat, i: nat, k: nat)
    requires i + k <= m <= |c| && m <= |d| && c[..m] == d[..m]
    ensures c[i..][..k] == d[i..][..k]
  {
    assert c[i..][..k] == c[..m][i..i + k];
    assert d[i..][..k] == d[..m][i..i + k];
  }

  lemma KeyLengthLocal(s: Text, t: Text)
    requires 0 < KeyLength(s) < |s| && KeyLength(s) < |t| && s[..KeyLength(s) + 1] == t[..KeyLength(s) + 1]
    ensures KeyLength(t) == KeyLength(s) && s[0] == t[0] && s[0] != LEFT
  {
    hide CloseDouble, CloseSingle, WordEnd;
    var n := KeyLength(s);
    assert s[0] == s[..n + 1][0] == t[..n + 1][0] == t[0];
    if WordCode(s[0]) {
      WordEndLocal(s, t);
    } else {
      assert s[..n] == s[..n + 1][..n] && t[..n] == t[..n + 1][..n];
      ClosingLocal(s, t);
    }
  }

  lemma BlankAt(c: Text, d: Text, m: nat, i: nat)
    requires i < m <= |c| && m <= |d| && c[..m] == d[..m] && i + BlankEnd(c[i..]) < m
    ensures BlankEnd(d[i..]) == BlankEnd(c[i..])
  {
    TailPrefix(c, d, m, i, BlankEnd(c[i..]) + 1);
    BlankEndLocal(c[i..], d[i..]);
  }

  lemma KeyAt(c: Text, d: Text, m: nat, i: nat)
    requires i < m <= |c| && m <= |d| && c[..m] == d[..m] && 0 < KeyLength(c[i..]) && i + KeyLength(c[i..]) < m
    ensures KeyLength(d[i..]) == KeyLength(c[i..]) && c[i..][..KeyLength(c[i..])] == d[i..][..KeyLength(c[i..])]
    ensures c[i] == d[i] && d[i] != LEFT
  {
    hide KeyLength;
    TailPrefix(c, d, m, i, KeyLength(c[i..]) + 1);
    TailPrefix(c, d, m, i, KeyLength(c[i..]));
    KeyLengthLocal(c[i..], d[i..]);
  }

  lemma CodeAt(c: Text, d: Text, m: nat, j: nat)
    requires j < m <= |c| && m <= |d| && c[..m] == d[..m]
    ensures c[j] == d[j]
  {
    assert c[j] == c[..m][j] && d[j] == d[..m][j];
  }

  lemma AssignmentLocal(c: Text, d: Text, m: nat)
    requires Assignment(c).Some? && Assignment(c).value.end < m <= |c| && m <= |d| && c[..m] == d[..m]
    ensures Assignment(d) == Assignment(c) && Header(d).None?
  {
    hide KeyLength, BlankEnd, SectionEnd, RestOfLine;
    assert c[0..] == c && d[0..] == d;
    var i := BlankEnd(c);
    BlankAt(c, d, m, 0);
    KeyAt(c, d, m, i);
    var n := KeyLength(c[i..]);
    BlankAt(c, d, m, i + n);
    var j := i + n + BlankEnd(c[i + n..]);
    CodeAt(c, d, m, j);
    BlankAt(c, d, m, j + 1);
    HeaderNot(d, i);
  }

  lemma HeaderNot(d: Text, i: nat)
    requires i == BlankEnd(d) && i < |d| && d[i] != LEFT
    ensures Header(d).None?
  {
  }

  /** The line with the contents of its version quotes replaced. */
  function Respelled(content: Text, start: nat, end: nat, v: Text): Text
    requires start <= end <= |content|
  {
    content[..start] + v + content[end..]
  }

  /** Replacing inside the value of an assignment. */
  lemma SpliceInside(content: Text, e: nat, start: nat, size: nat, v: Text)
    requires e <= |content| && size >= 2 && e + start + size <= |content|
    ensures var s := Respelled(content, e + start + 1, e + start + size - 1, v);
            var value := content[e..];
            && e + start + 1 <= |s|
            && s[..e + start + 1] == content[..e + start + 1]
            && s[e..] == value[..start + 1] + v + value[start + size - 1..]
  {
    var value := content[e..];
    var s := Respelled(content, e + start + 1, e + start + size - 1, v);
    assert content[..e + start + 1] == content[..e] + value[..start + 1];
    assert content[e + start + size - 1..] == value[start + size - 1..];
    var front, back := value[..start + 1], value[start + size - 1..];
    assert s == content[..e] + (front + v + back);
  }

  lemma ClassifySame(content: Text, section: Text, v: Text)
    requires OneLine(content) && Plain(v) && Classify(content, section).Anchor?
    ensures var a := Classify(content, section);
            && 0 < a.start <= a.end < |content| && IsQuote(content[a.end])
            && Classify(Respelled(content, a.start, a.end, v), section) == Anchor(a.name, a.start, a.start + |v|)
  {
    hide Assignment, Header, Lex, Flat, VersionPiece, Anchored, Unquoted, Codes;
    var line := Classify(content, section);
    var e := Assignment(content).value.end;
    var value := content[e..];
    var ps := Lex(value);
    var k := VersionPiece(ps, section).value;
    VersionTokens(ps, section);
    LexStable(value);
    VersionPieceSame(ps, section, v);
    RelexRequoted(value, k, v);
    var start := |Flat(ps[..k])|;
    var size := |ps[k].text|;
    SpliceInside(content, e, start, size, v);
    hide Respelled;
    AssignmentLocal(content, Respelled(content, line.start, line.end, v), e + start + 1);
    var qs := ps[k := Requoted(ps[k], v)];
    assert qs[..k] == ps[..k];
    QuoteEnds(value, k);
  }

  lemma QuoteEnds(s: Text, k: nat)
    requires OneLine(s) && Tokens(Lex(s), 0).Some? && k < |Lex(s)| && Lex(s)[k].kind == Quoted
    ensures var ps := Lex(s); var n := |Flat(ps[..k])| + |ps[k].text|; 0 < n <= |s| && IsQuote(s[n - 1])
  {
    hide Flat, Lex;
    var ps := Lex(s);
    LexStable(s);
    FlatLex(s);
    FlatAt(ps, k);
    assert PieceOk(ps[k]);
    var text := ps[k].text;
    if text[0] == QUOTE { CloseDoubleQuote(text, 1); } else { CloseSingleQuote(text, 1); }
    var a := Flat(ps[..k]);
    assert s[|a| + |text| - 1] == text[|text| - 1];
  }

  lemma VersionTokens(ps: seq<Piece>, section: Text)
    requires VersionPiece(ps, section).Some?
    ensures Tokens(ps, 0).Some?
  {
  }

  // ----- lines -----

  /** Text without line breaks, then one line break or the end. */
  predicate LineOk(line: Text) {
    var n := LineEnd(line);
    && line != []
    && (|line| <= n + 1 || (|line| == n + 2 && line[n] == CR && line[n + 1] == LF))
  }

  predicate Ended(line: Text) { LineEnd(line) < |line| }

  predicate EndsInCr(line: Text) { line != [] && line[|line| - 1] == CR }

  /** Lines that split where they are joined. */
  predicate Proper(lines: seq<Text>) {
    && (forall i :: 0 <= i < |lines| ==> LineOk(lines[i]))
    && forall i :: 0 <= i < |lines| - 1 ==>
      Ended(lines[i]) && (EndsInCr(lines[i]) ==> lines[i + 1] != [] && lines[i + 1][0] != LF)
  }

  function Joined(lines: seq<Text>): Text {
    if lines == [] then [] else lines[0] + Joined(lines[1..])
  }

  lemma {:induction false} LineEndFacts(s: Text)
    ensures forall i :: 0 <= i < LineEnd(s) ==> !LineBreak(s[i])
    ensures LineEnd(s) < |s| ==> LineBreak(s[LineEnd(s)])
  {
    if s != [] && !LineBreak(s[0]) { LineEndFacts(s[1..]); }
  }

  lemma {:induction false} LineEndIs(s: Text, n: nat)
    requires n <= |s| && (forall i :: 0 <= i < n ==> !LineBreak(s[i])) && (n < |s| ==> LineBreak(s[n]))
    ensures LineEnd(s) == n
  {
    if n > 0 {
      assert s[1..][..] == s[1..];
      LineEndIs(s[1..], n - 1);
    }
  }

  function FirstLine(text: Text): (n: nat)
    requires text != []
    ensures 0 < n <= |text|
  {
    var n := LineEnd(text);
    if n == |text| then n else if text[n] == CR && n + 1 < |text| && text[n + 1] == LF then n + 2 else n + 1
  }

  lemma KeepFirst(text: Text)
    requires text != []
    ensures KeepLines(text) == [text[..FirstLine(text)]] + KeepLines(text[FirstLine(text)..])
  {
  }

  lemma FirstLineAgain(line: Text, rest: Text)
    requires LineOk(line) && (rest != [] ==> Ended(line) && (EndsInCr(line) ==> rest[0] != LF))
    ensures FirstLine(line + rest) == |line|
  {
    var n := LineEnd(line);
    LineEndFacts(line);
    var text := line + rest;
    assert forall i :: 0 <= i < |line| ==> text[i] == line[i];
    LineEndIs(text, n);
  }

  lemma {:induction false} SplitAgain(lines: seq<Text>)
    requires Proper(lines)
    ensures KeepLines(Joined(lines)) == lines
    decreases |lines|
  {
    hide LineOk, Ended, EndsInCr, FirstLine, KeepLines;
    if lines == [] {
      assert KeepLines([]) == [] by { NoText(); }
    } else {
      var line, rest := lines[0], Joined(lines[1..]);
      assert LineOk(line) && (|lines| > 1 ==> LineOk(lines[1]));
      LineNonempty(line);
      if |lines| > 1 {
        LineNonempty(lines[1]);
        assert rest[0] == lines[1][0];
      }
      FirstLineAgain(line, rest);
      KeepFirst(line + rest);
      assert (line + rest)[..|line|] == line && (line + rest)[|line|..] == rest;
      ProperRest(lines);
      SplitAgain(lines[1..]);
    }
  }

  lemma NoText()
    ensures KeepLines([]) == []
  {
  }

  lemma LineNonempty(line: Text)
    requires LineOk(line)
    ensures line != []
  {
  }

  lemma ProperRest(lines: seq<Text>)
    requires Proper(lines) && lines != []
    ensures Proper(lines[1..])
  {
    hide LineOk, Ended, EndsInCr;
    var rest := lines[1..];
    forall i | 0 <= i < |rest| - 1
      ensures Ended(rest[i]) && (EndsInCr(rest[i]) ==> rest[i + 1] != [] && rest[i + 1][0] != LF) {
      assert rest[i] == lines[i + 1] && rest[i + 1] == lines[i + 2];
    }
  }

  lemma ProperMore(line: Text, lines: seq<Text>)
    requires LineOk(line) && Proper(lines)
    requires lines != [] ==> Ended(line) && (EndsInCr(line) ==> lines[0] != [] && lines[0][0] != LF)
    ensures Proper([line] + lines)
  {
    hide LineOk, Ended, EndsInCr;
    var all := [line] + lines;
    forall i | 0 <= i < |all| - 1
      ensures Ended(all[i]) && (EndsInCr(all[i]) ==> all[i + 1] != [] && all[i + 1][0] != LF) {
      if i > 0 { assert all[i] == lines[i - 1] && all[i + 1] == lines[i]; }
    }
  }

  lemma FirstLineOk(text: Text)
    requires text != []
    ensures var line, rest := text[..FirstLine(text)], text[FirstLine(text)..];
            LineOk(line) && (rest != [] ==> Ended(line) && (EndsInCr(line) ==> rest[0] != LF))
  {
    var n := LineEnd(text);
    LineEndFacts(text);
    var line := text[..FirstLine(text)];
    assert forall i :: 0 <= i < |line| ==> line[i] == text[i];
    LineEndIs(line, n);
  }

  lemma {:induction false} KeepProper(text: Text)
    ensures Proper(KeepLines(text)) && Joined(KeepLines(text)) == text
    decreases |text|
  {
    hide LineOk, Ended, EndsInCr, FirstLine, KeepLines;
    if text == [] {
      NoText();
    } else {
      var n := FirstLine(text);
      var line, rest := text[..n], text[n..];
      KeepFirst(text);
      FirstLineOk(text);
      KeepProper(rest);
      if rest != [] {
        KeepFirst(rest);
        assert KeepLines(rest)[0] == rest[..FirstLine(rest)] && rest[..FirstLine(rest)][0] == rest[0];
      } else {
        NoText();
      }
      ProperMore(line, KeepLines(rest));
      assert text == line + rest;
      assert ([line] + KeepLines(rest))[1..] == KeepLines(rest);
    }
  }

  // ----- stamping a line -----

  lemma {:induction false} ContentSplit(line: Text)
    ensures var c := Content(line);
            (forall i :: |c| <= i < |line| ==> EndsLine(line[i])) && (c != [] ==> !EndsLine(c[|c| - 1]))
  {
    if line != [] && EndsLine(line[|line| - 1]) { ContentSplit(line[..|line| - 1]); }
  }

  lemma ContentOneLine(line: Text)
    requires LineOk(line)
    ensures OneLine(Content(line))
  {
    var c := Content(line);
    ContentSplit(line);
    LineEndFacts(line);
    var n := LineEnd(line);
    forall i | 0 <= i < |c| ensures !EndsLine(c[i]) {
      assert c[i] == line[i];
      if i >= n { assert i == |c| - 1; }
    }
  }

  function StampLine(line: Text, section: Text, v: Text): Text {
    var a := Classify(Content(line), section);
    if a.Anchor? && a.start <= a.end <= |line| then Respelled(line, a.start, a.end, v) else line
  }

  /** A stamped line is a line, and its contents are the old contents with another version. */
  lemma LineStamped(line: Text, section: Text, v: Text)
    requires LineOk(line) && Plain(v) && Classify(Content(line), section).Anchor?
    ensures var a := Classify(Content(line), section);
            var stamped := StampLine(line, section, v);
            && 0 < a.start <= a.end < |Content(line)| <= |line|
            && stamped == Respelled(line, a.start, a.end, v)
            && Content(stamped) == Respelled(Content(line), a.start, a.end, v)
            && LineOk(stamped) && (Ended(stamped) <==> Ended(line)) && (EndsInCr(stamped) <==> EndsInCr(line))
                && stamped[0] == line[0]
  {
    hide Classify, Content, LineOk, Ended, EndsInCr, Plain, Respelled;
    var c := Content(line);
    ContentOneLine(line);
    ClassifySame(c, section, v);
    var a := Classify(c, section);
    ContentAt(line, a.end);
    ContentStamped(line, a.start, a.end, v);
    QuoteInside(line, a.end);
    StampedLineOk(line, a.start, a.end, v);
  }

  lemma ContentAt(line: Text, i: nat)
    requires i < |Content(line)|
    ensures |Content(line)| <= |line| && Content(line)[i] == line[i]
  {
  }

  /** Replacing in the front part of a text leaves the rest after it. */
  lemma RespelledAppend(c: Text, tail: Text, start: nat, end: nat, v: Text)
    requires start <= end <= |c|
    ensures Respelled(c + tail, start, end, v) == Respelled(c, start, end, v) + tail
  {
    assert (c + tail)[..start] == c[..start];
    assert (c + tail)[end..] == c[end..] + tail;
    Associate(c[..start] + v, c[end..], tail);
  }

  lemma RespelledLast(c: Text, start: nat, end: nat, v: Text)
    requires start <= end < |c|
    ensures var s := Respelled(c, start, end, v); s != [] && s[|s| - 1] == c[|c| - 1]
  {
  }

  lemma {:induction false} ContentAppend(c: Text, tail: Text)
    requires c != [] && !EndsLine(c[|c| - 1]) && forall i :: 0 <= i < |tail| ==> EndsLine(tail[i])
    ensures Content(c + tail) == c
    decreases |tail|
  {
    if tail == [] {
      assert c + tail == c;
    } else {
      var n := |tail| - 1;
      assert (c + tail)[..|c| + n] == c + tail[..n];
      ContentAppend(c, tail[..n]);
    }
  }

  lemma ContentStamped(line: Text, start: nat, end: nat, v: Text)
    requires start <= end < |Content(line)|
    ensures Content(Respelled(line, start, end, v)) == Respelled(Content(line), start, end, v)
  {
    hide Content, Respelled;
    var c := Content(line);
    ContentSplit(line);
    var tail := line[|c|..];
    assert line == c + tail;
    RespelledAppend(c, tail, start, end, v);
    RespelledLast(c, start, end, v);
    ContentAppend(Respelled(c, start, end, v), tail);
  }

  lemma StampLineIs(line: Text, section: Text, v: Text)
    requires LineOk(line) && Plain(v) && Classify(Content(line), section).Anchor?
    ensures var a := Classify(Content(line), section);
            a.start <= a.end <= |line| && StampLine(line, section, v) == Respelled(line, a.start, a.end, v)
  {
    hide Classify, Content, Respelled, Plain, LineOk, Ended, EndsInCr;
    LineStamped(line, section, v);
  }

  lemma QuoteInside(line: Text, i: nat)
    requires LineOk(line) && i < |line| && IsQuote(line[i])
    ensures i < LineEnd(line)
  {
    LineEndFacts(line);
  }

  predicate NoBreaks(s: Text) { forall i :: 0 <= i < |s| ==> !LineBreak(s[i]) }

  lemma LineEndBody(body: Text, term: Text)
    requires NoBreaks(body) && (term != [] ==> LineBreak(term[0]))
    ensures LineEnd(body + term) == |body|
  {
    var s := body + term;
    assert forall i :: 0 <= i < |body| ==> s[i] == body[i];
    assert term != [] ==> s[|body|] == term[0];
    LineEndIs(s, |body|);
  }

  /** Another body before the same line ending. */
  lemma SameEnding(body: Text, other: Text, term: Text)
    requires NoBreaks(body) && NoBreaks(other) && body != [] && other != [] && (term != [] ==> LineBreak(term[0]))
             && LineOk(body + term)
    ensures LineOk(other + term) && (Ended(other + term) <==> Ended(body + term))
            && (EndsInCr(other + term) <==> EndsInCr(body + term))
  {
    LineEndBody(body, term);
    LineEndBody(other, term);
    var s, t := body + term, other + term;
    if term == [] {
      assert s == body && t == other;
    } else {
      assert s[|s| - 1] == term[|term| - 1] == t[|t| - 1];
      assert |term| == 2 ==> s[|body|] == term[0] == t[|other|] && s[|body| + 1] == term[1] == t[|other| + 1];
    }
  }

  lemma RespelledNoBreaks(body: Text, start: nat, end: nat, v: Text)
    requires NoBreaks(body) && Plain(v) && 0 < start <= end < |body|
    ensures var s := Respelled(body, start, end, v); NoBreaks(s) && s != [] && s[0] == body[0]
  {
    var a, b := body[..start], body[end..];
    assert NoBreaks(a) && NoBreaks(b) && NoBreaks(v);
    ConcatNoBreaks(a, v);
    ConcatNoBreaks(a + v, b);
  }

  lemma ConcatNoBreaks(a: Text, b: Text)
    requires NoBreaks(a) && NoBreaks(b)
    ensures NoBreaks(a + b)
  {
  }

  lemma StampedLineOk(line: Text, start: nat, end: nat, v: Text)
    requires LineOk(line) && Plain(v) && 0 < start <= end < LineEnd(line)
    ensures var s := Respelled(line, start, end, v);
            && LineOk(s) && (Ended(s) <==> Ended(line)) && (EndsInCr(s) <==> EndsInCr(line)) && s != []
                && s[0] == line[0]
  {
    hide LineOk, Ended, EndsInCr, Plain, Respelled;
    var n := LineEnd(line);
    LineEndFacts(line);
    var body, term := line[..n], line[n..];
    assert line == body + term;
    RespelledAppend(body, term, start, end, v);
    RespelledNoBreaks(body, start, end, v);
    SameEnding(body, Respelled(body, start, end, v), term);
  }

  lemma StampedSame(line: Text, section: Text, v: Text, w: Text)
    requires LineOk(line) && Plain(v) && Plain(w)
    ensures StampLine(StampLine(line, section, v), section, w) == StampLine(line, section, w)
    ensures var a := Classify(Content(line), section);
            var b := Classify(Content(StampLine(line, section, v)), section);
            if a.Anchor? then 0 < a.start <= a.end < |Content(line)| <= |line| && b == Anchor(a.name, a.start,
                                                                                              a.start + |v|) else b == a
  {
    hide Classify, Content, LineOk, Plain, Ended, EndsInCr;
    var a := Classify(Content(line), section);
    if a.Anchor? {
      ContentOneLine(line);
      ClassifySame(Content(line), section, v);
      LineStamped(line, section, v);
      StampLineIs(line, section, w);
      var s := StampLine(line, section, v);
      RespelledTwice(line, a.start, a.end, v, w);
      assert a.start + |v| <= |s|;
    }
  }

  lemma RespelledHolds(line: Text, start: nat, end: nat, v: Text)
    requires start <= end <= |line|
    ensures var s := Respelled(line, start, end, v); start + |v| <= |s| && s[start..start + |v|] == v
  {
  }

  lemma RespelledTwice(line: Text, start: nat, end: nat, v: Text, w: Text)
    requires start <= end <= |line|
    ensures var s := Respelled(line, start, end, v);
            start + |v| <= |s| && Respelled(s, start, start + |v|, w) == Respelled(line, start, end, w)
  {
    var s := Respelled(line, start, end, v);
    assert s[..start] == line[..start] && s[start + |v|..] == line[end..];
  }

  // ----- stamping all lines -----

  function Onward(line: Text, section: Text): Text {
    var l := Classify(Content(line), section);
    if l.Section? then l.title else section
  }

  function StampLines(lines: seq<Text>, section: Text, v: Text): seq<Text> {
    if lines == [] then [] else [StampLine(lines[0], section, v)] + StampLines(lines[1..], Onward(lines[0], section), v)
  }

  lemma OnwardSame(line: Text, section: Text, v: Text)
    requires LineOk(line) && Plain(v)
    ensures Onward(StampLine(line, section, v), section) == Onward(line, section)
  {
    hide Classify, StampLine;
    StampedSame(line, section, v, v);
  }

  lemma LineOkStamped(line: Text, section: Text, v: Text)
    requires LineOk(line) && Plain(v)
    ensures var s := StampLine(line, section, v);
            LineOk(s) && (Ended(s) <==> Ended(line)) && (EndsInCr(s) <==> EndsInCr(line)) && s[0] == line[0]
  {
    hide Classify;
    if Classify(Content(line), section).Anchor? { LineStamped(line, section, v); }
  }

  lemma {:induction false} StampedProper(lines: seq<Text>, section: Text, v: Text)
    requires Proper(lines) && Plain(v)
    ensures Proper(StampLines(lines, section, v)) && |StampLines(lines, section, v)| == |lines|
    decreases |lines|
  {
    hide LineOk, Ended, EndsInCr, StampLine, Onward;
    if lines != [] {
      var next := Onward(lines[0], section);
      assert LineOk(lines[0]) && (|lines| > 1 ==> LineOk(lines[1]));
      LineOkStamped(lines[0], section, v);
      ProperRest(lines);
      StampedProper(lines[1..], next, v);
      if |lines| > 1 {
        LineNonempty(lines[1]);
        LineOkStamped(lines[1], next, v);
        LineNonempty(StampLine(lines[1], next, v));
        assert StampLines(lines[1..], next, v)[0] == StampLine(lines[1], next, v);
      }
      ProperMore(StampLine(lines[0], section, v), StampLines(lines[1..], next, v));
    }
  }

  /** Stamping is not affected by what was stamped before. */
  lemma {:induction false} Restamped(lines: seq<Text>, section: Text, v: Text, w: Text)
    requires Proper(lines) && Plain(v) && Plain(w)
    ensures StampLines(StampLines(lines, section, v), section, w) == StampLines(lines, section, w)
    decreases |lines|
  {
    hide LineOk, StampLine, Onward;
    if lines != [] {
      assert LineOk(lines[0]);
      StampedSame(lines[0], section, v, w);
      OnwardSame(lines[0], section, v);
      ProperRest(lines);
      var rest := StampLines(lines[1..], Onward(lines[0], section), v);
      Restamped(lines[1..], Onward(lines[0], section), v, w);
      assert ([StampLine(lines[0], section, v)] + rest)[1..] == rest;
    }
  }

  /** `spans` lie in `[lo, hi]`, one after the other. */
  predicate Ordered(spans: seq<Span>, lo: nat, hi: nat) {
    if spans == [] then lo <= hi
    else lo <= spans[0].start <= spans[0].end && Ordered(spans[1..], spans[0].end, hi)
  }

  lemma {:induction false} OrderedLower(spans: seq<Span>, lo: nat, mid: nat, hi: nat)
    requires lo <= mid && Ordered(spans, mid, hi)
    ensures Ordered(spans, lo, hi)
  {
  }

  lemma {:induction false} OrderedAt(spans: seq<Span>, lo: nat, hi: nat, i: nat)
    requires Ordered(spans, lo, hi) && i < |spans|
    ensures lo <= spans[i].start <= spans[i].end <= hi
    decreases |spans|
  {
    OrderedEnd(spans[1..], spans[0].end, hi);
    if i > 0 { OrderedAt(spans[1..], spans[0].end, hi, i - 1); }
  }

  lemma {:induction false} OrderedEnd(spans: seq<Span>, lo: nat, hi: nat)
    requires Ordered(spans, lo, hi)
    ensures lo <= hi
    decreases |spans|
  {
    if spans != [] { OrderedEnd(spans[1..], spans[0].end, hi); }
  }

  function HeadSpans(line: Text, section: Text, offset: nat): seq<Span> {
    var a := Classify(Content(line), section);
    if a.Anchor? then [Span(a.name, offset + a.start, offset + a.end)] else []
  }

  function HeadSections(line: Text, section: Text): seq<Text> {
    var a := Classify(Content(line), section);
    if a.Section? then [a.title] else []
  }

  lemma ScanUnfold(lines: seq<Text>, section: Text, offset: nat)
    requires lines != []
    ensures var r, rest := ScanLines(lines, section, offset), ScanLines(lines[1..], Onward(lines[0], section),
                                                                        offset + |lines[0]|);
            && (r.Some? <==> rest.Some? && !Classify(Content(lines[0]), section).Bad?)
            && (r.Some? ==> r.value.spans == HeadSpans(lines[0], section, offset) + rest.value.spans
                            && r.value.sections == HeadSections(lines[0], section) + rest.value.sections)
  {
    hide Classify, Content;
    var rest := ScanLines(lines[1..], Onward(lines[0], section), offset + |lines[0]|);
    if rest.Some? {
      assert [] + rest.value.spans == rest.value.spans && [] + rest.value.sections == rest.value.sections;
    }
  }

  lemma {:induction false} ScanOrdered(lines: seq<Text>, section: Text, offset: nat)
    requires Proper(lines) && ScanLines(lines, section, offset).Some?
    ensures Ordered(ScanLines(lines, section, offset).value.spans, offset, offset + |Joined(lines)|)
    decreases |lines|
  {
    hide Classify, LineOk, Content, StampLine;
    if lines != [] {
      var a := Classify(Content(lines[0]), section);
      assert LineOk(lines[0]);
      EmptyPlain();
      StampedSame(lines[0], section, [], []);
      ProperRest(lines);
      var next := if a.Section? then a.title else section;
      ScanOrdered(lines[1..], next, offset + |lines[0]|);
      var rest := ScanLines(lines[1..], next, offset + |lines[0]|).value.spans;
      var hi := offset + |Joined(lines)|;
      OrderedLower(rest, offset, offset + |lines[0]|, hi);
      if a.Anchor? {
        OrderedLower(rest, offset + a.end, offset + |lines[0]|, hi);
        var all := [Span(a.name, offset + a.start, offset + a.end)] + rest;
        assert all[1..] == rest;
      }
    }
  }

  lemma EmptyPlain()
    ensures Plain([])
  {
  }

  /** The same anchors are found again, each holding the version. */
  ghost predicate ReadBack(earlier: seq<Span>, later: seq<Span>, text: Text, offset: nat, v: Text) {
    && |earlier| == |later|
    && forall i :: 0 <= i < |later| ==>
         SpanBack(earlier[i], later[i], text, offset, v)
  }

  predicate SpanBack(x: Span, y: Span, text: Text, offset: nat, v: Text) {
    && y.name == x.name
    && offset <= y.start <= y.end <= offset + |text|
    && text[y.start - offset..y.end - offset] == v
  }

  lemma {:induction false} ScanStamped(lines: seq<Text>, section: Text, o: nat, p: nat, v: Text)
    requires Proper(lines) && Plain(v) && ScanLines(lines, section, o).Some?
    ensures var r, s := ScanLines(lines, section, o), ScanLines(StampLines(lines, section, v), section, p);
            && s.Some? && s.value.sections == r.value.sections
            && ReadBack(r.value.spans, s.value.spans, Joined(StampLines(lines, section, v)), p, v)
    decreases |lines|
  {
    hide Classify, LineOk, Content, ScanLines, ReadBack, StampLine, Onward, HeadSpans, HeadSections;
    if lines == [] {
      NothingScanned(section, o, p, v);
    } else {
      var line := StampLine(lines[0], section, v);
      assert LineOk(lines[0]);
      ProperRest(lines);
      var next := Onward(lines[0], section);
      OnwardSame(lines[0], section, v);
      var stamped := StampLines(lines[1..], next, v);
      var all := StampLines(lines, section, v);
      assert all == [line] + stamped && all[1..] == stamped && all[0] == line;
      ScanUnfold(lines, section, o);
      ScanUnfold(all, section, p);
      ScanStamped(lines[1..], next, o + |lines[0]|, p + |line|, v);
      var olds := ScanLines(lines[1..], next, o + |lines[0]|).value.spans;
      var news := ScanLines(stamped, next, p + |line|).value.spans;
      HeadStamped(lines[0], section, olds, news, Joined(stamped), o, p, v);
    }
  }

  lemma NothingScanned(section: Text, o: nat, p: nat, v: Text)
    ensures var r, s := ScanLines([], section, o), ScanLines([], section, p);
            && r.Some? && s.Some? && s.value.sections == r.value.sections
                && ReadBack(r.value.spans, s.value.spans, [], p, v)
            && r.value.spans == [] && s.value.spans == []
  {
  }

  lemma HeadStamped(line: Text, section: Text, olds: seq<Span>, news: seq<Span>, rest: Text, o: nat, p: nat, v: Text)
    requires LineOk(line) && Plain(v) && !Classify(Content(line), section).Bad?
    requires ReadBack(olds, news, rest, p + |StampLine(line, section, v)|, v)
    ensures var s := StampLine(line, section, v);
            && !Classify(Content(s), section).Bad? && HeadSections(s, section) == HeadSections(line, section)
            && ReadBack(HeadSpans(line, section, o) + olds, HeadSpans(s, section, p) + news, s + rest, p, v)
  {
    hide Classify, LineOk, Content, ReadBack, StampLine, Plain, Respelled;
    var a := Classify(Content(line), section);
    var s := StampLine(line, section, v);
    StampedSame(line, section, v, v);
    ReadBackAfter(olds, news, s, rest, p, v);
    if a.Anchor? {
      StampLineIs(line, section, v);
      RespelledHolds(line, a.start, a.end, v);
      ReadBackMore(Span(a.name, o + a.start, o + a.end), olds, Span(a.name, p + a.start, p + a.start + |v|), news, s,
                   rest, p, v);
    } else {
      assert [] + olds == olds && [] + news == news;
    }
  }

  lemma SpanBackAfter(x: Span, y: Span, line: Text, rest: Text, p: nat, v: Text)
    requires SpanBack(x, y, rest, p + |line|, v)
    ensures SpanBack(x, y, line + rest, p, v)
  {
    SliceAfter(line, rest, y.start - p - |line|, y.end - p - |line|);
  }

  lemma SliceAfter(line: Text, rest: Text, a: nat, b: nat)
    requires a <= b <= |rest|
    ensures (line + rest)[|line| + a..|line| + b] == rest[a..b]
  {
  }

  lemma ReadBackAfter(olds: seq<Span>, news: seq<Span>, line: Text, rest: Text, p: nat, v: Text)
    requires ReadBack(olds, news, rest, p + |line|, v)
    ensures ReadBack(olds, news, line + rest, p, v)
  {
    hide SpanBack;
    forall i | 0 <= i < |news| ensures SpanBack(olds[i], news[i], line + rest, p, v) {
      SpanBackAfter(olds[i], news[i], line, rest, p, v);
    }
  }

  lemma SpanBackInside(x: Span, y: Span, line: Text, rest: Text, p: nat, v: Text)
    requires SpanBack(x, y, line, p, v)
    ensures SpanBack(x, y, line + rest, p, v)
  {
    assert (line + rest)[y.start - p..y.end - p] == line[y.start - p..y.end - p];
  }

  lemma ReadBackMore(x: Span, olds: seq<Span>, y: Span, news: seq<Span>, line: Text, rest: Text, p: nat, v: Text)
    requires ReadBack(olds, news, line + rest, p, v) && SpanBack(x, y, line, p, v)
    ensures ReadBack([x] + olds, [y] + news, line + rest, p, v)
  {
    hide SpanBack;
    SpanBackInside(x, y, line, rest, p, v);
  }

  // ----- replacing spans is stamping lines -----

  lemma SliceJoin(text: Text, c: nat, d: nat, e: nat)
    requires c <= d <= e <= |text|
    ensures text[c..d] + text[d..e] == text[c..e]
  {
  }

  lemma Associate(a: Text, b: Text, c: Text)
    ensures a + b + c == a + (b + c)
  {
  }

  lemma CursorMove(text: Text, spans: seq<Span>, v: Text, c: nat, d: nat)
    requires c <= d <= |text| && Ordered(spans, d, |text|)
    ensures Replaced(text, spans, v, c) == text[c..d] + Replaced(text, spans, v, d)
  {
    if spans == [] {
      SliceJoin(text, c, d, |text|);
      assert text[d..|text|] == text[d..] && text[c..|text|] == text[c..];
    } else {
      OrderedAt(spans, d, |text|, 0);
      var start := spans[0].start;
      hide Ordered;
      var tail := Replaced(text, spans[1..], v, spans[0].end);
      SliceJoin(text, c, d, start);
      var front, gap := text[c..d], text[d..start];
      Associate(front, gap, v);
      Associate(front, gap + v, tail);
    }
  }

  lemma {:induction false} ReplacedIsStamped(before: Text, lines: seq<Text>, section: Text, v: Text)
    requires Proper(lines) && Plain(v) && ScanLines(lines, section, |before|).Some?
    ensures Replaced(before + Joined(lines), ScanLines(lines, section, |before|).value.spans, v, |before|)
         == Joined(StampLines(lines, section, v))
    decreases |lines|
  {
    hide Classify, LineOk, Content, ScanLines, StampLine, Onward, HeadSpans, HeadSections, Replaced, At;
    var text, o := before + Joined(lines), |before|;
    if lines == [] {
      NothingReplaced(before, section, v);
    } else {
      var line := lines[0];
      assert LineOk(line);
      ProperRest(lines);
      var next := Onward(line, section);
      var stamped := StampLines(lines[1..], next, v);
      Associate(before, line, Joined(lines[1..]));
      ScanUnfold(lines, section, o);
      ReplacedIsStamped(before + line, lines[1..], next, v);
      ScanOrdered(lines[1..], next, o + |line|);
      var rest := ScanLines(lines[1..], next, o + |line|).value.spans;
      AtConcat(before, line, Joined(lines[1..]));
      assert StampLines(lines, section, v) == [StampLine(line, section, v)] + stamped;
      assert ([StampLine(line, section, v)] + stamped)[1..] == stamped;
      HeadReplaced(text, o, line, section, rest, v);
    }
  }

  lemma NothingReplaced(before: Text, section: Text, v: Text)
    ensures ScanLines([], section, |before|).value.spans == []
    ensures Replaced(before + [], [], v, |before|) == []
  {
    assert before + [] == before;
  }

  /** `line` stands at position `o`. */
  predicate At(text: Text, o: nat, line: Text) { o + |line| <= |text| && text[o..o + |line|] == line }

  lemma AtSlice(text: Text, o: nat, line: Text, a: nat, b: nat)
    requires At(text, o, line) && a <= b <= |line|
    ensures o + b <= |text| && text[o + a..o + b] == line[a..b]
  {
    SubSlice(text, o, |line|, a, b);
  }

  lemma SubSlice(text: Text, o: nat, m: nat, a: nat, b: nat)
    requires a <= b <= m && o + m <= |text|
    ensures text[o..o + m][a..b] == text[o + a..o + b]
  {
    var x, y := text[o..o + m][a..b], text[o + a..o + b];
    assert |x| == |y|;
    forall i | 0 <= i < |x| ensures x[i] == y[i] {
      assert x[i] == text[o..o + m][a + i] == text[o + (a + i)];
    }
  }

  lemma AtWhole(text: Text, o: nat, line: Text)
    requires At(text, o, line)
    ensures o + |line| <= |text| && text[o..o + |line|] == line
  {
  }

  lemma NoneBefore(rest: seq<Span>)
    ensures [] + rest == rest
  {
  }

  lemma AtConcat(before: Text, line: Text, rest: Text)
    ensures At(before + line + rest, |before|, line)
  {
  }

  lemma HeadReplaced(text: Text, o: nat, line: Text, section: Text, rest: seq<Span>, v: Text)
    requires LineOk(line) && Plain(v) && At(text, o, line) && Ordered(rest, o + |line|, |text|)
    ensures Replaced(text, HeadSpans(line, section, o) + rest, v, o)
            == StampLine(line, section, v) + Replaced(text, rest, v, o + |line|)
  {
    hide Classify, LineOk, Content, Replaced, Ordered, Plain, Respelled, At;
    var a := Classify(Content(line), section);
    if a.Anchor? {
      StampLineIs(line, section, v);
      OneReplaced(text, o, line, a.name, a.start, a.end, rest, v);
    } else {
      AtWhole(text, o, line);
      CursorMove(text, rest, v, o, o + |line|);
      NoneBefore(rest);
    }
  }

  lemma OneReplaced(text: Text, o: nat, line: Text, name: Name, start: nat, end: nat, rest: seq<Span>, v: Text)
    requires start <= end <= |line| && At(text, o, line) && Ordered(rest, o + |line|, |text|)
    ensures Replaced(text, [Span(name, o + start, o + end)] + rest, v, o)
         == Respelled(line, start, end, v) + Replaced(text, rest, v, o + |line|)
  {
    hide Ordered, At, Replaced;
    AtSlice(text, o, line, 0, start);
    AtSlice(text, o, line, end, |line|);
    AtSlice(text, o, line, 0, |line|);
    CursorMove(text, rest, v, o + end, o + |line|);
    ReplacedHead(text, Span(name, o + start, o + end), rest, v, o);
    var tail := Replaced(text, rest, v, o + |line|);
    assert line[0..start] == line[..start] && line[end..|line|] == line[end..];
    Associate(line[..start] + v, line[end..], tail);
  }

  lemma ReplacedHead(text: Text, s: Span, rest: seq<Span>, v: Text, cursor: nat)
    requires cursor <= s.start <= |text|
    ensures Replaced(text, [s] + rest, v, cursor) == text[cursor..s.start] + v + Replaced(text, rest, v, s.end)
  {
    assert ([s] + rest)[1..] == rest;
  }

  // ----- the whole manifest -----

  function Stamped(text: Text, spans: seq<Span>, v: Text): Text { Replaced(text, spans, v, 0) }

  lemma StampedLines(text: Text, v: Text)
    requires Anchors(text).Some? && Plain(v)
    ensures Stamped(text, Anchors(text).value, v) == Joined(StampLines(KeepLines(text), [], v))
    ensures KeepLines(Stamped(text, Anchors(text).value, v)) == StampLines(KeepLines(text), [], v)
  {
    hide KeepLines, ScanLines, StampLines, Proper, Complete, Replaced;
    var lines := KeepLines(text);
    KeepProper(text);
    ReplacedIsStamped([], lines, [], v);
    assert [] + Joined(lines) == text;
    StampedProper(lines, [], v);
    SplitAgain(StampLines(lines, [], v));
  }

  lemma {:induction false} CompleteSame(a: Scan, b: Scan)
    requires Complete(a) && a.sections == b.sections && |a.spans| == |b.spans|
    requires forall i :: 0 <= i < |a.spans| ==> a.spans[i].name == b.spans[i].name
    ensures Complete(b)
  {
    hide Count, Codes;
    forall name | Has(a.spans, name) ensures Has(b.spans, name) {
      var i :| 0 <= i < |a.spans| && a.spans[i].name == name;
      assert b.spans[i].name == name;
    }
  }

  /** After a stamp the same anchors are found, in order and apart, and each holds the version. */
  lemma StampReadsBack(text: Text, v: Text)
    requires Anchors(text).Some? && Plain(v)
    ensures var spans := Anchors(text).value;
            var stamped := Stamped(text, spans, v);
            && Anchors(stamped).Some?
            && ReadBack(spans, Anchors(stamped).value, stamped, 0, v)
            && Ordered(spans, 0, |text|) && Ordered(Anchors(stamped).value, 0, |stamped|)
            && !Drifted(stamped, Anchors(stamped).value, v)
  {
    hide KeepLines, ScanLines, StampLines, Proper, Complete, Replaced;
    var lines := KeepLines(text);
    KeepProper(text);
    StampedLines(text, v);
    ScanStamped(lines, [], 0, 0, v);
    StampedProper(lines, [], v);
    ScanOrdered(lines, [], 0);
    ScanOrdered(StampLines(lines, [], v), [], 0);
    var r, s := ScanLines(lines, [], 0).value, ScanLines(StampLines(lines, [], v), [], 0).value;
    CompleteSame(r, s);
  }

  /** Only the versions change: whatever is stamped next, the result is as if the first stamp had not been. */
  lemma OnlyVersionsChange(text: Text, v: Text, w: Text)
    requires Anchors(text).Some? && Plain(v) && Plain(w)
    ensures var spans := Anchors(text).value;
            var stamped := Stamped(text, spans, v);
            Anchors(stamped).Some? && Stamped(stamped, Anchors(stamped).value, w) == Stamped(text, spans, w)
  {
    hide KeepLines, ScanLines, StampLines, Proper, Complete, Replaced;
    KeepProper(text);
    StampReadsBack(text, v);
    StampedLines(text, v);
    StampedLines(text, w);
    StampedLines(Stamped(text, Anchors(text).value, v), w);
    Restamped(KeepLines(text), [], v, w);
  }

  // ----- nothing but the versions changes -----

  /** The later spans hold `n` units each and lie where the earlier ones moved to. */
  predicate Moved(olds: seq<Span>, news: seq<Span>, delta: int, n: nat) {
    && |olds| == |news|
    && (olds != [] ==>
          && news[0].start == olds[0].start + delta && news[0].end == news[0].start + n
          && Moved(olds[1..], news[1..], delta + n - (olds[0].end - olds[0].start), n))
  }

  lemma {:induction false} ScanMoved(lines: seq<Text>, section: Text, o: nat, p: nat, v: Text)
    requires Proper(lines) && Plain(v) && ScanLines(lines, section, o).Some?
    ensures var r, s := ScanLines(lines, section, o), ScanLines(StampLines(lines, section, v), section, p);
            s.Some? && Moved(r.value.spans, s.value.spans, p - o, |v|)
    decreases |lines|
  {
    hide Classify, LineOk, Content, ScanLines, StampLine, Onward, HeadSpans, HeadSections, Plain;
    if lines == [] {
      NothingScanned(section, o, p, v);
    } else {
      var line := StampLine(lines[0], section, v);
      assert LineOk(lines[0]);
      ProperRest(lines);
      var next := Onward(lines[0], section);
      OnwardSame(lines[0], section, v);
      var stamped := StampLines(lines[1..], next, v);
      var all := StampLines(lines, section, v);
      assert all == [line] + stamped && all[1..] == stamped && all[0] == line;
      ScanUnfold(lines, section, o);
      ScanUnfold(all, section, p);
      ScanMoved(lines[1..], next, o + |lines[0]|, p + |line|, v);
      HeadMoved(lines[0], section, ScanLines(lines[1..], next, o + |lines[0]|).value.spans,
                ScanLines(stamped, next, p + |line|).value.spans, o, p, v);
    }
  }

  lemma HeadMoved(line: Text, section: Text, olds: seq<Span>, news: seq<Span>, o: nat, p: nat, v: Text)
    requires LineOk(line) && Plain(v) && !Classify(Content(line), section).Bad?
    requires Moved(olds, news, p + |StampLine(line, section, v)| - o - |line|, |v|)
    ensures var s := StampLine(line, section, v);
            && !Classify(Content(s), section).Bad?
            && Moved(HeadSpans(line, section, o) + olds, HeadSpans(s, section, p) + news, p - o, |v|)
  {
    hide Classify, LineOk, Content, Plain, Moved;
    var a := Classify(Content(line), section);
    StampedSame(line, section, v, v);
    if a.Anchor? {
      StampLineIs(line, section, v);
      MovedMore(Span(a.name, o + a.start, o + a.end), Span(a.name, p + a.start, p + a.start + |v|), olds, news, p - o,
                |v|);
    } else {
      assert [] + olds == olds && [] + news == news;
    }
  }

  lemma MovedMore(x: Span, y: Span, olds: seq<Span>, news: seq<Span>, delta: int, n: nat)
    requires y.start == x.start + delta && y.end == y.start + n && Moved(olds, news, delta + n - (x.end - x.start), n)
    ensures Moved([x] + olds, [y] + news, delta, n)
  {
    assert ([x] + olds)[1..] == olds && ([y] + news)[1..] == news;
  }

  function GapStart(spans: seq<Span>, i: nat): nat
    requires i <= |spans|
  {
    if i == 0 then 0 else spans[i - 1].end
  }

  function GapEnd(text: Text, spans: seq<Span>, i: nat): nat
    requires i <= |spans|
  {
    if i == |spans| then |text| else spans[i].start
  }

  lemma {:induction false} GapOrdered(spans: seq<Span>, lo: nat, hi: nat, i: nat)
    requires Ordered(spans, lo, hi) && i <= |spans|
    ensures (if i == 0 then lo else spans[i - 1].end) <= (if i == |spans| then hi else spans[i].start) <= hi
    decreases |spans|
  {
    if i < |spans| { OrderedAt(spans, lo, hi, i); }
    if i > 0 { GapOrdered(spans[1..], spans[0].end, hi, i - 1); }
  }

  /** What stands between the spans: before the first one, between two, and after the last one. */
  function Gap(text: Text, spans: seq<Span>, i: nat): Text
    requires Ordered(spans, 0, |text|) && i <= |spans|
  {
    GapOrdered(spans, 0, |text|, i);
    text[GapStart(spans, i)..GapEnd(text, spans, i)]
  }

  /** From position `c` of one text and `d` of the other, the same gaps follow. */
  ghost predicate SameGaps(text: Text, stamped: Text, olds: seq<Span>, news: seq<Span>, c: nat, d: nat) {
    if olds == [] then c <= |text| && d <= |stamped| && text[c..] == stamped[d..]
    else
      && news != [] && c <= olds[0].start <= |text| && d <= news[0].start <= |stamped|
      && text[c..olds[0].start] == stamped[d..news[0].start]
      && SameGaps(text, stamped, olds[1..], news[1..], olds[0].end, news[0].end)
  }

  lemma {:induction false} ReplacedGaps(text: Text, olds: seq<Span>, news: seq<Span>, v: Text, c: nat, done: Text)
    requires Ordered(olds, c, |text|) && Moved(olds, news, |done| - c, |v|)
    ensures SameGaps(text, done + Replaced(text, olds, v, c), olds, news, c, |done|)
    decreases |olds|
  {
    OrderedEnd(olds, c, |text|);
    if olds == [] {
      SliceTail(done, text[c..]);
    } else {
      OrderedAt(olds, c, |text|, 0);
      var gap, rest := text[c..olds[0].start], Replaced(text, olds[1..], v, olds[0].end);
      assert [olds[0]] + olds[1..] == olds;
      ReplacedHead(text, olds[0], olds[1..], v, c);
      ReplacedGaps(text, olds[1..], news[1..], v, olds[0].end, done + gap + v);
      Associate(done + gap, v, rest);
      Associate(done, gap, v + rest);
      Associate(gap, v, rest);
      SliceMiddle(done, gap, v + rest);
    }
  }

  lemma SliceTail(done: Text, tail: Text)
    ensures (done + tail)[|done|..] == tail
  {
  }

  lemma SliceMiddle(done: Text, gap: Text, rest: Text)
    ensures |done| + |gap| <= |done + (gap + rest)| && (done + (gap + rest))[|done|..|done| + |gap|] == gap
  {
  }

  lemma {:induction false} GapAt(text: Text, stamped: Text, olds: seq<Span>, news: seq<Span>, c: nat, d: nat, i: nat)
    requires SameGaps(text, stamped, olds, news, c, d) && |olds| == |news| && i <= |olds|
    ensures var a, b := if i == 0 then c else olds[i - 1].end, if i == 0 then d else news[i - 1].end;
            var x, y := GapEnd(text, olds, i), GapEnd(stamped, news, i);
            a <= x <= |text| && b <= y <= |stamped| && text[a..x] == stamped[b..y]
    decreases |olds|
  {
    if i > 0 { GapAt(text, stamped, olds[1..], news[1..], olds[0].end, news[0].end, i - 1); }
  }

  /** Gap by gap, from the start of the manifest to its end, a stamp leaves the text as it was. */
  lemma GapsKept(text: Text, v: Text)
    requires Anchors(text).Some? && Plain(v)
    ensures var spans := Anchors(text).value;
            var stamped := Stamped(text, spans, v);
            && Anchors(stamped).Some? && |Anchors(stamped).value| == |spans|
            && Ordered(spans, 0, |text|) && Ordered(Anchors(stamped).value, 0, |stamped|)
            && forall i :: 0 <= i <= |spans| ==> Gap(text, spans, i) == Gap(stamped, Anchors(stamped).value, i)
  {
    hide KeepLines, ScanLines, StampLines, Proper, Complete, Replaced, Ordered, Moved, ReadBack, SameGaps, Drifted,
         Plain;
    var spans := Anchors(text).value;
    var stamped := Stamped(text, spans, v);
    StampReadsBack(text, v);
    KeepProper(text);
    StampedLines(text, v);
    ScanMoved(KeepLines(text), [], 0, 0, v);
    var news := Anchors(stamped).value;
    ReadBackLength(spans, news, stamped, v);
    assert [] + Replaced(text, spans, v, 0) == stamped;
    ReplacedGaps(text, spans, news, v, 0, []);
    forall i | 0 <= i <= |spans| ensures Gap(text, spans, i) == Gap(stamped, news, i) {
      GapAt(text, stamped, spans, news, 0, 0, i);
    }
  }

  lemma ReadBackLength(olds: seq<Span>, news: seq<Span>, text: Text, v: Text)
    requires ReadBack(olds, news, text, 0, v)
    ensures |olds| == |news|
  {
  }

  // ----- the script's functions -----

  /** `_version_anchors` */
  method VersionAnchors(text: Text) returns (r: Option<seq<Span>>)
    ensures r == Anchors(text)
  {
    hide KeepLines, ScanLines, Codes, Count;
    var scan := CollectAnchors(KeepLines(text));
    if scan.None? {
      return None;
    }
    var anchors := scan.value.spans;
    if Count(scan.value.sections, PACKAGE) != 1 || Count(scan.value.sections, DEPENDENCIES) != 1 {
      return None;
    }
    if !Has(anchors, Name(PACKAGE, VERSION)) || exists k :: k in INTERNAL && !Has(anchors, Name(DEPENDENCIES, k)) {
      return None;
    }
    return Some(anchors);
  }

  /** The loop over the lines; a second anchor of the same name ends it. */
  method CollectAnchors(lines: seq<Text>) returns (r: Option<Scan>)
    ensures r.Some? ==> ScanLines(lines, [], 0) == r && DistinctNames(r.value.spans)
    ensures r.None? ==> ScanLines(lines, [], 0).None? || !DistinctNames(ScanLines(lines, [], 0).value.spans)
  {
    hide Classify, Content, ScanLines, ReadSoFar, DistinctNames, Has;
    var anchors: seq<Span>, titles: seq<Text> := [], [];
    var section: Text, offset: nat := [], 0;
    ghost var goal := ScanLines(lines, [], 0);
    assert lines[0..] == lines;
    ScanRest(goal, [], [], goal);
    NoNames();
    for i := 0 to |lines|
      invariant ReadSoFar(goal, anchors, titles, ScanLines(lines[i..], section, offset))
      invariant DistinctNames(anchors)
    {
      var line := ClassifyLine(Content(lines[i]), section);
      ghost var at, rest := ScanLines(lines[i..], section, offset),
          ScanLines(lines[i + 1..], Onward(lines[i], section), offset + |lines[i]|);
      assert lines[i..][0] == lines[i] && lines[i..][1..] == lines[i + 1..];
      ScanUnfold(lines[i..], section, offset);
      ScanStep(goal, anchors, titles, HeadSpans(lines[i], section, offset), HeadSections(lines[i], section), at, rest);
      if line.Bad? {
        BothOrNone(goal, anchors, titles, at);
        return None;
      }
      if line.Section? {
        titles := titles + [line.title];
        section := line.title;
      } else if line.Anchor? {
        var span := Span(line.name, offset + line.start, offset + line.end);
        if Has(anchors, line.name) {
          Duplicate(goal, anchors, span, titles, rest);
          return None;
        }
        MoreNames(anchors, span);
        anchors := anchors + [span];
      }
      offset := offset + |lines[i]|;
    }
    assert lines[|lines|..] == [];
    AllScanned(goal, anchors, titles, section, offset);
    return Some(Scan(anchors, titles));
  }

  lemma NoNames()
    ensures DistinctNames([])
  {
  }

  lemma MoreNames(spans: seq<Span>, s: Span)
    requires DistinctNames(spans) && !Has(spans, s.name)
    ensures DistinctNames(spans + [s])
  {
  }

  lemma BothOrNone(goal: Option<Scan>, spans: seq<Span>, titles: seq<Text>, rest: Option<Scan>)
    requires ReadSoFar(goal, spans, titles, rest)
    ensures goal.Some? <==> rest.Some?
  {
  }

  predicate DistinctNames(spans: seq<Span>) {
    forall i, j :: 0 <= i < j < |spans| ==> spans[i].name != spans[j].name
  }

  /** The whole scan is what has been read so far and the rest. */
  predicate ReadSoFar(goal: Option<Scan>, spans: seq<Span>, titles: seq<Text>, rest: Option<Scan>) {
    && (goal.Some? <==> rest.Some?)
    && (goal.Some? ==>
          goal.value.spans == spans + rest.value.spans && goal.value.sections == titles + rest.value.sections)
  }

  lemma ScanRest(goal: Option<Scan>, spans: seq<Span>, titles: seq<Text>, rest: Option<Scan>)
    requires goal == rest && spans == [] && titles == []
    ensures ReadSoFar(goal, spans, titles, rest)
  {
  }

  lemma ScanStep(goal: Option<Scan>, spans: seq<Span>, titles: seq<Text>, more: seq<Span>, next: seq<Text>,
                 at: Option<Scan>, rest: Option<Scan>)
    requires ReadSoFar(goal, spans, titles, at) && (at.Some? ==> rest.Some?)
    requires at.Some? ==> at.value.spans == more + rest.value.spans && at.value.sections == next + rest.value.sections
    ensures (at.Some? <==> rest.Some?) ==> ReadSoFar(goal, spans + more, titles + next, rest)
    ensures spans + [] == spans && titles + [] == titles
  {
  }

  lemma AllScanned(goal: Option<Scan>, spans: seq<Span>, titles: seq<Text>, section: Text, offset: nat)
    requires ReadSoFar(goal, spans, titles, ScanLines([], section, offset))
    ensures goal == Some(Scan(spans, titles))
  {
    assert ScanLines([], section, offset) == Some(Scan([], []));
    assert spans + [] == spans && titles + [] == titles;
  }

  lemma Duplicate(goal: Option<Scan>, spans: seq<Span>, s: Span, titles: seq<Text>, rest: Option<Scan>)
    requires ReadSoFar(goal, spans + [s], titles, rest) && Has(spans, s.name)
    ensures goal.Some? ==> !DistinctNames(goal.value.spans)
  {
    if goal.Some? {
      var i :| 0 <= i < |spans| && spans[i].name == s.name;
      assert goal.value.spans[i] == spans[i] && goal.value.spans[|spans|] == s;
    }
  }

  datatype Manifested = Manifested(version: Text, text: Text)

  /** The replacement loop over the ordered spans. */
  method ReplaceSpans(text: Text, spans: seq<Span>, version: Text) returns (updated: Text)
    requires Ordered(spans, 0, |text|)
    ensures updated == Stamped(text, spans, version)
  {
    var parts: Text, cursor: nat := [], 0;
    assert spans[0..] == spans;
    for i := 0 to |spans|
      invariant cursor <= |text| && Ordered(spans[i..], cursor, |text|)
      invariant Stamped(text, spans, version) == parts + Replaced(text, spans[i..], version, cursor)
    {
      var s := spans[i];
      assert spans[i..][0] == s && spans[i..][1..] == spans[i + 1..];
      OrderedAt(spans[i..], cursor, |text|, 0);
      Associate(parts, text[cursor..s.start] + version, Replaced(text, spans[i + 1..], version, s.end));
      parts := parts + (text[cursor..s.start] + version);
      cursor := s.end;
    }
    updated := parts + text[cursor..];
  }

  /**
   `stamp_workspace_version` on the text of the manifest: refused exactly for a bad version,
   a manifest whose anchors cannot be found, or drift in check mode; otherwise the manifest
   is left with every anchor at the normalised version, and with nothing else changed.
   */
  method StampWorkspaceVersion(value: Text, text: Text, check: bool) returns (r: Option<Manifested>)
    ensures r.None? <==> CargoVersion(value).None? || Anchors(text).None?
                         || (check && Drifted(text, Anchors(text).value, CargoVersion(value).value))
    ensures r.Some? ==>
              && r.value.version == CargoVersion(value).value
              && Anchors(r.value.text).Some? && !Drifted(r.value.text, Anchors(r.value.text).value, r.value.version)
              && (r.value.text == text
                  || (!check && r.value.text == Stamped(text, Anchors(text).value, r.value.version)))
              && (!Drifted(text, Anchors(text).value, r.value.version) ==> r.value.text == text)
  {
    hide Anchors, CargoVersion, Replaced, Ordered, Drifted, Plain;
    var version := CargoVersion(value);
    if version.None? {
      return None;
    }
    CargoVersionPlain(value);
    var anchors := VersionAnchors(text);
    if anchors.None? {
      return None;
    }
    var drift := Drifted(text, anchors.value, version.value);
    if check {
      return if drift then None else Some(Manifested(version.value, text));
    }
    if !drift {
      return Some(Manifested(version.value, text));
    }
    StampReadsBack(text, version.value);
    var updated := ReplaceSpans(text, anchors.value, version.value);
    return Some(Manifested(version.value, updated));
  }

  lemma CargoVersionPlain(value: Text)
    ensures CargoVersion(value).Some? ==> Plain(CargoVersion(value).value)
  {
    hide IsCargo, Plain, FromPython;
    if CargoVersion(value).Some? { CargoPlain(CargoVersion(value).value); }
  }
}
