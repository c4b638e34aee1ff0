/**
 Locating the release versions in the root Cargo manifest
 (`stamp_workspace_version.py`): tokens of a line, fields of an inline table, and the
 anchors of the whole text.
 */
module Manifest {
  import opened Properties

  datatype Option<+T> = None | Some(value: T)

  const QUOTE: Code := 0x22
  const TICK: Code := 0x27
  const COMMA: Code := 0x2C
  const OPEN: Code := 0x7B
  const CLOSE: Code := 0x7D
  const LEFT: Code := 0x5B
  const RIGHT: Code := 0x5D

  predicate IsQuote(c: Code) { c == QUOTE || c == TICK }

  predicate EndsLine(c: Code) { c == CR || c == LF }

  predicate WordCode(c: Code) {
    0x41 <= c <= 0x5A || 0x61 <= c <= 0x7A || 0x30 <= c <= 0x39 || c == 0x5F || c == 0x2D
  }

  /** Unicode white space, as `\s` matches it. */
  predicate Space(c: Code) {
    || 0x09 <= c <= 0x0D || 0x1C <= c <= 0x20 || c == 0x85 || c == 0xA0 || c == 0x1680 || 0x2000 <= c <= 0x200A
    || c == 0x2028 || c == 0x2029 || c == 0x202F || c == 0x205F || c == 0x3000
  }

  // ----- pieces of a line -----

  datatype Kind = Gap | Quoted | Comment | Word | Symbol

  datatype Piece = Piece(kind: Kind, text: Text)

  /** Where the string that starts with a double quote ends, reading on from `i`. */
  function CloseDouble(s: Text, i: nat): (n: Option<nat>)
    requires i <= |s|
    ensures n.Some? ==> i < n.value <= |s|
    decreases |s| - i
  {
    if i == |s| || EndsLine(s[i]) then None
    else if s[i] == QUOTE then Some(i + 1)
    else if s[i] != BACKSLASH then CloseDouble(s, i + 1)
    else if i + 1 < |s| && !EndsLine(s[i + 1]) then CloseDouble(s, i + 2)
    else None
  }

  function CloseSingle(s: Text, i: nat): (n: Option<nat>)
    requires i <= |s|
    ensures n.Some? ==> i < n.value <= |s|
    decreases |s| - i
  {
    if i == |s| || EndsLine(s[i]) then None else if s[i] == TICK then Some(i + 1) else CloseSingle(s, i + 1)
  }

  function Closing(s: Text): (n: Option<nat>)
    requires s != []
    ensures n.Some? ==> 1 < n.value <= |s|
  {
    if s[0] == QUOTE then CloseDouble(s, 1) else if s[0] == TICK then CloseSingle(s, 1) else None
  }

  function WordEnd(s: Text): (n: nat)
    ensures n <= |s|
  {
    if s == [] || !WordCode(s[0]) then 0 else 1 + WordEnd(s[1..])
  }

  function RestOfLine(s: Text): (n: nat)
    ensures n <= |s|
  {
    if s == [] || EndsLine(s[0]) then 0 else 1 + RestOfLine(s[1..])
  }

  /** The first match, or one character of white space. */
  function First(s: Text): (p: Piece)
    requires s != []
    ensures 0 < |p.text| <= |s| && p.text == s[..|p.text|]
  {
    if Closing(s).Some? then Piece(Quoted, s[..Closing(s).value])
    else if s[0] == HASH then Piece(Comment, s[..RestOfLine(s)])
    else if WordCode(s[0]) then Piece(Word, s[..WordEnd(s)])
    else Piece(if Space(s[0]) then Gap else Symbol, s[..1])
  }

  function Lex(s: Text): seq<Piece>
    decreases |s|
  {
    if s == [] then [] else var p := First(s); [p] + Lex(s[|p.text|..])
  }

  function Flat(ps: seq<Piece>): Text {
    if ps == [] then [] else ps[0].text + Flat(ps[1..])
  }

  /** The numbers of the pieces that are tokens: none from a comment on, and no stray quote. */
  function Tokens(ps: seq<Piece>, i: nat): (r: Option<seq<nat>>)
    requires i <= |ps|
    ensures r.Some? ==> forall j :: 0 <= j < |r.value| ==> i <= r.value[j] < |ps| && ps[r.value[j]].kind != Gap
    decreases |ps| - i
  {
    if i == |ps| || ps[i].kind == Comment then Some([])
    else if ps[i].kind == Gap then Tokens(ps, i + 1)
    else if ps[i].kind == Symbol && ps[i].text != [] && IsQuote(ps[i].text[0]) then None
    else
      var rest := Tokens(ps, i + 1);
      if rest.None? then None else Some([i] + rest.value)
  }

  function After<T>(before: seq<T>, r: Option<seq<T>>): Option<seq<T>> {
    if r.None? then None else Some(before + r.value)
  }

  lemma AfterTwice<T>(a: seq<T>, b: seq<T>, r: Option<seq<T>>)
    ensures After(a, After(b, r)) == After(a + b, r) && After([], r) == r
    ensures After(a, Some([])) == Some(a)
  {
    if r.Some? {
      assert a + (b + r.value) == a + b + r.value;
      assert [] + r.value == r.value;
    }
    assert a + [] == a;
  }

  method ReadTokens(value: Text) returns (r: Option<seq<nat>>)
    ensures r == Tokens(Lex(value), 0)
  {
    var ps := Lex(value);
    var tokens: seq<nat> := [];
    ghost var goal := Tokens(ps, 0);
    AfterTwice([], [], goal);
    for i := 0 to |ps|
      invariant goal == After(tokens, Tokens(ps, i))
    {
      AfterTwice(tokens, [i], Tokens(ps, i + 1));
      if ps[i].kind == Comment {
        return Some(tokens);
      }
      if ps[i].kind == Symbol && ps[i].text != [] && IsQuote(ps[i].text[0]) {
        return None;
      }
      if ps[i].kind != Gap {
        assert Tokens(ps, i) == After([i], Tokens(ps, i + 1));
        tokens := tokens + [i];
      }
    }
    AfterTwice(tokens, [], Some([]));
    return Some(tokens);
  }

  // ----- fields of an inline table -----

  datatype Range = Range(lo: nat, hi: nat)

  predicate Is(p: Piece, c: Code) { p.text == [c] }

  /** The brackets still to close after this token; none if it does not match. */
  function Nested(closing: seq<Code>, p: Piece): Option<seq<Code>> {
    if Is(p, OPEN) then Some(closing + [CLOSE])
    else if Is(p, LEFT) then Some(closing + [RIGHT])
    else if Is(p, CLOSE) || Is(p, RIGHT) then
      if closing == [] || !Is(p, closing[|closing| - 1]) then None else Some(closing[..|closing| - 1])
    else Some(closing)
  }

  /** The fields between the outer brackets, as ranges of tokens. */
  function Fields(toks: seq<Piece>, i: nat, lo: nat, closing: seq<Code>): (r: Option<seq<Range>>)
    requires lo <= i <= |toks|
    ensures r.Some? ==> forall f :: f in r.value ==> lo <= f.lo <= f.hi <= |toks|
    decreases |toks| - i
  {
    if i == |toks| then if closing != [] then None else if lo < i then Some([Range(lo, i)]) else Some([])
    else
      var next := Nested(closing, toks[i]);
      if next.None? then None
      else if Is(toks[i], COMMA) && next.value == [] then
        var rest := Fields(toks, i + 1, i + 1, next.value);
        if rest.None? then None else Some([Range(lo, i)] + rest.value)
      else Fields(toks, i + 1, lo, next.value)
  }

  function Unquoted(s: Text): Text
    decreases |s|
  {
    if s != [] && IsQuote(s[0]) then Unquoted(s[1..])
    else if s != [] && IsQuote(s[|s| - 1]) then Unquoted(s[..|s| - 1])
    else s
  }

  const VERSION := Codes("version")

  predicate FieldOk(toks: seq<Piece>, f: Range)
    requires f.lo <= f.hi <= |toks|
  {
    && f.hi - f.lo >= 3 && Is(toks[f.lo + 1], EQUALS)
    && (Unquoted(toks[f.lo].text) == VERSION ==> f.hi - f.lo == 3 && toks[f.lo + 2].kind == Quoted)
  }

  predicate IsVersion(toks: seq<Piece>, f: Range)
    requires f.lo <= f.hi <= |toks|
  {
    f.lo < f.hi && Unquoted(toks[f.lo].text) == VERSION
  }

  /** The token that holds the version, in each version field. */
  function Versions(toks: seq<Piece>, fields: seq<Range>): Option<seq<nat>>
    requires forall f :: f in fields ==> f.lo <= f.hi <= |toks|
  {
    if fields == [] then Some([])
    else
      var rest := Versions(toks, fields[1..]);
      if !FieldOk(toks, fields[0]) || rest.None? then None
      else Some((if IsVersion(toks, fields[0]) then [fields[0].lo + 2] else []) + rest.value)
  }

  /** `_dependency_version`, over the tokens: the number of the version token. */
  function Dependency(toks: seq<Piece>): Option<nat> {
    if |toks| < 2 || !Is(toks[0], OPEN) || !Is(toks[|toks| - 1], CLOSE) then None
    else
      var fields := Fields(toks[..|toks| - 1], 1, 1, []);
      if fields.None? then None
      else
        var versions := Versions(toks[..|toks| - 1], fields.value);
        if versions.None? || |versions.value| != 1 then None else Some(versions.value[0])
  }

  method DependencyVersion(toks: seq<Piece>) returns (r: Option<nat>)
    ensures r == Dependency(toks)
  {
    if |toks| < 2 || !Is(toks[0], OPEN) || !Is(toks[|toks| - 1], CLOSE) {
      return None;
    }
    var inner := toks[..|toks| - 1];
    var fields := ReadFields(inner);
    if fields.None? {
      return None;
    }
    var versions := ReadVersions(inner, fields.value);
    if versions.None? || |versions.value| != 1 {
      return None;
    }
    return Some(versions.value[0]);
  }

  method ReadFields(toks: seq<Piece>) returns (r: Option<seq<Range>>)
    requires |toks| >= 1
    ensures r == Fields(toks, 1, 1, [])
  {
    var fields: seq<Range>, lo: nat, closing: seq<Code> := [], 1, [];
    ghost var goal := Fields(toks, 1, 1, []);
    AfterTwice([], [], goal);
    for i := 1 to |toks|
      invariant 1 <= lo <= i
      invariant goal == After(fields, Fields(toks, i, lo, closing))
    {
      var next := Nested(closing, toks[i]);
      if next.None? {
        return None;
      }
      if Is(toks[i], COMMA) && next.value == [] {
        AfterTwice(fields, [Range(lo, i)], Fields(toks, i + 1, i + 1, next.value));
        assert Fields(toks, i, lo, closing) == After([Range(lo, i)], Fields(toks, i + 1, i + 1, next.value));
        fields := fields + [Range(lo, i)];
        lo := i + 1;
      }
      closing := next.value;
    }
    AfterTwice(fields, [], Some([]));
    if closing != [] {
      return None;
    }
    return Some(if lo < |toks| then fields + [Range(lo, |toks|)] else fields);
  }

  method ReadVersions(toks: seq<Piece>, fields: seq<Range>) returns (r: Option<seq<nat>>)
    requires forall f :: f in fields ==> f.lo <= f.hi <= |toks|
    ensures r == Versions(toks, fields)
  {
    hide FieldOk, IsVersion;
    var versions: seq<nat> := [];
    assert fields[0..] == fields;
    AfterTwice([], [], Versions(toks, fields));
    for i := 0 to |fields|
      invariant forall f :: f in fields[i..] ==> f.lo <= f.hi <= |toks|
      invariant Versions(toks, fields) == After(versions, Versions(toks, fields[i..]))
    {
      var f := fields[i];
      assert fields[i..][0] == f && fields[i..][1..] == fields[i + 1..] && f in fields[i..];
      assert forall g :: g in fields[i + 1..] ==> g in fields[i..];
      if !FieldOk(toks, f) {
        return None;
      }
      ghost var rest := Versions(toks, fields[i + 1..]);
      if IsVersion(toks, f) {
        AfterTwice(versions, [f.lo + 2], rest);
        versions := versions + [f.lo + 2];
      } else {
        AfterTwice([], [], rest);
      }
    }
    AfterTwice(versions, [], Some([]));
    return Some(versions);
  }

  // ----- one line -----

  function BlankEnd(s: Text): (n: nat)
    ensures n <= |s|
  {
    if s != [] && (s[0] == SPACE || s[0] == TAB) then 1 + BlankEnd(s[1..]) else 0
  }

  function SectionEnd(s: Text): (n: nat)
    ensures n <= |s|
  {
    if s == [] || s[0] == RIGHT || EndsLine(s[0]) then 0 else 1 + SectionEnd(s[1..])
  }

  /** A section header that takes up the whole line. */
  function Header(content: Text): Option<Text> {
    var s := content[BlankEnd(content)..];
    if s == [] || s[0] != LEFT then None
    else
      var n := SectionEnd(s[1..]);
      var after := s[1 + n..];
      if n == 0 || after == [] || after[0] != RIGHT then None
      else
        var tail := if |after| > 1 && after[1] == RIGHT then after[2..] else after[1..];
        var rest := tail[BlankEnd(tail)..];
        if rest == [] || (rest[0] == HASH && RestOfLine(rest) == |rest|) then Some(s[1..1 + n]) else None
  }

  datatype Assigned = Assigned(key: Text, end: nat)

  /** A bare word or a quoted string at the start of `s`. */
  function KeyLength(s: Text): (n: nat)
    ensures n <= |s|
  {
    if s == [] then 0 else if WordCode(s[0]) then WordEnd(s) else if Closing(s).Some? then Closing(s).value else 0
  }

  /** `key =` and the blanks after it, at the start of the line. */
  function Assignment(content: Text): (a: Option<Assigned>)
    ensures a.Some? ==> a.value.end <= |content|
  {
    var i := BlankEnd(content);
    var s := content[i..];
    var n := KeyLength(s);
    var j := i + n + BlankEnd(content[i + n..]);
    if n == 0 || j >= |content| || content[j] != EQUALS then None
    else Some(Assigned(s[..n], j + 1 + BlankEnd(content[j + 1..])))
  }

  const PACKAGE := Codes("workspace.package")
  const DEPENDENCIES := Codes("workspace.dependencies")
  const INTERNAL: seq<Text> := [
    Codes("blpapi-sys"), Codes("xbbg_core"), Codes("xbbg-arrow"), Codes("xbbg-async"), Codes("xbbg-ext"),
    Codes("xbbg-log"),
    Codes("xbbg-recipes")]

  datatype Name = Name(section: Text, key: Text)

  /** The anchor that an assignment of `key` in `section` is, if any. */
  function Anchored(section: Text, key: Text): Option<Name> {
    if (section == PACKAGE && key == VERSION)
        || (section == DEPENDENCIES && key in INTERNAL) then Some(Name(section, key)) else None
  }

  function Picked(ps: seq<Piece>, ix: seq<nat>): seq<Piece>
    requires forall j :: 0 <= j < |ix| ==> ix[j] < |ps|
  {
    seq(|ix|, j requires 0 <= j < |ix| => ps[ix[j]])
  }

  /** The piece that holds the version in the value of an anchor. */
  function VersionPiece(ps: seq<Piece>, section: Text): (k: Option<nat>)
    ensures k.Some? ==> k.value < |ps|
  {
    var ix := Tokens(ps, 0);
    if ix.None? then None
    else
      var toks := Picked(ps, ix.value);
      if section == PACKAGE then if |toks| == 1 && toks[0].kind == Quoted then Some(ix.value[0]) else None
      else
        var j := Dependency(toks);
        if j.Some? && j.value < |toks| then Some(ix.value[j.value]) else None
  }

  datatype Line =
    | Section(title: Text)
    | Anchor(name: Name, start: nat, end: nat)
    | Other
    | Bad

  /** What a line is, with the span of its version inside the quotes. */
  function Classify(content: Text, section: Text): Line {
    if Header(content).Some? then Section(Header(content).value)
    else
      var a := Assignment(content);
      if a.None? || Anchored(section, Unquoted(a.value.key)).None? then Other
      else
        var ps := Lex(content[a.value.end..]);
        var k := VersionPiece(ps, section);
        if k.None? then Bad
        else
          var start := a.value.end + |Flat(ps[..k.value])|;
          if |ps[k.value].text| < 2 then Bad
          else Anchor(Anchored(section, Unquoted(a.value.key)).value, start + 1, start + |ps[k.value].text| - 1)
  }

  method ClassifyLine(content: Text, section: Text) returns (line: Line)
    ensures line == Classify(content, section)
  {
    hide Header, Assignment, Anchored, Unquoted, Lex, Flat, Tokens, Dependency, Codes;
    if Header(content).Some? {
      return Section(Header(content).value);
    }
    var assignment := Assignment(content);
    if assignment.None? || Anchored(section, Unquoted(assignment.value.key)).None? {
      return Other;
    }
    var name := Anchored(section, Unquoted(assignment.value.key)).value;
    var ps := Lex(content[assignment.value.end..]);
    var tokens := ReadTokens(content[assignment.value.end..]);
    if tokens.None? {
      return Bad;
    }
    var toks := Picked(ps, tokens.value);
    var k := 0;
    if section == PACKAGE {
      if |toks| != 1 || toks[0].kind != Quoted {
        return Bad;
      }
      k := tokens.value[0];
    } else {
      var j := DependencyVersion(toks);
      if j.None? || j.value >= |toks| {
        return Bad;
      }
      k := tokens.value[j.value];
    }
    if |ps[k].text| < 2 {
      return Bad;
    }
    var start := assignment.value.end + |Flat(ps[..k])|;
    return Anchor(name, start + 1, start + |ps[k].text| - 1);
  }

  // ----- the whole text -----

  /** `splitlines(keepends=True)` */
  function KeepLines(text: Text): seq<Text>
    decreases |text|
  {
    if text == [] then []
    else
      var n := LineEnd(text);
      var next := if n == |text| then n
                  else if text[n] == CR && n + 1 < |text| && text[n + 1] == LF then n + 2 else n + 1;
      if next == 0 then [] else [text[..next]] + KeepLines(text[next..])
  }

  /** `rstrip("\r\n")` */
  function Content(line: Text): (c: Text)
    ensures c <= line
  {
    if line != [] && EndsLine(line[|line| - 1]) then Content(line[..|line| - 1]) else line
  }

  datatype Span = Span(name: Name, start: nat, end: nat)

  datatype Scan = Scan(spans: seq<Span>, sections: seq<Text>)

  function ScanLines(lines: seq<Text>, section: Text, offset: nat): Option<Scan> {
    if lines == [] then Some(Scan([], []))
    else
      var line := Classify(Content(lines[0]), section);
      var rest := ScanLines(lines[1..], if line.Section? then line.title else section, offset + |lines[0]|);
      if rest.None? || line.Bad? then None
      else match line
        case Section(title) => Some(Scan(rest.value.spans, [title] + rest.value.sections))
        case Anchor(name, start, end) => Some(Scan([Span(name, offset + start, offset + end)] + rest.value.spans,
                                                   rest.value.sections))
        case _ => rest
  }

  function Count(sections: seq<Text>, name: Text): nat {
    if sections == [] then 0 else (if sections[0] == name then 1 else 0) + Count(sections[1..], name)
  }

  /** Both sections once, every required anchor once. */
  predicate Complete(s: Scan) {
    && Count(s.sections, PACKAGE) == 1 && Count(s.sections, DEPENDENCIES) == 1
    && (forall i, j :: 0 <= i < j < |s.spans| ==> s.spans[i].name != s.spans[j].name)
    && Has(s.spans, Name(PACKAGE, VERSION))
    && forall k :: k in INTERNAL ==> Has(s.spans, Name(DEPENDENCIES, k))
  }

  predicate Has(spans: seq<Span>, name: Name) { exists i :: 0 <= i < |spans| && spans[i].name == name }

  /** `_version_anchors` */
  function Anchors(text: Text): Option<seq<Span>> {
    var s := ScanLines(KeepLines(text), [], 0);
    if s.Some? && Complete(s.value) then Some(s.value.spans) else None
  }

  // ----- stamping -----

  /** The text from `cursor` on, with every span replaced. */
  function Replaced(text: Text, spans: seq<Span>, version: Text, cursor: nat): Text {
    if spans == [] then text[Min(cursor, |text|)..]
    else
      var start := Min(spans[0].start, |text|);
      text[Min(cursor, start)..start] + version + Replaced(text, spans[1..], version, spans[0].end)
  }

  predicate Drifted(text: Text, spans: seq<Span>, version: Text) {
    exists i ::
      0 <= i < |spans| && spans[i].start <= spans[i].end <= |text| && text[spans[i].start..spans[i].end] != version
  }
}
