/**
 Replacing the contents of a quoted string by a version leaves the rest of the line as
 it was read before: the same pieces, the same tokens, the same fields, the same anchor.
 */
module Relexing {
  import opened Properties
  import opened Manifest

  /** Text that means the same inside either kind of quotes. */
  predicate Plain(v: Text) {
    forall i :: 0 <= i < |v| ==> !IsQuote(v[i]) && v[i] != BACKSLASH && !EndsLine(v[i]) && !LineBreak(v[i])
  }

  predicate OneLine(s: Text) { forall i :: 0 <= i < |s| ==> !EndsLine(s[i]) }

  // ----- reading depends only on what is read -----

  lemma {:induction false} CloseDoubleLocal(s: Text, t: Text, i: nat)
    requires i <= |s| && i <= |t| && CloseDouble(s, i).Some?
    requires CloseDouble(s, i).value <= |t| && s[..CloseDouble(s, i).value] == t[..CloseDouble(s, i).value]
    ensures CloseDouble(t, i) == CloseDouble(s, i)
    decreases |s| - i
  {
    var n := CloseDouble(s, i).value;
    assert s[i] == s[..n][i] == t[..n][i] == t[i];
    if s[i] != QUOTE {
      if s[i] != BACKSLASH {
        CloseDoubleLocal(s, t, i + 1);
      } else {
        assert s[i + 1] == s[..n][i + 1] == t[..n][i + 1];
        CloseDoubleLocal(s, t, i + 2);
      }
    }
  }

  lemma {:induction false} CloseSingleLocal(s: Text, t: Text, i: nat)
    requires i <= |s| && i <= |t| && CloseSingle(s, i).Some?
    requires CloseSingle(s, i).value <= |t| && s[..CloseSingle(s, i).value] == t[..CloseSingle(s, i).value]
    ensures CloseSingle(t, i) == CloseSingle(s, i)
    decreases |s| - i
  {
    var n := CloseSingle(s, i).value;
    assert s[i] == s[..n][i] == t[..n][i] == t[i];
    if s[i] != TICK { CloseSingleLocal(s, t, i + 1); }
  }

  lemma ClosingLocal(s: Text, t: Text)
    requires s != [] && Closing(s).Some? && Closing(s).value <= |t| && s[..Closing(s).value] == t[..Closing(s).value]
    ensures t != [] && Closing(t) == Closing(s)
  {
    var n := Closing(s).value;
    assert s[0] == s[..n][0] == t[..n][0] == t[0];
    if s[0] == QUOTE { CloseDoubleLocal(s, t, 1); } else { CloseSingleLocal(s, t, 1); }
  }

  lemma {:induction false} WordEndLocal(s: Text, t: Text)
    requires WordEnd(s) < |s| && WordEnd(s) < |t| && s[..WordEnd(s) + 1] == t[..WordEnd(s) + 1]
    ensures WordEnd(t) == WordEnd(s)
    decreases |s|
  {
    var n := WordEnd(s);
    assert s[0] == s[..n + 1][0] == t[..n + 1][0] == t[0];
    if n > 0 {
      assert s[1..][..n] == s[..n + 1][1..] && t[1..][..n] == t[..n + 1][1..];
      WordEndLocal(s[1..], t[1..]);
    }
  }

  lemma {:induction false} BlankEndLocal(s: Text, t: Text)
    requires BlankEnd(s) < |s| && BlankEnd(s) < |t| && s[..BlankEnd(s) + 1] == t[..BlankEnd(s) + 1]
    ensures BlankEnd(t) == BlankEnd(s)
    decreases |s|
  {
    var n := BlankEnd(s);
    assert s[0] == s[..n + 1][0] == t[..n + 1][0] == t[0];
    if n > 0 {
      assert s[1..][..n] == s[..n + 1][1..] && t[1..][..n] == t[..n + 1][1..];
      BlankEndLocal(s[1..], t[1..]);
    }
  }

  lemma {:induction false} WordEndCodes(s: Text)
    ensures forall i :: 0 <= i < WordEnd(s) ==> WordCode(s[i])
    ensures WordEnd(s) < |s| ==> !WordCode(s[WordEnd(s)])
  {
    if s != [] && WordCode(s[0]) { WordEndCodes(s[1..]); }
  }

  lemma {:induction false} WordRun(w: Text, rest: Text)
    requires (forall i :: 0 <= i < |w| ==> WordCode(w[i])) && (rest == [] || !WordCode(rest[0]))
    ensures WordEnd(w + rest) == |w|
    decreases |w|
  {
    if w == [] {
      assert w + rest == rest;
    } else {
      assert (w + rest)[1..] == w[1..] + rest;
      WordRun(w[1..], rest);
    }
  }

  lemma {:induction false} RestRun(s: Text)
    requires OneLine(s)
    ensures RestOfLine(s) == |s|
  {
    if s != [] { RestRun(s[1..]); }
  }

  // ----- pieces can be put together again -----

  predicate PieceOk(p: Piece) {
    && p.text != []
    && match p.kind
       case Quoted => Closing(p.text) == Some(|p.text|)
       case Word => !IsQuote(p.text[0]) && p.text[0] != HASH && forall i :: 0 <= i < |p.text| ==> WordCode(p.text[i])
       case Comment => p.text[0] == HASH && OneLine(p.text)
       case Gap => |p.text| == 1 && Space(p.text[0]) && !IsQuote(p.text[0]) && p.text[0] != HASH && !WordCode(p.text[0])
       case Symbol =>
         |p.text| == 1 && !Space(p.text[0]) && !IsQuote(p.text[0]) && p.text[0] != HASH && !WordCode(p.text[0])
  }

  /** Pieces that read back as themselves. */
  predicate Stable(ps: seq<Piece>) {
    && (forall i :: 0 <= i < |ps| ==> PieceOk(ps[i]))
    && (forall i :: 0 <= i < |ps| - 1 ==>
          ps[i].kind != Comment && (ps[i].kind == Word ==> !WordCode(ps[i + 1].text[0])))
  }

  lemma FirstAgain(p: Piece, rest: Text)
    requires PieceOk(p) && (p.kind == Word ==> rest == [] || !WordCode(rest[0])) && (p.kind == Comment ==> rest == [])
    ensures First(p.text + rest) == p
  {
    var s := p.text + rest;
    assert s[..|p.text|] == p.text && s[0] == p.text[0];
    match p.kind
    case Quoted =>
      assert p.text[..|p.text|] == p.text;
      ClosingLocal(p.text, s);
    case Word => WordRun(p.text, rest);
    case Comment =>
      assert s == p.text;
      RestRun(s);
    case Gap =>
    case Symbol =>
  }

  lemma {:induction false} Relex(ps: seq<Piece>)
    requires Stable(ps)
    ensures Lex(Flat(ps)) == ps
    decreases |ps|
  {
    hide First, PieceOk;
    if ps != [] {
      var p, rest := ps[0], Flat(ps[1..]);
      assert PieceOk(p);
      PieceNonempty(p);
      if |ps| > 1 {
        assert PieceOk(ps[1]);
        PieceNonempty(ps[1]);
        assert rest[0] == ps[1].text[0];
      }
      FirstAgain(p, rest);
      StableRest(ps);
      Relex(ps[1..]);
      assert (p.text + rest)[|p.text|..] == rest;
    }
  }

  lemma PieceNonempty(p: Piece)
    requires PieceOk(p)
    ensures p.text != []
  {
  }

  lemma StableRest(ps: seq<Piece>)
    requires Stable(ps) && ps != []
    ensures Stable(ps[1..])
  {
    hide PieceOk;
    var qs := ps[1..];
    forall i | 0 <= i < |qs| - 1
      ensures qs[i].kind != Comment && (qs[i].kind == Word ==> qs[i + 1].text != [] && !WordCode(qs[i + 1].text[0])) {
      assert qs[i] == ps[i + 1] && qs[i + 1] == ps[i + 2];
      PieceNonempty(ps[i + 2]);
    }
  }

  lemma {:induction false} FlatLex(s: Text)
    ensures Flat(Lex(s)) == s
    decreases |s|
  {
    hide First;
    if s != [] {
      var p := First(s);
      FlatLex(s[|p.text|..]);
      assert s == s[..|p.text|] + s[|p.text|..];
      assert ([p] + Lex(s[|p.text|..]))[1..] == Lex(s[|p.text|..]);
    }
  }

  lemma FirstOk(s: Text)
    requires s != [] && OneLine(s)
    ensures var p := First(s);
            && (PieceOk(p) || (p.kind == Symbol && IsQuote(p.text[0])))
            && (p.kind == Comment ==> |p.text| == |s|)
            && (p.kind == Word && |p.text| < |s| ==> !WordCode(s[|p.text|]))
  {
    var p := First(s);
    if Closing(s).Some? {
      var n := Closing(s).value;
      assert s[..n][..n] == s[..n];
      ClosingLocal(s, s[..n]);
    } else if s[0] == HASH {
      RestRun(s);
      assert s[..|s|] == s;
    } else if WordCode(s[0]) {
      WordEndCodes(s);
    }
  }

  /** A line whose tokens can be read, from piece `i` on. */
  lemma {:induction false} LexStable(s: Text)
    requires OneLine(s) && Tokens(Lex(s), 0).Some?
    ensures Stable(Lex(s))
    decreases |s|
  {
    hide First, PieceOk;
    if s != [] {
      var p := First(s);
      var rest := s[|p.text|..];
      var ps := Lex(s);
      FirstOk(s);
      assert ps[0] == p && ps[1..] == Lex(rest);
      if p.kind == Comment {
        assert rest == [] && ps == [p];
      } else {
        TokensTail(ps);
        LexStable(rest);
        if rest != [] { assert ps[1] == First(rest) && First(rest).text[0] == rest[0] == s[|p.text|]; }
        StableMore(p, Lex(rest));
        assert ps == [p] + Lex(rest);
      }
    }
  }

  lemma StableMore(p: Piece, ps: seq<Piece>)
    requires PieceOk(p) && Stable(ps)
             && (ps != [] ==> p.kind != Comment && (p.kind == Word ==> ps[0].text != [] && !WordCode(ps[0].text[0])))
    ensures Stable([p] + ps)
  {
    hide PieceOk;
    var qs := [p] + ps;
    forall i | 0 <= i < |qs| - 1
      ensures qs[i].kind != Comment && (qs[i].kind == Word ==> qs[i + 1].text != [] && !WordCode(qs[i + 1].text[0])) {
      assert PieceOk(ps[i]);
      PieceNonempty(ps[i]);
      if i > 0 { assert qs[i] == ps[i - 1] && qs[i + 1] == ps[i]; }
    }
  }

  /** Readable tokens stay readable without the first piece. */
  lemma TokensTail(ps: seq<Piece>)
    requires ps != [] && ps[0].kind != Comment && Tokens(ps, 0).Some?
    ensures Tokens(ps[1..], 0).Some?
    ensures !(ps[0].kind == Symbol && ps[0].text != [] && IsQuote(ps[0].text[0]))
  {
    TokensShift(ps, 1);
  }

  lemma {:induction false} TokensShift(ps: seq<Piece>, i: nat)
    requires 1 <= i <= |ps|
    ensures Tokens(ps, i).Some? <==> Tokens(ps[1..], i - 1).Some?
    decreases |ps| - i
  {
    if i < |ps| {
      assert ps[1..][i - 1] == ps[i];
      TokensShift(ps, i + 1);
    }
  }

  // ----- another version in the same quotes -----

  function Requoted(p: Piece, v: Text): Piece
    requires |p.text| >= 2
  {
    Piece(Quoted, [p.text[0]] + v + [p.text[|p.text| - 1]])
  }

  lemma {:induction false} CloseDoublePlain(s: Text, i: nat)
    requires i < |s| && s[|s| - 1] == QUOTE && Plain(s[i..|s| - 1])
    ensures CloseDouble(s, i) == Some(|s|)
    decreases |s| - i
  {
    if i < |s| - 1 {
      assert s[i] == s[i..|s| - 1][0];
      assert s[i + 1..|s| - 1] == s[i..|s| - 1][1..];
      CloseDoublePlain(s, i + 1);
    }
  }

  lemma {:induction false} CloseSinglePlain(s: Text, i: nat)
    requires i < |s| && s[|s| - 1] == TICK && Plain(s[i..|s| - 1])
    ensures CloseSingle(s, i) == Some(|s|)
    decreases |s| - i
  {
    if i < |s| - 1 {
      assert s[i] == s[i..|s| - 1][0];
      assert s[i + 1..|s| - 1] == s[i..|s| - 1][1..];
      CloseSinglePlain(s, i + 1);
    }
  }

  lemma {:induction false} CloseDoubleQuote(s: Text, i: nat)
    requires i <= |s| && CloseDouble(s, i).Some?
    ensures s[CloseDouble(s, i).value - 1] == QUOTE
    decreases |s| - i
  {
    if s[i] != QUOTE { if s[i] != BACKSLASH { CloseDoubleQuote(s, i + 1); } else { CloseDoubleQuote(s, i + 2); } }
  }

  lemma {:induction false} CloseSingleQuote(s: Text, i: nat)
    requires i <= |s| && CloseSingle(s, i).Some?
    ensures s[CloseSingle(s, i).value - 1] == TICK
    decreases |s| - i
  {
    if s[i] != TICK { CloseSingleQuote(s, i + 1); }
  }

  lemma RequotedOk(p: Piece, v: Text)
    requires PieceOk(p) && p.kind == Quoted && Plain(v)
    ensures |p.text| >= 2 && PieceOk(Requoted(p, v)) && IsQuote(p.text[0])
  {
    var q := Requoted(p, v).text;
    assert q[1..|q| - 1] == v;
    if p.text[0] == QUOTE {
      CloseDoubleQuote(p.text, 1);
      CloseDoublePlain(q, 1);
    } else {
      CloseSingleQuote(p.text, 1);
      CloseSinglePlain(q, 1);
    }
  }

  lemma StableRequoted(ps: seq<Piece>, k: nat, v: Text)
    requires Stable(ps) && k < |ps| && ps[k].kind == Quoted && Plain(v)
    ensures |ps[k].text| >= 2 && Stable(ps[k := Requoted(ps[k], v)])
  {
    hide PieceOk;
    assert PieceOk(ps[k]);
    RequotedOk(ps[k], v);
    var qs := ps[k := Requoted(ps[k], v)];
    assert qs[k].text[0] == ps[k].text[0];
    forall i | 0 <= i < |qs| - 1
      ensures qs[i].kind != Comment && (qs[i].kind == Word ==> qs[i + 1].text != [] && !WordCode(qs[i + 1].text[0])) {
      PieceNonempty(ps[i + 1]);
      assert ps[i].kind != Comment;
    }
  }

  lemma {:induction false} FlatConcat(a: seq<Piece>, b: seq<Piece>)
    ensures Flat(a + b) == Flat(a) + Flat(b)
  {
    if a == [] {
      assert a + b == b;
    } else {
      assert (a + b)[1..] == a[1..] + b;
      FlatConcat(a[1..], b);
    }
  }

  lemma SplitPieces(ps: seq<Piece>, k: nat)
    requires k < |ps|
    ensures ps == ps[..k] + [ps[k]] + ps[k + 1..]
  {
  }

  lemma FlatOne(p: Piece)
    ensures Flat([p]) == p.text
  {
    assert [p][1..] == [];
  }

  lemma FlatAt(ps: seq<Piece>, k: nat)
    requires k < |ps|
    ensures Flat(ps) == Flat(ps[..k]) + ps[k].text + Flat(ps[k + 1..])
  {
    hide Flat;
    SplitPieces(ps, k);
    FlatConcat(ps[..k] + [ps[k]], ps[k + 1..]);
    FlatConcat(ps[..k], [ps[k]]);
    FlatOne(ps[k]);
  }

  /** The text with the contents of piece `k` replaced, read again. */
  lemma RelexRequoted(s: Text, k: nat, v: Text)
    requires OneLine(s) && Tokens(Lex(s), 0).Some? && k < |Lex(s)| && Lex(s)[k].kind == Quoted && Plain(v)
    ensures var ps := Lex(s);
            && |ps[k].text| >= 2
            && var start := |Flat(ps[..k])|;
               && start + |ps[k].text| <= |s|
               && Lex(s[..start + 1] + v + s[start + |ps[k].text| - 1..]) == ps[k := Requoted(ps[k], v)]
  {
    hide Flat, Lex;
    var ps := Lex(s);
    LexStable(s);
    StableRequoted(ps, k, v);
    FlatLex(s);
    FlatAt(ps, k);
    var a, b := Flat(ps[..k]), Flat(ps[k + 1..]);
    var qs := ps[k := Requoted(ps[k], v)];
    FlatAt(qs, k);
    assert qs[..k] == ps[..k] && qs[k + 1..] == ps[k + 1..];
    Relex(qs);
    Spliced(a, ps[k].text, b, v);
  }

  lemma Spliced(a: Text, q: Text, b: Text, v: Text)
    requires |q| >= 2
    ensures var s := a + q + b;
            s[..|a| + 1] + v + s[|a| + |q| - 1..] == a + ([q[0]] + v + [q[|q| - 1]]) + b
  {
    var s := a + q + b;
    assert s[..|a| + 1] == a + [q[0]];
    assert s[|a| + |q| - 1..] == [q[|q| - 1]] + b;
    assert a + [q[0]] + v + ([q[|q| - 1]] + b) == a + ([q[0]] + v + [q[|q| - 1]]) + b;
  }

  // ----- tokens and fields -----

  lemma {:induction false} TokensSame(ps: seq<Piece>, k: nat, p: Piece, i: nat)
    requires k < |ps| && ps[k].kind == Quoted && p.kind == Quoted && i <= |ps|
    ensures Tokens(ps[k := p], i) == Tokens(ps, i)
    decreases |ps| - i
  {
    if i < |ps| { TokensSame(ps, k, p, i + 1); }
  }

  /** A quoted token is no bracket, comma or equals sign. */
  lemma QuotedIsNot(p: Piece, c: Code)
    requires p.text != [] && IsQuote(p.text[0]) && !IsQuote(c)
    ensures !Is(p, c)
  {
  }

  predicate Twins(a: Piece, b: Piece) {
    a.kind == Quoted && b.kind == Quoted && a.text != [] && b.text != [] && IsQuote(a.text[0]) && IsQuote(b.text[0])
  }

  lemma NestedSame(closing: seq<Code>, a: Piece, b: Piece)
    requires a == b || Twins(a, b)
    ensures Nested(closing, a) == Nested(closing, b) && Is(a, COMMA) == Is(b, COMMA)
  {
    if a != b {
      QuotedIsNot(a, OPEN);
      QuotedIsNot(b, OPEN);
    }
  }

  lemma {:induction false} FieldsSame(a: seq<Piece>, b: seq<Piece>, i: nat, lo: nat, closing: seq<Code>)
    requires |a| == |b| && lo <= i <= |a| && forall j :: 0 <= j < |a| ==> a[j] == b[j] || Twins(a[j], b[j])
    ensures Fields(a, i, lo, closing) == Fields(b, i, lo, closing)
    decreases |a| - i
  {
    hide Nested, Twins, Is;
    if i < |a| {
      NestedSame(closing, a[i], b[i]);
      var next := Nested(closing, a[i]);
      if next.Some? {
        FieldsSame(a, b, i + 1, i + 1, next.value);
        FieldsSame(a, b, i + 1, lo, next.value);
      }
    }
  }

  /** Fields follow one another. */
  predicate Apart(fields: seq<Range>) { forall i, j :: 0 <= i < j < |fields| ==> fields[i].hi <= fields[j].lo }

  lemma {:induction false} FieldsApart(toks: seq<Piece>, i: nat, lo: nat, closing: seq<Code>)
    requires lo <= i <= |toks|
    ensures Fields(toks, i, lo, closing).Some? ==> Apart(Fields(toks, i, lo, closing).value)
    decreases |toks| - i
  {
    hide Nested, Is;
    if i < |toks| {
      var next := Nested(closing, toks[i]);
      if next.Some? {
        FieldsApart(toks, i + 1, lo, next.value);
        FieldsApart(toks, i + 1, i + 1, next.value);
        if Is(toks[i], COMMA) && next.value == [] {
          var rest := Fields(toks, i + 1, i + 1, next.value);
          if rest.Some? { assert forall f :: f in rest.value ==> i + 1 <= f.lo; }
        }
      }
    }
  }

  predicate Inside(toks: seq<Piece>, fields: seq<Range>) { forall f :: f in fields ==> f.lo <= f.hi <= |toks| }

  /** The version fields are found where they were, if only a version token changes. */
  lemma {:induction false} VersionsSame(a: seq<Piece>, b: seq<Piece>, fields: seq<Range>, j: nat)
    requires |a| == |b| && Inside(a, fields) && j < |a| && (forall i :: 0 <= i < |a| && i != j ==> a[i] == b[i])
    requires a[j].kind == Quoted && b[j].kind == Quoted
    requires forall f :: f in fields ==> j < f.lo || f.hi <= j || (j == f.lo + 2 && f.hi == j + 1)
    ensures Versions(a, fields) == Versions(b, fields)
  {
    if fields != [] {
      var f := fields[0];
      assert f in fields;
      assert FieldOk(a, f) == FieldOk(b, f) && IsVersion(a, f) == IsVersion(b, f);
      assert forall g :: g in fields[1..] ==> g in fields;
      VersionsSame(a, b, fields[1..], j);
    }
  }

  /** A version token is the third of a field of three. */
  lemma {:induction false} VersionsIn(toks: seq<Piece>, fields: seq<Range>, j: nat)
    requires Inside(toks, fields) && Versions(toks, fields).Some? && j in Versions(toks, fields).value
    ensures exists f :: f in fields && j == f.lo + 2 && f.hi == j + 1 && toks[j].kind == Quoted
  {
    var f := fields[0];
    assert f in fields;
    if !(IsVersion(toks, f) && j == f.lo + 2) {
      assert j in Versions(toks, fields[1..]).value;
      assert forall g :: g in fields[1..] ==> g in fields;
      VersionsIn(toks, fields[1..], j);
    }
  }

  lemma DependencySame(toks: seq<Piece>, j: nat, p: Piece)
    requires Dependency(toks) == Some(j) && p.kind == Quoted && p.text != [] && IsQuote(p.text[0])
    requires forall i :: 0 <= i < |toks| && toks[i].kind == Quoted ==> toks[i].text != [] && IsQuote(toks[i].text[0])
    ensures 0 < j < |toks| - 1 && toks[j].kind == Quoted && Dependency(toks[j := p]) == Some(j)
  {
    hide Fields, Versions;
    var a := toks[..|toks| - 1];
    var fields := Fields(a, 1, 1, []).value;
    FieldsApart(a, 1, 1, []);
    VersionsIn(a, fields, j);
    var f :| f in fields && j == f.lo + 2 && f.hi == j + 1 && a[j].kind == Quoted;
    var b := a[j := p];
    assert toks[j := p][..|toks| - 1] == b;
    FieldsSame(a, b, 1, 1, []);
    forall g | g in fields
      ensures j < g.lo || g.hi <= j || (j == g.lo + 2 && g.hi == j + 1) { FieldsAround(fields, f, g, j); }
    VersionsSame(a, b, fields, j);
  }

  lemma FieldsAround(fields: seq<Range>, f: Range, g: Range, j: nat)
    requires Apart(fields) && f in fields && g in fields && j == f.lo + 2 && f.hi == j + 1 && g.lo <= g.hi
    ensures j < g.lo || g.hi <= j || (j == g.lo + 2 && g.hi == j + 1)
  {
    var m :| 0 <= m < |fields| && fields[m] == f;
    var n :| 0 <= n < |fields| && fields[n] == g;
    if m < n { assert fields[m].hi <= fields[n].lo; }
    if n < m { assert fields[n].hi <= fields[m].lo; }
  }
}
