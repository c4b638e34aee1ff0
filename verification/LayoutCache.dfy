/**
 The layout cache of `arrow-zero-copy.ts`: a fingerprint of the columns, and an
 insertion-ordered map that is kept in order of use and bounded in size.
 */
module LayoutCache {

  datatype Option<+T> = None | Some(value: T)

  type Unit = u: int | 0 <= u < 0x10000
  type Str = seq<Unit>

  const NUL: Unit := 0
  const SOH: Unit := 1

  const CACHE_LIMIT: nat := 128

  /** The part of a native column that its layout depends on. */
  datatype Column = Column(name: Str, kind: Str, nullable: bool, timezone: Option<Str>)

  function Codes(text: string): (s: Str)
    ensures |s| == |text|
  {
    seq(|text|, i requires 0 <= i < |text| => if text[i] as int < 0x10000 then text[i] as int else 0)
  }

  /** The kinds whose Arrow type is given the time zone. */
  const TIMESTAMPS: seq<Str> := [Codes("timestamp_ms"), Codes("timestamp_ns"), Codes("timestamp_s"),
                                 Codes("timestamp_us")]

  predicate IsTimestamp(c: Column) { c.kind in TIMESTAMPS }

  /** An Arrow field: what the constructors are given. */
  datatype Field = Field(name: Str, kind: Str, nullable: bool, timezone: Option<Str>)

  type Layout = seq<Field>

  /** `arrowType` passes the time zone on for timestamps only. */
  function FieldOf(c: Column): Field {
    Field(c.name, c.kind, c.nullable, if IsTimestamp(c) then c.timezone else None)
  }

  function LayoutOf(columns: seq<Column>): Layout {
    seq(|columns|, i requires 0 <= i < |columns| => FieldOf(columns[i]))
  }

  // ----- the fingerprint -----

  function Join(parts: seq<Str>, separator: Unit): Str {
    if parts == [] then []
    else if |parts| == 1 then parts[0]
    else parts[0] + [separator] + Join(parts[1..], separator)
  }

  function Parts(c: Column): seq<Str> {
    [c.name, c.kind, if c.nullable then [0x31] else [0x30], if c.timezone.Some? then c.timezone.value else []]
  }

  function ColumnPrint(c: Column): Str { Join(Parts(c), NUL) }

  function Fingerprint(columns: seq<Column>): Str {
    Join(seq(|columns|, i requires 0 <= i < |columns| => ColumnPrint(columns[i])), SOH)
  }

  predicate Free(s: Str, separator: Unit) { forall i :: 0 <= i < |s| ==> s[i] != separator }

  /** No separator in any text. */
  predicate Separated(c: Column) {
    && Free(c.name, NUL) && Free(c.name, SOH) && Free(c.kind, NUL) && Free(c.kind, SOH)
    && (c.timezone.Some? ==> Free(c.timezone.value, NUL) && Free(c.timezone.value, SOH))
  }

  /** The empty time zone counts as none. */
  function Blanked(c: Column): Column { if c.timezone == Some([]) then c.(timezone := None) else c }

  /** A timestamp with an empty time zone is the one kind of column that another can be mistaken for. */
  predicate Clean(c: Column) { Separated(c) && (IsTimestamp(c) ==> c.timezone != Some([])) }

  predicate AllClean(columns: seq<Column>) { forall i :: 0 <= i < |columns| ==> Clean(columns[i]) }

  /** Where the first part of a joined text ends. */
  lemma SplitUnique(a: Str, x: Str, b: Str, y: Str, separator: Unit)
    requires Free(a, separator) && Free(b, separator) && a + [separator] + x == b + [separator] + y
    ensures a == b && x == y
  {
    var s, t := a + [separator] + x, b + [separator] + y;
    assert s[|a|] == separator && t[|b|] == separator;
    SeparatorAt(a, x, separator, |b|);
    SeparatorAt(b, y, separator, |a|);
    assert a == s[..|a|] && b == t[..|b|];
    assert x == s[|a| + 1..] && y == t[|b| + 1..];
  }

  /** The first separator is the one after the first part. */
  lemma SeparatorAt(a: Str, x: Str, separator: Unit, k: nat)
    requires Free(a, separator) && k < |a + [separator] + x| && (a + [separator] + x)[k] == separator
    ensures k >= |a|
  {
  }

  predicate AllFree(parts: seq<Str>, separator: Unit) { forall i :: 0 <= i < |parts| ==> Free(parts[i], separator) }

  lemma {:induction false} JoinInjective(a: seq<Str>, b: seq<Str>, separator: Unit)
    requires a != [] && b != [] && AllFree(a, separator) && AllFree(b, separator)
             && Join(a, separator) == Join(b, separator)
    ensures a == b
    decreases |a|
  {
    hide Free;
    if |a| > 1 && |b| > 1 {
      SplitUnique(a[0], Join(a[1..], separator), b[0], Join(b[1..], separator), separator);
      JoinInjective(a[1..], b[1..], separator);
      assert a == [a[0]] + a[1..] && b == [b[0]] + b[1..];
    } else if |a| > 1 {
      NotFree(a[0], Join(a[1..], separator), separator);
    } else if |b| > 1 {
      NotFree(b[0], Join(b[1..], separator), separator);
    }
  }

  lemma NotFree(a: Str, x: Str, separator: Unit)
    ensures !Free(a + [separator] + x, separator)
  {
    assert (a + [separator] + x)[|a|] == separator;
  }

  lemma {:induction false} JoinFree(parts: seq<Str>, separator: Unit, other: Unit)
    requires AllFree(parts, other) && separator != other
    ensures Free(Join(parts, separator), other)
  {
    if |parts| > 1 { JoinFree(parts[1..], separator, other); }
  }

  lemma ColumnPrintInjective(a: Column, b: Column)
    requires Separated(a) && Separated(b) && ColumnPrint(a) == ColumnPrint(b)
    ensures Blanked(a) == Blanked(b)
  {
    hide Join;
    var p, q := Parts(a), Parts(b);
    JoinInjective(p, q, NUL);
    assert p[0] == q[0] && p[1] == q[1] && p[2] == q[2] && p[3] == q[3];
    assert [0x31][0] != [0x30][0];
  }

  lemma ColumnPrintExactly(a: Column, b: Column)
    requires Separated(a) && Separated(b)
    ensures ColumnPrint(a) == ColumnPrint(b) <==> Blanked(a) == Blanked(b)
  {
    hide Join;
    if ColumnPrint(a) == ColumnPrint(b) { ColumnPrintInjective(a, b); }
    assert Blanked(a) == Blanked(b) ==> Parts(a) == Parts(b);
  }

  lemma ColumnPrintFree(c: Column)
    requires Separated(c)
    ensures Free(ColumnPrint(c), SOH) && ColumnPrint(c) != []
  {
    JoinFree(Parts(c), NUL, SOH);
    assert |ColumnPrint(c)| > |c.name|;
  }

  predicate SameBlanked(a: seq<Column>, b: seq<Column>) {
    |a| == |b| && forall i :: 0 <= i < |a| ==> Blanked(a[i]) == Blanked(b[i])
  }

  /** Without separators, two fingerprints are equal exactly when the columns are, up to an empty time zone. */
  lemma FingerprintExactly(a: seq<Column>, b: seq<Column>)
    requires forall i :: 0 <= i < |a| ==> Separated(a[i])
    requires forall i :: 0 <= i < |b| ==> Separated(b[i])
    ensures Fingerprint(a) == Fingerprint(b) <==> SameBlanked(a, b)
  {
    hide Join, ColumnPrint, Separated, Blanked;
    var p := seq(|a|, i requires 0 <= i < |a| => ColumnPrint(a[i]));
    var q := seq(|b|, i requires 0 <= i < |b| => ColumnPrint(b[i]));
    forall i | 0 <= i < |a| ensures Free(p[i], SOH) && p[i] != [] { ColumnPrintFree(a[i]); }
    forall i | 0 <= i < |b| ensures Free(q[i], SOH) && q[i] != [] { ColumnPrintFree(b[i]); }
    forall i | 0 <= i < |a| && i < |b| ensures p[i] == q[i] <==> Blanked(a[i]) == Blanked(b[i]) {
      ColumnPrintExactly(a[i], b[i]);
    }
    if SameBlanked(a, b) {
      assert p == q;
    } else if Fingerprint(a) == Fingerprint(b) {
      JoinNonempty(p, SOH);
      JoinNonempty(q, SOH);
      JoinInjective(p, q, SOH);
    }
  }

  /** Both columns are timestamps, and exactly one of them has an empty time zone. */
  predicate Confused(a: Column, b: Column) {
    IsTimestamp(a) && IsTimestamp(b) && ((a.timezone == Some([])) != (b.timezone == Some([])))
  }

  lemma FieldsExactly(a: Column, b: Column)
    requires Blanked(a) == Blanked(b)
    ensures FieldOf(a) == FieldOf(b) <==> !Confused(a, b)
  {
    hide Codes;
  }

  /** Columns with equal fingerprints have equal layouts exactly when no two of them are confused. */
  lemma LayoutsAgreeExactly(a: seq<Column>, b: seq<Column>)
    requires forall i :: 0 <= i < |a| ==> Separated(a[i])
    requires forall i :: 0 <= i < |b| ==> Separated(b[i])
    requires Fingerprint(a) == Fingerprint(b)
    ensures |a| == |b| && (LayoutOf(a) == LayoutOf(b) <==> forall i :: 0 <= i < |a| ==> !Confused(a[i], b[i]))
  {
    hide Fingerprint, Separated, Blanked, Confused, FieldOf;
    FingerprintExactly(a, b);
    forall i | 0 <= i < |a| ensures FieldOf(a[i]) == FieldOf(b[i]) <==> !Confused(a[i], b[i]) {
      FieldsExactly(a[i], b[i]);
    }
    if LayoutOf(a) == LayoutOf(b) {
      forall i | 0 <= i < |a| ensures !Confused(a[i], b[i]) { assert LayoutOf(a)[i] == LayoutOf(b)[i]; }
    }
  }

  /** On clean columns the fingerprint identifies the layout. */
  lemma FingerprintIdentifies(a: seq<Column>, b: seq<Column>)
    requires AllClean(a) && AllClean(b)
    ensures Fingerprint(a) == Fingerprint(b) ==> LayoutOf(a) == LayoutOf(b)
  {
    hide Fingerprint, Separated, LayoutOf, Codes;
    assert forall i :: 0 <= i < |a| ==> Clean(a[i]);
    assert forall i :: 0 <= i < |b| ==> Clean(b[i]);
    if Fingerprint(a) == Fingerprint(b) { LayoutsAgreeExactly(a, b); }
  }

  lemma JoinNonempty(parts: seq<Str>, separator: Unit)
    requires forall i :: 0 <= i < |parts| ==> parts[i] != []
    ensures Join(parts, separator) == [] <==> parts == []
  {
  }

  /** A timestamp with an empty time zone and one with none: the layouts differ, the fingerprints do not. */
  lemma EmptyTimezoneCollides(name: Str, kind: Str, nullable: bool)
    requires kind in TIMESTAMPS
    ensures var a, b := [Column(name, kind, nullable, None)], [Column(name, kind, nullable, Some([]))];
            Fingerprint(a) == Fingerprint(b) && LayoutOf(a) != LayoutOf(b)
  {
    hide Codes;
    var a, b := [Column(name, kind, nullable, None)], [Column(name, kind, nullable, Some([]))];
    assert Parts(a[0]) == Parts(b[0]);
    assert seq(|a|, i requires 0 <= i < |a| => ColumnPrint(a[i]))
           == seq(|b|, i requires 0 <= i < |b| => ColumnPrint(b[i]));
    assert LayoutOf(a)[0] != LayoutOf(b)[0];
  }

  /** A name that holds the separators makes one column look like two. */
  lemma SeparatorCollides(a: Str, b: Str, kind: Str)
    ensures var one := [Column(a + [NUL] + kind + [NUL] + [0x30] + [NUL] + [SOH] + b, kind, false, None)];
            var two := [Column(a, kind, false, None), Column(b, kind, false, None)];
            Fingerprint(one) == Fingerprint(two) && LayoutOf(one) != LayoutOf(two)
  {
    hide Codes, FieldOf;
    var one := [Column(a + [NUL] + kind + [NUL] + [0x30] + [NUL] + [SOH] + b, kind, false, None)];
    var two := [Column(a, kind, false, None), Column(b, kind, false, None)];
    PrintOf(one[0]);
    PrintOf(two[0]);
    PrintOf(two[1]);
    var prints := seq(|two|, i requires 0 <= i < |two| => ColumnPrint(two[i]));
    assert prints == [ColumnPrint(two[0]), ColumnPrint(two[1])];
    JoinTwo(ColumnPrint(two[0]), ColumnPrint(two[1]), SOH);
    assert seq(|one|, i requires 0 <= i < |one| => ColumnPrint(one[i])) == [ColumnPrint(one[0])];
    hide ColumnPrint;
    var tail := [NUL] + kind + [NUL] + [0x30] + [NUL];
    assert ColumnPrint(one[0]) == a + tail + ([SOH] + (b + tail));
    assert |LayoutOf(one)| != |LayoutOf(two)|;
  }

  lemma PrintOf(c: Column)
    requires !c.nullable && c.timezone.None?
    ensures ColumnPrint(c) == c.name + ([NUL] + c.kind + [NUL] + [0x30] + [NUL])
  {
    var p := Parts(c);
    assert p[1..][1..] == p[2..] && p[2..][1..] == p[3..];
    assert Join(p[3..], NUL) == [];
    assert Join(p[2..], NUL) == [0x30] + [NUL] + [];
    assert Join(p[1..], NUL) == c.kind + [NUL] + ([0x30] + [NUL]);
    assert Join(p, NUL) == c.name + [NUL] + (c.kind + [NUL] + ([0x30] + [NUL]));
  }

  lemma JoinTwo(a: Str, b: Str, separator: Unit)
    ensures Join([a, b], separator) == a + [separator] + b
  {
    assert [a, b][1..] == [b];
  }

  // ----- the cache -----

  datatype Entry = Entry(key: Str, layout: Layout)

  /** The map in insertion order, oldest first. */
  type Cache = seq<Entry>

  function Keys(cache: Cache): seq<Str> { seq(|cache|, i requires 0 <= i < |cache| => cache[i].key) }

  function Find(cache: Cache, key: Str): (r: Option<nat>)
    ensures r.Some? ==> r.value < |cache| && cache[r.value].key == key
    ensures r.None? ==> forall i :: 0 <= i < |cache| ==> cache[i].key != key
  {
    if cache == [] then None
    else if cache[0].key == key then Some(0)
    else
      var r := Find(cache[1..], key);
      if r.Some? then Some(r.value + 1) else None
  }

  function Looked(cache: Cache, columns: seq<Column>): (Cache, Layout) {
    var key := Fingerprint(columns);
    var i := Find(cache, key);
    if i.Some? then (cache[..i.value] + cache[i.value + 1..] + [cache[i.value]], cache[i.value].layout)
    else
      var room := if |cache| >= CACHE_LIMIT then cache[1..] else cache;
      (room + [Entry(key, LayoutOf(columns))], LayoutOf(columns))
  }

  class LayoutCacheMap {
    var entries: Cache

    constructor ()
      ensures entries == []
    {
      entries := [];
    }

    method CachedLayout(columns: seq<Column>) returns (layout: Layout)
      modifies this
      ensures (entries, layout) == Looked(old(entries), columns)
    {
      var fingerprint := Fingerprint(columns);
      var i := Find(entries, fingerprint);
      if i.Some? {
        var cached := entries[i.value];
        entries := entries[..i.value] + entries[i.value + 1..];
        entries := entries + [cached];
        return cached.layout;
      }
      var created := LayoutOf(columns);
      if |entries| >= CACHE_LIMIT {
        entries := entries[1..];
      }
      entries := entries + [Entry(fingerprint, created)];
      return created;
    }
  }

  // ----- every sequence of lookups -----

  function After(calls: seq<seq<Column>>): Cache {
    if calls == [] then [] else Looked(After(calls[..|calls| - 1]), calls[|calls| - 1]).0
  }

  function Without<T(==)>(keys: seq<T>, key: T): seq<T> {
    if keys == [] then []
    else if keys[0] == key then Without(keys[1..], key)
    else [keys[0]] + Without(keys[1..], key)
  }

  /** The distinct fingerprints in order of their last use. */
  function Recency(calls: seq<seq<Column>>): seq<Str> {
    if calls == [] then []
    else
      var key := Fingerprint(calls[|calls| - 1]);
      Without(Recency(calls[..|calls| - 1]), key) + [key]
  }

  function Last<T>(keys: seq<T>, n: nat): seq<T> { if |keys| <= n then keys else keys[|keys| - n..] }

  predicate Distinct<T(==)>(keys: seq<T>) { forall i, j :: 0 <= i < j < |keys| ==> keys[i] != keys[j] }

  lemma {:induction false} WithoutConcat<T>(a: seq<T>, b: seq<T>, key: T)
    ensures Without(a + b, key) == Without(a, key) + Without(b, key)
  {
    if a == [] {
      assert a + b == b;
    } else {
      assert (a + b)[1..] == a[1..] + b;
      WithoutConcat(a[1..], b, key);
    }
  }

  lemma {:induction false} WithoutAbsent<T>(keys: seq<T>, key: T)
    ensures key !in keys ==> Without(keys, key) == keys
    ensures key !in Without(keys, key)
    ensures forall k :: k in Without(keys, key) ==> k in keys
    ensures |Without(keys, key)| <= |keys|
    ensures Distinct(keys) ==> Distinct(Without(keys, key))
  {
    if keys != [] {
      WithoutAbsent(keys[1..], key);
      assert keys == [keys[0]] + keys[1..];
      if Distinct(keys) {
        assert keys[0] !in keys[1..];
        assert Distinct(keys[1..]);
      }
    }
  }

  lemma {:induction false} RecencyDistinct(calls: seq<seq<Column>>)
    ensures Distinct(Recency(calls))
  {
    if calls != [] {
      RecencyDistinct(calls[..|calls| - 1]);
      WithoutAbsent(Recency(calls[..|calls| - 1]), Fingerprint(calls[|calls| - 1]));
    }
  }

  lemma WithoutFirst<T>(key: T, b: seq<T>)
    ensures Without([key] + b, key) == Without(b, key)
  {
    assert ([key] + b)[1..] == b;
  }

  lemma OnlyThere<T>(keys: seq<T>, i: nat)
    requires Distinct(keys) && i < |keys|
    ensures keys[i] !in keys[..i] && keys[i] !in keys[i + 1..]
  {
  }

  /** A key that is there once is taken out of its place. */
  lemma WithoutAt<T>(keys: seq<T>, i: nat)
    requires Distinct(keys) && i < |keys|
    ensures Without(keys, keys[i]) == keys[..i] + keys[i + 1..]
  {
    hide Without, Distinct;
    var a, b, key := keys[..i], keys[i + 1..], keys[i];
    assert keys == a + ([key] + b);
    WithoutConcat(a, [key] + b, key);
    WithoutFirst(key, b);
    OnlyThere(keys, i);
    WithoutAbsent(a, key);
    WithoutAbsent(b, key);
  }

  lemma KeysMoved(cache: Cache, i: nat)
    requires i < |cache|
    ensures Keys(cache[..i] + cache[i + 1..] + [cache[i]]) == Keys(cache)[..i] + Keys(cache)[i + 1..] + [cache[i].key]
  {
    hide Keys;
    KeysConcat(cache[..i], cache[i + 1..]);
    KeysConcat(cache[..i] + cache[i + 1..], [cache[i]]);
    KeysSlice(cache, i);
    KeysSlice(cache, i + 1);
  }

  lemma KeysAdded(cache: Cache, entry: Entry)
    ensures var room := if |cache| >= CACHE_LIMIT then cache[1..] else cache;
            Keys(room + [entry]) == (if |cache| >= CACHE_LIMIT then Keys(cache)[1..] else Keys(cache)) + [entry.key]
  {
    hide Keys;
    KeysConcat(if |cache| >= CACHE_LIMIT then cache[1..] else cache, [entry]);
    if |cache| >= CACHE_LIMIT { KeysSlice(cache, 1); }
  }

  lemma KeysLooked(cache: Cache, columns: seq<Column>)
    ensures var key := Fingerprint(columns);
            var i := Find(cache, key);
            Keys(Looked(cache, columns).0)
            == if i.Some? then Keys(cache)[..i.value] + Keys(cache)[i.value + 1..] + [key]
               else (if |cache| >= CACHE_LIMIT then Keys(cache)[1..] else Keys(cache)) + [key]
  {
    hide Fingerprint, LayoutOf, Keys, Looked;
    var i := Find(cache, Fingerprint(columns));
    LookedParts(cache, columns);
    hide Find;
    if i.Some? {
      KeysMoved(cache, i.value);
    } else {
      KeysAdded(cache, Entry(Fingerprint(columns), LayoutOf(columns)));
    }
  }

  lemma LookedParts(cache: Cache, columns: seq<Column>)
    ensures var i := Find(cache, Fingerprint(columns));
            Looked(cache, columns).0
            == if i.Some? then cache[..i.value] + cache[i.value + 1..] + [cache[i.value]]
               else (if |cache| >= CACHE_LIMIT then cache[1..] else cache)
                    + [Entry(Fingerprint(columns), LayoutOf(columns))]
  {
    hide Fingerprint, LayoutOf, Find;
  }

  lemma KeysConcat(a: Cache, b: Cache)
    ensures Keys(a + b) == Keys(a) + Keys(b)
    ensures |b| == 1 ==> Keys(b) == [b[0].key]
  {
  }

  lemma KeysSlice(a: Cache, i: nat)
    requires i <= |a|
    ensures Keys(a[..i]) == Keys(a)[..i] && Keys(a[i..]) == Keys(a)[i..]
  {
  }

  lemma LastSplit<T>(all: seq<T>, n: nat)
    ensures var kept := Last(all, n); var front := all[..|all| - |kept|];
            all == front + kept && (|kept| < n ==> front == [])
  {
  }

  /** A key among the last `n` moves to the end. */
  lemma HitParts<T>(front: seq<T>, kept: seq<T>, key: T, n: nat)
    requires (|kept| == n || (|kept| < n && front == [])) && Distinct(front + kept) && key in kept
    ensures Last(Without(front + kept, key) + [key], n) == Without(kept, key) + [key]
  {
    hide Without, Last, Distinct;
    var i :| 0 <= i < |kept| && kept[i] == key;
    KeptOnce(front, kept, i);
    WithoutConcat(front, kept, key);
    WithoutAbsent(front, key);
    WithoutAt(kept, i);
    var moved := Without(kept, key) + [key];
    assert |moved| == |kept|;
    Associate(front, Without(kept, key), [key]);
    LastOf(front, moved, n);
  }

  lemma Associate<T>(a: seq<T>, b: seq<T>, c: seq<T>)
    ensures a + b + c == a + (b + c)
  {
  }

  /** Any other key is added, and pushes out the oldest if there are `n` already. */
  lemma MissParts<T>(front: seq<T>, kept: seq<T>, key: T, n: nat)
    requires n > 0 && (|kept| == n || (|kept| < n && front == [])) && key !in kept
    ensures Last(Without(front + kept, key) + [key], n) == (if |kept| >= n then kept[1..] else kept) + [key]
  {
    hide Without, Last;
    WithoutConcat(front, kept, key);
    WithoutAbsent(kept, key);
    WithoutAbsent(front, key);
    var rest := Without(front, key);
    if |kept| < n {
      assert rest == [];
      assert rest + kept == kept;
      LastOf([], kept + [key], n);
      assert [] + (kept + [key]) == kept + [key];
    } else {
      var tail := kept[1..];
      assert kept == [kept[0]] + tail;
      assert rest + kept + [key] == (rest + [kept[0]]) + (tail + [key]);
      LastOf(rest + [kept[0]], tail + [key], n);
    }
  }

  lemma LastMoves<T>(all: seq<T>, key: T, n: nat)
    requires Distinct(all) && n > 0
    ensures var kept := Last(all, n);
            Last(Without(all, key) + [key], n)
            == if key in kept then Without(kept, key) + [key] else (if |kept| >= n then kept[1..] else kept) + [key]
  {
    LastSplit(all, n);
    var kept := Last(all, n);
    var front := all[..|all| - |kept|];
    assert |kept| <= n;
    hide Last, Without, Distinct;
    if key in kept { HitParts(front, kept, key, n); } else { MissParts(front, kept, key, n); }
  }

  lemma KeptOnce<T>(front: seq<T>, kept: seq<T>, i: nat)
    requires Distinct(front + kept) && i < |kept|
    ensures kept[i] !in front && Distinct(kept)
  {
    var all := front + kept;
    assert all[|front| + i] == kept[i];
    forall j | 0 <= j < |front| ensures front[j] != kept[i] { assert all[j] == front[j]; }
    forall a, b | 0 <= a < b < |kept|
      ensures kept[a] != kept[b] { assert all[|front| + a] == kept[a] && all[|front| + b] == kept[b]; }
  }

  lemma LastOf<T>(a: seq<T>, b: seq<T>, n: nat)
    requires |b| == n || (|b| <= n && a == [])
    ensures Last(a + b, n) == b
  {
    assert a == [] ==> a + b == b;
  }

  /** The cached keys are the most recently used distinct fingerprints, in order of use. */
  lemma {:induction false} LeastRecentlyUsed(calls: seq<seq<Column>>)
    ensures Keys(After(calls)) == Last(Recency(calls), CACHE_LIMIT)
  {
    if calls != [] {
      var before, columns := calls[..|calls| - 1], calls[|calls| - 1];
      var cache, key := After(before), Fingerprint(columns);
      LeastRecentlyUsed(before);
      RecencyDistinct(before);
      KeysLooked(cache, columns);
      LastMoves(Recency(before), key, CACHE_LIMIT);
      var i := Find(cache, key);
      var kept := Keys(cache);
      if i.Some? {
        assert kept[i.value] == key;
        WithoutAt(kept, i.value);
      } else {
        assert key !in kept;
      }
    }
  }

  /** What the cache holds was computed from columns of `all` with that fingerprint. */
  ghost predicate Faithful(cache: Cache, all: iset<seq<Column>>) {
    forall i :: 0 <= i < |cache| ==> exists columns ::
      columns in all && cache[i] == Entry(Fingerprint(columns), LayoutOf(columns))
  }

  /** Equal fingerprints mean equal layouts. */
  ghost predicate Compatible(all: iset<seq<Column>>) {
    forall a, b :: a in all && b in all && Fingerprint(a) == Fingerprint(b) ==> LayoutOf(a) == LayoutOf(b)
  }

  lemma LookedFaithful(cache: Cache, columns: seq<Column>, all: iset<seq<Column>>)
    requires Compatible(all) && Faithful(cache, all) && columns in all
    ensures Looked(cache, columns).1 == LayoutOf(columns) && Faithful(Looked(cache, columns).0, all)
  {
    hide Fingerprint, LayoutOf;
    var i := Find(cache, Fingerprint(columns));
    if i.Some? {
      var other :| other in all && cache[i.value] == Entry(Fingerprint(other), LayoutOf(other));
    } else {
      assert Entry(Fingerprint(columns), LayoutOf(columns)) == Entry(Fingerprint(columns), LayoutOf(columns));
    }
  }

  /** Every lookup returns the layout that a fresh computation would. */
  ghost predicate AllFresh(calls: seq<seq<Column>>) {
    forall i :: 0 <= i < |calls| ==> Looked(After(calls[..i]), calls[i]).1 == LayoutOf(calls[i])
  }

  ghost predicate DrawnFrom(calls: seq<seq<Column>>, all: iset<seq<Column>>) {
    forall i :: 0 <= i < |calls| ==> calls[i] in all
  }

  lemma {:induction false} LookupsFaithful(calls: seq<seq<Column>>, all: iset<seq<Column>>)
    requires Compatible(all) && DrawnFrom(calls, all)
    ensures Faithful(After(calls), all) && AllFresh(calls)
  {
    hide Looked, LayoutOf, Compatible, Faithful, AllFresh;
    if calls == [] {
      NothingLooked(all);
    } else {
      var n := |calls| - 1;
      LookupsFaithful(calls[..n], all);
      LookedFaithful(After(calls[..n]), calls[n], all);
      FreshMore(calls[..n], calls[n]);
      assert calls == calls[..n] + [calls[n]];
    }
  }

  lemma NothingLooked(all: iset<seq<Column>>)
    ensures Faithful(After([]), all) && AllFresh([])
  {
  }

  lemma FreshMore(calls: seq<seq<Column>>, last: seq<Column>)
    requires AllFresh(calls) && Looked(After(calls), last).1 == LayoutOf(last)
    ensures AllFresh(calls + [last])
  {
    hide Looked, LayoutOf, After;
    var all := calls + [last];
    forall i | 0 <= i < |all| ensures Looked(After(all[..i]), all[i]).1 == LayoutOf(all[i]) {
      if i < |calls| { assert all[..i] == calls[..i]; } else { assert all[..i] == calls; }
    }
  }

  /** The second lookup of a pair is fresh exactly when the pair is compatible. */
  lemma SecondLookup(a: seq<Column>, b: seq<Column>)
    ensures Looked(After([a]), b).1 == LayoutOf(b) <==>
              (Fingerprint(a) == Fingerprint(b) ==> LayoutOf(a) == LayoutOf(b))
  {
    hide Fingerprint, LayoutOf;
    assert [a][..0] == [];
    assert After([a]) == [Entry(Fingerprint(a), LayoutOf(a))];
  }

  /**
   Lookups of columns from `all` are fresh in every sequence if and only if no two of them
   share a fingerprint but not a layout.
   */
  lemma FreshExactly(all: iset<seq<Column>>)
    ensures (forall calls :: DrawnFrom(calls, all) ==> AllFresh(calls)) <==> Compatible(all)
  {
    hide Looked, Fingerprint, LayoutOf;
    if Compatible(all) {
      forall calls | DrawnFrom(calls, all) ensures AllFresh(calls) { LookupsFaithful(calls, all); }
    }
    if forall calls :: DrawnFrom(calls, all) ==> AllFresh(calls) {
      forall a, b | a in all && b in all && Fingerprint(a) == Fingerprint(b) ensures LayoutOf(a) == LayoutOf(b) {
        var calls := [a, b];
        assert DrawnFrom(calls, all) && AllFresh(calls);
        assert calls[..1] == [a];
        assert Looked(After(calls[..1]), calls[1]).1 == LayoutOf(calls[1]);
        SecondLookup(a, b);
      }
    }
  }

  /** In any sequence of lookups of clean columns, each returns the layout that a fresh computation would. */
  lemma LookupsAreFresh(calls: seq<seq<Column>>)
    requires forall i :: 0 <= i < |calls| ==> AllClean(calls[i])
    ensures AllFresh(calls)
  {
    hide AllFresh, Fingerprint, LayoutOf, AllClean;
    var all := iset columns | AllClean(columns);
    forall a, b | a in all && b in all && Fingerprint(a) == Fingerprint(b) ensures LayoutOf(a) == LayoutOf(b) {
      FingerprintIdentifies(a, b);
    }
    LookupsFaithful(calls, all);
  }
}
