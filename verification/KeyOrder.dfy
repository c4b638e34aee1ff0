/**
 In which order keys are emitted: those of the priority list first and in its order,
 then the other keys as they are enumerated, up to where the loop gave up; each key once.
 */
module KeyOrder {
  import opened JsText
  import opened Json
  import opened JsHeap
  import opened ResultTypes
  import opened FieldExceptions
  import opened Entitlements
  import opened Projection
  import opened Honesty

  predicate Distinct(props: seq<Member>) {
    forall i, j :: 0 <= i < j < |props| ==> props[i].key != props[j].key
  }

  function KeysOf(props: seq<Member>): seq<Str> {
    seq(|props|, i requires 0 <= i < |props| => props[i].key)
  }

  /** The keys occur in the order of the list; with distinct keys, as a subsequence of it. */
  predicate Follows(keys: seq<Str>, list: seq<Str>)
    decreases |keys| + |list|
  {
    || keys == []
    || (list != [] && if keys[0] == list[0] then Follows(keys[1..], list) else Follows(keys, list[1..]))
  }

  lemma {:induction false} FollowsDrop(keys: seq<Str>, list: seq<Str>)
    requires keys != [] && Follows(keys, list)
    ensures Follows(keys[1..], list)
    decreases |keys| + |list|
  {
    if keys[0] != list[0] {
      FollowsDrop(keys, list[1..]);
      FollowsMore(keys[1..], list);
    }
  }

  lemma {:induction false} FollowsMore(keys: seq<Str>, list: seq<Str>)
    requires list != [] && Follows(keys, list[1..])
    ensures Follows(keys, list)
    decreases |keys| + |list|
  {
    if keys != [] && keys[0] == list[0] {
      FollowsDrop(keys, list[1..]);
      FollowsMore(keys[1..], list);
    }
  }

  lemma {:induction false} FollowsConcat(a: seq<Str>, b: seq<Str>, first: seq<Str>, second: seq<Str>)
    requires Follows(a, first) && Follows(b, second)
    ensures Follows(a + b, first + second)
    decreases |a| + |first|
  {
    if first == [] {
      assert a + b == b && first + second == second;
    } else if a != [] && a[0] == first[0] {
      FollowsConcat(a[1..], b, first, second);
      assert (a + b)[1..] == a[1..] + b;
    } else {
      FollowsConcat(a, b, first[1..], second);
      assert (first + second)[1..] == first[1..] + second;
      FollowsMore(a + b, first + second);
    }
  }

  lemma {:induction false} FollowsIn(keys: seq<Str>, list: seq<Str>)
    requires Follows(keys, list)
    ensures forall k :: k in keys ==> k in list
    decreases |keys| + |list|
  {
    if keys != [] {
      if keys[0] == list[0] { FollowsIn(keys[1..], list); } else { FollowsIn(keys, list[1..]); }
    }
  }

  // ----- one property -----

  /** What one property adds: nothing, itself, or the entitlements with their summary. */
  ghost predicate AddsOne(key: Str, acc: Acc, acc': Acc) {
    exists added: seq<Member> ::
      acc'.props == acc.props + added && (KeysOf(added) <= [key] || EidKeys(key, KeysOf(added)))
  }

  predicate EidKeys(key: Str, added: seq<Str>) {
    key == EID_DATA && (added == [EID_DATA, EID_DATA_TRUNCATION] || added == [EID_DATA_TRUNCATION])
  }

  lemma AddsMembers(key: Str, acc: Acc, acc': Acc, added: seq<Member>)
    requires acc'.props == acc.props + added && (KeysOf(added) <= [key] || EidKeys(key, KeysOf(added)))
    ensures AddsOne(key, acc, acc')
  {
  }

  predicate KeepsDistinct(acc: Acc, acc': Acc) {
    Distinct(acc.props) ==> Distinct(acc'.props)
  }

  lemma AppendAdds(acc: Acc, key: Str, built: Built, budget: int, s: State)
    requires built.Built?
    ensures var o := Append(acc, key, built, budget, s).acc;
            && KeepsDistinct(acc, o) && (o == acc || o.props == acc.props + [Member(key, built.value)])
            && AddsOne(key, acc, o)
  {
    hide StringSize, AddsOne, Ascii;
    AddsMembers(key, acc, acc, []);
    var o := Append(acc, key, built, budget, s).acc;
    if o != acc { AddsMembers(key, acc, o, [Member(key, built.value)]); }
  }

  lemma PropertyAdds(w: World, source: Node, key: Str, acc: Acc, budget: int, s: State, depth: nat, rowLimit: nat)
    requires Left(s) >= 0
    ensures var o := BuildProperty(w, source, key, acc, budget, s, depth, rowLimit);
            AddsOne(key, acc, o.acc) && KeepsDistinct(acc, o.acc)
  {
    hide Ascii, BuildStored, BuildOwn, StoredExceptions, StringSize, Distinct, AddsOne;
    AddsMembers(key, acc, acc, []);
    var slot, raw := Lookup(source.props, key), StoredExceptions(w, source, key);
    var childBudget := budget - acc.byteLength - CommaSize(acc.props) - 1 - StringSize(key);
    if childBudget >= 2 {
      if raw.Raw? { StoredAdds(w, raw.text, key, acc, budget, childBudget, s, depth); }
      if slot.Some? { OwnAdds(w, source, key, slot.value, acc, budget, childBudget, s, depth, rowLimit); }
    }
  }

  lemma StoredAdds(w: World, raw: Str, key: Str, acc: Acc, budget: int, childBudget: int, s: State, depth: nat)
    requires Left(s) >= 0
    ensures var o := BuildStored(w, raw, key, acc, budget, childBudget, s, depth);
            AddsOne(key, acc, o.acc) && KeepsDistinct(acc, o.acc)
  {
    hide Ascii, BuildRaw, Append, Remember, Distinct, AddsOne;
    AddsMembers(key, acc, acc, []);
    var r := BuildRaw(w, raw, childBudget, s.(inDiagnostics := true), depth + 1);
    if r.RawBuilt? {
      AppendAdds(acc, key, Built(r.byteLength, r.value), budget, r.st.(inDiagnostics := s.inDiagnostics));
    }
  }

  lemma OwnAdds(w: World, source: Node, key: Str, slot: Slot, acc: Acc, budget: int, childBudget: int, s: State,
                depth: nat, rowLimit: nat)
    requires Left(s) >= 0 && childBudget >= 2
    ensures var o := BuildOwn(w, source, key, slot, acc, budget, childBudget, s, depth, rowLimit);
            AddsOne(key, acc, o.acc) && KeepsDistinct(acc, o.acc)
  {
    hide Ascii, BuildChild, BuildEntitlement, Inspect, Append, Distinct, AddsOne;
    AddsMembers(key, acc, acc, []);
    var i := Inspect(w, key, slot, s);
    if !s.inDiagnostics && key == EID_DATA {
      EntitlementAdds(w, source, i.value, acc, budget, childBudget, i.st, depth);
    } else {
      var o := BuildChild(w, key, i.value, childBudget, i.st, depth, rowLimit);
      if o.built.Built? { AppendAdds(acc, key, o.built, budget, o.st); }
    }
  }

  lemma EntitlementAdds(w: World, source: Node, v: Value, acc: Acc, budget: int, childBudget: int, s: State, depth: nat)
    requires Left(s) >= 0
    ensures var o := BuildEntitlement(w, source, v, acc, budget, childBudget, s, depth);
            AddsOne(EID_DATA, acc, o.acc) && KeepsDistinct(acc, o.acc)
  {
    hide Ascii, BuildValue, Append, PrepareEidData, EmittedSummary, EidRecord, SummaryJson, Embed, StringSize, Distinct,
         AddsOne;
    AddsMembers(EID_DATA, acc, acc, []);
    var prepared := PrepareEidData(w, v, s);
    var o := BuildValue(w, Embed(EidRecord(prepared.data)), Max(2, childBudget / 3), prepared.st, depth + 1,
                        MAX_ENTITLEMENT_EIDS, false);
    if o.built.Built? {
      AppendAdds(acc, EID_DATA, o.built, budget, o.st);
      var p := Append(acc, EID_DATA, o.built, budget, o.st);
      var summary := EmittedSummary(w, source, o.built.value, prepared);
      if summary.Some? {
        var summaryBudget := budget - p.acc.byteLength - CommaSize(p.acc.props) - StringSize(EID_DATA_TRUNCATION) - 1;
        var u := BuildValue(w, Embed(SummaryJson(summary.value)), summaryBudget, p.st, depth + 1, MAX_EID_SECURITIES,
                            false);
        if u.built.Built? {
          AppendAdds(p.acc, EID_DATA_TRUNCATION, u.built, budget, u.st);
          BothAdd(acc, p.acc, Append(p.acc, EID_DATA_TRUNCATION, u.built, budget, u.st).acc, o.built.value,
                  u.built.value);
        }
      }
    }
  }

  lemma BothAdd(acc: Acc, p: Acc, q: Acc, j: Json, k: Json)
    requires p == acc || p.props == acc.props + [Member(EID_DATA, j)]
    requires q == p || q.props == p.props + [Member(EID_DATA_TRUNCATION, k)]
    ensures AddsOne(EID_DATA, acc, q)
  {
    hide Ascii, AddsOne;
    var first := if p == acc then [] else [Member(EID_DATA, j)];
    var second := if q == p then [] else [Member(EID_DATA_TRUNCATION, k)];
    AddsMembers(EID_DATA, acc, q, first + second);
  }

  // ----- the property loops -----

  /** What the loop over `keys` adds comes in their order. */
  ghost predicate Adds(keys: seq<Str>, acc: Acc, acc': Acc) {
    acc.props <= acc'.props && Follows(KeysOf(acc'.props[|acc.props|..]), keys)
  }

  /** The entitlements bring their summary along, whose key comes next in the list. */
  predicate Paired(keys: seq<Str>) {
    forall i :: 0 <= i < |keys| && keys[i] == EID_DATA ==> i + 1 < |keys| && keys[i + 1] == EID_DATA_TRUNCATION
  }

  lemma EidKeysDiffer()
    ensures EID_DATA != EID_DATA_TRUNCATION && EID_DATA_TRUNCATION != FIELD_EXCEPTIONS
  {
    assert |EID_DATA| == 7 && |EID_DATA_TRUNCATION| == 17 && |FIELD_EXCEPTIONS| == 15;
  }

  lemma OneFollows(added: seq<Str>, rest: seq<Str>, keys: seq<Str>)
    requires keys != [] && (added <= [keys[0]] || EidKeys(keys[0], added)) && Paired(keys) && Follows(rest, keys[1..])
    ensures Follows(added + rest, keys)
  {
    EidKeysDiffer();
    hide Ascii;
    FollowsMore(rest, keys);
    if added == [] {
      assert added + rest == rest;
    } else if |added| == 1 {
      assert (added + rest)[1..] == rest;
      assert added[0] != keys[0] ==> keys[1..][0] == EID_DATA_TRUNCATION == added[0];
    } else {
      var one := [EID_DATA_TRUNCATION] + rest;
      assert (added + rest)[1..] == one && one[1..] == rest;
    }
  }

  lemma AddsMore(keys: seq<Str>, acc: Acc, p: Acc, q: Acc)
    requires keys != [] && Paired(keys) && AddsOne(keys[0], acc, p) && Adds(keys[1..], p, q)
    ensures Adds(keys, acc, q)
  {
    hide Ascii, Follows, EidKeys;
    var added :| p.props == acc.props + added && (KeysOf(added) <= [keys[0]] || EidKeys(keys[0], KeysOf(added)));
    var rest := q.props[|p.props|..];
    OneFollows(KeysOf(added), KeysOf(rest), keys);
    assert q.props[|acc.props|..] == added + rest;
    assert KeysOf(added + rest) == KeysOf(added) + KeysOf(rest);
  }

  lemma AddsPrefix(keys: seq<Str>, acc: Acc, p: Acc)
    requires keys != [] && Paired(keys) && AddsOne(keys[0], acc, p)
    ensures Adds(keys, acc, p)
  {
    hide Ascii, AddsOne, Paired;
    assert KeysOf(p.props[|p.props|..]) == [];
    AddsMore(keys, acc, p, p);
  }

  lemma {:induction false} KeysAdd(w: World, node: Node, keys: seq<Str>, stop: bool, acc: Acc, budget: int, s: State,
                                   depth: nat, rowLimit: nat)
    requires Left(s) >= 0 && Paired(keys)
    ensures var o := BuildKeys(w, node, keys, stop, acc, budget, s, depth, rowLimit);
            Adds(keys, acc, o.acc) && KeepsDistinct(acc, o.acc)
    decreases |keys|
  {
    hide BuildProperty, AddsOne, Distinct, Paired, Adds;
    if keys == [] {
      NothingAdded(acc);
    } else {
      var p := BuildProperty(w, node, keys[0], acc, budget, s, depth, rowLimit);
      PropertyAdds(w, node, keys[0], acc, budget, s, depth, rowLimit);
      AddsPrefix(keys, acc, p.acc);
      PairedRest(keys);
      var t := if p.ok then p.st else p.st.(omittedProperties := p.st.omittedProperties + 1);
      if p.ok || !stop {
        KeysAdd(w, node, keys[1..], stop, p.acc, budget, t, depth, rowLimit);
        AddsMore(keys, acc, p.acc, BuildKeys(w, node, keys[1..], stop, p.acc, budget, t, depth, rowLimit).acc);
      }
    }
  }

  lemma {:induction false} KeysGrow(w: World, node: Node, keys: seq<Str>, stop: bool, acc: Acc, budget: int, s: State,
                                    depth: nat, rowLimit: nat)
    requires Left(s) >= 0
    ensures acc.props <= BuildKeys(w, node, keys, stop, acc, budget, s, depth, rowLimit).acc.props
    decreases |keys|
  {
    hide BuildProperty, EidKeys, Distinct;
    if keys != [] {
      var p := BuildProperty(w, node, keys[0], acc, budget, s, depth, rowLimit);
      PropertyAdds(w, node, keys[0], acc, budget, s, depth, rowLimit);
      var t := if p.ok then p.st else p.st.(omittedProperties := p.st.omittedProperties + 1);
      KeysGrow(w, node, keys[1..], stop, p.acc, budget, t, depth, rowLimit);
    }
  }

  lemma NothingAdded(acc: Acc)
    ensures Adds([], acc, acc)
  {
    assert KeysOf(acc.props[|acc.props|..]) == [];
  }

  lemma PairedRest(keys: seq<Str>)
    requires keys != [] && Paired(keys)
    ensures Paired(keys[1..])
  {
    hide Ascii;
    forall i | 0 <= i < |keys[1..]| && keys[1..][i] == EID_DATA
      ensures i + 1 < |keys[1..]| && keys[1..][i + 1] == EID_DATA_TRUNCATION
    {
      assert keys[i + 1] == EID_DATA;
    }
  }

  // ----- the key lists -----

  lemma {:induction false} FilterPaired(keys: seq<Str>, keep: Str -> bool)
    requires Paired(keys) && (keep(EID_DATA) ==> keep(EID_DATA_TRUNCATION))
    ensures Paired(Filter(keys, keep))
  {
    hide Ascii;
    if keys != [] {
      PairedRest(keys);
      FilterPaired(keys[1..], keep);
      if keep(keys[0]) { FilterHead(keys, keep); }
    }
  }

  lemma FilterHead(keys: seq<Str>, keep: Str -> bool)
    requires keys != [] && keep(keys[0]) && Paired(keys) && Paired(Filter(keys[1..], keep))
    requires keep(EID_DATA) ==> keep(EID_DATA_TRUNCATION)
    ensures Paired(Filter(keys, keep))
  {
    hide Ascii;
    var rest, all := Filter(keys[1..], keep), Filter(keys, keep);
    assert all == [keys[0]] + rest;
    forall i | 0 <= i < |all| && all[i] == EID_DATA ensures i + 1 < |all| && all[i + 1] == EID_DATA_TRUNCATION {
      if i > 0 { assert rest[i - 1] == EID_DATA; }
    }
  }

  lemma EidKeysPlain()
    ensures IsPlainMetadata(EID_DATA) && IsPlainMetadata(EID_DATA_TRUNCATION)
  {
    assert |EID_DATA| == 7 && |EID_DATA_TRUNCATION| == 17 && |DIAGNOSTICS| == 11;
    assert forall i :: 0 <= i < |ERROR_SHAPE_KEYS| ==> |ERROR_SHAPE_KEYS[i]| !in {7, 17};
  }

  lemma ListsPaired(rbm: bool)
    ensures Paired(PRIORITY_KEYS) && Paired(MetadataBeforeRows(rbm)) && Paired([ROWS]) && Paired(MetadataAfterRows(rbm))
  {
    PriorityPaired();
    EidKeysPlain();
    assert |ROWS| == 4 && |EID_DATA| == 7;
    hide Ascii, IsErrorKey, Paired;
    FilterPaired(PRIORITY_KEYS, IsErrorMetadata);
    FilterPaired(PRIORITY_KEYS, IsPlainMetadata);
    NonePaired();
  }

  lemma NonePaired()
    ensures Paired([]) && Paired([ROWS])
  {
    assert |ROWS| == 4 && |EID_DATA| == 7;
    hide Ascii;
  }

  lemma PriorityPaired()
    ensures Paired(PRIORITY_KEYS)
  {
    PriorityDistinct();
    assert PRIORITY_KEYS[12] == EID_DATA && PRIORITY_KEYS[13] == EID_DATA_TRUNCATION;
    hide Ascii, PRIORITY_KEYS;
    assert forall i :: 0 <= i < |PRIORITY_KEYS| && i != 12 ==> PRIORITY_KEYS[i] != EID_DATA;
  }

  // ----- ordinary keys -----

  /** An own key that is not optional metadata left undefined. */
  predicate Present(node: Node, key: Str) {
    var slot := Lookup(node.props, key);
    slot.Some? && !(slot.value.Data? && slot.value.value.VUndefined? && key in OPTIONAL_METADATA_KEYS)
  }

  function PresentKeys(node: Node, keys: seq<Str>): seq<Str> {
    if keys == [] then []
    else if Present(node, keys[0]) then [keys[0]] + PresentKeys(node, keys[1..])
    else PresentKeys(node, keys[1..])
  }

  /** Ordinary keys that are not in the accumulator yet. */
  ghost predicate Upcoming(node: Node, keys: seq<Str>, acc: Acc) {
    && (forall i :: 0 <= i < |keys| ==> keys[i] !in PRIORITY_KEYS)
    && (forall i, j :: 0 <= i < j < |keys| ==> keys[i] != keys[j])
    && forall i, j :: 0 <= i < |keys| && 0 <= j < |acc.props| ==> keys[i] != acc.props[j].key
  }

  lemma NotSpecial(key: Str)
    requires key !in PRIORITY_KEYS
    ensures key != FIELD_EXCEPTIONS && key != EID_DATA && key != EID_DATA_TRUNCATION
  {
    assert PRIORITY_KEYS[7] == FIELD_EXCEPTIONS && PRIORITY_KEYS[12] == EID_DATA
           && PRIORITY_KEYS[13] == EID_DATA_TRUNCATION;
    hide Ascii;
  }

  lemma NotStored(w: World, node: Node, key: Str)
    requires key != FIELD_EXCEPTIONS
    ensures StoredExceptions(w, node, key).Absent?
  {
    hide Ascii, RawFieldExceptions;
  }

  ghost predicate AddsMember(key: Str, acc: Acc, acc': Acc) {
    exists j :: acc'.props == acc.props + [Member(key, j)]
  }

  lemma OrdinaryAdds(w: World, node: Node, key: Str, acc: Acc, budget: int, s: State, depth: nat, rowLimit: nat)
    requires Left(s) >= 0 && key !in PRIORITY_KEYS && forall j :: 0 <= j < |acc.props| ==> acc.props[j].key != key
    ensures var p := BuildProperty(w, node, key, acc, budget, s, depth, rowLimit);
            && (if p.ok && Present(node, key) then AddsMember(key, acc, p.acc) else p.acc == acc)
            && (!p.ok ==> Present(node, key))
  {
    hide Ascii, BuildStored, BuildOwn, StringSize, PRIORITY_KEYS, Lookup, AddsMember, OPTIONAL_METADATA_KEYS,
         StoredExceptions,
         FIELD_EXCEPTIONS, EID_DATA, EID_DATA_TRUNCATION;
    NotSpecial(key);
    NotStored(w, node, key);
    var slot := Lookup(node.props, key);
    var available := budget - acc.byteLength - CommaSize(acc.props) - 1;
    if slot.Some? && available >= 4 && StringSize(key) <= available - 2 {
      OrdinaryOwn(w, node, key, slot.value, acc, budget, available - StringSize(key), s, depth, rowLimit);
    }
  }

  lemma OrdinaryOwn(w: World, source: Node, key: Str, slot: Slot, acc: Acc, budget: int, childBudget: int, s: State,
                    depth: nat, rowLimit: nat)
    requires Left(s) >= 0 && childBudget >= 2 && key != EID_DATA && forall j :: 0 <= j < |acc.props| ==>
               acc.props[j].key != key
    ensures var p := BuildOwn(w, source, key, slot, acc, budget, childBudget, s, depth, rowLimit);
            if p.ok then AddsMember(key, acc, p.acc) else p.acc == acc
  {
    hide Ascii, BuildChild, BuildEntitlement, Inspect, StringSize, Remember;
    var i := Inspect(w, key, slot, s);
    var o := BuildChild(w, key, i.value, childBudget, i.st, depth, rowLimit);
    if o.built.Built? {
      var p := AddOwn(acc, key, i.value, i.errorKey, o.built, budget, o.st);
      assert p.ok ==> p.acc.props == acc.props + [Member(key, o.built.value)];
    }
  }

  /** The loop over ordinary keys emits a prefix of those present. */
  lemma {:induction false} OrdinaryKeys(w: World, node: Node, keys: seq<Str>, acc: Acc, budget: int, s: State,
                                        depth: nat, rowLimit: nat)
    requires Left(s) >= 0 && Upcoming(node, keys, acc)
    ensures var o := BuildKeys(w, node, keys, true, acc, budget, s, depth, rowLimit);
            acc.props <= o.acc.props && KeysOf(o.acc.props[|acc.props|..]) <= PresentKeys(node, keys)
    decreases |keys|
  {
    hide Ascii, BuildProperty, Present, PRIORITY_KEYS, AddsMember, Upcoming;
    if keys == [] {
      assert KeysOf(acc.props[|acc.props|..]) == [];
    } else {
      var p := BuildProperty(w, node, keys[0], acc, budget, s, depth, rowLimit);
      UpcomingFirst(node, keys, acc);
      OrdinaryAdds(w, node, keys[0], acc, budget, s, depth, rowLimit);
      if p.ok {
        UpcomingRest(node, keys, acc, p.acc);
        OrdinaryKeys(w, node, keys[1..], p.acc, budget, p.st, depth, rowLimit);
        PrefixMore(node, keys, acc, p.acc,
                   BuildKeys(w, node, keys[1..], true, p.acc, budget, p.st, depth, rowLimit).acc);
      } else {
        assert KeysOf(acc.props[|acc.props|..]) == [];
      }
    }
  }

  lemma UpcomingFirst(node: Node, keys: seq<Str>, acc: Acc)
    requires keys != [] && Upcoming(node, keys, acc)
    ensures keys[0] !in PRIORITY_KEYS && forall j :: 0 <= j < |acc.props| ==> acc.props[j].key != keys[0]
  {
  }

  lemma UpcomingRest(node: Node, keys: seq<Str>, acc: Acc, p: Acc)
    requires keys != [] && Upcoming(node, keys, acc)
    requires p == acc || AddsMember(keys[0], acc, p)
    ensures Upcoming(node, keys[1..], p)
  {
    hide Ascii, PRIORITY_KEYS;
  }

  lemma KeysOfCons(key: Str, j: Json, rest: seq<Member>)
    ensures KeysOf([Member(key, j)] + rest) == [key] + KeysOf(rest)
  {
  }

  lemma PrefixCons(key: Str, a: seq<Str>, b: seq<Str>)
    requires a <= b
    ensures [key] + a <= [key] + b
  {
  }

  lemma Split(a: seq<Member>, m: Member, all: seq<Member>)
    requires a + [m] <= all
    ensures a <= all && all[|a|..] == [m] + all[|a| + 1..]
  {
  }

  lemma PrefixMore(node: Node, keys: seq<Str>, acc: Acc, p: Acc, q: Acc)
    requires keys != [] && p.props <= q.props && KeysOf(q.props[|p.props|..]) <= PresentKeys(node, keys[1..])
    requires if Present(node, keys[0]) then AddsMember(keys[0], acc, p) else p == acc
    ensures acc.props <= q.props && KeysOf(q.props[|acc.props|..]) <= PresentKeys(node, keys)
  {
    hide Ascii, Present, KeysOf;
    if Present(node, keys[0]) {
      var j :| p.props == acc.props + [Member(keys[0], j)];
      Split(acc.props, Member(keys[0], j), q.props);
      KeysOfCons(keys[0], j, q.props[|p.props|..]);
      PrefixCons(keys[0], KeysOf(q.props[|p.props|..]), PresentKeys(node, keys[1..]));
    }
  }

  // ----- objects and tables -----

  /** Priority keys in their order, then a prefix of the ordinary keys present; each key once. */
  ghost predicate ObjectOrder(node: Node, props: seq<Member>) {
    Distinct(props) && exists m :: 0 <= m <= |props| && OrderedAt(node, props, m)
  }

  ghost predicate OrderedAt(node: Node, props: seq<Member>, m: nat)
    requires m <= |props|
  {
    Follows(KeysOf(props[..m]), PRIORITY_KEYS) && KeysOf(props[m..]) <= PresentKeys(node, OtherKeys(node))
  }

  /** The keys of a table: metadata, the rows and the rest of the metadata; each key once. */
  ghost predicate TableOrder(rbm: bool, props: seq<Member>) {
    Distinct(props) && Follows(KeysOf(props), MetadataBeforeRows(rbm) + [ROWS] + MetadataAfterRows(rbm))
  }

  lemma ObjectKeysOrdered(w: World, node: Node, budget: int, s: State, depth: nat, rowLimit: nat)
    requires Left(s) >= 0
    ensures var p := BuildKeys(w, node, PRIORITY_KEYS, false, EMPTY_ACC, budget, s, depth, rowLimit);
            var q := BuildKeys(w, node, OtherKeys(node), true, p.acc, budget, p.st, depth, rowLimit);
            ObjectOrder(node, q.acc.props)
  {
    hide Ascii, BuildKeys, OtherKeys, Follows, PRIORITY_KEYS, Distinct, Paired;
    ListsPaired(false);
    var p := BuildKeys(w, node, PRIORITY_KEYS, false, EMPTY_ACC, budget, s, depth, rowLimit);
    KeysAdd(w, node, PRIORITY_KEYS, false, EMPTY_ACC, budget, s, depth, rowLimit);
    assert p.acc.props[|EMPTY_ACC.props|..] == p.acc.props;
    OthersUpcoming(node, p.acc);
    OthersPaired(node);
    KeysAdd(w, node, OtherKeys(node), true, p.acc, budget, p.st, depth, rowLimit);
    OrdinaryKeys(w, node, OtherKeys(node), p.acc, budget, p.st, depth, rowLimit);
    var q := BuildKeys(w, node, OtherKeys(node), true, p.acc, budget, p.st, depth, rowLimit);
    EmptyDistinct();
    assert q.acc.props[..|p.acc.props|] == p.acc.props;
    assert OrderedAt(node, q.acc.props, |p.acc.props|);
  }

  lemma EmptyDistinct()
    ensures Distinct(EMPTY_ACC.props)
  {
  }

  lemma OthersUpcoming(node: Node, acc: Acc)
    requires Follows(KeysOf(acc.props), PRIORITY_KEYS)
    ensures Upcoming(node, OtherKeys(node), acc)
  {
    hide Ascii, OtherKeys, PRIORITY_KEYS, Follows;
    OtherKeysOrdinary(node);
    FollowsIn(KeysOf(acc.props), PRIORITY_KEYS);
    forall i, j | 0 <= i < |OtherKeys(node)| && 0 <= j < |acc.props| ensures OtherKeys(node)[i] != acc.props[j].key {
      assert OtherKeys(node)[i] in OtherKeys(node) && KeysOf(acc.props)[j] in KeysOf(acc.props);
    }
  }

  lemma OthersPaired(node: Node)
    ensures Paired(OtherKeys(node))
  {
    hide Ascii, OtherKeys, PRIORITY_KEYS;
    OtherKeysOrdinary(node);
    forall i | 0 <= i < |OtherKeys(node)| ensures OtherKeys(node)[i] != EID_DATA {
      assert OtherKeys(node)[i] in OtherKeys(node);
      NotSpecial(OtherKeys(node)[i]);
    }
  }

  lemma AddsTrans(a: seq<Str>, b: seq<Str>, x: Acc, y: Acc, z: Acc)
    requires Adds(a, x, y) && Adds(b, y, z)
    ensures Adds(a + b, x, z)
  {
    hide Ascii, Follows;
    var first, second := y.props[|x.props|..], z.props[|y.props|..];
    assert z.props[|x.props|..] == first + second;
    assert KeysOf(first + second) == KeysOf(first) + KeysOf(second);
    FollowsConcat(KeysOf(first), KeysOf(second), a, b);
  }

  /** None of the metadata is kept under `rows`. */
  lemma NoRowsAmong(w: World, node: Node, rbm: bool, before: bool, acc: Acc, budget: int, s: State, depth: nat,
                    rowLimit: nat)
    requires Left(s) >= 0
    ensures var keys := if before then MetadataBeforeRows(rbm) else MetadataAfterRows(rbm);
            var o := BuildKeys(w, node, keys, false, acc, budget, s, depth, rowLimit);
            forall i :: |acc.props| <= i < |o.acc.props| ==> o.acc.props[i].key != ROWS
  {
    PriorityDistinct();
    FilterSpec(PRIORITY_KEYS, IsErrorMetadata);
    FilterSpec(PRIORITY_KEYS, IsPlainMetadata);
    hide Ascii, BuildKeys, Follows, PRIORITY_KEYS, Filter, IsErrorKey, Paired;
    ListsPaired(rbm);
    var keys := if before then MetadataBeforeRows(rbm) else MetadataAfterRows(rbm);
    KeysAdd(w, node, keys, false, acc, budget, s, depth, rowLimit);
    var o := BuildKeys(w, node, keys, false, acc, budget, s, depth, rowLimit);
    var added := KeysOf(o.acc.props[|acc.props|..]);
    FollowsIn(added, keys);
    forall i | |acc.props| <= i < |o.acc.props| ensures o.acc.props[i].key != ROWS {
      assert added[i - |acc.props|] in added;
    }
  }

  lemma RowsAdd(w: World, elems: seq<Element>, acc: Acc, budget: int, s: State, depth: nat, rowLimit: nat, shared: bool)
    requires Left(s) >= 0
    ensures var o := BuildRowsProperty(w, elems, acc, budget, s, depth, rowLimit, shared);
            Adds([ROWS], acc, o.acc) && KeepsDistinct(acc, o.acc)
  {
    hide Ascii, BuildArrayRows, Append, StringSize, AddsOne, Adds, Distinct, Paired;
    ListsPaired(false);
    AddsMembers(ROWS, acc, acc, []);
    AddsPrefix([ROWS], acc, acc);
    if s.visitedNodes < s.limits.maxResultNodes {
      var rowsBudget := budget - acc.byteLength - CommaSize(acc.props) - StringSize(ROWS) - 1;
      var o := BuildArrayRows(w, elems, rowsBudget, s.(visitedNodes := s.visitedNodes + 1), depth + 1, rowLimit,
                              shared);
      if o.built.Built? {
        AppendAdds(acc, ROWS, o.built, budget, o.st);
        AddsPrefix([ROWS], acc, Append(acc, ROWS, o.built, budget, o.st).acc);
      }
    }
  }

  lemma TableKeysOrdered(w: World, elems: seq<Element>, node: Node, budget: int, s: State, depth: nat, rowLimit: nat,
                         shared: bool, rbm: bool)
    requires Left(s) >= 0
    ensures var p := BuildKeys(w, node, MetadataBeforeRows(rbm), false, EMPTY_ACC, budget, s, depth, rowLimit);
            var q := BuildRowsProperty(w, elems, p.acc, budget, p.st, depth, rowLimit, shared);
            var t := BuildKeys(w, node, MetadataAfterRows(rbm), false, q.acc, budget, q.st, depth, rowLimit);
            TableOrder(rbm, t.acc.props)
  {
    hide Ascii, BuildKeys, BuildRowsProperty, Follows, Distinct, Paired, MetadataBeforeRows, MetadataAfterRows, Adds;
    ListsPaired(rbm);
    var before, after := MetadataBeforeRows(rbm), MetadataAfterRows(rbm);
    var p := BuildKeys(w, node, before, false, EMPTY_ACC, budget, s, depth, rowLimit);
    KeysAdd(w, node, before, false, EMPTY_ACC, budget, s, depth, rowLimit);
    var q := BuildRowsProperty(w, elems, p.acc, budget, p.st, depth, rowLimit, shared);
    RowsAdd(w, elems, p.acc, budget, p.st, depth, rowLimit, shared);
    var t := BuildKeys(w, node, after, false, q.acc, budget, q.st, depth, rowLimit);
    KeysAdd(w, node, after, false, q.acc, budget, q.st, depth, rowLimit);
    AddsTrans(before, [ROWS], EMPTY_ACC, p.acc, q.acc);
    AddsTrans(before + [ROWS], after, EMPTY_ACC, q.acc, t.acc);
    AddsAll(before + [ROWS] + after, t.acc);
    EmptyDistinct();
  }

  lemma AddsAll(keys: seq<Str>, acc: Acc)
    requires Adds(keys, EMPTY_ACC, acc)
    ensures Follows(KeysOf(acc.props), keys)
  {
    hide Ascii, Follows;
    assert acc.props[|EMPTY_ACC.props|..] == acc.props;
  }

  // ----- the securities of a stored document -----

  /** Emitted securities come in the order of the document, each once. */
  ghost predicate SecuritiesOrder(securities: seq<Member>, props: seq<Member>) {
    Distinct(props) && Follows(KeysOf(props), KeysOf(securities))
  }

  lemma AppendFollows(acc: Acc, key: Str, built: Built, budget: int, s: State)
    requires built.Built?
    ensures var o := Append(acc, key, built, budget, s).acc; Adds([key], acc, o) && KeepsDistinct(acc, o)
  {
    hide StringSize, Ascii, Append;
    AppendAdds(acc, key, built, budget, s);
    var o := Append(acc, key, built, budget, s).acc;
    var added := o.props[|acc.props|..];
    SelfFollows(key);
    assert KeysOf(added) == if o == acc then [] else [key];
  }

  lemma NothingFollows(keys: seq<Str>, acc: Acc)
    ensures Adds(keys, acc, acc)
  {
    assert KeysOf(acc.props[|acc.props|..]) == [];
  }

  lemma {:induction false} SecuritiesAdd(w: World, securities: seq<Member>, entries: Option<seq<Json>>, acc: Acc,
                                         budget: int, s: State, depth: nat)
    requires Left(s) >= 0
    requires forall i :: 0 <= i < |securities| ==> ValidList(securities[i].value, entries)
    ensures var o := BuildSecurities(w, securities, entries, acc, budget, s, depth).acc;
            Adds(KeysOf(securities), acc, o) && KeepsDistinct(acc, o)
    decreases |securities|
  {
    hide BuildExceptionArray, Append, StringSize, ExceptionAt, Adds, KeepsDistinct;
    NothingFollows(KeysOf(securities), acc);
    assert KeepsDistinct(acc, acc) by { SameDistinct(acc); }
    if securities != [] {
      var key, comma := securities[0].key, CommaSize(acc.props);
      if 2 <= budget - acc.byteLength - comma - 3 && StringSize(key) <= budget - acc.byteLength - comma - 3 {
        assert ValidList(securities[0].value, entries);
        var childBudget := budget - acc.byteLength - comma - StringSize(key) - 1;
        var o := BuildExceptionArray(w, securities[0].value.items, entries, childBudget, s, depth + 1);
        if o.built.Built? {
          var p := Append(acc, key, o.built, budget, o.st);
          AppendFollows(acc, key, o.built, budget, o.st);
          assert KeysOf(securities) == [key] + KeysOf(securities[1..]);
          if p.ok {
            SecuritiesAdd(w, securities[1..], entries, p.acc, budget, p.st, depth);
            var q := BuildSecurities(w, securities[1..], entries, p.acc, budget, p.st, depth).acc;
            AddsTrans([key], KeysOf(securities[1..]), acc, p.acc, q);
            DistinctThen(acc, p.acc, q);
          } else {
            NothingFollows(KeysOf(securities[1..]), p.acc);
            AddsTrans([key], KeysOf(securities[1..]), acc, p.acc, p.acc);
          }
        }
      }
    }
  }

  lemma SameDistinct(acc: Acc)
    ensures KeepsDistinct(acc, acc)
  {
  }

  lemma DistinctThen(a: Acc, b: Acc, c: Acc)
    requires KeepsDistinct(a, b) && KeepsDistinct(b, c)
    ensures KeepsDistinct(a, c)
  {
  }

  lemma SecuritiesOrdered(w: World, securities: seq<Member>, entries: Option<seq<Json>>, budget: int, s: State,
                          depth: nat)
    requires Left(s) >= 0
    requires forall i :: 0 <= i < |securities| ==> ValidList(securities[i].value, entries)
    ensures SecuritiesOrder(securities, BuildSecurities(w, securities, entries, EMPTY_ACC, budget, s, depth).acc.props)
  {
    hide BuildSecurities, ExceptionAt, Follows, Adds, Distinct;
    SecuritiesAdd(w, securities, entries, EMPTY_ACC, budget, s, depth);
    AddsAll(KeysOf(securities), BuildSecurities(w, securities, entries, EMPTY_ACC, budget, s, depth).acc);
    EmptyDistinct();
  }

  // ----- the prepared securities -----

  function Names(data: seq<EidEntry>): seq<Str> { seq(|data|, i requires 0 <= i < |data| => data[i].security) }

  predicate DistinctKeys(keys: seq<Str>) { forall i, j :: 0 <= i < j < |keys| ==> keys[i] != keys[j] }

  /** The retained securities are among those scanned, in their order and each once. */
  ghost predicate Once(all: seq<Str>, t: Tally) {
    && t.scanned <= |all| && DistinctKeys(Names(t.data))
    && Follows(Names(t.data), all[..t.scanned])
  }

  lemma ScanSecurityOnce(w: World, node: Node, all: seq<Str>, limit: int, t: Tally)
    requires Left(t.st) >= 0 && t.scanned < |all| && Once(all, t) && DistinctKeys(all)
    ensures var r := ScanSecurity(w, node, all[t.scanned], limit, t);
            Once(all, r) && (r.complete ==> r.scanned == t.scanned + 1)
  {
    hide ScanSecurity, Lookup;
    ScanSecurityShape(w, node, all[t.scanned], limit, t);
    var r := ScanSecurity(w, node, all[t.scanned], limit, t);
    if r.data != t.data { OnceMore(all, t, r); } else { OnceStill(all, t, r); }
  }

  lemma ScanSecurityShape(w: World, node: Node, security: Str, limit: int, t: Tally)
    requires Left(t.st) >= 0
    ensures var r := ScanSecurity(w, node, security, limit, t);
            && (r.scanned == t.scanned + 1 || (!r.complete && r.scanned == t.scanned))
            && (r.data == t.data || (r.scanned == t.scanned + 1 && exists e: EidEntry ::
                                       e.security == security && r.data == t.data + [e]))
  {
    hide Ascii, ScanEids, Utf8Length, Retainable, Capacity, Lookup;
    var (s, ok) := VisitBefore(t.st, limit);
    var slot := Lookup(node.props, security);
    if ok && slot.Some? && ElemsOf(w, slot.value).Some? {
      var t1 := t.(st := s, scanned := t.scanned + 1);
      var elems := ElemsOf(w, slot.value).value;
      var scan := ScanEids(elems, s, limit, Retainable(t1, security), Capacity(t1), []);
      var e := EidEntry(security, |elems|, scan.kept);
      assert e.security == security;
    }
  }

  lemma OnceStill(all: seq<Str>, t: Tally, r: Tally)
    requires Once(all, t) && r.data == t.data && t.scanned <= r.scanned <= |all|
    ensures Once(all, r)
  {
    hide Follows, DistinctKeys;
    FollowsConcat(Names(t.data), [], all[..t.scanned], all[t.scanned..r.scanned]);
    assert Names(t.data) + [] == Names(t.data);
    assert all[..t.scanned] + all[t.scanned..r.scanned] == all[..r.scanned];
  }

  lemma OnceMore(all: seq<Str>, t: Tally, r: Tally)
    requires Once(all, t) && DistinctKeys(all) && t.scanned < |all| && r.scanned == t.scanned + 1
    requires exists e: EidEntry :: e.security == all[t.scanned] && r.data == t.data + [e]
    ensures Once(all, r)
  {
    hide Follows;
    var n, names := t.scanned, Names(t.data);
    assert all[..n + 1] == all[..n] + [all[n]] && Names(r.data) == names + [all[n]];
    SelfFollows(all[n]);
    FollowsConcat(names, [all[n]], all[..n], [all[n]]);
    FollowsIn(names, all[..n]);
    forall i | 0 <= i < |names| ensures names[i] != all[n] {
      assert names[i] in names && names[i] in all[..n];
    }
    assert DistinctKeys(names + [all[n]]);
  }

  lemma SelfFollows(key: Str)
    ensures Follows([key], [key])
  {
  }

  lemma {:induction false} ScanSecuritiesOnce(w: World, node: Node, all: seq<Str>, k: nat, limit: int, t: Tally)
    requires Left(t.st) >= 0 && k <= |all| && DistinctKeys(all) && Once(all, t) && (t.complete ==> t.scanned == k)
    requires forall key :: key in all ==> Lookup(node.props, key).Some?
    ensures Once(all, ScanSecurities(w, node, all[k..], limit, t))
    decreases |all| - k
  {
    hide ScanSecurity, Lookup, Once;
    if k < |all| && t.complete {
      assert all[k..][0] == all[k] && all[k..][1..] == all[k + 1..] && all[k] in all;
      ScanSecurityOnce(w, node, all, limit, t);
      ScanSecuritiesOnce(w, node, all, k + 1, limit, ScanSecurity(w, node, all[k], limit, t));
    }
  }

  /** Prepared entitlements: leading valid EIDs of some securities, each once and in their order. */
  ghost predicate Retains(w: World, v: Value, data: seq<EidEntry>) {
    if IsPlain(w, v) then
      var node := NodeOf(w, v).value;
      Recorded(w, node, data) && DistinctKeys(Names(data)) && Follows(Names(data), Keys(node.props))
    else data == []
  }

  lemma PreparedRetains(w: World, value: Value, s: State)
    requires Left(s) >= 0
    ensures Retains(w, value, PrepareEidData(w, value, s).data)
  {
    hide Ascii, ScanSecurities, Follows, Recorded, Keys;
    if IsPlain(w, value) {
      var node := NodeOf(w, value).value;
      var keys := Keys(node.props);
      assert keys[0..] == keys;
      KeysSpec(node.props);
      PreparedRecorded(w, value, s);
      NoneOnce(keys, s);
      ScanSecuritiesOnce(w, node, keys, 0, EidVisitLimit(s), Tally0(s));
      var t := TallyOf(w, value, s);
      FollowsConcat(Names(t.data), [], keys[..t.scanned], keys[t.scanned..]);
      assert Names(t.data) + [] == Names(t.data) && keys[..t.scanned] + keys[t.scanned..] == keys;
    }
  }

  /** Every security, with all of its EIDs. */
  ghost predicate RetainsAll(w: World, v: Value, data: seq<EidEntry>) {
    && IsPlain(w, v) && Names(data) == Keys(NodeOf(w, v).value.props)
    && forall i :: 0 <= i < |data| ==> |data[i].eids| == data[i].original
  }

  /** While no reason is recorded, nothing is lost. */
  ghost predicate NothingLost(t: Tally) {
    t.st.reasons == {} ==>
      && t.complete && t.invalid == 0 && t.capped == 0
      && forall i :: 0 <= i < |t.data| ==> |t.data[i].eids| == t.data[i].original
  }

  lemma {:induction false} ScanEidsReasons(eids: seq<Element>, s: State, limit: int, keep: bool, capacity: nat,
                                           kept: seq<int>)
    requires Left(s) >= 0
    ensures var r := ScanEids(eids, s, limit, keep, capacity, kept); r.st.reasons == {} ==>
              r.outcome.Complete? && s.reasons == {}
    decreases |eids|
  {
    if eids != [] {
      var (t, ok) := VisitBefore(s, limit);
      if !ok {
        assert MaxResultNodes in t.reasons;
      } else if !ValidEid(eids[0]) {
        assert InvalidEntitlementData in AddReason(t, InvalidEntitlementData).reasons;
      } else {
        ScanEidsReasons(eids[1..], t, limit, keep, capacity,
                        if keep && |kept| < capacity then kept + [eids[0].slot.value.num.value] else kept);
      }
    }
  }

  lemma ScanSecurityKeepsAll(w: World, node: Node, security: Str, limit: int, t: Tally)
    requires Left(t.st) >= 0 && NothingLost(t)
    ensures NothingLost(ScanSecurity(w, node, security, limit, t))
  {
    hide Ascii, ScanEids, Utf8Length, Lookup, Capacity;
    var (s, ok) := VisitBefore(t.st, limit);
    if !ok {
      assert MaxResultNodes in s.reasons;
    } else {
      var slot := Lookup(node.props, security);
      assert InvalidEntitlementData in AddReason(s, InvalidEntitlementData).reasons;
      if slot.Some? && ElemsOf(w, slot.value).Some? {
        var t1 := t.(st := s, scanned := t.scanned + 1);
        var elems := ElemsOf(w, slot.value).value;
        var scan := ScanEids(elems, s, limit, Retainable(t1, security), Capacity(t1), []);
        ScanEidsReasons(elems, s, limit, Retainable(t1, security), Capacity(t1), []);
        assert EntitlementLimit in AddReason(scan.st, EntitlementLimit).reasons;
      }
    }
  }

  lemma {:induction false} ScanSecuritiesKeepAll(w: World, node: Node, keys: seq<Str>, limit: int, t: Tally)
    requires Left(t.st) >= 0 && NothingLost(t)
    ensures NothingLost(ScanSecurities(w, node, keys, limit, t))
    decreases |keys|
  {
    hide ScanSecurity, NothingLost;
    if keys != [] && t.complete {
      ScanSecurityKeepsAll(w, node, keys[0], limit, t);
      ScanSecuritiesKeepAll(w, node, keys[1..], limit, ScanSecurity(w, node, keys[0], limit, t));
    }
  }

  lemma {:induction false} SumsAgree(data: seq<EidEntry>)
    requires forall i :: 0 <= i < |data| ==> |data[i].eids| == data[i].original
    ensures SumEids(data) == SumOriginal(data)
  {
    if data != [] { SumsAgree(data[..|data| - 1]); }
  }

  /** Entitlements that leave no reason are retained completely. */
  lemma PreparedUnflagged(w: World, v: Value, s: State)
    requires Left(s) >= 0 && PrepareEidData(w, v, s).st.reasons == {}
    ensures !PrepareEidData(w, v, s).truncated && RetainsAll(w, v, PrepareEidData(w, v, s).data)
  {
    assert InvalidEntitlementData in AddReason(s, InvalidEntitlementData).reasons;
    hide Ascii, ScanSecurities, SumEids, SumOriginal, SumNames, Recorded, Keys;
    var node := NodeOf(w, v).value;
    var keys := Keys(node.props);
    assert keys[0..] == keys;
    KeysSpec(node.props);
    NothingYet(w, node, keys, s);
    ScanSecuritiesKeepAll(w, node, keys, EidVisitLimit(s), Tally0(s));
    ScanSecuritiesTallied(w, node, keys, EidVisitLimit(s), Tally0(s));
    var t := TallyOf(w, v, s);
    SumsAgree(t.data);
    PreparedAccounting(w, v, s);
    assert Names(t.data) == keys;
  }

  lemma NothingYet(w: World, node: Node, keys: seq<Str>, s: State)
    ensures NothingLost(Tally0(s)) && Tallied(w, node, keys, Tally0(s))
  {
  }

  lemma NoneOnce(all: seq<Str>, s: State)
    ensures Once(all, Tally0(s))
  {
  }

  lemma PreparedRecorded(w: World, v: Value, s: State)
    requires Left(s) >= 0 && IsPlain(w, v)
    ensures Recorded(w, NodeOf(w, v).value, PrepareEidData(w, v, s).data)
  {
    PreparedAccounting(w, v, s);
  }
}
