/**
 What is emitted for an entitlement record: some of the prepared securities, each once and
 with a prefix of its EIDs; in their order, so that the counts beside the data align by
 position, unless a security is named like a priority key. The summary compares counts
 only: below the depth limit placeholders count like EIDs.
 */
module Emission {
  import opened JsText
  import opened Json
  import opened JsHeap
  import opened ResultTypes
  import opened Entitlements
  import opened Projection
  import opened Soundness
  import opened Honesty
  import opened KeyOrder
  import opened Pruning
  import opened DepthReasons
  import opened Reprojection

  ghost predicate TooDeep(j: Json) { Shows(Ascii("[Max result depth exceeded]"), j) }

  ghost predicate EidShown(j: Json, eid: int, depth: nat) {
    if depth > MAX_RESULT_DEPTH then TooDeep(j) else j == JNumber(Int(eid))
  }

  /** `j` is a list of leading EIDs, met at `depth`. */
  ghost predicate Leads(j: Json, eids: seq<int>, depth: nat) {
    if depth > MAX_RESULT_DEPTH then TooDeep(j)
    else j.JArray? && |j.items| <= |eids| && forall i :: 0 <= i < |j.items| ==> EidShown(j.items[i], eids[i], depth + 1)
  }

  /**
   A member of the record stands for one of the securities. A security named `eidData` is
   no list any more, nor is the summary beside it.
   */
  ghost predicate MemberShown(m: Member, data: seq<EidEntry>, depth: nat) {
    if m.key == EID_DATA || (m.key == EID_DATA_TRUNCATION && EID_DATA in Names(data))
    then EID_DATA in Names(data) && !m.value.JArray?
    else exists i :: 0 <= i < |data| && m.key == data[i].security && Leads(m.value, data[i].eids, depth)
  }

  /** What stands for the record at `depth`, whatever the securities are called. */
  ghost predicate RecordPruned(j: Json, data: seq<EidEntry>, depth: nat) {
    if depth > MAX_RESULT_DEPTH then TooDeep(j)
    else j.JObject? && Distinct(j.props)
         && forall i :: 0 <= i < |j.props| ==> MemberShown(j.props[i], data, depth + 1)
  }

  // ----- every record is shown -----

  function RecordNode(data: seq<EidEntry>): Node { Node(KPlain, DataProps(EidRecord(data).props)) }

  predicate DistinctNames(data: seq<EidEntry>) {
    forall i, j :: 0 <= i < j < |data| ==> data[i].security != data[j].security
  }

  lemma RecordLookup(data: seq<EidEntry>, key: Str)
    requires DistinctNames(data)
    ensures (forall i :: 0 <= i < |data| ==> data[i].security != key) ==> Lookup(RecordNode(data).props, key).None?
    ensures forall i :: 0 <= i < |data| && data[i].security == key ==>
              Lookup(RecordNode(data).props, key) == Some(Data(Embed(JArray(EidItems(data[i].eids)))))
  {
    hide Embed, DataProps, ValueAt, Ascii;
    var props := EidRecord(data).props;
    EmbeddedLookup(props, key);
    ValueAtPresent(props, key);
    forall i | 0 <= i < |data| && data[i].security == key
      ensures ValueAt(props, key) == Some(JArray(EidItems(data[i].eids)))
    {
      ValueAtMember(props, i);
    }
  }

  /** A list of EIDs shrinks to leading ones. */
  lemma ListPrunes(w: World, eids: seq<int>, j: Json, depth: nat, c: Context)
    requires PruneValue(w, Embed(JArray(EidItems(eids))), j, depth, c)
    ensures Leads(j, eids, depth)
  {
    hide Ascii, DataElems, Shows, AtomicEntry;
    if depth <= MAX_RESULT_DEPTH {
      var elems := DataElems(EidItems(eids));
      var node := Node(KArray(elems), []);
      assert Embed(JArray(EidItems(eids))) == VFresh(node) && {} * c.ancestors == {} && !HasArrayMetadata(node);
      assert PruneNode(w, {}, node, j, depth, c);
      assert PruneContent(w, node, j, depth, Inside(c, {}));
      assert PruneRows(w, elems, j, depth, Inside(c, {}));
      assert RowsPrefix(w, elems, j.items, depth, Inside(c, {}));
      forall i | 0 <= i < |j.items| ensures EidShown(j.items[i], eids[i], depth + 1) {
        assert PruneEntry(w, elems[i], j.items[i], depth, Inside(c, {}));
        EidPrunes(w, eids[i], j.items[i], depth + 1, Inside(c, {}));
      }
    }
  }

  lemma EidPrunes(w: World, eid: int, j: Json, depth: nat, c: Context)
    requires PruneValue(w, VNum(Int(eid)), j, depth, c)
    ensures EidShown(j, eid, depth)
  {
    hide Ascii, Shows;
  }

  lemma ObjectNoList(w: World, props: seq<Member>, j: Json, depth: nat, c: Context)
    requires PruneValue(w, Embed(JObject(props)), j, depth, c)
    ensures !j.JArray?
  {
    hide Ascii, DataProps, PruneMember, ObjectOrder;
    var node := Node(KPlain, DataProps(props));
    assert Embed(JObject(props)) == VFresh(node) && {} * c.ancestors == {};
    if depth <= MAX_RESULT_DEPTH {
      assert PruneNode(w, {}, node, j, depth, c);
      assert PruneContent(w, node, j, depth, Inside(c, {}));
      assert PruneObject(w, node, j, depth, Inside(c, {}));
    }
  }

  /** Stored exceptions are looked for in plain metadata only. */
  lemma RecordNotStored(w: World, data: seq<EidEntry>, key: Str)
    requires DistinctNames(data)
    ensures StoredExceptions(w, RecordNode(data), key).Absent?
  {
    hide Ascii, Lookup, RecordNode, DataElems;
    RecordLookup(data, METADATA);
    if i :| 0 <= i < |data| && data[i].security == METADATA {
      assert !IsPlain(w, Embed(JArray(EidItems(data[i].eids))));
    }
  }

  lemma NamesIn(data: seq<EidEntry>, key: Str)
    ensures key in Names(data) <==> exists i :: 0 <= i < |data| && data[i].security == key
  {
    if i :| 0 <= i < |data| && data[i].security == key { assert Names(data)[i] == key; }
  }

  lemma MemberPrunes(w: World, data: seq<EidEntry>, beside: Option<Json>, m: Member, depth: nat, c: Context)
    requires !c.diag && DistinctNames(data) && depth <= MAX_RESULT_DEPTH
    requires PruneMember(w, RecordNode(data), beside, m, depth, c)
    ensures MemberShown(m, data, depth + 1)
  {
    hide Ascii, Lookup, RecordNode, PruneValue, PruneStored, PruneSummary, PruneEids, Embed, StoredExceptions, Names,
         Leads,
         IsErrorMetadata;
    RecordNotStored(w, data, m.key);
    RecordLookup(data, m.key);
    RecordLookup(data, EID_DATA);
    NamesIn(data, m.key);
    NamesIn(data, EID_DATA);
    if m.key == EID_DATA_TRUNCATION && EID_DATA in Names(data) {
      SummaryNoList(w, RecordNode(data), beside.value, m.value, depth + 1, c);
    } else {
      var i :| 0 <= i < |data| && data[i].security == m.key;
      var v := Embed(JArray(EidItems(data[i].eids)));
      if m.key == EID_DATA {
        EidsNoList(w, EidItems(data[i].eids), m.value, depth + 1, c);
      } else {
        ListPrunes(w, data[i].eids, m.value, depth + 1, Diagnosing(c, IsErrorMetadata(m.key)));
      }
    }
  }

  lemma SummaryNoList(w: World, node: Node, emitted: Json, j: Json, depth: nat, c: Context)
    requires Lookup(node.props, EID_DATA).Some? && PruneSummary(w, node, emitted, j, depth, c)
    ensures !j.JArray?
  {
    hide Ascii, PruneValue, PrepareEidData, EmittedSummary, EidRecord, Embed, Lookup;
    var s :| SummaryFrom(w, node, emitted, j, depth, c, s);
    var p := PrepareEidData(w, Shown(Lookup(node.props, EID_DATA).value), s);
    var summary := EmittedSummary(w, node, emitted, p).value;
    ObjectNoList(w, SummaryJson(summary).props, j, depth, c);
  }

  lemma EidsNoList(w: World, items: seq<Json>, j: Json, depth: nat, c: Context)
    requires PruneEids(w, Embed(JArray(items)), j, depth, c)
    ensures !j.JArray?
  {
    hide Ascii, PruneValue, DataElems;
    var data :| Retains(w, Embed(JArray(items)), data) && PruneValue(w, Embed(EidRecord(data)), j, depth, c);
    ObjectNoList(w, EidRecord(data).props, j, depth, c);
  }

  /** At every depth and with every name: each member stands for a security of its own. */
  lemma RecordPrunes(w: World, data: seq<EidEntry>, j: Json, depth: nat, c: Context)
    requires !c.diag && DistinctNames(data) && PruneValue(w, Embed(EidRecord(data)), j, depth, c)
    ensures RecordPruned(j, data, depth)
    ensures j.JObject? ==> ObjectOrder(RecordNode(data), j.props)
  {
    hide Ascii, DataProps, PruneMember, MemberShown, Shows, OrderedAt;
    var node := RecordNode(data);
    assert Embed(EidRecord(data)) == VFresh(node) && {} * c.ancestors == {};
    if j.JObject? { RecordOrder(w, data, j, depth, c); }
    if depth <= MAX_RESULT_DEPTH {
      assert PruneNode(w, {}, node, j, depth, c);
      assert PruneContent(w, node, j, depth, Inside(c, {}));
      assert PruneObject(w, node, j, depth, Inside(c, {}));
      forall i | 0 <= i < |j.props| ensures MemberShown(j.props[i], data, depth + 1) {
        MemberPrunes(w, data, Beside(j.props, i), j.props[i], depth, Inside(c, {}));
      }
    }
  }

  // ----- securities with ordinary names stay in order -----

  /** Securities are distinct and none is named like a priority key. */
  predicate Ordinary(data: seq<EidEntry>) {
    DistinctNames(data) && forall i :: 0 <= i < |data| ==> data[i].security !in PRIORITY_KEYS
  }

  /** The members are the first securities of `data`, in order, each with leading EIDs at `depth`. */
  ghost predicate Emits(props: seq<Member>, data: seq<EidEntry>, depth: nat) {
    && |props| <= |data|
    && forall i :: 0 <= i < |props| ==> props[i].key == data[i].security && Leads(props[i].value, data[i].eids, depth)
  }

  /** The record with its securities in order. */
  ghost predicate RecordShown(j: Json, data: seq<EidEntry>, depth: nat) {
    if depth > MAX_RESULT_DEPTH then TooDeep(j) else j.JObject? && Emits(j.props, data, depth + 1)
  }

  lemma RecordKeys(data: seq<EidEntry>)
    requires Ordinary(data)
    ensures OtherKeys(RecordNode(data)) == Names(data)
  {
    hide Ascii, DataProps, Pick, OtherKeys, PRIORITY_KEYS;
    var props := EidRecord(data).props;
    assert [] + props == props;
    EmbeddedOtherKeys([], props);
    assert KeysOf(props) == Names(data);
  }

  lemma {:induction false} AllPresent(node: Node, keys: seq<Str>)
    requires forall k :: k in keys ==> Present(node, k)
    ensures PresentKeys(node, keys) == keys
    decreases |keys|
  {
    hide Present;
    if keys != [] {
      assert keys[0] in keys;
      AllPresent(node, keys[1..]);
    }
  }

  lemma SecurityPresent(data: seq<EidEntry>, key: Str)
    requires DistinctNames(data) && key in Names(data)
    ensures Present(RecordNode(data), key)
  {
    hide Ascii, Lookup, RecordNode, DataElems, OPTIONAL_METADATA_KEYS;
    NamesIn(data, key);
    RecordLookup(data, key);
    var i :| 0 <= i < |data| && data[i].security == key;
    EmbedDefined(JArray(EidItems(data[i].eids)));
  }

  /** With ordinary names the emitted keys are the first ones. */
  lemma NamesInOrder(data: seq<EidEntry>, props: seq<Member>, depth: nat)
    requires Ordinary(data) && ObjectOrder(RecordNode(data), props)
    requires forall i :: 0 <= i < |props| ==> MemberShown(props[i], data, depth)
    ensures KeysOf(props) <= Names(data)
  {
    hide Ascii, PRIORITY_KEYS, OtherKeys, Follows, RecordNode, PresentKeys, Leads;
    var node := RecordNode(data);
    RecordKeys(data);
    forall k | k in Names(data) ensures Present(node, k) { SecurityPresent(data, k); }
    AllPresent(node, Names(data));
    var m :| 0 <= m <= |props| && OrderedAt(node, props, m);
    FollowsIn(KeysOf(props[..m]), PRIORITY_KEYS);
    if m > 0 {
      assert KeysOf(props[..m])[0] in KeysOf(props[..m]);
      OrdinaryKey(data, props[0], depth);
      assert false;
    }
    assert props[0..] == props;
  }

  lemma OrdinaryKey(data: seq<EidEntry>, m: Member, depth: nat)
    requires Ordinary(data) && MemberShown(m, data, depth)
    ensures m.key !in PRIORITY_KEYS
    ensures exists i :: 0 <= i < |data| && m.key == data[i].security && Leads(m.value, data[i].eids, depth)
  {
    assert PRIORITY_KEYS[12] == EID_DATA;
    hide Ascii, PRIORITY_KEYS, Leads;
    if EID_DATA in Names(data) {
      NamesIn(data, EID_DATA);
      assert false;
    }
  }

  lemma MembersInOrder(data: seq<EidEntry>, props: seq<Member>, depth: nat)
    requires Ordinary(data) && KeysOf(props) <= Names(data)
    requires forall i :: 0 <= i < |props| ==> MemberShown(props[i], data, depth)
    ensures Emits(props, data, depth)
  {
    hide Ascii, PRIORITY_KEYS, Leads, MemberShown;
    assert |KeysOf(props)| <= |Names(data)|;
    forall i | 0 <= i < |props| ensures props[i].key == data[i].security && Leads(props[i].value, data[i].eids, depth) {
      assert KeysOf(props)[i] == Names(data)[i];
      OrdinaryKey(data, props[i], depth);
      var k :| 0 <= k < |data| && props[i].key == data[k].security && Leads(props[i].value, data[k].eids, depth);
      assert k == i;
    }
  }

  /** The record that is built: some of the securities, the first ones if they have ordinary names. */
  ghost predicate RecordBuilt(data: seq<EidEntry>, depth: nat, o: Out) {
    o.built.Built? ==>
      && RecordPruned(o.built.value, data, depth)
      && (RecordDeep(o.built.value, depth) ==> MaxResultDepth in o.st.reasons)
      && (Ordinary(data) ==> RecordShown(o.built.value, data, depth))
  }

  /** A placeholder stands for the record, for a list, or in a list. */
  predicate RecordDeep(j: Json, depth: nat) {
    depth > MAX_RESULT_DEPTH || (j.JObject? && MembersDeep(j.props, depth + 1))
  }

  /**
   At every depth and with every name: the record shows each security at most once, with
   leading EIDs, and with ordinary names in order; placeholders have left their reason.
   */
  lemma RecordEmitted(w: World, data: seq<EidEntry>, budget: int, s: State, depth: nat, rowLimit: nat)
    requires Left(s) >= 0 && !s.inDiagnostics && DistinctNames(data)
    ensures RecordBuilt(data, depth, BuildValue(w, Embed(EidRecord(data)), budget, s, depth, rowLimit, false))
  {
    hide Ascii, BuildValue, PruneValue, ObjectOrder, MemberShown, Emits, DataProps, PRIORITY_KEYS, TooDeep, MembersDeep;
    var v := Embed(EidRecord(data));
    var o := BuildValue(w, v, budget, s, depth, rowLimit, false);
    BuildValuePrunes(w, v, budget, s, depth, rowLimit, false, false);
    ValueAdmitted(w, v, budget, s, depth, rowLimit, false);
    if o.built.Built? {
      var j := o.built.value;
      RecordPrunes(w, data, j, depth, ContextOf(false, s));
      if depth <= MAX_RESULT_DEPTH {
        MembersAdmitted(w, RecordNode(data), budget, s, depth, rowLimit, false);
        if Ordinary(data) {
          NamesInOrder(data, j.props, depth + 1);
          MembersInOrder(data, j.props, depth + 1);
        }
      }
    }
  }

  // ----- how many lists, how many EIDs -----

  function Lists(props: seq<Member>): nat {
    if props == [] then 0 else (if props[0].value.JArray? then 1 else 0) + Lists(props[1..])
  }

  function Length(j: Json): nat { if j.JArray? then |j.items| else 0 }

  function Items(props: seq<Member>): nat {
    if props == [] then 0 else Length(props[0].value) + Items(props[1..])
  }

  lemma {:induction false} ListsConcat(a: seq<Member>, b: seq<Member>)
    ensures Lists(a + b) == Lists(a) + Lists(b) && Items(a + b) == Items(a) + Items(b)
    decreases |a|
  {
    if a == [] {
      assert a + b == b;
    } else {
      ListsConcat(a[1..], b);
      assert (a + b)[1..] == a[1..] + b;
    }
  }

  lemma {:induction false} NoLists(props: seq<Member>)
    requires forall i :: 0 <= i < |props| ==> !props[i].value.JArray?
    ensures Lists(props) == 0 && Items(props) == 0
    decreases |props|
  {
    if props != [] { NoLists(props[1..]); }
  }

  lemma RetainedMore(counts: seq<SecurityCount>, c: SecurityCount)
    ensures RetainedSum(counts + [c]) == Min(MAX_SAFE_INTEGER, RetainedSum(counts) + c.retained)
    ensures RetainedSum(counts) <= MAX_SAFE_INTEGER
  {
    assert (counts + [c])[..|counts|] == counts;
  }

  /** The summary counts every list, with all of its items. */
  lemma {:induction false} CountsTotal(props: seq<Member>, data: seq<EidEntry>, prior: Option<seq<SecurityCount>>,
                                       counts: seq<SecurityCount>)
    ensures var r := EmittedCounts(props, data, prior, counts);
            && |r| == |counts| + Lists(props)
            && RetainedSum(r) == Min(MAX_SAFE_INTEGER, RetainedSum(counts) + Items(props))
    decreases |props|
  {
    hide RetainedSum;
    RetainedMore(counts, SecurityCount(None, 0));
    if props != [] {
      if !props[0].value.JArray? {
        CountsTotal(props[1..], data, prior, counts);
      } else {
        var k := |counts|;
        var original :=
          if prior.None? then Some(if k < |data| then data[k].original else |props[0].value.items|)
          else if k < |prior.value| then prior.value[k].original
          else None;
        var c := SecurityCount(original, |props[0].value.items|);
        RetainedMore(counts, c);
        CountsTotal(props[1..], data, prior, counts + [c]);
      }
    }
  }

  // ----- counts that match -----

  /** The list of a security is there, with an item for each of its EIDs. */
  ghost predicate Listed(props: seq<Member>, e: EidEntry) {
    exists k :: 0 <= k < |props| && ListsAll(props[k], e)
  }

  predicate ListsAll(m: Member, e: EidEntry) { m.key == e.security && m.value.JArray? && |m.value.items| == |e.eids| }

  ghost predicate AllListed(props: seq<Member>, data: seq<EidEntry>) {
    forall i :: 0 <= i < |data| ==> Listed(props, data[i])
  }

  /** A list is one of the securities', and no longer than that. */
  ghost predicate Owned(m: Member, data: seq<EidEntry>) {
    m.value.JArray? ==> exists i :: 0 <= i < |data| && Owns(m, data[i])
  }

  predicate Owns(m: Member, e: EidEntry) { m.key == e.security && Length(m.value) <= |e.eids| }

  ghost predicate Drawn(props: seq<Member>, data: seq<EidEntry>) {
    Distinct(props) && forall k :: 0 <= k < |props| ==> Owned(props[k], data)
  }

  /** Without its own list, a security owns none of the members. */
  lemma DrawnLess(props: seq<Member>, data: seq<EidEntry>)
    requires data != [] && Drawn(props, data)
    requires forall k :: 0 <= k < |props| && props[k].value.JArray? ==> props[k].key != data[|data| - 1].security
    ensures Drawn(props, data[..|data| - 1])
  {
    var n := |data| - 1;
    forall k | 0 <= k < |props| ensures Owned(props[k], data[..n]) {
      assert Owned(props[k], data);
      if props[k].value.JArray? {
        var i :| 0 <= i < |data| && Owns(props[k], data[i]);
        assert i < n && data[..n][i] == data[i];
      }
    }
  }

  lemma DrawnRest(a: seq<Member>, m: Member, b: seq<Member>, data: seq<EidEntry>)
    requires data != [] && Drawn(a + [m] + b, data) && m.key == data[|data| - 1].security
    ensures Drawn(a + b, data[..|data| - 1])
  {
    hide Owned;
    var all, rest := a + [m] + b, a + b;
    forall k | 0 <= k < |rest|
      ensures rest[k] == all[if k < |a| then k else k + 1] && rest[k].key != m.key && Owned(rest[k], data)
    {
      assert all[|a|] == m;
    }
    forall i, j | 0 <= i < j < |rest| ensures rest[i].key != rest[j].key {
      assert all[if i < |a| then i else i + 1].key != all[if j < |a| then j else j + 1].key;
    }
    DrawnLess(rest, data);
  }

  lemma ListedRest(a: seq<Member>, m: Member, b: seq<Member>, data: seq<EidEntry>)
    requires data != [] && DistinctNames(data) && Distinct(a + [m] + b)
    requires m.key == data[|data| - 1].security && m.value.JArray?
    ensures var n := |data| - 1;
            AllListed(a + [m] + b, data) <==>
              AllListed(a + b, data[..n]) && |m.value.items| == |data[n].eids|
  {
    var n, all, rest := |data| - 1, a + [m] + b, a + b;
    assert all[|a|] == m;
    if AllListed(all, data) {
      forall i | 0 <= i < n ensures Listed(rest, data[..n][i]) {
        assert Listed(all, data[i]);
        var k :| 0 <= k < |all| && ListsAll(all[k], data[i]);
        assert k != |a|;
        assert rest[if k < |a| then k else k - 1] == all[k];
      }
      assert Listed(all, data[n]);
      var k :| 0 <= k < |all| && ListsAll(all[k], data[n]);
      assert k == |a|;
    }
    if AllListed(rest, data[..n]) && |m.value.items| == |data[n].eids| {
      forall i | 0 <= i < |data| ensures Listed(all, data[i]) {
        if i == n {
          assert ListsAll(all[|a|], data[n]);
        } else {
          assert Listed(rest, data[..n][i]);
          var k :| 0 <= k < |rest| && ListsAll(rest[k], data[i]);
          assert all[if k < |a| then k else k + 1] == rest[k];
        }
      }
    }
  }

  /** As many lists and EIDs as in the record mean that every list is there and full. */
  lemma {:induction false} CountBound(props: seq<Member>, data: seq<EidEntry>)
    requires DistinctNames(data) && Drawn(props, data)
    ensures Lists(props) <= |data| && Items(props) <= SumEids(data)
    ensures Lists(props) == |data| && Items(props) == SumEids(data) <==> AllListed(props, data)
    decreases |data|
  {
    hide Owned, Drawn, AllListed, Lists, Items;
    if data == [] {
      NoneOwned(props);
    } else {
      var n := |data| - 1;
      if k :| 0 <= k < |props| && props[k].value.JArray? && props[k].key == data[n].security {
        var a, m, b := props[..k], props[k], props[k + 1..];
        assert props == a + [m] + b;
        DrawnDistinct(props, data);
        DrawnRest(a, m, b, data);
        ListedRest(a, m, b, data);
        OwnLength(props, k, data);
        CountBound(a + b, data[..n]);
        ListsConcat(a, b);
        ListsConcat(a + [m], b);
        ListsConcat(a, [m]);
        OneList(m);
      } else {
        DrawnLess(props, data);
        CountBound(props, data[..n]);
        NotListed(props, data);
      }
    }
  }

  lemma NoneOwned(props: seq<Member>)
    requires Drawn(props, [])
    ensures Lists(props) == 0 && Items(props) == 0 && AllListed(props, [])
  {
    forall i | 0 <= i < |props| ensures !props[i].value.JArray? { assert Owned(props[i], []); }
    NoLists(props);
  }

  lemma DrawnDistinct(props: seq<Member>, data: seq<EidEntry>)
    requires Drawn(props, data)
    ensures Distinct(props)
  {
  }

  lemma OwnLength(props: seq<Member>, k: nat, data: seq<EidEntry>)
    requires DistinctNames(data) && Drawn(props, data) && data != [] && k < |props| && props[k].value.JArray?
    requires props[k].key == data[|data| - 1].security
    ensures |props[k].value.items| <= |data[|data| - 1].eids|
  {
    assert Owned(props[k], data);
    var i :| 0 <= i < |data| && Owns(props[k], data[i]);
    assert i == |data| - 1;
  }

  lemma OneList(m: Member)
    requires m.value.JArray?
    ensures Lists([m]) == 1 && Items([m]) == |m.value.items|
  {
    assert [m][1..] == [];
    assert Lists([]) == 0 && Items([]) == 0;
  }

  lemma NotListed(props: seq<Member>, data: seq<EidEntry>)
    requires data != []
    requires forall k :: 0 <= k < |props| && props[k].value.JArray? ==> props[k].key != data[|data| - 1].security
    ensures !AllListed(props, data)
  {
    assert !Listed(props, data[|data| - 1]);
  }

  // ----- when no summary goes out -----

  /** How far a record reaches down: itself, its lists, their EIDs. */
  function Extent(data: seq<EidEntry>): nat {
    if data == [] then 0 else if forall i :: 0 <= i < |data| ==> data[i].eids == [] then 1 else 2
  }

  /** The emitted counts add up to those of the record. */
  ghost predicate CountsMatch(emitted: Json, data: seq<EidEntry>) {
    var counts := EmittedCounts(if emitted.JObject? then emitted.props else [], data, None, []);
    |counts| == |data| && RetainedSum(counts) == SumEids(data)
  }

  function EidMember(e: EidEntry): Member { Member(e.security, JArray(EidItems(e.eids))) }

  /** The members are those of the prepared record, each once, in whatever order. */
  ghost predicate SameMembers(j: Json, data: seq<EidEntry>) {
    && j.JObject? && Distinct(j.props) && |j.props| == |data|
    && forall i :: 0 <= i < |data| ==> EidMember(data[i]) in j.props
  }

  lemma MembersDrawn(props: seq<Member>, data: seq<EidEntry>, depth: nat)
    requires depth <= MAX_RESULT_DEPTH && Distinct(props)
    requires forall i :: 0 <= i < |props| ==> MemberShown(props[i], data, depth)
    ensures Drawn(props, data)
  {
    hide EidShown, Names, Ascii;
    forall k | 0 <= k < |props| ensures Owned(props[k], data) {
      assert MemberShown(props[k], data, depth);
      if props[k].value.JArray? {
        var i :| 0 <= i < |data| && props[k].key == data[i].security && Leads(props[k].value, data[i].eids, depth);
        assert Owns(props[k], data[i]);
      }
    }
  }

  /** Counts match exactly if every security was emitted, with an item for each of its EIDs. */
  lemma MatchListed(props: seq<Member>, data: seq<EidEntry>, depth: nat)
    requires depth < MAX_RESULT_DEPTH && RecordPruned(JObject(props), data, depth)
    requires DistinctNames(data) && SumEids(data) <= MAX_ENTITLEMENT_EIDS
    ensures CountsMatch(JObject(props), data) <==> AllListed(props, data)
  {
    hide EmittedCounts, RetainedSum, SumEids, AllListed, MemberShown, Drawn, Lists, Items;
    MembersDrawn(props, data, depth + 1);
    CountBound(props, data);
    CountsTotal(props, data, None, []);
    NothingRetained();
  }

  lemma NothingRetained()
    ensures RetainedSum([]) == 0
  {
  }

  /** Without any list only the empty record is matched. */
  lemma NoMatch(emitted: Json, data: seq<EidEntry>)
    requires emitted.JObject? ==> forall i :: 0 <= i < |emitted.props| ==> !emitted.props[i].value.JArray?
    ensures CountsMatch(emitted, data) <==> data == []
  {
    hide EmittedCounts;
    var props := if emitted.JObject? then emitted.props else [];
    CountsTotal(props, data, None, []);
    NoLists(props);
    NothingRetained();
  }

  lemma DeepMembers(props: seq<Member>, data: seq<EidEntry>, depth: nat)
    requires depth > MAX_RESULT_DEPTH && forall i :: 0 <= i < |props| ==> MemberShown(props[i], data, depth)
    ensures forall i :: 0 <= i < |props| ==> !props[i].value.JArray?
  {
    hide Ascii, Names, Stands;
    forall i | 0 <= i < |props| ensures !props[i].value.JArray? { assert MemberShown(props[i], data, depth); }
  }

  /** When all lists are there, nothing else is. */
  lemma ListedOnly(props: seq<Member>, data: seq<EidEntry>, depth: nat)
    requires depth <= MAX_RESULT_DEPTH && DistinctNames(data) && Distinct(props) && AllListed(props, data)
    requires forall i :: 0 <= i < |props| ==> MemberShown(props[i], data, depth)
    ensures |props| == |data| && EID_DATA !in Names(data)
  {
    hide Leads, Ascii;
    forall i | 0 <= i < |data| ensures data[i].security != EID_DATA {
      assert Listed(props, data[i]);
      var k :| 0 <= k < |props| && ListsAll(props[k], data[i]);
      assert MemberShown(props[k], data, depth);
    }
    NamesIn(data, EID_DATA);
    forall k | 0 <= k < |props| ensures KeysOf(props)[k] in Names(data) {
      assert MemberShown(props[k], data, depth);
      NamesIn(data, props[k].key);
    }
    forall i | 0 <= i < |data| ensures Names(data)[i] in KeysOf(props) {
      assert Listed(props, data[i]);
      var k :| 0 <= k < |props| && ListsAll(props[k], data[i]);
      assert KeysOf(props)[k] == data[i].security;
    }
    SameKeys(KeysOf(props), Names(data));
  }

  lemma SameKeys(a: seq<Str>, b: seq<Str>)
    requires DistinctKeys(a) && DistinctKeys(b)
    requires forall i :: 0 <= i < |a| ==> a[i] in b
    requires forall i :: 0 <= i < |b| ==> b[i] in a
    ensures |a| == |b|
  {
    KeySet(a);
    KeySet(b);
    assert (set k | k in a) == (set k | k in b);
  }

  lemma {:induction false} KeySet(a: seq<Str>)
    requires DistinctKeys(a)
    ensures |set k | k in a| == |a|
    decreases |a|
  {
    if a != [] {
      KeySet(a[1..]);
      assert (set k | k in a) == (set k | k in a[1..]) + {a[0]};
    }
  }

  /** With every item in place, the members are the prepared ones unless an EID lies below the depth limit. */
  lemma ListedWhole(props: seq<Member>, data: seq<EidEntry>, depth: nat)
    requires depth <= MAX_RESULT_DEPTH && DistinctNames(data) && Distinct(props) && AllListed(props, data)
    requires forall i :: 0 <= i < |props| ==> MemberShown(props[i], data, depth)
    ensures SameMembers(JObject(props), data) <==> depth + Extent(data) <= MAX_RESULT_DEPTH + 1
  {
    hide Leads, Ascii, EidItems, Names, MemberShown;
    ListedOnly(props, data, depth);
    if depth < MAX_RESULT_DEPTH || forall i :: 0 <= i < |data| ==> data[i].eids == [] {
      forall i | 0 <= i < |data| ensures EidMember(data[i]) in props {
        assert Listed(props, data[i]);
        var k :| 0 <= k < |props| && ListsAll(props[k], data[i]);
        ShownLeads(props[k], data, i, depth);
        ListWhole(props[k].value, data[i].eids, depth);
        assert props[k] == EidMember(data[i]);
      }
    } else {
      var i :| 0 <= i < |data| && data[i].eids != [];
      if k :| 0 <= k < |props| && props[k] == EidMember(data[i]) {
        ShownLeads(props[k], data, i, depth);
        ListLost(props[k].value, data[i].eids, depth);
        assert false;
      }
    }
  }

  lemma ShownLeads(m: Member, data: seq<EidEntry>, i: nat, depth: nat)
    requires DistinctNames(data) && MemberShown(m, data, depth) && m.value.JArray? && i < |data|
    requires m.key == data[i].security
    ensures Leads(m.value, data[i].eids, depth)
  {
    hide Leads, Ascii, Names;
    var k :| 0 <= k < |data| && m.key == data[k].security && Leads(m.value, data[k].eids, depth);
    assert k == i;
  }

  lemma ListWhole(j: Json, eids: seq<int>, depth: nat)
    requires depth <= MAX_RESULT_DEPTH && Leads(j, eids, depth) && |j.items| == |eids|
    requires depth < MAX_RESULT_DEPTH || eids == []
    ensures j == JArray(EidItems(eids))
  {
    forall k | 0 <= k < |eids| ensures j.items[k] == EidItems(eids)[k] {
      assert EidShown(j.items[k], eids[k], depth + 1);
    }
    assert j.items == EidItems(eids);
  }

  lemma ListLost(j: Json, eids: seq<int>, depth: nat)
    requires depth == MAX_RESULT_DEPTH && Leads(j, eids, depth) && eids != []
    ensures j != JArray(EidItems(eids))
  {
    if j.items != [] {
      assert EidShown(j.items[0], eids[0], depth + 1);
      assert EidItems(eids)[0] == JNumber(Int(eids[0]));
    }
  }

  lemma SameListed(j: Json, data: seq<EidEntry>)
    requires SameMembers(j, data)
    ensures AllListed(j.props, data)
  {
    forall i | 0 <= i < |data| ensures Listed(j.props, data[i]) {
      var k :| 0 <= k < |j.props| && j.props[k] == EidMember(data[i]);
      assert ListsAll(j.props[k], data[i]);
    }
  }

  /** Matching counts mean all members, exactly where the record does not reach below the depth limit. */
  lemma MatchWhole(emitted: Json, data: seq<EidEntry>, depth: nat)
    requires RecordPruned(emitted, data, depth) && DistinctNames(data) && SumEids(data) <= MAX_ENTITLEMENT_EIDS
    ensures CountsMatch(emitted, data) && depth + Extent(data) <= MAX_RESULT_DEPTH <==> SameMembers(emitted, data)
  {
    hide CountsMatch, AllListed, SumEids, MemberShown, SameMembers;
    if depth < MAX_RESULT_DEPTH {
      MatchListed(emitted.props, data, depth);
      if SameMembers(emitted, data) { SameListed(emitted, data); }
      if AllListed(emitted.props, data) { ListedWhole(emitted.props, data, depth + 1); }
    } else {
      if depth == MAX_RESULT_DEPTH { DeepMembers(emitted.props, data, depth + 1); }
      NoMatch(emitted, data);
      DeepWhole(emitted, data, depth);
    }
  }

  lemma DeepWhole(emitted: Json, data: seq<EidEntry>, depth: nat)
    requires depth >= MAX_RESULT_DEPTH && RecordPruned(emitted, data, depth)
    requires depth == MAX_RESULT_DEPTH ==> forall i :: 0 <= i < |emitted.props| ==> !emitted.props[i].value.JArray?
    ensures SameMembers(emitted, data) <==> data == [] && depth == MAX_RESULT_DEPTH
  {
    hide Leads, Ascii;
    assert data != [] ==> EidMember(data[0]).value.JArray?;
    if data == [] && depth == MAX_RESULT_DEPTH { NothingShown(emitted.props, depth + 1); }
  }

  lemma NothingShown(props: seq<Member>, depth: nat)
    requires forall i :: 0 <= i < |props| ==> MemberShown(props[i], [], depth)
    ensures props == []
  {
    assert Names([]) == [];
    assert props != [] ==> !MemberShown(props[0], [], depth);
  }

  /** What an unflagged scan reports. */
  lemma PreparedTotals(w: World, value: Value, s: State)
    requires Left(s) >= 0 && IsPlain(w, value)
    ensures var p := PrepareEidData(w, value, s);
            !p.truncated ==>
              p.invalid == 0 && p.totalSecurities == Some(|p.data|) && p.totalEids == Some(SumEids(p.data))
  {
    hide Ascii, ScanSecurities, SumEids, SumOriginal, SumNames, Recorded;
    var node := NodeOf(w, value).value;
    var keys := Keys(node.props);
    assert keys[0..] == keys;
    KeysSpec(node.props);
    EmptyTally(w, node, keys, s);
    ScanSecuritiesTallied(w, node, keys, EidVisitLimit(s), Tally0(s));
  }

  lemma EmptyTally(w: World, node: Node, keys: seq<Str>, s: State)
    ensures Tallied(w, node, keys, Tally0(s))
  {
  }

  /** No summary means an unflagged scan and matching counts, and the other way round. */
  lemma SummaryAbsent(w: World, source: Node, value: Value, s: State, emitted: Json)
    requires Left(s) >= 0
    ensures var p := PrepareEidData(w, value, s);
            EmittedSummary(w, source, emitted, p).None?
            <==> PriorRecord(w, source).None? && !p.truncated && CountsMatch(emitted, p.data)
  {
    hide Ascii, EmittedCounts, RetainedSum, PriorRecord, PrepareEidData, SumEids, IsPlain;
    var p := PrepareEidData(w, value, s);
    if !p.truncated {
      PlainUnlessFlagged(w, value, s);
      PreparedTotals(w, value, s);
    }
    SummaryAbsentOf(w, source, emitted, p);
  }

  lemma SummaryAbsentOf(w: World, source: Node, emitted: Json, p: Prepared)
    ensures var prior := PriorRecord(w, source);
            var counts := EmittedCounts(if emitted.JObject? then emitted.props else [], p.data,
                                        if prior.None? then None else Some(PriorCounts(w, prior)), []);
            EmittedSummary(w, source, emitted, p).None?
            <==> && prior.None? && !p.truncated
                 && p.totalEids == Some(RetainedSum(counts)) && p.totalSecurities == Some(|counts| + p.invalid)
  {
    hide Ascii, EmittedCounts, RetainedSum, PriorRecord, PriorCounts;
  }

  lemma PlainUnlessFlagged(w: World, value: Value, s: State)
    requires Left(s) >= 0 && !PrepareEidData(w, value, s).truncated
    ensures IsPlain(w, value)
  {
  }

  /** The input had all of this and nothing else, and all of it is there; in its order with ordinary names. */
  ghost predicate Lossless(w: World, value: Value, data: seq<EidEntry>, emitted: Json) {
    && IsPlain(w, value)
    && SameMembers(emitted, data) && (Ordinary(data) ==> emitted == EidRecord(data))
    && Names(data) == Keys(NodeOf(w, value).value.props)
    && forall i :: 0 <= i < |data| ==>
         FromRecord(w, NodeOf(w, value).value, data[i]) && |data[i].eids| == data[i].original
  }

  lemma WholeInOrder(j: Json, data: seq<EidEntry>, depth: nat)
    requires RecordShown(j, data, depth) && SameMembers(j, data)
    ensures j == EidRecord(data)
  {
    hide Leads, Ascii, Stands;
    forall i | 0 <= i < |data| ensures j.props[i] == EidRecord(data).props[i] {
      var k :| 0 <= k < |j.props| && j.props[k] == EidMember(data[i]);
      assert j.props[i].key == data[i].security;
      assert k == i;
    }
    assert j.props == EidRecord(data).props;
  }

  /** What `buildEntitlementProperty` builds for the prepared entitlements of `v`, at the depth of the record. */
  function BuiltRecord(w: World, v: Value, budget: int, s: State, depth: nat): Out
    requires Left(s) >= 0
  {
    hide PrepareEidData, EidRecord, Embed;
    var p := PrepareEidData(w, v, s);
    BuildValue(w, Embed(EidRecord(p.data)), budget, p.st, depth, MAX_ENTITLEMENT_EIDS, false)
  }

  lemma PreparedDistinct(w: World, v: Value, s: State)
    requires Left(s) >= 0
    ensures DistinctNames(PrepareEidData(w, v, s).data)
  {
    hide Ascii, PrepareEidData, IsPlain, Follows, Keys, Recorded;
    var data := PrepareEidData(w, v, s).data;
    PreparedRetains(w, v, s);
    forall i, j | 0 <= i < j < |data| ensures data[i].security != data[j].security {
      assert Names(data)[i] != Names(data)[j];
    }
  }

  lemma BuiltRecordShown(w: World, v: Value, budget: int, s: State, depth: nat)
    requires Left(s) >= 0 && !s.inDiagnostics
    ensures RecordBuilt(PrepareEidData(w, v, s).data, depth, BuiltRecord(w, v, budget, s, depth))
  {
    hide Ascii, PrepareEidData, BuildValue, EidRecord, Embed, RecordBuilt, Extends;
    var p := PrepareEidData(w, v, s);
    PrepareExtends(w, v, s);
    KeepsContext(s, p.st);
    PreparedDistinct(w, v, s);
    RecordEmitted(w, p.data, budget, p.st, depth, MAX_ENTITLEMENT_EIDS);
  }

  /**
   At every depth and with every name: no summary goes out beside a record that reaches no
   further down than the depth limit exactly if there was none before, the scan lost
   nothing, and the record was emitted with every security and every EID.
   */
  lemma NoSummaryExactly(w: World, source: Node, v: Value, budget: int, s: State, depth: nat)
    requires Left(s) >= 0 && !s.inDiagnostics
    ensures var p, b := PrepareEidData(w, v, s), BuiltRecord(w, v, budget, s, depth).built;
            b.Built? ==>
              && (EmittedSummary(w, source, b.value, p).None? && depth + Extent(p.data) <= MAX_RESULT_DEPTH <==>
                    PriorRecord(w, source).None? && !p.truncated && SameMembers(b.value, p.data))
              && (SameMembers(b.value, p.data) ==> depth + Extent(p.data) <= MAX_RESULT_DEPTH)
              && (!p.truncated && SameMembers(b.value, p.data) ==> Lossless(w, v, p.data, b.value))
  {
    hide Ascii, PrepareEidData, EmittedSummary, CountsMatch, RecordPruned, SumEids, Extent, Lossless, IsPlain,
         BuiltRecord,
         SameMembers, RecordDeep, Ordinary, RecordShown;
    var p, b := PrepareEidData(w, v, s), BuiltRecord(w, v, budget, s, depth).built;
    BuiltRecordShown(w, v, budget, s, depth);
    PreparedDistinct(w, v, s);
    PreparedCaps(w, v, s);
    if b.Built? {
      SummaryAbsent(w, source, v, s, b.value);
      MatchWhole(b.value, p.data, depth);
      if !p.truncated && SameMembers(b.value, p.data) { LosslessScan(w, v, s, b.value, depth); }
    }
  }

  lemma LosslessScan(w: World, value: Value, s: State, j: Json, depth: nat)
    requires Left(s) >= 0 && !PrepareEidData(w, value, s).truncated
    requires var data := PrepareEidData(w, value, s).data;
             SameMembers(j, data) && (Ordinary(data) ==> RecordShown(j, data, depth))
    ensures Lossless(w, value, PrepareEidData(w, value, s).data, j)
  {
    hide Ascii, PrepareEidData, Keys, FromRecord, TallyOf, SumEids, SumNames, IsPlain, SameMembers, Ordinary,
         RecordShown,
         EidRecord;
    var data := PrepareEidData(w, value, s).data;
    PlainUnlessFlagged(w, value, s);
    PreparedAccounting(w, value, s);
    if Ordinary(data) { WholeInOrder(j, data, depth); }
    assert Names(data) == Keys(NodeOf(w, value).value.props);
  }

  lemma PreparedCaps(w: World, value: Value, s: State)
    requires Left(s) >= 0
    ensures SumEids(PrepareEidData(w, value, s).data) <= MAX_ENTITLEMENT_EIDS
  {
    hide Ascii, TallyOf;
    if IsPlain(w, value) { PreparedAccounting(w, value, s); }
  }

  /**
   Where the record reaches further down, a missing summary hides the loss: below the depth
   limit an empty record is a placeholder, and just above it the lists hold a placeholder
   for each EID.
   */
  lemma NoSummaryBelow(w: World, source: Node, v: Value, budget: int, s: State, depth: nat)
    requires Left(s) >= 0 && !s.inDiagnostics
    ensures var p, b := PrepareEidData(w, v, s), BuiltRecord(w, v, budget, s, depth).built;
            b.Built? && EmittedSummary(w, source, b.value, p).None? && depth + Extent(p.data) > MAX_RESULT_DEPTH ==>
              && !p.truncated && RecordPruned(b.value, p.data, depth)
              && if depth > MAX_RESULT_DEPTH then p.data == [] && TooDeep(b.value)
                 else depth + 1 == MAX_RESULT_DEPTH && |b.value.props| == |p.data| && AllListed(b.value.props, p.data)
  {
    hide Ascii, PrepareEidData, EmittedSummary, CountsMatch, SumEids, AllListed, BuiltRecord, MemberShown, Ordinary,
         RecordShown, RecordDeep;
    var p, b := PrepareEidData(w, v, s), BuiltRecord(w, v, budget, s, depth).built;
    BuiltRecordShown(w, v, budget, s, depth);
    PreparedDistinct(w, v, s);
    PreparedCaps(w, v, s);
    if b.Built? && EmittedSummary(w, source, b.value, p).None? && depth + Extent(p.data) > MAX_RESULT_DEPTH {
      SummaryAbsent(w, source, v, s, b.value);
      if depth < MAX_RESULT_DEPTH {
        MatchListed(b.value.props, p.data, depth);
        ListedOnly(b.value.props, p.data, depth + 1);
      } else {
        if depth == MAX_RESULT_DEPTH { DeepMembers(b.value.props, p.data, depth + 1); }
        NoMatch(b.value, p.data);
      }
    }
  }

  // ----- the counts beside the data -----

  /** The lengths of the lists, in the order in which they were emitted. */
  function Lengths(props: seq<Member>): seq<nat> {
    if props == [] then []
    else (if props[0].value.JArray? then [|props[0].value.items|] else []) + Lengths(props[1..])
  }

  function Retained(counts: seq<SecurityCount>): seq<nat> {
    seq(|counts|, i requires 0 <= i < |counts| => counts[i].retained)
  }

  lemma RetainedNext(counts: seq<SecurityCount>, c: SecurityCount)
    ensures Retained(counts + [c]) == Retained(counts) + [c.retained]
  {
  }

  /** The counts beside the data are the lengths of the emitted lists, in their order. */
  lemma {:induction false} CountsLengths(props: seq<Member>, data: seq<EidEntry>, prior: Option<seq<SecurityCount>>,
                                         counts: seq<SecurityCount>)
    ensures Retained(EmittedCounts(props, data, prior, counts)) == Retained(counts) + Lengths(props)
    decreases |props|
  {
    hide Retained;
    if props == [] {
      assert Retained(counts) + [] == Retained(counts);
    } else if !props[0].value.JArray? {
      CountsLengths(props[1..], data, prior, counts);
      assert [] + Lengths(props[1..]) == Lengths(props[1..]);
    } else {
      var k, n := |counts|, |props[0].value.items|;
      var original :=
        if prior.None? then Some(if k < |data| then data[k].original else n)
        else if k < |prior.value| then prior.value[k].original
        else None;
      var c := SecurityCount(original, n);
      CountsLengths(props[1..], data, prior, counts + [c]);
      RetainedNext(counts, c);
      assert Retained(counts) + [n] + Lengths(props[1..]) == Retained(counts) + ([n] + Lengths(props[1..]));
    }
  }

  /** The original count that goes with the security at a position. */
  function OriginalAt(data: seq<EidEntry>, prior: Option<seq<SecurityCount>>, i: nat): Option<nat>
    requires i < |data|
  {
    if prior.None? then Some(data[i].original) else if i < |prior.value| then prior.value[i].original else None
  }

  /** Each count stands at the position of the security it counts. */
  ghost predicate Aligned(props: seq<Member>, data: seq<EidEntry>, prior: Option<seq<SecurityCount>>, depth: nat,
                          counts: seq<SecurityCount>)
    requires Emits(props, data, depth) && depth <= MAX_RESULT_DEPTH
  {
    && |counts| == |props|
    && forall i :: 0 <= i < |counts| ==> counts[i] == SecurityCount(OriginalAt(data, prior, i), |props[i].value.items|)
  }

  lemma {:induction false} CountsFrom0(props: seq<Member>, data: seq<EidEntry>, prior: Option<seq<SecurityCount>>,
                                       depth: nat, k: nat, counts: seq<SecurityCount>)
    requires depth <= MAX_RESULT_DEPTH && Emits(props, data, depth) && k == |counts| <= |props|
    requires Aligned(props[..k], data, prior, depth, counts)
    ensures Aligned(props, data, prior, depth, EmittedCounts(props[k..], data, prior, counts))
    decreases |props| - k
  {
    hide EidShown;
    if k < |props| {
      assert Leads(props[k].value, data[k].eids, depth);
      var c := SecurityCount(OriginalAt(data, prior, k), |props[k].value.items|);
      assert props[k..][1..] == props[k + 1..];
      assert Aligned(props[..k + 1], data, prior, depth, counts + [c]);
      CountsFrom0(props, data, prior, depth, k + 1, counts + [c]);
    } else {
      assert props[..k] == props;
    }
  }

  /** While lists stay lists, the counts align with the emitted securities. */
  lemma CountsAligned(props: seq<Member>, data: seq<EidEntry>, prior: Option<seq<SecurityCount>>, depth: nat)
    requires depth <= MAX_RESULT_DEPTH && Emits(props, data, depth)
    ensures Aligned(props, data, prior, depth, EmittedCounts(props, data, prior, []))
  {
    hide EidShown, EmittedCounts;
    assert props[0..] == props;
    assert Emits(props[..0], data, depth) && Aligned(props[..0], data, prior, depth, []);
    CountsFrom0(props, data, prior, depth, 0, []);
  }

  // ----- the emitted members -----

  function Prior(w: World, source: Node): Option<seq<SecurityCount>> {
    var prior := PriorRecord(w, source);
    if prior.None? then None else Some(PriorCounts(w, prior))
  }

  function PropsOf(j: Json): seq<Member> { if j.JObject? then j.props else [] }

  /** Whatever the names: the summary counts exactly what was emitted. */
  ghost predicate SummaryCounted(j: Json, summary: Summary) {
    && Retained(summary.counts) == Lengths(PropsOf(j))
    && summary.retainedSecurities == Lists(PropsOf(j))
    && summary.retainedEids == Min(MAX_SAFE_INTEGER, Items(PropsOf(j)))
  }

  /** The counts of the summary stand beside the lists that were emitted, by position. */
  ghost predicate SummaryAligned(w: World, source: Node, data: seq<EidEntry>, j: Json, depth: nat, summary: Summary)
    requires RecordShown(j, data, depth)
  {
    if depth < MAX_RESULT_DEPTH
    then Aligned(j.props, data, Prior(w, source), depth + 1, summary.counts)
    else summary.counts == []
  }

  /** The summary is emitted shrunk like any value, or left out with a reason and counted as omitted. */
  ghost predicate SummaryKept(w: World, summary: Summary, depth: nat, before: seq<Member>, s: State, o: PropOut) {
    || (o.acc.props == before && Blocked(o.st) && o.st.omittedProperties > s.omittedProperties)
    || exists k :: o.acc.props == before + [Member(EID_DATA_TRUNCATION, k)]
                   && PruneValue(w, Embed(SummaryJson(summary)), k, depth, ContextOf(false, s))
  }

  /** What the `eidData` property of an object at `depth` leaves behind: `j`, and a summary if there is one. */
  ghost predicate EntitlementKept(w: World, source: Node, v: Value, p: Prepared, j: Json, acc: Acc, s: State,
                                  depth: nat, o: PropOut) {
    && RecordPruned(j, p.data, depth + 1)
    && (RecordDeep(j, depth + 1) ==> MaxResultDepth in o.st.reasons)
    && (Ordinary(p.data) ==> RecordShown(j, p.data, depth + 1))
    && var kept, summary := acc.props + [Member(EID_DATA, j)], EmittedSummary(w, source, j, p);
       if summary.None?
       then o.acc.props == kept && (Lossless(w, v, p.data, j) <==> depth + 1 + Extent(p.data) <= MAX_RESULT_DEPTH)
       else
         && SummaryCounted(j, summary.value) && SummaryKept(w, summary.value, depth + 1, kept, s, o)
         && (Ordinary(p.data) ==> SummaryAligned(w, source, p.data, j, depth + 1, summary.value))
  }

  lemma SummaryCounts(w: World, source: Node, emitted: Json, p: Prepared)
    ensures var summary := EmittedSummary(w, source, emitted, p);
            summary.Some? ==>
              && summary.value.counts == EmittedCounts(PropsOf(emitted), p.data, Prior(w, source), [])
              && summary.value.retainedSecurities == |summary.value.counts|
              && summary.value.retainedEids == RetainedSum(summary.value.counts)
  {
    hide Ascii, EmittedCounts, RetainedSum, PriorRecord, PriorCounts;
  }

  lemma SummaryCountsIt(w: World, source: Node, p: Prepared, j: Json)
    requires EmittedSummary(w, source, j, p).Some?
    ensures SummaryCounted(j, EmittedSummary(w, source, j, p).value)
  {
    hide Ascii, EmittedCounts, EmittedSummary, RetainedSum, Lists, Items, Lengths, Prior;
    SummaryCounts(w, source, j, p);
    CountsLengths(PropsOf(j), p.data, Prior(w, source), []);
    CountsTotal(PropsOf(j), p.data, Prior(w, source), []);
    NothingRetained();
    assert Retained([]) + Lengths(PropsOf(j)) == Lengths(PropsOf(j));
  }

  lemma SummaryAligns(w: World, source: Node, p: Prepared, j: Json, depth: nat)
    requires RecordShown(j, p.data, depth) && EmittedSummary(w, source, j, p).Some?
    ensures SummaryAligned(w, source, p.data, j, depth, EmittedSummary(w, source, j, p).value)
  {
    hide Ascii, EmittedCounts, EmittedSummary, Emits, Aligned, Prior, Lists;
    SummaryCounts(w, source, j, p);
    if depth < MAX_RESULT_DEPTH {
      CountsAligned(j.props, p.data, Prior(w, source), depth + 1);
    } else {
      if depth == MAX_RESULT_DEPTH { DeepEmits(j.props, p.data, depth + 1); }
      NoLists(PropsOf(j));
      CountsTotal(PropsOf(j), p.data, Prior(w, source), []);
    }
  }

  lemma DeepEmits(props: seq<Member>, data: seq<EidEntry>, depth: nat)
    requires depth > MAX_RESULT_DEPTH && Emits(props, data, depth)
    ensures forall i :: 0 <= i < |props| ==> !props[i].value.JArray?
  {
    hide Ascii, Stands;
    forall i | 0 <= i < |props| ensures !props[i].value.JArray? { assert Leads(props[i].value, data[i].eids, depth); }
  }

  predicate NoKey(acc: Acc, key: Str) { forall i :: 0 <= i < |acc.props| ==> acc.props[i].key != key }

  lemma AppendNew(acc: Acc, key: Str, built: Built, budget: int, s: State)
    requires built.Built? && NoKey(acc, key)
    ensures var o := Append(acc, key, built, budget, s);
            && s.reasons <= o.st.reasons && o.st.omittedProperties == s.omittedProperties
            && (if o.ok then o.st == s && o.acc.props == acc.props + [Member(key, built.value)]
                else o.acc == acc && MaxResultBytes in o.st.reasons)
  {
    hide Ascii, StringSize;
  }

  /** The state and members after the summary was built and appended, or given up. */
  function AfterSummary(w: World, summary: Summary, budget: int, p: PropOut, depth: nat): PropOut
    requires Left(p.st) >= 0
  {
    hide Append, SummaryJson, Embed, StringSize;
    var summaryBudget := budget - p.acc.byteLength - CommaSize(p.acc.props) - StringSize(EID_DATA_TRUNCATION) - 1;
    var u := BuildValue(w, Embed(SummaryJson(summary)), summaryBudget, p.st, depth + 1, MAX_EID_SECURITIES, false);
    var q := if u.built.Omit? then PropOut(u.st, p.acc, false)
             else Append(p.acc, EID_DATA_TRUNCATION, u.built, budget, u.st);
    PropOut(if q.ok then q.st else q.st.(omittedProperties := q.st.omittedProperties + 1), q.acc, true)
  }

  lemma SummaryEmitted(w: World, summary: Summary, budget: int, p: PropOut, s: State, depth: nat)
    requires Left(p.st) >= 0 && Extends(s, p.st) && NoKey(p.acc, EID_DATA_TRUNCATION)
    ensures var o := AfterSummary(w, summary, budget, p, depth);
            SummaryKept(w, summary, depth + 1, p.acc.props, s, o) && p.st.reasons <= o.st.reasons
  {
    hide Ascii, BuildValue, Append, SummaryJson, Embed, StringSize, PruneValue, Exact, Extends;
    var summaryBudget := budget - p.acc.byteLength - CommaSize(p.acc.props) - StringSize(EID_DATA_TRUNCATION) - 1;
    var v := Embed(SummaryJson(summary));
    var u := BuildValue(w, v, summaryBudget, p.st, depth + 1, MAX_EID_SECURITIES, false);
    BuildValueSound(w, v, summaryBudget, p.st, depth + 1, MAX_EID_SECURITIES, false);
    BuildValuePrunes(w, v, summaryBudget, p.st, depth + 1, MAX_EID_SECURITIES, false, false);
    KeepsContext(s, p.st);
    KeepsContext(p.st, u.st);
    OmissionsGrow(s, p.st);
    OmissionsGrow(p.st, u.st);
    if u.built.Built? { AppendNew(p.acc, EID_DATA_TRUNCATION, u.built, budget, u.st); }
    OmittedStill(u.st);
  }

  lemma OmittedStill(s: State)
    ensures Blocked(s) ==> Blocked(s.(omittedProperties := s.omittedProperties + 1))
  {
  }

  /**
   What the `eidData` property leaves in an object at any depth, whatever the securities are
   called: nothing, with the reason why; or each security at most once, with leading EIDs,
   and with them the summary wherever there is one, which counts exactly what was emitted.
   Without a summary everything is there, unless the record reaches below the depth limit.
   With ordinary names the securities stay in order and the counts align by position.
   */
  lemma EntitlementEmitted(w: World, source: Node, v: Value, acc: Acc, budget: int, childBudget: int, s: State,
                           depth: nat)
    requires Left(s) >= 0 && !s.inDiagnostics && NoKey(acc, EID_DATA) && NoKey(acc, EID_DATA_TRUNCATION)
    ensures var p, o := PrepareEidData(w, v, s), BuildEntitlement(w, source, v, acc, budget, childBudget, s, depth);
            if o.ok then exists j :: EntitlementKept(w, source, v, p, j, acc, s, depth, o)
            else o.acc == acc && Blocked(o.st)
  {
    hide Ascii, BuildValue, Append, PrepareEidData, EmittedSummary, EidRecord, SummaryJson, Embed, StringSize, Extends,
         RecordShown, RecordPruned, RecordDeep, Ordinary, SummaryAligned, SummaryKept, SummaryCounted, AfterSummary,
         Exact, Lossless, Extent, SameMembers;
    var p := PrepareEidData(w, v, s);
    PrepareExtends(w, v, s);
    KeepsContext(s, p.st);
    var record, n := Embed(EidRecord(p.data)), Max(2, childBudget / 3);
    var b := BuildValue(w, record, n, p.st, depth + 1, MAX_ENTITLEMENT_EIDS, false);
    BuildValueSound(w, record, n, p.st, depth + 1, MAX_ENTITLEMENT_EIDS, false);
    BuiltRecordShown(w, v, n, s, depth + 1);
    if b.built.Built? {
      AppendNew(acc, EID_DATA, b.built, budget, b.st);
      var a := Append(acc, EID_DATA, b.built, budget, b.st);
      var j := b.built.value;
      var summary := EmittedSummary(w, source, j, p);
      ExtendsTrans(s, p.st, b.st);
      if a.ok && summary.Some? {
        StillNoKey(acc, a.acc, j);
        SummaryEmitted(w, summary.value, budget, a, s, depth);
        SummaryCountsIt(w, source, p, j);
        if Ordinary(p.data) { SummaryAligns(w, source, p, j, depth + 1); }
        EntitlementIs(w, source, v, acc, budget, childBudget, s, depth);
      }
      NoSummaryExactly(w, source, v, n, s, depth + 1);
      LosslessIs(w, v, p.data, j);
      if a.ok {
        assert EntitlementKept(w, source, v, p, j, acc, s, depth,
                               BuildEntitlement(w, source, v, acc, budget, childBudget, s, depth));
      }
    }
  }

  lemma LosslessIs(w: World, v: Value, data: seq<EidEntry>, j: Json)
    ensures Lossless(w, v, data, j) ==> SameMembers(j, data)
  {
  }

  lemma StillNoKey(acc: Acc, a: Acc, j: Json)
    requires NoKey(acc, EID_DATA_TRUNCATION) && a.props == acc.props + [Member(EID_DATA, j)]
    ensures NoKey(a, EID_DATA_TRUNCATION)
  {
    EidKeysDiffer();
    hide Ascii;
  }

  lemma EntitlementIs(w: World, source: Node, v: Value, acc: Acc, budget: int, childBudget: int, s: State, depth: nat)
    requires Left(s) >= 0
    ensures var p := PrepareEidData(w, v, s);
            var b := BuildValue(w, Embed(EidRecord(p.data)), Max(2, childBudget / 3), p.st, depth + 1,
                                MAX_ENTITLEMENT_EIDS, false);
            b.built.Built? ==>
              var a := Append(acc, EID_DATA, b.built, budget, b.st);
              var summary := EmittedSummary(w, source, b.built.value, p);
              a.ok && summary.Some? ==>
                BuildEntitlement(w, source, v, acc, budget, childBudget, s, depth)
                    == AfterSummary(w, summary.value, budget, a, depth)
  {
    hide Ascii, BuildValue, Append, PrepareEidData, EmittedSummary, EidRecord, SummaryJson, Embed, StringSize;
  }

  // ----- securities named like priority keys -----

  /**
   A security named like a priority key moves ahead of every other one: where one follows a
   security with an ordinary name, the emitted order is not the prepared one, and the counts
   do not stand beside the securities they were taken from.
   */
  lemma PriorityNameMoves(w: World, data: seq<EidEntry>, budget: int, s: State, depth: nat, rowLimit: nat, p: nat,
                          q: nat)
    requires Left(s) >= 0
    requires var b := BuildValue(w, Embed(EidRecord(data)), budget, s, depth, rowLimit, false).built;
             && b.Built? && b.value.JObject? && p < |b.value.props| && q < |b.value.props|
             && b.value.props[p].key !in PRIORITY_KEYS && b.value.props[q].key in PRIORITY_KEYS
    ensures q < p
  {
    hide Ascii, BuildValue, PRIORITY_KEYS, PruneValue, EidRecord, ObjectOrder, Embed, RecordNode;
    var j := BuildValue(w, Embed(EidRecord(data)), budget, s, depth, rowLimit, false).built.value;
    BuildValuePrunes(w, Embed(EidRecord(data)), budget, s, depth, rowLimit, false, false);
    RecordOrder(w, data, j, depth, ContextOf(false, s));
    PriorityFirst(RecordNode(data), j.props, p, q);
  }

  lemma PriorityFirst(node: Node, props: seq<Member>, p: nat, q: nat)
    requires ObjectOrder(node, props) && p < |props| && q < |props|
    requires props[p].key !in PRIORITY_KEYS && props[q].key in PRIORITY_KEYS
    ensures q < p
  {
    hide Ascii, PRIORITY_KEYS, PresentKeys, OtherKeys, Follows;
    var m :| 0 <= m <= |props| && OrderedAt(node, props, m);
    FollowsIn(KeysOf(props[..m]), PRIORITY_KEYS);
    OtherKeysOrdinary(node);
    PresentAmong(node, OtherKeys(node));
    var front, back := KeysOf(props[..m]), KeysOf(props[m..]);
    assert forall i :: 0 <= i < m ==> front[i] == props[i].key && front[i] in front;
    assert forall i :: m <= i < |props| ==> back[i - m] == props[i].key && back[i - m] in back;
    assert forall k :: k in back ==> k in PresentKeys(node, OtherKeys(node));
  }

  lemma RecordOrder(w: World, data: seq<EidEntry>, j: Json, depth: nat, c: Context)
    requires PruneValue(w, Embed(EidRecord(data)), j, depth, c) && j.JObject?
    ensures ObjectOrder(RecordNode(data), j.props)
  {
    hide Ascii, DataProps, PruneMember, ObjectOrder;
    var node := RecordNode(data);
    assert Embed(EidRecord(data)) == VFresh(node) && {} * c.ancestors == {};
    if depth <= MAX_RESULT_DEPTH {
      assert PruneNode(w, {}, node, j, depth, c);
      assert PruneContent(w, node, j, depth, Inside(c, {}));
      assert PruneObject(w, node, j, depth, Inside(c, {}));
    }
  }

  lemma {:induction false} PresentAmong(node: Node, keys: seq<Str>)
    ensures forall k :: k in PresentKeys(node, keys) ==> k in keys
    decreases |keys|
  {
    hide Present;
    if keys != [] { PresentAmong(node, keys[1..]); }
  }
}
