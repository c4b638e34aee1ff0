/**
 Where the summary of emitted entitlements says nothing although an EID is lost: an object
 at depth 30 whose `eidData` is {"A":[1]}. Every budget is ample; the EID lies below the
 depth limit and a placeholder is counted in its place.
 */
module HiddenLoss {
  import opened JsText
  import opened Json
  import opened JsHeap
  import opened ResultTypes
  import opened Entitlements
  import opened Projection
  import opened Soundness
  import Completeness
  import opened KeyOrder
  import opened Reprojection
  import opened Emission

  const DEEP := Ascii("[Max result depth exceeded]")
  const SECURITY := Ascii("A")
  const ONE := Int(1)

  /** {"A":[1]}, as a value and as the prepared record. */
  function OneEid(): Value {
    FreshObject([Property(SECURITY, Data(Embed(JArray([JNumber(ONE)]))))])
  }

  function Kept(): seq<EidEntry> { [EidEntry(SECURITY, 1, [1])] }

  /** {"A":["[Max result depth exceeded]"]} */
  function Emitted(): Json { JObject([Member(SECURITY, JArray([JString(DEEP)]))]) }

  // ----- the scan keeps everything -----

  lemma ElemsIs(items: seq<Json>)
    requires items == [JNumber(ONE)]
    ensures DataElems(items) == [Elem(Data(VNum(ONE)))]
  {
  }

  lemma OneKey(slot: Slot)
    ensures Keys([Property(SECURITY, slot)]) == [SECURITY] && Lookup([Property(SECURITY, slot)], SECURITY) == Some(slot)
  {
    var props := [Property(SECURITY, slot)];
    assert props[..0] == [] && Keys(props[..0]) == [];
  }

  lemma ScanOne(s: State, limit: int, keep: bool, capacity: nat)
    requires Left(s) >= 1 && s.visitedNodes < limit && keep && capacity > 0
    ensures ScanEids([Elem(Data(VNum(ONE)))], s, limit, keep, capacity, [])
         == EidScan(s.(visitedNodes := s.visitedNodes + 1), [1], Complete)
  {
    var elems := [Elem(Data(VNum(ONE)))];
    var t := s.(visitedNodes := s.visitedNodes + 1);
    assert elems[1..] == [] && [] + [1] == [1];
    assert ScanEids(elems[1..], t, limit, keep, capacity, [1]) == EidScan(t, [1], Complete);
  }

  lemma NameFits()
    ensures Utf8Length(SECURITY) == 1
  {
    assert SECURITY == [0x41];
    assert SECURITY[1..] == [];
    assert Utf8Length(SECURITY[1..]) == 0;
  }

  lemma ScanSecurityKeeps(w: World, node: Node, s: State, limit: int)
    requires Left(s) >= 2 && s.visitedNodes + 1 < limit
    requires Lookup(node.props, SECURITY) == Some(Data(VFresh(Node(KArray([Elem(Data(VNum(ONE)))]), []))))
    ensures ScanSecurity(w, node, SECURITY, limit, Tally0(s))
         == Tally(s.(visitedNodes := s.visitedNodes + 2), true, 0, 0, 1, 1, 1, 1, Kept())
  {
    hide Ascii, ScanEids, Utf8Length, Lookup;
    NameFits();
    var t := Tally0(s).(st := s.(visitedNodes := s.visitedNodes + 1), scanned := 1);
    ScanOne(t.st, limit, Retainable(t, SECURITY), Capacity(t));
    assert [] + Kept() == Kept();
  }

  lemma ScanKeeps(w: World, s: State)
    requires Left(s) >= 40
    ensures PrepareEidData(w, OneEid(), s)
         == Prepared(s.(visitedNodes := s.visitedNodes + 2), Kept(), 0, 1, Some(1), Some(1), false)
  {
    hide Ascii, ScanSecurity, Lookup, Keys;
    var slot := Data(Embed(JArray([JNumber(ONE)])));
    var node := Node(KPlain, [Property(SECURITY, slot)]);
    ElemsIs([JNumber(ONE)]);
    OneKey(slot);
    var limit := EidVisitLimit(s);
    ScanSecurityKeeps(w, node, s, limit);
    var t := ScanSecurity(w, node, SECURITY, limit, Tally0(s));
    assert [SECURITY][1..] == [];
    assert ScanSecurities(w, node, [], limit, t) == t;
    assert ScanSecurities(w, node, [SECURITY], limit, Tally0(s)) == t;
  }

  // ----- the record is emitted with a placeholder -----

  predicate Ample(s: State, visits: nat) {
    Left(s) >= visits && !s.inDiagnostics && |DEEP| <= s.limits.maxStringChars
  }

  lemma DeepNumber(w: World, budget: int, s: State, rowLimit: nat)
    requires Ample(s, 1) && StringSize(DEEP) <= budget
    ensures BuildValue(w, VNum(ONE), budget, s, MAX_RESULT_DEPTH + 1, rowLimit, false).built
            == Built(StringSize(DEEP), JString(DEEP))
  {
    hide Ascii, Fitted, StringSize, BuildNode;
    var t := AddReason(s.(visitedNodes := s.visitedNodes + 1), MaxResultDepth);
    Completeness.FittedComplete(DEEP, budget, t, rowLimit);
    FittedSize(DEEP, budget, t);
  }

  lemma FittedSize(text: Str, budget: int, s: State)
    requires Fitted(text, budget, s).built.Built? && Fitted(text, budget, s).built.value == JString(text)
    ensures Fitted(text, budget, s).built.byteLength == StringSize(text)
  {
    hide FitString, StringSize;
  }

  lemma NotAtomic(w: World, s: State, e: Element)
    requires e.Elem? && e.slot.Data? && e.slot.value.VNum?
    ensures !Atomic(w, s, e) && NoteElement(s, e) == s && EntryOf(e) == e.slot.value
  {
  }

  lemma DeepRows(w: World, budget: int, s: State, rowLimit: nat)
    requires Ample(s, 1) && StringSize(DEEP) + 2 <= budget && rowLimit >= 1
    ensures BuildArrayRows(w, [Elem(Data(VNum(ONE)))], budget, s, MAX_RESULT_DEPTH, rowLimit, false).built
         == Built(2 + StringSize(DEEP), JArray([JString(DEEP)]))
  {
    hide Ascii, BuildValue, StringSize;
    var elems := [Elem(Data(VNum(ONE)))];
    var t := s.(retainedNodes := s.retainedNodes + 1);
    DeepNumber(w, budget - 2, t, rowLimit);
    NotAtomic(w, t, elems[0]);
    var o := BuildValue(w, VNum(ONE), budget - 2, t, MAX_RESULT_DEPTH + 1, rowLimit, false);
    assert elems[..1] == elems && elems[1..] == [] && [] + [JString(DEEP)] == [JString(DEEP)];
    assert BuildRows(w, elems[1..], budget, o.st, MAX_RESULT_DEPTH, rowLimit, [JString(DEEP)], 2 + StringSize(DEEP))
        == RowsOut(o.st, [JString(DEEP)], 2 + StringSize(DEEP));
    assert BuildRows(w, elems, budget, t, MAX_RESULT_DEPTH, rowLimit, [], 2).items == [JString(DEEP)];
  }

  lemma DeepList(w: World, budget: int, s: State, rowLimit: nat)
    requires Ample(s, 2) && StringSize(DEEP) + 2 <= budget && rowLimit >= 1
    ensures BuildValue(w, Embed(JArray([JNumber(ONE)])), budget, s, MAX_RESULT_DEPTH, rowLimit, false).built
         == Built(2 + StringSize(DEEP), JArray([JString(DEEP)]))
  {
    hide Ascii, BuildNode, Fitted, Unsupported, Primitive, StringSize;
    ElemsIs([JNumber(ONE)]);
    DeepListNode(w, budget, s.(visitedNodes := s.visitedNodes + 1), rowLimit);
  }

  lemma DeepListNode(w: World, budget: int, s: State, rowLimit: nat)
    requires Ample(s, 1) && StringSize(DEEP) + 2 <= budget && rowLimit >= 1
    ensures BuildNode(w, {}, Node(KArray([Elem(Data(VNum(ONE)))]), []), budget, s, MAX_RESULT_DEPTH, rowLimit,
                      false).built
         == Built(2 + StringSize(DEEP), JArray([JString(DEEP)]))
  {
    hide Ascii, BuildArrayRows, BuildTable, Fitted, Unsupported, StringSize;
    var elems := [Elem(Data(VNum(ONE)))];
    var node := Node(KArray(elems), []);
    assert !HasArrayMetadata(node);
    DeepRows(w, budget, Enter(s, {}), rowLimit);
    assert BuildNode(w, {}, node, budget, s, MAX_RESULT_DEPTH, rowLimit, false)
        == BuildArray(w, {}, elems, node, budget, s, MAX_RESULT_DEPTH, rowLimit, false);
  }

  lemma SecurityPlain()
    ensures !IsErrorMetadata(SECURITY) && !IsErrorKey(SECURITY) && SECURITY !in PRIORITY_KEYS && SECURITY != ROWS
            && SECURITY != DATA
  {
    assert |SECURITY| == 1 && |DIAGNOSTICS| == 11 && |ROWS| == 4 && |DATA| == 4;
    assert forall i :: 0 <= i < |ERROR_SHAPE_KEYS| ==> |ERROR_SHAPE_KEYS[i]| != 1;
    assert forall i :: 0 <= i < |PRIORITY_KEYS| ==> |PRIORITY_KEYS[i]| != 1;
  }

  lemma DeepOwn(w: World, source: Node, budget: int, childBudget: int, s: State, rowLimit: nat)
    requires Ample(s, 2) && StringSize(DEEP) + 2 <= childBudget && rowLimit >= 1
    requires childBudget <= budget - 3 - StringSize(SECURITY)
    ensures var p := BuildOwn(w, source, SECURITY, Data(Embed(JArray([JNumber(ONE)]))), EMPTY_ACC, budget, childBudget,
                              s,
                              MAX_RESULT_DEPTH - 1, rowLimit);
            p.ok && p.acc.props == Emitted().props
  {
    hide Ascii, BuildChild, BuildEntitlement, Embed, StringSize, PRIORITY_KEYS, AddOwn, Inspect, EID_DATA;
    SecurityPlain();
    NotSpecial(SECURITY);
    var v := Embed(JArray([JNumber(ONE)]));
    InspectPlain(w, v, s);
    var o := BuildChild(w, SECURITY, v, childBudget, s, MAX_RESULT_DEPTH - 1, rowLimit);
    DeepChild(w, childBudget, s, rowLimit);
    FirstAdded(v, o.built, budget, o.st);
  }

  lemma InspectPlain(w: World, v: Value, s: State)
    requires Left(s) >= 0
    ensures Inspect(w, SECURITY, Data(v), s) == Inspected(s, v, false)
  {
    hide Ascii, IsErrorKey;
    SecurityPlain();
  }

  lemma FirstAdded(v: Value, built: Built, budget: int, s: State)
    requires built.Built? && built.byteLength <= budget - 3 - StringSize(SECURITY)
    ensures var p := AddOwn(EMPTY_ACC, SECURITY, v, false, built, budget, s);
            p.ok && p.acc.props == [Member(SECURITY, built.value)]
  {
    hide Ascii, StringSize, Append;
    AppendAfterBuildSucceeds(EMPTY_ACC, SECURITY, built, budget, s);
    AppendNew(EMPTY_ACC, SECURITY, built, budget, s);
    assert [] + [Member(SECURITY, built.value)] == [Member(SECURITY, built.value)];
  }

  lemma DeepChild(w: World, childBudget: int, s: State, rowLimit: nat)
    requires Ample(s, 2) && StringSize(DEEP) + 2 <= childBudget && rowLimit >= 1
    ensures BuildChild(w, SECURITY, Embed(JArray([JNumber(ONE)])), childBudget, s, MAX_RESULT_DEPTH - 1, rowLimit).built
         == Built(2 + StringSize(DEEP), JArray([JString(DEEP)]))
  {
    SecurityPlain();
    hide Ascii, BuildValue, Embed, StringSize, IsErrorMetadata, PRIORITY_KEYS;
    DeepList(w, childBudget, s, rowLimit);
    assert s.(inDiagnostics := false) == s;
  }

  lemma RecordIs()
    ensures EidRecord(Kept()) == JObject([Member(SECURITY, JArray([JNumber(ONE)]))]) && Names(Kept()) == [SECURITY]
    ensures EidItems([1]) == [JNumber(ONE)] && Ordinary(Kept())
  {
    SecurityPlain();
    hide Ascii;
    var list := EidItems([1]);
    assert list == [JNumber(ONE)];
    assert EidRecord(Kept()).props[0] == Member(SECURITY, JArray(list));
    assert EidRecord(Kept()).props == [Member(SECURITY, JArray([JNumber(ONE)]))];
  }

  lemma OrdinaryIs(w: World, node: Node, key: Str, v: Value, budget: int, s: State, depth: nat, rowLimit: nat)
    requires Left(s) >= 0 && key !in PRIORITY_KEYS && Lookup(node.props, key) == Some(Data(v)) && !v.VUndefined?
    requires StringSize(key) >= 2 && StringSize(key) + 5 <= budget
    ensures BuildProperty(w, node, key, EMPTY_ACC, budget, s, depth, rowLimit)
         == BuildOwn(w, node, key, Data(v), EMPTY_ACC, budget, budget - 3 - StringSize(key), s, depth, rowLimit)
  {
    hide Ascii, BuildStored, BuildOwn, StringSize, PRIORITY_KEYS, Lookup, OPTIONAL_METADATA_KEYS, StoredExceptions,
         FIELD_EXCEPTIONS, EID_DATA, EID_DATA_TRUNCATION;
    NotSpecial(key);
    NotStored(w, node, key);
  }

  lemma DeepProperty(w: World, budget: int, s: State, rowLimit: nat)
    requires Ample(s, 2) && StringSize(DEEP) + StringSize(SECURITY) + 5 <= budget && rowLimit >= 1
    ensures var p := BuildProperty(w, RecordNode(Kept()), SECURITY, EMPTY_ACC, budget, s, MAX_RESULT_DEPTH - 1,
                                   rowLimit);
            p.ok && p.acc.props == Emitted().props
  {
    hide Ascii, BuildProperty, BuildOwn, StringSize, PRIORITY_KEYS, Lookup, RecordNode, Embed;
    SecurityPlain();
    RecordIs();
    SizeAtLeast(DEEP);
    SizeAtLeast(SECURITY);
    RecordLookup(Kept(), SECURITY);
    assert Kept()[0] == EidEntry(SECURITY, 1, [1]);
    var v := Embed(JArray([JNumber(ONE)]));
    EmbedDefined(JArray([JNumber(ONE)]));
    OrdinaryIs(w, RecordNode(Kept()), SECURITY, v, budget, s, MAX_RESULT_DEPTH - 1, rowLimit);
    DeepOwn(w, RecordNode(Kept()), budget, budget - 3 - StringSize(SECURITY), s, rowLimit);
  }

  lemma SizeAtLeast(text: Str)
    ensures StringSize(text) >= 2
  {
  }

  lemma DeepRecord(w: World, budget: int, s: State, rowLimit: nat)
    requires Ample(s, 3) && StringSize(DEEP) + StringSize(SECURITY) + 5 <= budget && rowLimit >= 1
    ensures var b := BuildValue(w, Embed(EidRecord(Kept())), budget, s, MAX_RESULT_DEPTH - 1, rowLimit, false).built;
            b.Built? && b.value == Emitted()
  {
    hide Ascii, BuildNode, Fitted, Unsupported, Primitive, StringSize, DataProps;
    DeepRecordNode(w, budget, s.(visitedNodes := s.visitedNodes + 1), rowLimit);
  }

  lemma DeepRecordNode(w: World, budget: int, s: State, rowLimit: nat)
    requires Ample(s, 2) && StringSize(DEEP) + StringSize(SECURITY) + 5 <= budget && rowLimit >= 1
    ensures var b := BuildNode(w, {}, RecordNode(Kept()), budget, s, MAX_RESULT_DEPTH - 1, rowLimit, false).built;
            b.Built? && b.value == Emitted()
  {
    hide Ascii, BuildKeys, OtherKeys, Fitted, Unsupported, DataProps, Names, StringSize, RecordNode, Emitted, Kept,
         PRIORITY_KEYS;
    RecordIs();
    RecordKeys(Kept());
    SizeAtLeast(DEEP);
    SizeAtLeast(SECURITY);
    var node := RecordNode(Kept());
    var u := Enter(s, {}).(retainedNodes := s.retainedNodes + 1);
    PriorityAbsent(w, Kept(), budget, u, MAX_RESULT_DEPTH - 1, rowLimit);
    DeepProperty(w, budget, u, rowLimit);
    OnlyKey(w, node, SECURITY, budget, u, MAX_RESULT_DEPTH - 1, rowLimit);
    RecordIsPlain();
    assert BuildNode(w, {}, node, budget, s, MAX_RESULT_DEPTH - 1, rowLimit, false)
        == BuildObject(w, {}, node, budget, s, MAX_RESULT_DEPTH - 1, rowLimit);
    IsObject();
  }

  lemma RecordIsPlain()
    ensures RecordNode(Kept()).kind == KPlain
  {
  }

  lemma IsObject()
    ensures Emitted().JObject?
  {
  }

  lemma OnlyKey(w: World, node: Node, key: Str, budget: int, s: State, depth: nat, rowLimit: nat)
    requires Left(s) >= 0
    ensures var p := BuildProperty(w, node, key, EMPTY_ACC, budget, s, depth, rowLimit);
            p.ok ==> BuildKeys(w, node, [key], true, EMPTY_ACC, budget, s, depth, rowLimit).acc == p.acc
  {
    hide BuildProperty;
    var p := BuildProperty(w, node, key, EMPTY_ACC, budget, s, depth, rowLimit);
    assert [key][1..] == [];
    assert BuildKeys(w, node, [], true, p.acc, budget, p.st, depth, rowLimit) == PropOut(p.st, p.acc, true);
  }

  // ----- a record without priority keys -----

  lemma {:induction false} AbsentBuilt(w: World, node: Node, keys: seq<Str>, acc: Acc, budget: int, s: State,
                                       depth: nat, rowLimit: nat)
    requires Left(s) >= 0 && Lookup(node.props, METADATA).None? && forall k :: k in keys ==> Lookup(node.props, k).None?
    ensures BuildKeys(w, node, keys, false, acc, budget, s, depth, rowLimit) == PropOut(s, acc, true)
    decreases |keys|
  {
    hide Ascii, BuildProperty, Lookup;
    if keys != [] {
      assert keys[0] in keys;
      AbsentProperty(w, node, keys[0], acc, budget, s, depth, rowLimit);
      AbsentBuilt(w, node, keys[1..], acc, budget, s, depth, rowLimit);
    }
  }

  lemma AbsentProperty(w: World, node: Node, key: Str, acc: Acc, budget: int, s: State, depth: nat, rowLimit: nat)
    requires Left(s) >= 0 && Lookup(node.props, METADATA).None? && Lookup(node.props, key).None?
    ensures BuildProperty(w, node, key, acc, budget, s, depth, rowLimit) == PropOut(s, acc, true)
  {
    hide Ascii, BuildStored, BuildOwn, StringSize;
  }

  lemma PriorityAbsent(w: World, data: seq<EidEntry>, budget: int, s: State, depth: nat, rowLimit: nat)
    requires Left(s) >= 0 && Ordinary(data)
    ensures BuildKeys(w, RecordNode(data), PRIORITY_KEYS, false, EMPTY_ACC, budget, s, depth, rowLimit)
            == PropOut(s, EMPTY_ACC, true)
  {
    assert PRIORITY_KEYS[16] == METADATA;
    hide Ascii, BuildKeys, RecordNode, Lookup, PRIORITY_KEYS;
    forall k | k in PRIORITY_KEYS ensures Lookup(RecordNode(data).props, k).None? { RecordLookup(data, k); }
    AbsentBuilt(w, RecordNode(data), PRIORITY_KEYS, EMPTY_ACC, budget, s, depth, rowLimit);
  }

  // ----- no summary goes out -----

  lemma CountsStillMatch()
    ensures CountsMatch(Emitted(), Kept())
  {
    hide Ascii;
    var c := SecurityCount(Some(1), 1);
    var props := Emitted().props;
    assert [] + [c] == [c] && [c][..0] == [] && RetainedSum([]) == 0 && RetainedSum([c]) == 1;
    assert props[1..] == [] && EmittedCounts(props[1..], Kept(), None, [c]) == [c];
    assert Kept()[..0] == [] && SumEids([]) == 0 && SumEids(Kept()) == 1;
  }

  /** The EID is gone and no summary says so, whatever the budgets above these. */
  lemma DepthHidesLoss(w: World, source: Node, acc: Acc, budget: int, childBudget: int, s: State)
    requires Ample(s, 40) && PriorRecord(w, source).None?
    requires childBudget == budget - acc.byteLength - CommaSize(acc.props) - 1 - StringSize(EID_DATA)
    requires StringSize(DEEP) + StringSize(SECURITY) + 5 <= childBudget / 3 && NoKey(acc, EID_DATA)
    ensures var o := BuildEntitlement(w, source, OneEid(), acc, budget, childBudget, s, MAX_RESULT_DEPTH - 2);
            o.ok && o.acc.props == acc.props + [Member(EID_DATA, Emitted())]
  {
    hide Ascii, BuildValue, PrepareEidData, EmittedSummary, EidRecord, SummaryJson, Embed, StringSize, Append, Extends,
         OneEid, Kept, Emitted, CountsMatch, PriorRecord;
    ScanKeeps(w, s);
    var p := PrepareEidData(w, OneEid(), s);
    var record := Embed(EidRecord(Kept()));
    DeepRecord(w, childBudget / 3, p.st, MAX_ENTITLEMENT_EIDS);
    var o := BuildValue(w, record, childBudget / 3, p.st, MAX_RESULT_DEPTH - 1, MAX_ENTITLEMENT_EIDS, false);
    BuildValueSound(w, record, childBudget / 3, p.st, MAX_RESULT_DEPTH - 1, MAX_ENTITLEMENT_EIDS, false);
    SizeAtLeast(DEEP);
    AppendAfterBuildSucceeds(acc, EID_DATA, o.built, budget, o.st);
    AppendNew(acc, EID_DATA, o.built, budget, o.st);
    CountsStillMatch();
    SummaryAbsent(w, source, OneEid(), s, Emitted());
  }
}
