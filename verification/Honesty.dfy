/**
 Honesty: when the projector records no truncation reason, what it emitted is
 the whole normalised value, and every budget was large enough for it.
 */
module Honesty {
  import opened JsText
  import opened Json
  import opened JsHeap
  import opened ResultTypes
  import opened Entitlements
  import opened Projection
  import opened Soundness
  import opened Whole

  /** The budgets that a value of cost `c` needs, besides bytes. */
  predicate Affords(s: State, rowLimit: nat, c: Cost) {
    && s.visitedNodes + c.visits <= s.limits.maxResultNodes
    && c.widest <= rowLimit
    && c.longest <= s.limits.maxStringChars
    && (c.peak.Some? ==> c.peak.value <= s.remainingRows)
  }

  predicate Charged(s: State, c: Cost, t: State) {
    t.visitedNodes == s.visitedNodes + c.visits && t.remainingRows == s.remainingRows - c.spend
  }

  predicate Paid(s: State, rowLimit: nat, c: Cost, t: State) {
    Affords(s, rowLimit, c) && Charged(s, c, t)
  }

  predicate HonestOut(s: State, budget: int, rowLimit: nat, x: Whole, o: Out) {
    o.st.reasons == {} ==>
      && !x.Lossy?
      && (x.Full? ==>
            && o.built.Built? && o.built.value == x.json && Need(x.json) <= budget
            && !x.cost.upstream && Paid(s, rowLimit, x.cost, o.st))
  }

  /** The keys are distinct and none of them has been emitted yet. */
  ghost predicate Fresh(keys: seq<Str>, props: seq<Member>) {
    && (forall i, j :: 0 <= i < j < |keys| ==> keys[i] != keys[j])
    && (forall i, j :: 0 <= i < |keys| && 0 <= j < |props| ==> keys[i] != props[j].key)
  }

  ghost predicate HonestProps(s: State, budget: int, rowLimit: nat, keys: seq<Str>, acc: Acc, x: WholeList<Member>,
                              o: PropOut) {
    o.st.reasons == {} ==>
      && !x.LossyList?
      && (x.FullList? && Fresh(keys, acc.props) ==>
            && o.acc.props == acc.props + x.list
            && (NeedProps(acc.props) <= budget ==> NeedProps(o.acc.props) <= budget)
            && !x.cost.upstream && Paid(s, rowLimit, x.cost, o.st))
  }

  /** What `HonestProps` says once the keys are known to be fresh. */
  ghost predicate Kept(s: State, budget: int, rowLimit: nat, acc: Acc, x: WholeList<Member>, o: PropOut) {
    && !x.LossyList?
    && (x.FullList? ==>
          && o.acc.props == acc.props + x.list
          && (NeedProps(acc.props) <= budget ==> NeedProps(o.acc.props) <= budget)
          && !x.cost.upstream && Paid(s, rowLimit, x.cost, o.st))
  }

  lemma KeptJoin(s: State, budget: int, rowLimit: nat, acc: Acc, x: WholeList<Member>, p: PropOut, y: WholeList<Member>,
                 q: PropOut)
    requires Extends(s, p.st) && Kept(s, budget, rowLimit, acc, x, p)
    requires !y.LossyList? && (x.FullList? ==> Kept(p.st, budget, rowLimit, p.acc, y, q))
    ensures Kept(s, budget, rowLimit, acc, Join(x, y), q)
  {
    hide Extends, NeedProps, Paid;
    if x.FullList? && y.FullList? {
      assert acc.props + x.list + y.list == acc.props + (x.list + y.list);
      PaidThen(s, rowLimit, x.cost, p.st, y.cost, q.st);
    }
  }

  lemma KeptObject(s: State, t: State, budget: int, rowLimit: nat, x: WholeList<Member>, q: PropOut, u: State)
    requires budget >= 2 && Kept(t, budget, rowLimit, EMPTY_ACC, x, q)
    requires t.limits == s.limits && t.visitedNodes == s.visitedNodes && t.remainingRows == s.remainingRows
    requires q.st.visitedNodes == u.visitedNodes && q.st.remainingRows == u.remainingRows
    ensures HonestOut(s, budget, rowLimit, AsObject(x), Out(u, Built(q.acc.byteLength, JObject(q.acc.props))))
  {
    assert NeedProps([]) == 0;
    if x.FullList? {
      assert [] + x.list == x.list;
    }
  }

  lemma PaidThen(s: State, rowLimit: nat, a: Cost, t: State, b: Cost, u: State)
    requires Extends(s, t) && Paid(s, rowLimit, a, t) && Paid(t, rowLimit, b, u)
    ensures Paid(s, rowLimit, Then(a, b), u)
  {
  }

  lemma OmissionReason(s: State, t: State)
    requires Extends(s, t)
    ensures t.omittedProperties > s.omittedProperties ==> t.reasons != {}
  {
  }

  lemma NoReasons(s: State, t: State)
    requires Extends(s, t) && t.reasons == {}
    ensures s.reasons == {}
  {
    assert s.reasons <= t.reasons;
  }

  // ----- leaves -----

  lemma FittedHonest(text: Str, budget: int, s: State, rowLimit: nat)
    requires Left(s) >= 0
    ensures HonestOut(s, budget, rowLimit, Leaf(JString(text), |text|), Fitted(text, budget, s))
  {
    hide FitString, StringSize;
    FitStringSound(text, budget, s.limits.maxStringChars);
    var f := FitString(text, budget, s.limits.maxStringChars);
    var o := Fitted(text, budget, s);
    assert f.overChars ==> MaxStringChars in o.st.reasons;
    assert f.overBytes ==> MaxResultBytes in o.st.reasons;
  }

  lemma PrimitiveHonest(j: Json, budget: int, s: State, rowLimit: nat)
    requires Left(s) >= 0 && (j.JNull? || j.JBool? || j.JNumber?)
    ensures HonestOut(s, budget, rowLimit, Leaf(j, 0), Primitive(j, budget, s))
  {
    hide NumberText;
    ReasonExtends(s, MaxResultBytes);
  }

  lemma {:induction false} ScanOccurrencesHonest(w: World, node: Node, keys: seq<Str>, s: State)
    requires Left(s) >= 0
    ensures var t := ScanOccurrences(w, node, keys, s).0;
            t.reasons == {} ==>
              && OccurrenceVisits(w, node, keys).Some?
              && t == s.(visitedNodes := s.visitedNodes + OccurrenceVisits(w, node, keys).value)
    decreases |keys|
  {
    ReasonExtends(s, MaxResultNodes);
    if keys != [] && s.visitedNodes < s.limits.maxResultNodes {
      var t := s.(visitedNodes := s.visitedNodes + 1);
      ReasonExtends(t, AccessorOmitted);
      ScanOccurrencesHonest(w, node, keys[1..], t);
    }
  }

  lemma InspectHonest(w: World, key: Str, slot: Slot, s: State)
    requires Left(s) >= 0
    ensures var i := Inspect(w, key, slot, s);
            i.st.reasons == {} ==>
              && slot.Data? && i.value == slot.value
              && ErrorVisits(w, key, slot.value).Some?
              && i.st.visitedNodes == s.visitedNodes + ErrorVisits(w, key, slot.value).value
              && i.st.remainingRows == s.remainingRows
  {
    hide Ascii, ScanOccurrences, OccurrenceVisits, IsErrorKey;
    var v := if slot.Accessor? then VString(ACCESSOR_OMITTED) else slot.value;
    var s1 := if slot.Accessor? then AddReason(s, AccessorOmitted) else s;
    ReasonExtends(s, AccessorOmitted);
    ReportsErrorExtends(w, key, v, s1);
    if IsPlain(w, v) {
      ScanOccurrencesHonest(w, NodeOf(w, v).value, Keys(NodeOf(w, v).value.props), s1);
    }
  }

  lemma AppendNew(acc: Acc, key: Str, built: Built, budget: int, s: State)
    requires built.Built? && Fresh([key], acc.props) && Append(acc, key, built, budget, s).ok
    ensures Append(acc, key, built, budget, s).acc.props == acc.props + [Member(key, built.value)]
    ensures Append(acc, key, built, budget, s).st == s
  {
    hide StringSize;
    assert [key][0] == key;
  }

  /** A kept property had its two-byte minimum and the need of its value. */
  lemma NeedAppend(acc: Acc, key: Str, j: Json, budget: int, childBudget: int)
    requires AccOk(acc, budget) && childBudget >= 2 && Need(j) <= childBudget
    requires childBudget == budget - acc.byteLength - CommaSize(acc.props) - 1 - StringSize(key)
    requires NeedProps(acc.props) <= budget
    ensures NeedProps(acc.props + [Member(key, j)]) <= budget
  {
    hide StringSize, Need, PropsSize;
    var props := acc.props + [Member(key, j)];
    assert props[..|acc.props|] == acc.props;
  }

  lemma ReasonHonest(s: State, budget: int, rowLimit: nat, x: Whole, o: Out)
    requires o.st.reasons != {}
    ensures HonestOut(s, budget, rowLimit, x, o)
  {
  }

  lemma ChargeHonest(s: State, budget: int, rowLimit: nat, x: Whole, o: Out)
    requires s.visitedNodes < s.limits.maxResultNodes
    requires HonestOut(s.(visitedNodes := s.visitedNodes + 1), budget, rowLimit, x, o)
    ensures HonestOut(s, budget, rowLimit, Charge(VISIT, x), o)
  {
    hide Need;
  }

  // ----- the builders -----

  lemma {:induction false} BuildValueHonest(w: World, v: Value, budget: int, s: State, depth: nat, rowLimit: nat,
                                            shared: bool)
    requires Left(s) >= 0
    ensures HonestOut(s, budget, rowLimit, WholeValue(w, v, depth, s.inDiagnostics, s.rowsBeforeMetadata, shared),
                      BuildValue(w, v, budget, s, depth, rowLimit, shared))
    decreases Left(s), 0
  {
    hide Ascii, BuildNode, WholeNode, Fitted, Unsupported, Primitive, HonestOut, Extends;
    var x := WholeValue(w, v, depth, s.inDiagnostics, s.rowsBeforeMetadata, shared);
    var o := BuildValue(w, v, budget, s, depth, rowLimit, shared);
    if s.visitedNodes >= s.limits.maxResultNodes {
      ReasonExtends(s, MaxResultNodes);
      ReasonHonest(s, budget, rowLimit, x, o);
    } else {
      var t := s.(visitedNodes := s.visitedNodes + 1);
      if depth > MAX_RESULT_DEPTH {
        UnsupportedSound(Ascii("[Max result depth exceeded]"), budget, t, MaxResultDepth);
        ReasonHonest(s, budget, rowLimit, x, o);
      } else {
        match v
        case VString(text) =>
          FittedHonest(text, budget, t, rowLimit);
          ChargeHonest(s, budget, rowLimit, Leaf(JString(text), |text|), o);
        case VBigInt(text) =>
          FittedHonest(text, budget, t, rowLimit);
          ChargeHonest(s, budget, rowLimit, Leaf(JString(text), |text|), o);
        case VNull =>
          PrimitiveHonest(JNull, budget, t, rowLimit);
          ChargeHonest(s, budget, rowLimit, Leaf(JNull, 0), o);
        case VBool(b) =>
          PrimitiveHonest(JBool(b), budget, t, rowLimit);
          ChargeHonest(s, budget, rowLimit, Leaf(JBool(b), 0), o);
        case VNum(num) =>
          PrimitiveHonest(JNumber(num), budget, t, rowLimit);
          ChargeHonest(s, budget, rowLimit, Leaf(JNumber(num), 0), o);
        case VRef(r) =>
          BuildNodeHonest(w, {r}, w.heap(r), budget, t, depth, rowLimit, shared);
          ChargeHonest(s, budget, rowLimit,
                       WholeNode(w, w.heap(r), depth, s.inDiagnostics, s.rowsBeforeMetadata, shared), o);
        case VFresh(node) =>
          BuildNodeHonest(w, {}, node, budget, t, depth, rowLimit, shared);
          ChargeHonest(s, budget, rowLimit, WholeNode(w, node, depth, s.inDiagnostics, s.rowsBeforeMetadata, shared),
                       o);
        case _ =>
          ReasonExtends(t, UnsupportedValue);
          PrimitiveSound(JNull, budget, AddReason(t, UnsupportedValue));
          KeepsContext(AddReason(t, UnsupportedValue), o.st);
          ReasonHonest(s, budget, rowLimit, x, o);
      }
    }
  }

  lemma {:induction false} BuildNodeHonest(w: World, id: set<Ref>, node: Node, budget: int, s: State, depth: nat,
                                           rowLimit: nat, shared: bool)
    requires Left(s) >= 0 && depth <= MAX_RESULT_DEPTH
    ensures HonestOut(s, budget, rowLimit, WholeNode(w, node, depth, s.inDiagnostics, s.rowsBeforeMetadata, shared),
                      BuildNode(w, id, node, budget, s, depth, rowLimit, shared))
    decreases Left(s), 9
  {
    hide Ascii, BuildArray, BuildObject, BuildError, BuildExotic, Fitted, Unsupported, WholeTable, WholeRows,
         WholeObject,
         WholeValue, Extends, HasArrayMetadata;
    match node.kind
    case KDate(None) =>
      ReasonExtends(s, UnsupportedValue);
      FittedSound(Ascii("[Invalid Date]"), budget, AddReason(s, UnsupportedValue));
      KeepsContext(AddReason(s, UnsupportedValue),
                   Fitted(Ascii("[Invalid Date]"), budget, AddReason(s, UnsupportedValue)).st);
    case KDate(Some(iso)) => FittedHonest(iso, budget, s, rowLimit);
    case KBinary(n) => UnsupportedSound(Ascii("[binary data: ") + Decimal(n) + Ascii(" bytes]"), budget, s, BinaryData);
    case KArray(elems) => BuildArrayHonest(w, id, elems, node, budget, s, depth, rowLimit, shared);
    case KPlain => BuildObjectHonest(w, id, node, budget, s, depth, rowLimit);
    case KError(message, name, cause) =>
      BuildErrorHonest(w, id, ErrorRecord(message, name, cause), budget, s.(hasErrors := true), depth, rowLimit);
      ErrorHonest(s, budget, rowLimit,
                  WholeObject(w, ErrorRecord(message, name, cause), depth, s.inDiagnostics, s.rowsBeforeMetadata),
                  BuildNode(w, id, node, budget, s, depth, rowLimit, shared));
    case KExotic(toJson) => BuildExoticHonest(w, id, toJson, budget, s, depth, rowLimit, shared);
  }

  lemma ErrorHonest(s: State, budget: int, rowLimit: nat, x: Whole, o: Out)
    requires HonestOut(s.(hasErrors := true), budget, rowLimit, x, o)
    ensures HonestOut(s, budget, rowLimit, AsError(x), o)
  {
    hide Need, TraceThen;
  }

  lemma {:induction false} BuildErrorHonest(w: World, id: set<Ref>, record: Node, budget: int, s: State, depth: nat,
                                            rowLimit: nat)
    requires Left(s) >= 0 && depth <= MAX_RESULT_DEPTH
    ensures HonestOut(s, budget, rowLimit, WholeObject(w, record, depth, s.inDiagnostics, s.rowsBeforeMetadata),
                      BuildError(w, id, record, budget, s, depth, rowLimit))
    decreases Left(s), 8
  {
    hide Ascii, BuildObject, Unsupported, WholeObject, Extends;
    if id * s.ancestors != {} {
      UnsupportedSound(CIRCULAR, budget, s, CircularReference);
    } else {
      BuildObjectHonest(w, {}, record, budget, Enter(s, id), depth, rowLimit);
    }
  }

  lemma {:induction false} BuildExoticHonest(w: World, id: set<Ref>, toJson: ToJson, budget: int, s: State, depth: nat,
                                             rowLimit: nat, shared: bool)
    requires Left(s) >= 0 && depth <= MAX_RESULT_DEPTH
    ensures HonestOut(s, budget, rowLimit,
                      if toJson.Returns? && depth < MAX_RESULT_DEPTH
                      then WholeValue(w, toJson.value, depth + 1, s.inDiagnostics, s.rowsBeforeMetadata,
                                      shared) else Lossy,
                      BuildExotic(w, id, toJson, budget, s, depth, rowLimit, shared))
    decreases Left(s), 7
  {
    hide Ascii, BuildValue, Unsupported, WholeValue, Extends;
    if toJson.AccessorMethod? {
      UnsupportedSound(ACCESSOR_OMITTED, budget, s, AccessorOmitted);
    } else if toJson.NoMethod? {
      UnsupportedSound(Ascii("[Unsupported object]"), budget, s, UnsupportedValue);
    } else if id * s.ancestors != {} {
      UnsupportedSound(CIRCULAR, budget, s, CircularReference);
    } else {
      var s1 := if toJson.Throws? then AddReason(s, UnsupportedValue).(hasErrors := true) else s;
      var t := Enter(s1, id);
      BuildValueHonest(w, Converted(toJson), budget, t, depth + 1, rowLimit, shared);
      BuildValueSound(w, Converted(toJson), budget, t, depth + 1, rowLimit, shared);
      KeepsContext(t, BuildValue(w, Converted(toJson), budget, t, depth + 1, rowLimit, shared).st);
      ReasonExtends(s, UnsupportedValue);
      if depth >= MAX_RESULT_DEPTH {
        assert WholeValue(w, Converted(toJson), depth + 1, t.inDiagnostics, t.rowsBeforeMetadata, shared).Lossy? by {
          TooDeep(w, Converted(toJson), depth + 1, t.inDiagnostics, t.rowsBeforeMetadata, shared);
        }
      }
    }
  }

  lemma TooDeep(w: World, v: Value, depth: nat, diag: bool, rbm: bool, shared: bool)
    requires depth > MAX_RESULT_DEPTH
    ensures WholeValue(w, v, depth, diag, rbm, shared).Lossy?
  {
  }

  lemma {:induction false} BuildObjectHonest(w: World, id: set<Ref>, node: Node, budget: int, s: State, depth: nat,
                                             rowLimit: nat)
    requires Left(s) >= 0 && depth <= MAX_RESULT_DEPTH
    ensures HonestOut(s, budget, rowLimit, WholeObject(w, node, depth, s.inDiagnostics, s.rowsBeforeMetadata),
                      BuildObject(w, id, node, budget, s, depth, rowLimit))
    decreases Left(s), 7
  {
    hide Ascii, BuildKeys, Unsupported, OtherKeys, WholeProps, Extends, Fresh, HonestProps, HonestOut;
    if id * s.ancestors != {} {
      UnsupportedSound(CIRCULAR, budget, s, CircularReference);
      ReasonHonest(s, budget, rowLimit, WholeObject(w, node, depth, s.inDiagnostics, s.rowsBeforeMetadata),
                   BuildObject(w, id, node, budget, s, depth, rowLimit));
    } else if budget < 2 {
      ReasonExtends(s, MaxResultBytes);
      ReasonHonest(s, budget, rowLimit, WholeObject(w, node, depth, s.inDiagnostics, s.rowsBeforeMetadata),
                   BuildObject(w, id, node, budget, s, depth, rowLimit));
    } else if budget >= 2 {
      var t := Enter(s, id).(retainedNodes := s.retainedNodes + 1);
      var p := BuildKeys(w, node, PRIORITY_KEYS, false, EMPTY_ACC, budget, t, depth, rowLimit);
      BuildKeysSound(w, node, PRIORITY_KEYS, false, EMPTY_ACC, budget, t, depth, rowLimit);
      BuildKeysHonest(w, node, PRIORITY_KEYS, false, EMPTY_ACC, budget, t, depth, rowLimit);
      KeepsContext(t, p.st);
      var q := BuildKeys(w, node, OtherKeys(node), true, p.acc, budget, p.st, depth, rowLimit);
      BuildKeysSound(w, node, OtherKeys(node), true, p.acc, budget, p.st, depth, rowLimit);
      BuildKeysHonest(w, node, OtherKeys(node), true, p.acc, budget, p.st, depth, rowLimit);
      ObjectKeysFresh(w, node, depth, s.inDiagnostics, s.rowsBeforeMetadata);
      if q.st.reasons == {} {
        NoReasons(p.st, q.st);
        ObjectHonest(s, id, budget, rowLimit, OtherKeys(node),
                     WholeProps(w, node, PRIORITY_KEYS, depth, s.inDiagnostics, s.rowsBeforeMetadata),
                     WholeProps(w, node, OtherKeys(node), depth, s.inDiagnostics, s.rowsBeforeMetadata), t, p, q);
      } else {
        ReasonHonest(s, budget, rowLimit, WholeObject(w, node, depth, s.inDiagnostics, s.rowsBeforeMetadata),
                     BuildObject(w, id, node, budget, s, depth, rowLimit));
      }
    }
  }

  lemma ObjectHonest(s: State, id: set<Ref>, budget: int, rowLimit: nat, others: seq<Str>, x: WholeList<Member>,
                     y: WholeList<Member>, t: State, p: PropOut, q: PropOut)
    requires budget >= 2 && p.st.reasons == {} && q.st.reasons == {} && Extends(t, p.st)
    requires t.limits == s.limits && t.visitedNodes == s.visitedNodes && t.remainingRows == s.remainingRows
    requires HonestProps(t, budget, rowLimit, PRIORITY_KEYS, EMPTY_ACC, x, p)
    requires HonestProps(p.st, budget, rowLimit, others, p.acc, y, q)
    requires Fresh(PRIORITY_KEYS, []) && (x.FullList? ==> Fresh(others, x.list))
    ensures HonestOut(s, budget, rowLimit, AsObject(Join(x, y)),
                      Out(Leave(q.st, id), Built(q.acc.byteLength, JObject(q.acc.props))))
  {
    hide Ascii, Extends, Fresh, Paid, NeedProps, Join, AsObject, HonestOut;
    if x.FullList? {
      assert [] + x.list == x.list;
    }
    KeptJoin(t, budget, rowLimit, EMPTY_ACC, x, p, y, q);
    KeptObject(s, t, budget, rowLimit, Join(x, y), q, Leave(q.st, id));
  }

  /** One property and then the rest, both honest. */
  lemma JoinHonest(s: State, budget: int, rowLimit: nat, keys: seq<Str>, acc: Acc, x: WholeList<Member>, p: PropOut,
                   y: WholeList<Member>, o: PropOut)
    requires keys != [] && p.st.reasons == {} && o.st.reasons == {} && Extends(s, p.st)
    requires x.FullList? ==> |x.list| <= 1 && forall i :: 0 <= i < |x.list| ==> x.list[i].key == keys[0]
    requires HonestProps(s, budget, rowLimit, [keys[0]], acc, x, p)
             && HonestProps(p.st, budget, rowLimit, keys[1..], p.acc, y, o)
    ensures HonestProps(s, budget, rowLimit, keys, acc, Join(x, y), o)
  {
    hide Extends, NeedProps, Paid;
    if x.FullList? && y.FullList? && Fresh(keys, acc.props) {
      FreshRest(keys, acc.props, x.list);
      PaidThen(s, rowLimit, x.cost, p.st, y.cost, o.st);
      assert acc.props + x.list + y.list == acc.props + (x.list + y.list);
    }
  }

  lemma {:induction false} BuildKeysHonest(w: World, node: Node, keys: seq<Str>, stop: bool, acc: Acc, budget: int,
                                           s: State, depth: nat, rowLimit: nat)
    requires Left(s) >= 0 && AccOk(acc, budget) && depth <= MAX_RESULT_DEPTH
    ensures HonestProps(s, budget, rowLimit, keys, acc,
                        WholeProps(w, node, keys, depth, s.inDiagnostics, s.rowsBeforeMetadata),
                        BuildKeys(w, node, keys, stop, acc, budget, s, depth, rowLimit))
    decreases Left(s), 6, |keys|
  {
    hide BuildProperty, WholeProp, Extends, AccOk, NeedProps, Fresh, Join;
    if keys == [] {
      assert acc.props + [] == acc.props;
    } else {
      var p := BuildProperty(w, node, keys[0], acc, budget, s, depth, rowLimit);
      BuildPropertySound(w, node, keys[0], acc, budget, s, depth, rowLimit);
      BuildPropertyHonest(w, node, keys[0], acc, budget, s, depth, rowLimit);
      KeepsContext(s, p.st);
      if p.ok {
        var o := BuildKeys(w, node, keys[1..], stop, p.acc, budget, p.st, depth, rowLimit);
        BuildKeysSound(w, node, keys[1..], stop, p.acc, budget, p.st, depth, rowLimit);
        BuildKeysHonest(w, node, keys[1..], stop, p.acc, budget, p.st, depth, rowLimit);
        if o.st.reasons == {} {
          NoReasons(p.st, o.st);
          var x := WholeProp(w, node, keys[0], depth, s.inDiagnostics, s.rowsBeforeMetadata);
          var y := WholeProps(w, node, keys[1..], depth, s.inDiagnostics, s.rowsBeforeMetadata);
          WholePropKey(w, node, keys[0], depth, s.inDiagnostics, s.rowsBeforeMetadata);
          JoinHonest(s, budget, rowLimit, keys, acc, x, p, y, o);
        }
      } else if !stop {
        var t := p.st.(omittedProperties := p.st.omittedProperties + 1);
        BuildKeysSound(w, node, keys[1..], stop, p.acc, budget, t, depth, rowLimit);
        KeepsContext(t, BuildKeys(w, node, keys[1..], stop, p.acc, budget, t, depth, rowLimit).st);
      }
    }
  }

  lemma WholePropKey(w: World, node: Node, key: Str, depth: nat, diag: bool, rbm: bool)
    ensures var x := WholeProp(w, node, key, depth, diag, rbm);
            x.FullList? ==> x.list == [] || (|x.list| == 1 && x.list[0].key == key)
  {
    hide Ascii, WholeValue, StoredExceptions, Lookup, ErrorVisits, IsErrorMetadata;
  }

  lemma FreshRest(keys: seq<Str>, props: seq<Member>, list: seq<Member>)
    requires keys != [] && Fresh(keys, props)
    requires list == [] || (|list| == 1 && list[0].key == keys[0])
    ensures Fresh([keys[0]], props) && Fresh(keys[1..], props + list)
  {
  }

  lemma {:induction false} BuildPropertyHonest(w: World, source: Node, key: Str, acc: Acc, budget: int, s: State,
                                               depth: nat, rowLimit: nat)
    requires Left(s) >= 0 && AccOk(acc, budget) && depth <= MAX_RESULT_DEPTH
    ensures var o := BuildProperty(w, source, key, acc, budget, s, depth, rowLimit);
            HonestProps(s, budget, rowLimit, [key], acc,
                        WholeProp(w, source, key, depth, s.inDiagnostics, s.rowsBeforeMetadata), o)
            && (!o.ok ==> o.st.reasons != {})
    decreases Left(s), 5
  {
    hide Ascii, BuildStored, BuildOwn, StoredExceptions, StringSize, PropsSize, WholeOwn, Extends, Fresh, NeedProps;
    BuildPropertySound(w, source, key, acc, budget, s, depth, rowLimit);
    var slot := Lookup(source.props, key);
    var raw := StoredExceptions(w, source, key);
    var available := budget - acc.byteLength - CommaSize(acc.props) - 1;
    assert acc.props + [] == acc.props;
    ReasonExtends(s, UnsupportedValue);
    if raw.Absent? && slot.Some? && available >= 4 && StringSize(key) <= available - 2 {
      BuildOwnHonest(w, source, key, slot.value, acc, budget, available - StringSize(key), s, depth, rowLimit);
    } else {
      ReasonExtends(s, MaxResultBytes);
    }
  }

  lemma {:induction false} BuildOwnHonest(w: World, source: Node, key: Str, slot: Slot, acc: Acc, budget: int,
                                          childBudget: int, s: State, depth: nat, rowLimit: nat)
    requires Left(s) >= 0 && childBudget >= 2 && AccOk(acc, budget) && depth <= MAX_RESULT_DEPTH
    requires childBudget == budget - acc.byteLength - CommaSize(acc.props) - 1 - StringSize(key)
    ensures HonestProps(s, budget, rowLimit, [key], acc,
                        if slot.Accessor? then LossyList
                        else if !s.inDiagnostics && key == EID_DATA then SpecialList
                        else WholeOwn(w, key, slot.value, depth, s.inDiagnostics, s.rowsBeforeMetadata),
                        BuildOwn(w, source, key, slot, acc, budget, childBudget, s, depth, rowLimit))
    decreases Left(s), 4
  {
    hide Ascii, BuildChild, BuildEntitlement, Inspect, AddOwn, StringSize, WholeValue, Extends, Fresh, NeedProps, Need,
         PropsSize,
         ErrorVisits, Paid, Then;
    var i := Inspect(w, key, slot, s);
    InspectExtends(w, key, slot, s);
    InspectHonest(w, key, slot, s);
    KeepsContext(s, i.st);
    if !s.inDiagnostics && key == EID_DATA {
      BuildEntitlementSound(w, source, i.value, acc, budget, childBudget, i.st, depth);
      var o := BuildEntitlement(w, source, i.value, acc, budget, childBudget, i.st, depth);
      KeepsContext(i.st, o.st);
    } else {
      BuildChildSound(w, key, i.value, childBudget, i.st, depth, rowLimit);
      BuildChildHonest(w, key, i.value, childBudget, i.st, depth, rowLimit);
      var o := BuildChild(w, key, i.value, childBudget, i.st, depth, rowLimit);
      KeepsContext(i.st, o.st);
      if o.built.Built? {
        AddOwnHonest(acc, key, i.value, i.errorKey, o.built, budget, childBudget, o.st);
        var p := AddOwn(acc, key, i.value, i.errorKey, o.built, budget, o.st);
        if p.st.reasons == {} {
          assert o.st.reasons == {} && i.st.reasons == {};
          var x := ChildWhole(w, key, i.value, i.st, depth);
          if x.Full? {
            AppendingPlain(w, key, slot.value, x.json);
            OwnPaid(s, rowLimit, ErrorVisits(w, key, slot.value).value, i.st, x.cost, o.st,
                    Appending(w, key, slot.value, x.json), p.st);
          }
        }
      }
    }
  }

  lemma AppendingPlain(w: World, key: Str, v: Value, j: Json)
    requires !ReportsTruncation(key, v)
    ensures var c := Appending(w, key, v, j); !c.upstream && c.(trace := FREE.trace) == FREE
  {
    hide Reports, ReportsTruncation;
  }

  /** The visits of the inspection, then the value, then what the append leaves. */
  lemma OwnPaid(s: State, rowLimit: nat, n: nat, i: State, c: Cost, o: State, last: Cost, p: State)
    requires Extends(s, i) && i.visitedNodes == s.visitedNodes + n && i.remainingRows == s.remainingRows && !c.upstream
    requires Paid(i, rowLimit, c, o) && p.visitedNodes == o.visitedNodes && p.remainingRows == o.remainingRows
    requires !last.upstream && last.(trace := FREE.trace) == FREE
    ensures var total := Then(FREE.(visits := n), Then(c, last)); Paid(s, rowLimit, total, p) && !total.upstream
  {
    hide TraceThen;
  }

  /** The whole form of a property's value, in the mode its key puts it in. */
  function ChildWhole(w: World, key: Str, v: Value, s: State, depth: nat): Whole {
    WholeValue(w, v, depth + 1, s.inDiagnostics || IsErrorMetadata(key), s.rowsBeforeMetadata,
               SharedKey(w, key, v))
  }

  lemma {:induction false} BuildChildHonest(w: World, key: Str, v: Value, childBudget: int, s: State, depth: nat,
                                            rowLimit: nat)
    requires Left(s) >= 0
    ensures HonestOut(s, childBudget, rowLimit, ChildWhole(w, key, v, s, depth),
                      BuildChild(w, key, v, childBudget, s, depth, rowLimit))
    decreases Left(s), 1
  {
    hide Ascii, BuildValue, WholeValue, IsErrorMetadata, SharedKey;
    var inDiagnostics := s.inDiagnostics || IsErrorMetadata(key);
    BuildValueHonest(w, v, childBudget, s.(inDiagnostics := inDiagnostics), depth + 1, rowLimit, SharedKey(w, key, v));
  }

  lemma AddOwnHonest(acc: Acc, key: Str, v: Value, errorKey: bool, built: Built, budget: int, childBudget: int,
                     s: State)
    requires built.Built? && built.byteLength == Size(built.value) <= childBudget && AccOk(acc, budget)
             && childBudget >= 2
    requires childBudget == budget - acc.byteLength - CommaSize(acc.props) - 1 - StringSize(key)
    ensures var p := AddOwn(acc, key, v, errorKey, built, budget, s);
            && p.ok
            && (p.st.reasons == {} ==>
                  s.reasons == {} && !ReportsTruncation(key, v)
                  && p.st.visitedNodes == s.visitedNodes && p.st.remainingRows == s.remainingRows)
            && (Fresh([key], acc.props) ==> p.acc.props == acc.props + [Member(key, built.value)])
            && (Fresh([key], acc.props) && Need(built.value) <= childBudget && NeedProps(acc.props) <= budget ==>
                  NeedProps(p.acc.props) <= budget)
  {
    hide Ascii, Append, StringSize, Need, PropsSize, Size, NeedProps;
    AppendAfterBuildSucceeds(acc, key, built, budget, s);
    ReasonExtends(s, UpstreamTruncation);
    ReasonExtends(Remember(s, key, built.value), UpstreamTruncation);
    if Fresh([key], acc.props) {
      AppendNew(acc, key, built, budget, s);
      if Need(built.value) <= childBudget && NeedProps(acc.props) <= budget {
        NeedAppend(acc, key, built.value, budget, childBudget);
      }
    }
  }

  lemma {:induction false} BuildArrayHonest(w: World, id: set<Ref>, elems: seq<Element>, node: Node, budget: int,
                                            s: State, depth: nat, rowLimit: nat, shared: bool)
    requires Left(s) >= 0 && depth <= MAX_RESULT_DEPTH
    ensures HonestOut(s, budget, rowLimit,
                      if HasArrayMetadata(node) then WholeTable(w, elems, node, depth, s.inDiagnostics,
                                                                s.rowsBeforeMetadata, shared)
                      else WholeRows(w, elems, depth, s.inDiagnostics, s.rowsBeforeMetadata, shared),
                      BuildArray(w, id, elems, node, budget, s, depth, rowLimit, shared))
    decreases Left(s), 7
  {
    hide Ascii, BuildTable, BuildArrayRows, Unsupported, HasArrayMetadata, WholeTable, WholeRows;
    if id * s.ancestors != {} {
      UnsupportedSound(CIRCULAR, budget, s, CircularReference);
    } else if HasArrayMetadata(node) {
      BuildTableHonest(w, elems, node, budget, Enter(s, id), depth, rowLimit, shared);
    } else {
      BuildArrayRowsHonest(w, elems, budget, Enter(s, id), depth, rowLimit, shared);
    }
  }

  lemma {:induction false} BuildTableHonest(w: World, elems: seq<Element>, node: Node, budget: int, s: State,
                                            depth: nat, rowLimit: nat, shared: bool)
    requires Left(s) >= 0 && depth <= MAX_RESULT_DEPTH
    ensures HonestOut(s, budget, rowLimit,
                      WholeTable(w, elems, node, depth, s.inDiagnostics, s.rowsBeforeMetadata, shared),
                      BuildTable(w, elems, node, budget, s, depth, rowLimit, shared))
    decreases Left(s), 6, |PRIORITY_KEYS| + 1
  {
    hide Ascii, BuildKeys, BuildRowsProperty, MetadataBeforeRows, MetadataAfterRows, WholeProps, WholeRowsProp, Extends,
         Fresh,
         HonestProps, HonestOut;
    if budget < 2 {
      ReasonExtends(s, MaxResultBytes);
      ReasonHonest(s, budget, rowLimit,
                   WholeTable(w, elems, node, depth, s.inDiagnostics, s.rowsBeforeMetadata, shared),
                   BuildTable(w, elems, node, budget, s, depth, rowLimit, shared));
    } else {
      var s1 := s.(retainedNodes := s.retainedNodes + 1);
      var before, after := MetadataBeforeRows(s.rowsBeforeMetadata), MetadataAfterRows(s.rowsBeforeMetadata);
      KeyListBounds(s.rowsBeforeMetadata);
      var p := BuildKeys(w, node, before, false, EMPTY_ACC, budget, s1, depth, rowLimit);
      BuildKeysSound(w, node, before, false, EMPTY_ACC, budget, s1, depth, rowLimit);
      BuildKeysHonest(w, node, before, false, EMPTY_ACC, budget, s1, depth, rowLimit);
      KeepsContext(s1, p.st);
      var q := BuildRowsProperty(w, elems, p.acc, budget, p.st, depth, rowLimit, shared);
      BuildRowsPropertySound(w, elems, p.acc, budget, p.st, depth, rowLimit, shared);
      BuildRowsPropertyHonest(w, elems, p.acc, budget, p.st, depth, rowLimit, shared);
      KeepsContext(p.st, q.st);
      var t := BuildKeys(w, node, after, false, q.acc, budget, q.st, depth, rowLimit);
      BuildKeysSound(w, node, after, false, q.acc, budget, q.st, depth, rowLimit);
      BuildKeysHonest(w, node, after, false, q.acc, budget, q.st, depth, rowLimit);
      TableKeysFresh(w, elems, node, depth, s.inDiagnostics, s.rowsBeforeMetadata, shared);
      if t.st.reasons == {} {
        NoReasons(q.st, t.st);
        NoReasons(p.st, q.st);
        TableHonest(s, budget, rowLimit, before, after,
                    WholeProps(w, node, before, depth, s.inDiagnostics, s.rowsBeforeMetadata),
                    WholeRowsProp(w, elems, depth, s.inDiagnostics, s.rowsBeforeMetadata, shared),
                    WholeProps(w, node, after, depth, s.inDiagnostics, s.rowsBeforeMetadata), s1, p, q, t);
      } else {
        ReasonHonest(s, budget, rowLimit,
                     WholeTable(w, elems, node, depth, s.inDiagnostics, s.rowsBeforeMetadata, shared),
                     BuildTable(w, elems, node, budget, s, depth, rowLimit, shared));
      }
    }
  }

  lemma TableHonest(s: State, budget: int, rowLimit: nat, before: seq<Str>, after: seq<Str>, x: WholeList<Member>,
                    y: WholeList<Member>, z: WholeList<Member>, s1: State, p: PropOut, q: PropOut, t: PropOut)
    requires budget >= 2 && p.st.reasons == {} && q.st.reasons == {} && t.st.reasons == {}
    requires Extends(s1, p.st) && Extends(p.st, q.st)
    requires s1.limits == s.limits && s1.visitedNodes == s.visitedNodes && s1.remainingRows == s.remainingRows
    requires HonestProps(s1, budget, rowLimit, before, EMPTY_ACC, x, p)
    requires HonestProps(p.st, budget, rowLimit, [ROWS], p.acc, y, q)
    requires HonestProps(q.st, budget, rowLimit, after, q.acc, z, t)
    requires Fresh(before, [])
    requires x.FullList? && y.FullList? ==> Fresh([ROWS], x.list) && Fresh(after, x.list + y.list)
    ensures HonestOut(s, budget, rowLimit, AsObject(Join(x, Join(y, z))),
                      Out(t.st, Built(t.acc.byteLength, JObject(t.acc.props))))
  {
    hide Ascii, Extends, Fresh, Paid, NeedProps, AsObject, HonestOut;
    if x.FullList? {
      assert [] + x.list == x.list;
      if y.FullList? {
        KeptJoin(p.st, budget, rowLimit, p.acc, y, q, z, t);
      }
    }
    hide Join;
    KeptJoin(s1, budget, rowLimit, EMPTY_ACC, x, p, Join(y, z), t);
    KeptObject(s, s1, budget, rowLimit, Join(x, Join(y, z)), t, t.st);
  }

  lemma {:induction false} BuildRowsPropertyHonest(w: World, elems: seq<Element>, acc: Acc, budget: int, s: State,
                                                   depth: nat, rowLimit: nat, shared: bool)
    requires Left(s) >= 0 && AccOk(acc, budget) && depth <= MAX_RESULT_DEPTH
    ensures HonestProps(s, budget, rowLimit, [ROWS], acc,
                        WholeRowsProp(w, elems, depth, s.inDiagnostics, s.rowsBeforeMetadata, shared),
                        BuildRowsProperty(w, elems, acc, budget, s, depth, rowLimit, shared))
    decreases Left(s), 5
  {
    hide Ascii, BuildArrayRows, Append, StringSize, PropsSize, Size, WholeRows, Extends, Fresh, NeedProps, Need;
    ReasonExtends(s, MaxResultNodes);
    if s.visitedNodes < s.limits.maxResultNodes {
      var rowsBudget := budget - acc.byteLength - CommaSize(acc.props) - StringSize(ROWS) - 1;
      var t := s.(visitedNodes := s.visitedNodes + 1);
      BuildArrayRowsSound(w, elems, rowsBudget, t, depth + 1, rowLimit, shared);
      BuildArrayRowsHonest(w, elems, rowsBudget, t, depth + 1, rowLimit, shared);
      var o := BuildArrayRows(w, elems, rowsBudget, t, depth + 1, rowLimit, shared);
      if o.built.Built? {
        RowsBudget(w, elems, rowsBudget, t, depth + 1, rowLimit, shared);
        AppendAfterBuildSucceeds(acc, ROWS, o.built, budget, o.st);
        var x := WholeRows(w, elems, depth + 1, s.inDiagnostics, s.rowsBeforeMetadata, shared);
        if Fresh([ROWS], acc.props) {
          AppendNew(acc, ROWS, o.built, budget, o.st);
          if o.st.reasons == {} && x.Full? && NeedProps(acc.props) <= budget {
            NeedAppend(acc, ROWS, x.json, budget, rowsBudget);
          }
        }
      }
    }
  }

  lemma RowsBudget(w: World, elems: seq<Element>, budget: int, s: State, depth: nat, rowLimit: nat, shared: bool)
    requires Left(s) >= 0
    ensures BuildArrayRows(w, elems, budget, s, depth, rowLimit, shared).built.Built? ==> budget >= 2
  {
    hide BuildRows;
  }

  lemma {:induction false} BuildArrayRowsHonest(w: World, elems: seq<Element>, budget: int, s: State, depth: nat,
                                                rowLimit: nat, shared: bool)
    requires Left(s) >= 0
    ensures HonestOut(s, budget, rowLimit, WholeRows(w, elems, depth, s.inDiagnostics, s.rowsBeforeMetadata, shared),
                      BuildArrayRows(w, elems, budget, s, depth, rowLimit, shared))
    decreases Left(s), 4
  {
    hide BuildRows, WholeItems, Extends, HonestRows;
    ReasonExtends(s, MaxResultBytes);
    WholeItemsLength(w, elems, depth, s.inDiagnostics, s.rowsBeforeMetadata);
    if budget >= 2 {
      var n := RetainedLength(|elems|, s, rowLimit, shared);
      var t := s.(retainedNodes := s.retainedNodes + 1);
      BuildRowsSound(w, elems[..Max(0, n)], budget, t, depth, rowLimit, [], 2);
      BuildRowsHonest(w, elems[..Max(0, n)], budget, t, depth, rowLimit, [], 2);
      var o := BuildRows(w, elems[..Max(0, n)], budget, t, depth, rowLimit, [], 2);
      KeepsContext(t, o.st);
      CloseRowsReasons(o.st, |elems|, n, |o.items|, SharedRows(s, shared));
      if n >= |elems| {
        assert elems[..Max(0, n)] == elems;
        ArrayRowsHonest(s, budget, rowLimit, shared, |elems|, n,
                        WholeItems(w, elems, depth, s.inDiagnostics, s.rowsBeforeMetadata), o);
      }
    }
  }

  lemma ArrayRowsHonest(s: State, budget: int, rowLimit: nat, shared: bool, length: nat, n: int, x: WholeList<Json>,
                        o: RowsOut)
    requires budget >= 2 && n == RetainedLength(length, s, rowLimit, shared) >= length
    requires HonestRows(s.(retainedNodes := s.retainedNodes + 1), budget, rowLimit, [], x, o)
    requires x.FullList? ==> |x.list| == length
    ensures HonestOut(s, budget, rowLimit,
                      match x
                      case LossyList => Lossy
                      case SpecialList => Special
                      case FullList(items, cost) => Full(JArray(items), RowCost(length, s.inDiagnostics, shared, cost)),
                      Out(CloseRows(o.st, length, n, |o.items|, SharedRows(s, shared)),
                          Built(o.byteLength, JArray(o.items))))
  {
    hide CloseRows, Paid, RowCost, RetainedLength;
    CloseRowsReasons(o.st, length, n, |o.items|, SharedRows(s, shared));
    if x.FullList? {
      assert [] + x.list == x.list;
      if o.st.reasons == {} {
        RowsPaid(s, rowLimit, shared, length, n, x.cost, o.st,
                 CloseRows(o.st, length, n, |o.items|, SharedRows(s, shared)));
      }
    }
  }

  /** The rows of an array are paid for on top of what they contain. */
  lemma RowsPaid(s: State, rowLimit: nat, shared: bool, length: nat, n: int, c: Cost, t: State, u: State)
    requires n == RetainedLength(length, s, rowLimit, shared) >= length && !c.upstream
    requires Paid(s.(retainedNodes := s.retainedNodes + 1), rowLimit, c, t)
    requires u.visitedNodes == t.visitedNodes
             && u.remainingRows == t.remainingRows - (if SharedRows(s, shared) then length else 0)
    ensures var cost := RowCost(length, s.inDiagnostics, shared, c); Paid(s, rowLimit, cost, u) && !cost.upstream
  {
  }

  lemma {:induction false} WholeItemsLength(w: World, elems: seq<Element>, depth: nat, diag: bool, rbm: bool)
    ensures var x := WholeItems(w, elems, depth, diag, rbm); x.FullList? ==> |x.list| == |elems|
    decreases |elems|
  {
    hide WholeValue, IsPlain, EntryOf;
    if elems != [] { WholeItemsLength(w, elems[1..], depth, diag, rbm); }
  }

  lemma CloseRowsReasons(s: State, length: nat, retainedLength: int, processed: nat, sharedRows: bool)
    ensures var t := CloseRows(s, length, retainedLength, processed, sharedRows);
            && s.reasons <= t.reasons && (t.reasons == {} ==> retainedLength >= length)
            && t.visitedNodes == s.visitedNodes
            && t.remainingRows == s.remainingRows - (if sharedRows then processed else 0)
  {
    assert retainedLength < length ==> MaxRows in CloseRows(s, length, retainedLength, processed, sharedRows).reasons;
  }

  ghost predicate HonestRows(s: State, budget: int, rowLimit: nat, items: seq<Json>, x: WholeList<Json>, o: RowsOut) {
    o.st.reasons == {} ==>
      && !x.LossyList?
      && (x.FullList? ==>
            && o.items == items + x.list
            && (NeedItems(items) <= budget ==> NeedItems(o.items) <= budget)
            && !x.cost.upstream && Paid(s, rowLimit, x.cost, o.st))
  }

  lemma NoteHonest(s: State, e: Element)
    ensures var t := NoteElement(s, e);
            && Extends(s, t) && Left(t) == Left(s) && t.inDiagnostics == s.inDiagnostics
            && t.rowsBeforeMetadata == s.rowsBeforeMetadata
            && (t.reasons == {} ==> t == s && !(e.Elem? && e.slot.Accessor?))
  {
    ReasonExtends(s, AccessorOmitted);
  }

  lemma AtomicPlain(w: World, s: State, e: Element)
    ensures Atomic(w, s, e) ==> IsPlain(w, EntryOf(e))
    ensures Atomic(w, s, e) == (s.inDiagnostics && IsPlain(w, EntryOf(e)))
  {
  }

  lemma UnusableReason(w: World, v: Value, budget: int, s: State, depth: nat, rowLimit: nat, atomic: bool)
    requires Left(s) >= 0 && (atomic ==> IsPlain(w, v))
    ensures var o := BuildValue(w, v, budget, s, depth, rowLimit, false);
            Unusable(atomic, s, o) ==> o.st.reasons != {}
  {
    hide BuildValue, IsPlain, Exact, Extends;
    BuildValueSound(w, v, budget, s, depth, rowLimit, false);
    OmissionReason(s, BuildValue(w, v, budget, s, depth, rowLimit, false).st);
    if atomic {
      PlainBuilt(w, v, budget, s, depth, rowLimit, false);
    }
  }

  lemma RowReason(s: State, budget: int, rowLimit: nat, items: seq<Json>, x: WholeList<Json>, o: RowsOut)
    requires o.st.reasons != {}
    ensures HonestRows(s, budget, rowLimit, items, x, o)
  {
  }

  lemma NoRowsHonest(w: World, s: State, budget: int, depth: nat, rowLimit: nat, items: seq<Json>, byteLength: nat)
    requires Left(s) >= 0
    ensures HonestRows(s, budget, rowLimit, items, WholeItems(w, [], depth, s.inDiagnostics, s.rowsBeforeMetadata),
                       RowsOut(s, items, byteLength))
  {
    assert items + [] == items;
  }

  lemma {:induction false} BuildRowsHonest(w: World, elems: seq<Element>, budget: int, s: State, depth: nat,
                                           rowLimit: nat, items: seq<Json>, byteLength: nat)
    requires Left(s) >= 0 && byteLength == 2 + ItemsSize(items) <= budget
    ensures HonestRows(s, budget, rowLimit, items, WholeItems(w, elems, depth, s.inDiagnostics, s.rowsBeforeMetadata),
                       BuildRows(w, elems, budget, s, depth, rowLimit, items, byteLength))
    decreases Left(s), 3, |elems|
  {
    hide BuildValue, EntryOf, Atomic, NoteElement, ItemsSize, NeedItems, WholeItems, Extends, Need, HonestOut,
         HonestRows, Exact;
    var whole := WholeItems(w, elems, depth, s.inDiagnostics, s.rowsBeforeMetadata);
    var out := BuildRows(w, elems, budget, s, depth, rowLimit, items, byteLength);
    if elems == [] {
      NoRowsHonest(w, s, budget, depth, rowLimit, items, byteLength);
    } else {
      var s1 := NoteElement(s, elems[0]);
      NoteHonest(s, elems[0]);
      ReasonExtends(s1, MaxResultDepth);
      var entry := EntryOf(elems[0]);
      var atomic := Atomic(w, s, elems[0]);
      if atomic && depth + 2 > MAX_RESULT_DEPTH {
        RowReason(s, budget, rowLimit, items, whole, out);
      } else {
        var childBudget := budget - byteLength - CommaSize(items);
        var o := BuildValue(w, entry, childBudget, s1, depth + 1, rowLimit, false);
        BuildValueSound(w, entry, childBudget, s1, depth + 1, rowLimit, false);
        BuildValueHonest(w, entry, childBudget, s1, depth + 1, rowLimit, false);
        KeepsContext(s1, o.st);
        AtomicPlain(w, s, elems[0]);
        UnusableReason(w, entry, childBudget, s1, depth + 1, rowLimit, atomic);
        if Unusable(atomic, s1, o) {
          RowReason(s, budget, rowLimit, items, whole, out);
        } else {
          RowSize(items, o.built, childBudget);
          var n := byteLength + CommaSize(items) + o.built.byteLength;
          var items1 := items + [o.built.value];
          BuildRowsSound(w, elems[1..], budget, o.st, depth, rowLimit, items1, n);
          BuildRowsHonest(w, elems[1..], budget, o.st, depth, rowLimit, items1, n);
          if out.st.reasons == {} {
            NoReasons(o.st, out.st);
            RowHonest(w, elems, budget, s, depth, rowLimit, items, childBudget, o, out);
          } else {
            RowReason(s, budget, rowLimit, items, whole, out);
          }
        }
      }
    }
  }

  /** A plain object either becomes an object or leaves a reason. */
  lemma PlainBuilt(w: World, v: Value, budget: int, s: State, depth: nat, rowLimit: nat, shared: bool)
    requires Left(s) >= 0 && IsPlain(w, v)
    ensures var o := BuildValue(w, v, budget, s, depth, rowLimit, shared);
            o.built.Built? && o.st.reasons == {} ==> o.built.value.JObject?
  {
    hide Ascii, BuildKeys, Unsupported, OtherKeys, BuildArray, BuildError, BuildExotic, Fitted, Primitive, Extends;
    var t := s.(visitedNodes := s.visitedNodes + 1);
    if s.visitedNodes < s.limits.maxResultNodes {
      var id, node := if v.VRef? then {v.ref} else {}, NodeOf(w, v).value;
      if depth > MAX_RESULT_DEPTH {
        UnsupportedSound(Ascii("[Max result depth exceeded]"), budget, t, MaxResultDepth);
      } else {
        assert BuildValue(w, v, budget, s, depth, rowLimit, shared)
               == BuildNode(w, id, node, budget, t, depth, rowLimit, shared);
        assert BuildNode(w, id, node, budget, t, depth, rowLimit, shared)
               == BuildObject(w, id, node, budget, t, depth, rowLimit);
        UnsupportedSound(CIRCULAR, budget, t, CircularReference);
      }
    }
  }

  lemma RowHonest(w: World, elems: seq<Element>, budget: int, s: State, depth: nat, rowLimit: nat, items: seq<Json>,
                  childBudget: int, o: Out, r: RowsOut)
    requires elems != [] && !(elems[0].Elem? && elems[0].slot.Accessor?)
    requires !(s.inDiagnostics && IsPlain(w, EntryOf(elems[0])) && depth + 2 > MAX_RESULT_DEPTH)
    requires childBudget == budget - 2 - ItemsSize(items) - CommaSize(items)
    requires Extends(s, o.st) && o.st.reasons == {} && r.st.reasons == {} && o.built.Built?
    requires HonestOut(s, childBudget, rowLimit,
                       WholeValue(w, EntryOf(elems[0]), depth + 1, s.inDiagnostics, s.rowsBeforeMetadata, false), o)
    requires HonestRows(o.st, budget, rowLimit, items + [o.built.value],
                        WholeItems(w, elems[1..], depth, s.inDiagnostics, s.rowsBeforeMetadata), r)
    ensures HonestRows(s, budget, rowLimit, items, WholeItems(w, elems, depth, s.inDiagnostics, s.rowsBeforeMetadata),
                       r)
  {
    hide IsPlain, EntryOf, ItemsSize, WholeValue, Extends, Need, Paid;
    if depth >= MAX_RESULT_DEPTH {
      TooDeep(w, EntryOf(elems[0]), depth + 1, s.inDiagnostics, s.rowsBeforeMetadata, false);
    }
    var x := WholeItem(w, elems[0], depth, s.inDiagnostics, s.rowsBeforeMetadata);
    var y := WholeItems(w, elems[1..], depth, s.inDiagnostics, s.rowsBeforeMetadata);
    if x.FullList? && y.FullList? {
      var items1 := items + [o.built.value];
      assert items1[..|items|] == items;
      assert items1 + y.list == items + (x.list + y.list);
      PaidThen(s, rowLimit, x.cost, o.st, y.cost, r.st);
    }
  }

  // ----- keys -----

  lemma {:induction false} FilterSpec(keys: seq<Str>, keep: Str -> bool)
    ensures forall k :: k in Filter(keys, keep) <==> k in keys && keep(k)
    ensures (forall i, j :: 0 <= i < j < |keys| ==> keys[i] != keys[j]) ==>
              forall i, j :: 0 <= i < j < |Filter(keys, keep)| ==> Filter(keys, keep)[i] != Filter(keys, keep)[j]
  {
    if keys != [] {
      FilterSpec(keys[1..], keep);
      assert forall k :: k in keys <==> k == keys[0] || k in keys[1..];
      if forall i, j :: 0 <= i < j < |keys| ==> keys[i] != keys[j] {
        assert keys[0] !in keys[1..];
      }
    }
  }

  function Signature(key: Str): (nat, int) {
    (|key|, if key == [] then 0 else key[0])
  }

  const SIGNATURES: seq<(nat, int)> := [
    (5, 0x65), (6, 0x65), (13, 0x72), (14, 0x72), (13, 0x73), (14, 0x73), (14, 0x66), (15,
                                                                                       0x66), (11, 0x66), (16, 0x75),
    (9, 0x74), (14, 0x74), (7, 0x65), (17, 0x65), (7, 0x64), (11, 0x64), (8, 0x6D)]

  lemma PrioritySignatures()
    ensures |PRIORITY_KEYS| == |SIGNATURES|
    ensures forall i :: 0 <= i < |PRIORITY_KEYS| ==> Signature(PRIORITY_KEYS[i]) == SIGNATURES[i]
  {
    assert Signature(Ascii("error")) == (5, 0x65);
    assert Signature(Ascii("errors")) == (6, 0x65);
    assert Signature(Ascii("responseError")) == (13, 0x72);
    assert Signature(Ascii("responseErrors")) == (14, 0x72);
    assert Signature(Ascii("securityError")) == (13, 0x73);
    assert Signature(Ascii("securityErrors")) == (14, 0x73);
    assert Signature(Ascii("fieldException")) == (14, 0x66);
    assert Signature(Ascii("fieldExceptions")) == (15, 0x66);
    assert Signature(Ascii("fieldErrors")) == (11, 0x66);
    assert Signature(Ascii("unsubscribeError")) == (16, 0x75);
    assert Signature(Ascii("truncated")) == (9, 0x74);
    assert Signature(Ascii("truncatedInput")) == (14, 0x74);
    assert Signature(Ascii("eidData")) == (7, 0x65);
    assert Signature(Ascii("eidDataTruncation")) == (17, 0x65);
    assert Signature(Ascii("delayed")) == (7, 0x64);
    assert Signature(Ascii("diagnostics")) == (11, 0x64);
    assert Signature(Ascii("metadata")) == (8, 0x6D);
  }

  /** The priority keys are distinct, and `rows` is not one of them. */
  lemma PriorityDistinct()
    ensures forall i, j :: 0 <= i < j < |PRIORITY_KEYS| ==> PRIORITY_KEYS[i] != PRIORITY_KEYS[j]
    ensures ROWS !in PRIORITY_KEYS
  {
    PrioritySignatures();
    assert |ROWS| == 4;
    hide Ascii;
    forall i, j | 0 <= i < j < |PRIORITY_KEYS| ensures PRIORITY_KEYS[i] != PRIORITY_KEYS[j] {
      assert SIGNATURES[i] != SIGNATURES[j];
    }
    forall i | 0 <= i < |PRIORITY_KEYS| ensures PRIORITY_KEYS[i] != ROWS {
      assert SIGNATURES[i].0 != 4;
    }
  }

  lemma {:induction false} WholePropsKeys(w: World, node: Node, keys: seq<Str>, depth: nat, diag: bool, rbm: bool)
    ensures var x := WholeProps(w, node, keys, depth, diag, rbm);
            x.FullList? ==> forall i :: 0 <= i < |x.list| ==> x.list[i].key in keys
    decreases |keys|
  {
    hide WholeProp;
    if keys != [] {
      WholePropKey(w, node, keys[0], depth, diag, rbm);
      WholePropsKeys(w, node, keys[1..], depth, diag, rbm);
      var x, y := WholeProp(w, node, keys[0], depth, diag, rbm), WholeProps(w, node, keys[1..], depth, diag, rbm);
      if x.FullList? && y.FullList? {
        forall i | 0 <= i < |x.list + y.list| ensures (x.list + y.list)[i].key in keys {
          if i >= |x.list| { assert y.list[i - |x.list|].key in keys[1..]; }
        }
      }
    }
  }

  lemma OtherKeysOrdinary(node: Node)
    ensures forall k :: k in OtherKeys(node) ==> k !in PRIORITY_KEYS
    ensures forall i, j :: 0 <= i < j < |OtherKeys(node)| ==> OtherKeys(node)[i] != OtherKeys(node)[j]
  {
    hide Ascii;
    KeysSpec(node.props);
    FilterSpec(Keys(node.props), IsOrdinary);
  }

  lemma ObjectKeysFresh(w: World, node: Node, depth: nat, diag: bool, rbm: bool)
    ensures Fresh(PRIORITY_KEYS, [])
    ensures var x := WholeProps(w, node, PRIORITY_KEYS, depth, diag, rbm);
            x.FullList? ==> Fresh(OtherKeys(node), x.list)
  {
    hide Ascii, WholeProps, OtherKeys;
    PriorityDistinct();
    OtherKeysOrdinary(node);
    WholePropsKeys(w, node, PRIORITY_KEYS, depth, diag, rbm);
    var x := WholeProps(w, node, PRIORITY_KEYS, depth, diag, rbm);
    if x.FullList? {
      forall i, j | 0 <= i < |OtherKeys(node)| && 0 <= j < |x.list| ensures OtherKeys(node)[i] != x.list[j].key {
        assert OtherKeys(node)[i] in OtherKeys(node) && x.list[j].key in PRIORITY_KEYS;
      }
    }
  }

  lemma TableKeysFresh(w: World, elems: seq<Element>, node: Node, depth: nat, diag: bool, rbm: bool, shared: bool)
    ensures Fresh(MetadataBeforeRows(rbm), [])
    ensures var x := WholeProps(w, node, MetadataBeforeRows(rbm), depth, diag, rbm);
            var y := WholeRowsProp(w, elems, depth, diag, rbm, shared);
            x.FullList? && y.FullList? ==> Fresh([ROWS], x.list) && Fresh(MetadataAfterRows(rbm), x.list + y.list)
  {
    hide Ascii, WholeProps, WholeRows;
    PriorityDistinct();
    FilterSpec(PRIORITY_KEYS, IsErrorMetadata);
    FilterSpec(PRIORITY_KEYS, IsPlainMetadata);
    WholePropsKeys(w, node, MetadataBeforeRows(rbm), depth, diag, rbm);
  }
}
