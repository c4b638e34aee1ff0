/**
 What every builder guarantees for every graph, state and budget: the reported
 size is the exact length of the JSON text and fits the budget, an omitted value
 leaves a reason behind, and the traversal context is restored.
 */
module Soundness {
  import opened JsText
  import opened Json
  import opened JsHeap
  import opened ResultTypes
  import opened FieldExceptions
  import opened Entitlements
  import opened Projection

  predicate Exact(built: Built, budget: int) {
    built.Built? ==> built.byteLength == Size(built.value) <= budget
  }

  predicate SoundOut(s: State, budget: int, o: Out) {
    Extends(s, o.st) && Exact(o.built, budget) && (o.built.Omit? ==> Blocked(o.st))
  }

  predicate AccOk(acc: Acc, budget: int) {
    acc.byteLength == 2 + PropsSize(acc.props) <= budget
  }

  predicate SoundProp(s: State, budget: int, o: PropOut) {
    Extends(s, o.st) && AccOk(o.acc, budget) && (!o.ok ==> Blocked(o.st))
  }

  /** A stored exception list is also refused below the depth limit. */
  predicate BlockedAt(s: State, depth: nat) {
    Blocked(s) || (depth > MAX_RESULT_DEPTH && MaxResultDepth in s.reasons)
  }

  predicate SoundList(s: State, budget: int, depth: nat, o: Out) {
    Extends(s, o.st) && Exact(o.built, budget) && (o.built.Omit? ==> BlockedAt(o.st, depth))
  }

  predicate SoundLists(s: State, budget: int, depth: nat, o: PropOut) {
    Extends(s, o.st) && AccOk(o.acc, budget) && (!o.ok ==> BlockedAt(o.st, depth))
  }

  predicate SoundRows(s: State, budget: int, o: RowsOut) {
    Extends(s, o.st) && o.byteLength == 2 + ItemsSize(o.items) <= budget
  }

  // ----- steps of the state -----

  lemma ExtendsTrans(s: State, t: State, u: State)
    requires Extends(s, t) && Extends(t, u)
    ensures Extends(s, u)
  {
  }

  lemma LeaveRestores(s: State, id: set<Ref>, t: State)
    requires id * s.ancestors == {} && Extends(Enter(s, id), t)
    ensures Extends(s, Leave(t, id))
  {
    forall r | r in s.ancestors ensures r !in id {
      assert r in id ==> r in id * s.ancestors;
    }
    assert s.ancestors + id - id == s.ancestors;
  }

  lemma ExtendsSelf(s: State)
    ensures Extends(s, s)
  {
  }

  lemma KeepsContext(s: State, t: State)
    requires Extends(s, t)
    ensures t.inDiagnostics == s.inDiagnostics && t.rowsBeforeMetadata == s.rowsBeforeMetadata
    ensures t.limits == s.limits && s.reasons <= t.reasons && t.ancestors == s.ancestors
  {
  }

  lemma GiveUpExtends(s: State, reasons: set<Reason>, reason: Reason)
    requires reason in reasons && reason in {MaxResultNodes, MaxResultBytes, MaxResultDepth}
    ensures Extends(s, GiveUp(s, reasons)) && BlockedDeep(GiveUp(s, reasons))
  {
    assert reason in GiveUp(s, reasons).reasons;
  }

  lemma VisitExtends(s: State, n: nat)
    requires n <= Left(s)
    ensures Extends(s, s.(visitedNodes := s.visitedNodes + n))
  {
  }

  lemma ReasonExtends(s: State, reason: Reason)
    ensures Extends(s, AddReason(s, reason))
  {
  }

  lemma OmittedExtends(s: State, t: State)
    requires Extends(s, t) && Blamed(t)
    ensures Extends(s, t.(omittedProperties := t.omittedProperties + 1))
  {
  }

  lemma RetainedExtends(s: State, t: State, n: nat)
    requires Extends(s, t)
    ensures Extends(s, t.(retainedNodes := n))
  {
  }

  lemma ErrorsExtends(s: State, t: State, hasErrors: bool)
    requires Extends(s, t)
    ensures Extends(s, t.(hasErrors := t.hasErrors || hasErrors))
  {
  }

  lemma DiagnosticsExtends(s: State, inDiagnostics: bool, t: State)
    requires Extends(s.(inDiagnostics := inDiagnostics), t)
    ensures Extends(s, t.(inDiagnostics := s.inDiagnostics))
  {
  }

  lemma RememberExtends(s: State, key: Str, value: Json)
    ensures Extends(s, Remember(s, key, value))
  {
  }

  lemma {:induction false} ScanEidsExtends(eids: seq<Element>, s: State, limit: int, keep: bool, capacity: nat,
                                           kept: seq<int>)
    requires Left(s) >= 0
    ensures Extends(s, ScanEids(eids, s, limit, keep, capacity, kept).st)
    decreases |eids|
  {
    if eids != [] {
      var (t, ok) := VisitBefore(s, limit);
      assert Extends(s, t);
      if ok && ValidEid(eids[0]) {
        var kept1 := if keep && |kept| < capacity then kept + [eids[0].slot.value.num.value] else kept;
        ScanEidsExtends(eids[1..], t, limit, keep, capacity, kept1);
        ExtendsTrans(s, t, ScanEids(eids[1..], t, limit, keep, capacity, kept1).st);
      }
    }
  }

  lemma VisitBeforeExtends(s: State, limit: int)
    ensures Extends(s, VisitBefore(s, limit).0)
  {
  }

  lemma TakeSecurityExtends(t: Tally, security: Str, count: nat, scan: EidScan)
    ensures Extends(scan.st, TakeSecurity(t, security, count, scan).st)
  {
    hide Retainable, Utf8Length, Extends;
    ExtendsSelf(scan.st);
    ReasonExtends(scan.st, EntitlementLimit);
  }

  lemma ScanSecurityExtends(w: World, node: Node, security: Str, limit: int, t: Tally)
    requires Left(t.st) >= 0
    ensures Extends(t.st, ScanSecurity(w, node, security, limit, t).st)
  {
    hide Ascii, ScanEids, Utf8Length, TakeSecurity, Extends;
    var (s, ok) := VisitBefore(t.st, limit);
    VisitBeforeExtends(t.st, limit);
    var slot := Lookup(node.props, security);
    if ok && slot.Some? {
      ReasonExtends(s, InvalidEntitlementData);
      ExtendsTrans(t.st, s, AddReason(s, InvalidEntitlementData));
      if ElemsOf(w, slot.value).Some? {
        var t1 := t.(st := s, scanned := t.scanned + 1);
        var elems := ElemsOf(w, slot.value).value;
        var scan := ScanEids(elems, s, limit, Retainable(t1, security), Capacity(t1), []);
        ScanEidsExtends(elems, s, limit, Retainable(t1, security), Capacity(t1), []);
        TakeSecurityExtends(t1, security, |elems|, scan);
        ExtendsTrans(s, scan.st, TakeSecurity(t1, security, |elems|, scan).st);
        ExtendsTrans(t.st, s, TakeSecurity(t1, security, |elems|, scan).st);
      }
    }
  }

  lemma {:induction false} ScanSecuritiesExtends(w: World, node: Node, keys: seq<Str>, limit: int, t: Tally)
    requires Left(t.st) >= 0
    ensures Extends(t.st, ScanSecurities(w, node, keys, limit, t).st)
    decreases |keys|
  {
    hide Ascii, ScanSecurity;
    if keys != [] && t.complete {
      var t1 := ScanSecurity(w, node, keys[0], limit, t);
      ScanSecurityExtends(w, node, keys[0], limit, t);
      ScanSecuritiesExtends(w, node, keys[1..], limit, t1);
      ExtendsTrans(t.st, t1.st, ScanSecurities(w, node, keys[1..], limit, t1).st);
    }
  }

  lemma PrepareExtends(w: World, v: Value, s: State)
    requires Left(s) >= 0
    ensures Extends(s, PrepareEidData(w, v, s).st)
  {
    hide Ascii, ScanSecurities;
    if IsPlain(w, v) {
      var node := NodeOf(w, v).value;
      ScanSecuritiesExtends(w, node, Keys(node.props), EidVisitLimit(s), Tally0(s));
    }
  }

  lemma {:induction false} ScanOccurrencesExtends(w: World, node: Node, keys: seq<Str>, s: State)
    requires Left(s) >= 0
    ensures Extends(s, ScanOccurrences(w, node, keys, s).0)
    decreases |keys|
  {
    if keys != [] && s.visitedNodes < s.limits.maxResultNodes {
      var t := s.(visitedNodes := s.visitedNodes + 1);
      ScanOccurrencesExtends(w, node, keys[1..], t);
    }
  }

  lemma ReportsErrorExtends(w: World, key: Str, v: Value, s: State)
    requires Left(s) >= 0
    ensures Extends(s, ReportsError(w, key, v, s).0)
  {
    hide Ascii, ScanOccurrences, IsErrorKey;
    if IsPlain(w, v) {
      ScanOccurrencesExtends(w, NodeOf(w, v).value, Keys(NodeOf(w, v).value.props), s);
    }
  }

  // ----- leaves and appends -----

  lemma FittedSound(text: Str, budget: int, s: State)
    ensures SoundOut(s, budget, Fitted(text, budget, s))
  {
    hide Ascii, FitString;
    FitStringSound(text, budget, s.limits.maxStringChars);
  }

  lemma UnsupportedSound(text: Str, budget: int, s: State, reason: Reason)
    ensures SoundOut(s, budget, Unsupported(text, budget, s, reason))
    ensures reason in Unsupported(text, budget, s, reason).st.reasons
  {
    hide Ascii, Fitted;
    var t := AddReason(s, reason);
    FittedSound(text, budget, t);
    ExtendsTrans(s, t, Fitted(text, budget, t).st);
    assert reason in t.reasons;
  }

  lemma PrimitiveSound(j: Json, budget: int, s: State)
    ensures SoundOut(s, budget, Primitive(j, budget, s))
  {
    hide Ascii, Size;
  }

  lemma AppendSound(acc: Acc, key: Str, built: Built, budget: int, s: State)
    requires built.Built? && built.byteLength == Size(built.value) && AccOk(acc, budget)
    ensures SoundProp(s, budget, Append(acc, key, built, budget, s))
  {
    hide Ascii, StringSize, Size;
    AppendProp(acc.props, key, built.value);
  }

  /** After a build within the child budget, appending the property never fails. */
  lemma AppendAfterBuildSucceeds(acc: Acc, key: Str, built: Built, budget: int, s: State)
    requires built.Built?
    requires built.byteLength <= budget - acc.byteLength - CommaSize(acc.props) - 1 - StringSize(key)
    ensures Append(acc, key, built, budget, s).ok && Append(acc, key, built, budget, s).st == s
  {
  }

  // ----- the builders -----

  lemma {:induction false} BuildValueSound(w: World, v: Value, budget: int, s: State, depth: nat, rowLimit: nat,
                                           shared: bool)
    requires Left(s) >= 0
    ensures SoundOut(s, budget, BuildValue(w, v, budget, s, depth, rowLimit, shared))
    decreases Left(s), 0
  {
    hide Ascii, BuildNode, Fitted, Unsupported, Primitive, SoundOut;
    if s.visitedNodes >= s.limits.maxResultNodes {
      OmitSound(s, budget);
    } else {
      var t := s.(visitedNodes := s.visitedNodes + 1);
      if depth > MAX_RESULT_DEPTH {
        UnsupportedSound(Ascii("[Max result depth exceeded]"), budget, t, MaxResultDepth);
      } else {
        match v
        case VString(text) => FittedSound(text, budget, t);
        case VBigInt(text) => FittedSound(text, budget, t);
        case VNull => PrimitiveSound(JNull, budget, t);
        case VBool(b) => PrimitiveSound(JBool(b), budget, t);
        case VNum(num) => PrimitiveSound(JNumber(num), budget, t);
        case VRef(r) => BuildNodeSound(w, {r}, w.heap(r), budget, t, depth, rowLimit, shared);
        case VFresh(node) => BuildNodeSound(w, {}, node, budget, t, depth, rowLimit, shared);
        case _ =>
          var t1 := AddReason(t, UnsupportedValue);
          PrimitiveSound(JNull, budget, t1);
          ReasonExtends(t, UnsupportedValue);
          SoundAfter(t, t1, budget, Primitive(JNull, budget, t1));
      }
      VisitExtends(s, 1);
      SoundAfter(s, t, budget, BuildValue(w, v, budget, s, depth, rowLimit, shared));
    }
  }

  lemma OmitSound(s: State, budget: int)
    requires Left(s) == 0
    ensures SoundOut(s, budget, Out(AddReason(s, MaxResultNodes), Omit))
  {
    ReasonExtends(s, MaxResultNodes);
  }

  lemma SoundAfter(s: State, t: State, budget: int, o: Out)
    requires Extends(s, t) && SoundOut(t, budget, o)
    ensures SoundOut(s, budget, o)
  {
    hide Extends, Exact;
    ExtendsTrans(s, t, o.st);
  }

  lemma {:induction false} BuildNodeSound(w: World, id: set<Ref>, node: Node, budget: int, s: State, depth: nat,
                                          rowLimit: nat, shared: bool)
    requires Left(s) >= 0
    ensures SoundOut(s, budget, BuildNode(w, id, node, budget, s, depth, rowLimit, shared))
    decreases Left(s), 9
  {
    hide Ascii, BuildArray, BuildObject, BuildError, BuildExotic, Fitted, Unsupported, Exact;
    match node.kind
    case KDate(None) => FittedSound(Ascii("[Invalid Date]"), budget, AddReason(s, UnsupportedValue));
    case KDate(Some(iso)) => FittedSound(iso, budget, s);
    case KBinary(n) => UnsupportedSound(Ascii("[binary data: ") + Decimal(n) + Ascii(" bytes]"), budget, s, BinaryData);
    case KArray(elems) => BuildArraySound(w, id, elems, node, budget, s, depth, rowLimit, shared);
    case KPlain => BuildObjectSound(w, id, node, budget, s, depth, rowLimit);
    case KError(message, name, cause) =>
      BuildErrorSound(w, id, ErrorRecord(message, name, cause), budget, s.(hasErrors := true), depth, rowLimit);
    case KExotic(toJson) => BuildExoticSound(w, id, toJson, budget, s, depth, rowLimit, shared);
  }

  lemma {:induction false} BuildErrorSound(w: World, id: set<Ref>, record: Node, budget: int, s: State, depth: nat,
                                           rowLimit: nat)
    requires Left(s) >= 0
    ensures SoundOut(s, budget, BuildError(w, id, record, budget, s, depth, rowLimit))
    decreases Left(s), 8
  {
    hide Ascii, BuildObject, Unsupported, Remember, Exact, Extends;
    if id * s.ancestors != {} {
      UnsupportedSound(CIRCULAR, budget, s, CircularReference);
    } else {
      var o := BuildObject(w, {}, record, budget, Enter(s, id), depth, rowLimit);
      BuildObjectSound(w, {}, record, budget, Enter(s, id), depth, rowLimit);
      LeaveRestores(s, id, o.st);
      if o.built.Built? {
        RememberExtends(o.st, ERROR, o.built.value);
        ExtendsTrans(Enter(s, id), o.st, Remember(o.st, ERROR, o.built.value));
        LeaveRestores(s, id, Remember(o.st, ERROR, o.built.value));
      }
    }
  }

  lemma {:induction false} BuildExoticSound(w: World, id: set<Ref>, toJson: ToJson, budget: int, s: State, depth: nat,
                                            rowLimit: nat, shared: bool)
    requires Left(s) >= 0
    ensures SoundOut(s, budget, BuildExotic(w, id, toJson, budget, s, depth, rowLimit, shared))
    decreases Left(s), 7
  {
    hide Ascii, BuildValue, Unsupported, Exact;
    if toJson.AccessorMethod? {
      UnsupportedSound(ACCESSOR_OMITTED, budget, s, AccessorOmitted);
    } else if toJson.NoMethod? {
      UnsupportedSound(Ascii("[Unsupported object]"), budget, s, UnsupportedValue);
    } else if id * s.ancestors != {} {
      UnsupportedSound(CIRCULAR, budget, s, CircularReference);
    } else {
      var s1 := if toJson.Throws? then AddReason(s, UnsupportedValue).(hasErrors := true) else s;
      BuildValueSound(w, Converted(toJson), budget, Enter(s1, id), depth + 1, rowLimit, shared);
      LeaveRestores(s1, id, BuildValue(w, Converted(toJson), budget, Enter(s1, id), depth + 1, rowLimit, shared).st);
    }
  }

  lemma {:induction false} BuildObjectSound(w: World, id: set<Ref>, node: Node, budget: int, s: State, depth: nat,
                                            rowLimit: nat)
    requires Left(s) >= 0
    ensures SoundOut(s, budget, BuildObject(w, id, node, budget, s, depth, rowLimit))
    decreases Left(s), 7
  {
    hide Ascii, BuildKeys, Unsupported, OtherKeys;
    if id * s.ancestors != {} {
      UnsupportedSound(CIRCULAR, budget, s, CircularReference);
    } else if budget >= 2 {
      var t := Enter(s, id).(retainedNodes := s.retainedNodes + 1);
      var p := BuildKeys(w, node, PRIORITY_KEYS, false, EMPTY_ACC, budget, t, depth, rowLimit);
      BuildKeysSound(w, node, PRIORITY_KEYS, false, EMPTY_ACC, budget, t, depth, rowLimit);
      var q := BuildKeys(w, node, OtherKeys(node), true, p.acc, budget, p.st, depth, rowLimit);
      BuildKeysSound(w, node, OtherKeys(node), true, p.acc, budget, p.st, depth, rowLimit);
      ExtendsTrans(Enter(s, id), p.st, q.st);
      LeaveRestores(s, id, q.st);
    }
  }

  lemma {:induction false} BuildKeysSound(w: World, node: Node, keys: seq<Str>, stop: bool, acc: Acc, budget: int,
                                          s: State, depth: nat, rowLimit: nat)
    requires Left(s) >= 0 && AccOk(acc, budget)
    ensures SoundProp(s, budget, BuildKeys(w, node, keys, stop, acc, budget, s, depth, rowLimit))
    decreases Left(s), 6, |keys|
  {
    hide Ascii, BuildProperty, AccOk;
    if keys != [] {
      var p := BuildProperty(w, node, keys[0], acc, budget, s, depth, rowLimit);
      BuildPropertySound(w, node, keys[0], acc, budget, s, depth, rowLimit);
      var t := if p.ok then p.st else p.st.(omittedProperties := p.st.omittedProperties + 1);
      if p.ok || !stop {
        BuildKeysSound(w, node, keys[1..], stop, p.acc, budget, t, depth, rowLimit);
      }
    }
  }

  lemma {:induction false} BuildPropertySound(w: World, source: Node, key: Str, acc: Acc, budget: int, s: State,
                                              depth: nat, rowLimit: nat)
    requires Left(s) >= 0 && AccOk(acc, budget)
    ensures SoundProp(s, budget, BuildProperty(w, source, key, acc, budget, s, depth, rowLimit))
    decreases Left(s), 5
  {
    hide Ascii, BuildStored, BuildOwn, StoredExceptions, StringSize, PropsSize;
    var slot := Lookup(source.props, key);
    var raw := StoredExceptions(w, source, key);
    var available := budget - acc.byteLength - CommaSize(acc.props) - 1;
    if available >= 4 && StringSize(key) <= available - 2 {
      if raw.Raw? {
        BuildStoredSound(w, raw.text, key, acc, budget, available - StringSize(key), s, depth);
      } else if slot.Some? {
        BuildOwnSound(w, source, key, slot.value, acc, budget, available - StringSize(key), s, depth, rowLimit);
      }
    }
  }

  lemma {:induction false} BuildOwnSound(w: World, source: Node, key: Str, slot: Slot, acc: Acc, budget: int,
                                         childBudget: int, s: State, depth: nat, rowLimit: nat)
    requires Left(s) >= 0 && childBudget >= 2 && AccOk(acc, budget)
    ensures SoundProp(s, budget, BuildOwn(w, source, key, slot, acc, budget, childBudget, s, depth, rowLimit))
    decreases Left(s), 4
  {
    hide Ascii, BuildChild, BuildEntitlement, Inspect, AddOwn, AccOk, Extends;
    var i := Inspect(w, key, slot, s);
    InspectExtends(w, key, slot, s);
    if !s.inDiagnostics && key == EID_DATA {
      BuildEntitlementSound(w, source, i.value, acc, budget, childBudget, i.st, depth);
      ExtendsTrans(s, i.st, BuildEntitlement(w, source, i.value, acc, budget, childBudget, i.st, depth).st);
    } else {
      BuildChildSound(w, key, i.value, childBudget, i.st, depth, rowLimit);
      var o := BuildChild(w, key, i.value, childBudget, i.st, depth, rowLimit);
      ExtendsTrans(s, i.st, o.st);
      if o.built.Built? {
        AddOwnSound(acc, key, i.value, i.errorKey, o.built, budget, o.st);
        ExtendsTrans(s, o.st, AddOwn(acc, key, i.value, i.errorKey, o.built, budget, o.st).st);
      }
    }
  }

  lemma {:induction false} BuildChildSound(w: World, key: Str, v: Value, childBudget: int, s: State, depth: nat,
                                           rowLimit: nat)
    requires Left(s) >= 0
    ensures SoundOut(s, childBudget, BuildChild(w, key, v, childBudget, s, depth, rowLimit))
    decreases Left(s), 1
  {
    hide Ascii, BuildValue, Extends, Exact, IsErrorMetadata, SharedKey;
    var inDiagnostics := s.inDiagnostics || IsErrorMetadata(key);
    BuildValueSound(w, v, childBudget, s.(inDiagnostics := inDiagnostics), depth + 1, rowLimit, SharedKey(w, key, v));
    DiagnosticsExtends(s, inDiagnostics,
      BuildValue(w, v, childBudget, s.(inDiagnostics := inDiagnostics), depth + 1, rowLimit, SharedKey(w, key, v)).st);
  }

  lemma InspectExtends(w: World, key: Str, slot: Slot, s: State)
    requires Left(s) >= 0
    ensures Extends(s, Inspect(w, key, slot, s).st)
  {
    hide Ascii, ReportsError;
    var v := if slot.Accessor? then VString(ACCESSOR_OMITTED) else slot.value;
    ReportsErrorExtends(w, key, v, if slot.Accessor? then AddReason(s, AccessorOmitted) else s);
  }

  lemma AddOwnSound(acc: Acc, key: Str, v: Value, errorKey: bool, built: Built, budget: int, s: State)
    requires built.Built? && built.byteLength == Size(built.value) && AccOk(acc, budget)
    ensures SoundProp(s, budget, AddOwn(acc, key, v, errorKey, built, budget, s))
  {
    hide Ascii, Append, PropsSize, Size;
    AppendSound(acc, key, built, budget, s);
    var p := Append(acc, key, built, budget, s);
    RememberExtends(p.st, key, built.value);
  }

  lemma {:induction false} BuildStoredSound(w: World, raw: Str, key: Str, acc: Acc, budget: int, childBudget: int,
                                            s: State, depth: nat)
    requires Left(s) >= 0 && AccOk(acc, budget)
    ensures SoundProp(s, budget, BuildStored(w, raw, key, acc, budget, childBudget, s, depth))
    decreases Left(s), 4
  {
    hide Ascii, BuildRaw, Append, Remember, PropsSize, Size;
    BuildRawSound(w, raw, childBudget, s.(inDiagnostics := true), depth + 1);
    var r := BuildRaw(w, raw, childBudget, s.(inDiagnostics := true), depth + 1);
    var t := r.st.(inDiagnostics := s.inDiagnostics);
    assert Extends(s, t);
    if r.RawBuilt? {
      AppendSound(acc, key, Built(r.byteLength, r.value), budget, t);
      var p := Append(acc, key, Built(r.byteLength, r.value), budget, t);
      RememberExtends(p.st, key, r.value);
      ExtendsTrans(s, t, p.st);
      ExtendsTrans(s, p.st, Remember(p.st, key, r.value));
    }
  }

  lemma {:induction false} BuildRawSound(w: World, raw: Str, budget: int, s: State, depth: nat)
    requires Left(s) >= 0
    ensures var r := BuildRaw(w, raw, budget, s, depth);
            && Extends(s, r.st)
            && (r.RawBuilt? ==> r.byteLength == Size(r.value) <= budget)
            && (r.RawOmit? ==> BlockedDeep(r.st))
    decreases Left(s), 3
  {
    hide Ascii, BuildSecurities, StringSize, ReadDocument, HasOccurrences, Extends;
    if s.visitedNodes >= s.limits.maxResultNodes {
      GiveUpExtends(s, {MaxResultNodes}, MaxResultNodes);
    } else {
      var t := s.(visitedNodes := s.visitedNodes + 1);
      VisitExtends(s, 1);
      var bytesFit, nodesFit := StringSize(raw) <= s.limits.maxResultBytes, |raw| <= Left(t);
      if depth > MAX_RESULT_DEPTH {
        GiveUpExtends(t, {MaxResultDepth}, MaxResultDepth);
        ExtendsTrans(s, t, GiveUp(t, {MaxResultDepth}));
      } else if budget < 2 {
        GiveUpExtends(t, {MaxResultBytes}, MaxResultBytes);
        ExtendsTrans(s, t, GiveUp(t, {MaxResultBytes}));
      } else if !bytesFit || !nodesFit {
        var reasons := (if bytesFit then {} else {MaxResultBytes}) + (if nodesFit then {} else {MaxResultNodes});
        GiveUpExtends(t, reasons, if bytesFit then MaxResultNodes else MaxResultBytes);
        ExtendsTrans(s, t, GiveUp(t, reasons));
      } else {
        var t1 := t.(visitedNodes := t.visitedNodes + |raw|);
        VisitExtends(t, |raw|);
        ExtendsTrans(s, t, t1);
        var parsed := w.parse(raw);
        if parsed.Some? && ReadDocument(parsed.value).Some? {
          var doc := ReadDocument(parsed.value).value;
          var u := t1.(hasErrors := t1.hasErrors || HasOccurrences(doc.securities),
                       retainedNodes := t1.retainedNodes + 1);
          ErrorsExtends(s, t1, HasOccurrences(doc.securities));
          RetainedExtends(s, t1.(hasErrors := t1.hasErrors || HasOccurrences(doc.securities)), t1.retainedNodes + 1);
          BuildSecuritiesSound(w, doc.securities, doc.entries, EMPTY_ACC, budget, u, depth);
          ExtendsTrans(s, u, BuildSecurities(w, doc.securities, doc.entries, EMPTY_ACC, budget, u, depth).st);
        }
      }
    }
  }

  lemma {:induction false} BuildSecuritiesSound(w: World, securities: seq<Member>, entries: Option<seq<Json>>, acc: Acc,
                                                budget: int, s: State, depth: nat)
    requires Left(s) >= 0 && AccOk(acc, budget)
    requires forall i :: 0 <= i < |securities| ==> ValidList(securities[i].value, entries)
    ensures SoundLists(s, budget, depth + 1, BuildSecurities(w, securities, entries, acc, budget, s, depth))
    decreases Left(s), 2, |securities|
  {
    hide Ascii, BuildExceptionArray, Append, StringSize, PropsSize, Size, Extends;
    ExtendsSelf(s);
    if securities != [] {
      var key, comma := securities[0].key, CommaSize(acc.props);
      if 2 <= budget - acc.byteLength - comma - 3 && StringSize(key) <= budget - acc.byteLength - comma - 3 {
        assert ValidList(securities[0].value, entries);
        var childBudget := budget - acc.byteLength - comma - StringSize(key) - 1;
        var o := BuildExceptionArray(w, securities[0].value.items, entries, childBudget, s, depth + 1);
        BuildExceptionArraySound(w, securities[0].value.items, entries, childBudget, s, depth + 1);
        if o.built.Omit? {
          OmittedExtends(s, o.st);
        } else {
          var p := Append(acc, key, o.built, budget, o.st);
          AppendSound(acc, key, o.built, budget, o.st);
          ExtendsTrans(s, o.st, p.st);
          if !p.ok {
            OmittedExtends(s, p.st);
          } else {
            BuildSecuritiesSound(w, securities[1..], entries, p.acc, budget, p.st, depth);
            ExtendsTrans(s, p.st, BuildSecurities(w, securities[1..], entries, p.acc, budget, p.st, depth).st);
          }
        }
      } else {
        ReasonExtends(s, MaxResultBytes);
        OmittedExtends(s, AddReason(s, MaxResultBytes));
      }
    }
  }

  lemma {:induction false} BuildExceptionArraySound(w: World, occurrences: seq<Json>, entries: Option<seq<Json>>,
                                                    budget: int, s: State, depth: nat)
    requires Left(s) >= 0
    requires forall i :: 0 <= i < |occurrences| ==> ExceptionAt(occurrences[i], entries).Some?
    ensures SoundList(s, budget, depth, BuildExceptionArray(w, occurrences, entries, budget, s, depth))
    decreases Left(s), 1
  {
    hide Ascii, BuildExceptions, ExceptionAt;
    if s.visitedNodes < s.limits.maxResultNodes && depth <= MAX_RESULT_DEPTH && budget >= 2 {
      var t := s.(visitedNodes := s.visitedNodes + 1, retainedNodes := s.retainedNodes + 1);
      BuildExceptionsSound(w, occurrences, entries, budget, t, depth, [], 2);
      ExtendsTrans(s, t, BuildExceptions(w, occurrences, entries, budget, t, depth, [], 2).st);
    }
  }

  lemma ArraySize(items: seq<Json>)
    ensures Size(JArray(items)) == 2 + ItemsSize(items)
  {
  }

  lemma {:induction false} BuildExceptionsSound(w: World, occurrences: seq<Json>, entries: Option<seq<Json>>,
                                                budget: int, s: State, depth: nat, items: seq<Json>, byteLength: nat)
    requires Left(s) >= 0 && byteLength == 2 + ItemsSize(items) <= budget
    requires forall i :: 0 <= i < |occurrences| ==> ExceptionAt(occurrences[i], entries).Some?
    ensures var o := BuildExceptions(w, occurrences, entries, budget, s, depth, items, byteLength);
            SoundOut(s, budget, o) && o.built.Built?
    decreases Left(s), 1, |occurrences|
  {
    hide Ascii, BuildValue, Embed, ExceptionAt, ItemsSize, Size, Extends;
    ArraySize(items);
    ExtendsSelf(s);
    ReasonExtends(s, MaxResultNodes);
    ReasonExtends(s, MaxResultDepth);
    ReasonExtends(s, MaxResultBytes);
    if occurrences != [] && s.visitedNodes < s.limits.maxResultNodes && depth + 2 <= MAX_RESULT_DEPTH {
      var childBudget := budget - byteLength - CommaSize(items);
      if childBudget >= 2 {
        var entry := ExceptionAt(occurrences[0], entries).value;
        var o := BuildValue(w, Embed(entry), childBudget, s, depth + 1, MAX_SAFE_INTEGER, false);
        BuildValueSound(w, Embed(entry), childBudget, s, depth + 1, MAX_SAFE_INTEGER, false);
        RetainedExtends(s, o.st, s.retainedNodes);
        if o.built.Built? && o.built.value.JObject? && o.st.omittedProperties <= s.omittedProperties {
          AppendItem(items, o.built.value);
          var n := byteLength + CommaSize(items) + o.built.byteLength;
          BuildExceptionsSound(w, occurrences[1..], entries, budget, o.st, depth, items + [o.built.value], n);
          ExtendsTrans(s, o.st,
            BuildExceptions(w, occurrences[1..], entries, budget, o.st, depth, items + [o.built.value], n).st);
        }
      }
    }
  }

  lemma {:induction false} BuildEntitlementSound(w: World, source: Node, v: Value, acc: Acc, budget: int,
                                                 childBudget: int, s: State, depth: nat)
    requires Left(s) >= 0 && AccOk(acc, budget)
    ensures SoundProp(s, budget, BuildEntitlement(w, source, v, acc, budget, childBudget, s, depth))
    decreases Left(s), 3
  {
    hide Ascii, BuildValue, Append, PrepareEidData, EmittedSummary, EidRecord, SummaryJson, Embed, StringSize,
         PropsSize, Size, Extends;
    PrepareExtends(w, v, s);
    var prepared := PrepareEidData(w, v, s);
    var data := Embed(EidRecord(prepared.data));
    var o := BuildValue(w, data, Max(2, childBudget / 3), prepared.st, depth + 1, MAX_ENTITLEMENT_EIDS, false);
    BuildValueSound(w, data, Max(2, childBudget / 3), prepared.st, depth + 1, MAX_ENTITLEMENT_EIDS, false);
    ExtendsTrans(s, prepared.st, o.st);
    if o.built.Built? {
      AppendSound(acc, EID_DATA, o.built, budget, o.st);
      var p := Append(acc, EID_DATA, o.built, budget, o.st);
      ExtendsTrans(s, o.st, p.st);
      var summary := EmittedSummary(w, source, o.built.value, prepared);
      if p.ok && summary.Some? {
        SummarySound(w, summary.value, budget, p, s, depth);
      }
    }
  }

  lemma {:induction false} SummarySound(w: World, summary: Summary, budget: int, p: PropOut, s: State, depth: nat)
    requires Left(p.st) >= 0 && AccOk(p.acc, budget) && Extends(s, p.st)
    ensures var summaryBudget :=
              budget - p.acc.byteLength - CommaSize(p.acc.props) - StringSize(EID_DATA_TRUNCATION) - 1;
            var u := BuildValue(w, Embed(SummaryJson(summary)), summaryBudget, p.st, depth + 1, MAX_EID_SECURITIES,
                                false);
            var q := if u.built.Omit? then PropOut(u.st, p.acc, false)
                     else Append(p.acc, EID_DATA_TRUNCATION, u.built, budget, u.st);
            AccOk(q.acc, budget) && Extends(s, q.st)
            && (!q.ok ==> Extends(s, q.st.(omittedProperties := q.st.omittedProperties + 1)))
    decreases Left(p.st), 1
  {
    hide Ascii, BuildValue, Append, SummaryJson, Embed, StringSize, PropsSize, Size, Extends;
    var summaryBudget := budget - p.acc.byteLength - CommaSize(p.acc.props) - StringSize(EID_DATA_TRUNCATION) - 1;
    var u := BuildValue(w, Embed(SummaryJson(summary)), summaryBudget, p.st, depth + 1, MAX_EID_SECURITIES, false);
    BuildValueSound(w, Embed(SummaryJson(summary)), summaryBudget, p.st, depth + 1, MAX_EID_SECURITIES, false);
    ExtendsTrans(s, p.st, u.st);
    if u.built.Omit? {
      OmittedExtends(s, u.st);
    } else {
      var q := Append(p.acc, EID_DATA_TRUNCATION, u.built, budget, u.st);
      AppendSound(p.acc, EID_DATA_TRUNCATION, u.built, budget, u.st);
      ExtendsTrans(s, u.st, q.st);
      if !q.ok {
        OmittedExtends(s, q.st);
      }
    }
  }

  lemma {:induction false} BuildArraySound(w: World, id: set<Ref>, elems: seq<Element>, node: Node, budget: int,
                                           s: State, depth: nat, rowLimit: nat, shared: bool)
    requires Left(s) >= 0
    ensures SoundOut(s, budget, BuildArray(w, id, elems, node, budget, s, depth, rowLimit, shared))
    decreases Left(s), 7
  {
    hide Ascii, BuildTable, BuildArrayRows, Unsupported, HasArrayMetadata, Exact, Extends;
    if id * s.ancestors != {} {
      UnsupportedSound(CIRCULAR, budget, s, CircularReference);
    } else if HasArrayMetadata(node) {
      BuildTableSound(w, elems, node, budget, Enter(s, id), depth, rowLimit, shared);
      LeaveRestores(s, id, BuildTable(w, elems, node, budget, Enter(s, id), depth, rowLimit, shared).st);
    } else {
      BuildArrayRowsSound(w, elems, budget, Enter(s, id), depth, rowLimit, shared);
      LeaveRestores(s, id, BuildArrayRows(w, elems, budget, Enter(s, id), depth, rowLimit, shared).st);
    }
  }

  lemma {:induction false} BuildTableSound(w: World, elems: seq<Element>, node: Node, budget: int, s: State, depth: nat,
                                           rowLimit: nat, shared: bool)
    requires Left(s) >= 0
    ensures SoundOut(s, budget, BuildTable(w, elems, node, budget, s, depth, rowLimit, shared))
    decreases Left(s), 6, |PRIORITY_KEYS| + 1
  {
    hide Ascii, BuildKeys, BuildRowsProperty, MetadataBeforeRows, MetadataAfterRows;
    if budget >= 2 {
      var s1 := s.(retainedNodes := s.retainedNodes + 1);
      var before, after := MetadataBeforeRows(s.rowsBeforeMetadata), MetadataAfterRows(s.rowsBeforeMetadata);
      KeyListBounds(s.rowsBeforeMetadata);
      var p := BuildKeys(w, node, before, false, EMPTY_ACC, budget, s1, depth, rowLimit);
      BuildKeysSound(w, node, before, false, EMPTY_ACC, budget, s1, depth, rowLimit);
      var q := BuildRowsProperty(w, elems, p.acc, budget, p.st, depth, rowLimit, shared);
      BuildRowsPropertySound(w, elems, p.acc, budget, p.st, depth, rowLimit, shared);
      BuildKeysSound(w, node, after, false, q.acc, budget, q.st, depth, rowLimit);
      ExtendsTrans(s, p.st, q.st);
      ExtendsTrans(s, q.st, BuildKeys(w, node, after, false, q.acc, budget, q.st, depth, rowLimit).st);
    }
  }

  lemma KeyListBounds(rowsBeforeMetadata: bool)
    ensures |MetadataBeforeRows(rowsBeforeMetadata)| <= |PRIORITY_KEYS|
    ensures |MetadataAfterRows(rowsBeforeMetadata)| <= |PRIORITY_KEYS|
  {
  }

  lemma {:induction false} BuildRowsPropertySound(w: World, elems: seq<Element>, acc: Acc, budget: int, s: State,
                                                  depth: nat, rowLimit: nat, shared: bool)
    requires Left(s) >= 0 && AccOk(acc, budget)
    ensures SoundProp(s, budget, BuildRowsProperty(w, elems, acc, budget, s, depth, rowLimit, shared))
    decreases Left(s), 5
  {
    hide Ascii, BuildArrayRows, Append, StringSize, AccOk, Size, Extends, Blocked;
    if s.visitedNodes >= s.limits.maxResultNodes {
      RowsRefused(s);
      RowsOmitted(s, AddReason(s, MaxResultNodes), |elems|);
    } else {
      var rowsBudget := budget - acc.byteLength - CommaSize(acc.props) - StringSize(ROWS) - 1;
      var t := s.(visitedNodes := s.visitedNodes + 1);
      VisitExtends(s, 1);
      BuildArrayRowsSound(w, elems, rowsBudget, t, depth + 1, rowLimit, shared);
      var o := BuildArrayRows(w, elems, rowsBudget, t, depth + 1, rowLimit, shared);
      ExtendsTrans(s, t, o.st);
      if o.built.Built? {
        AppendSound(acc, ROWS, o.built, budget, o.st);
        var p := Append(acc, ROWS, o.built, budget, o.st);
        ExtendsTrans(s, o.st, p.st);
        if !p.ok { RowsOmitted(s, p.st, Min(|elems|, rowLimit)); }
      } else {
        RowsOmitted(s, o.st, |elems|);
      }
    }
  }

  lemma RowsRefused(s: State)
    requires Left(s) == 0
    ensures Extends(s, AddReason(s, MaxResultNodes)) && Blocked(AddReason(s, MaxResultNodes))
  {
  }

  lemma RowsOmitted(s: State, t: State, rows: nat)
    requires Extends(s, t) && Blocked(t)
    ensures var u := t.(omittedRows := t.omittedRows + rows, omittedProperties := t.omittedProperties + 1);
            Extends(s, u) && Blocked(u)
  {
  }

  lemma {:induction false} BuildArrayRowsSound(w: World, elems: seq<Element>, budget: int, s: State, depth: nat,
                                               rowLimit: nat, shared: bool)
    requires Left(s) >= 0
    ensures SoundOut(s, budget, BuildArrayRows(w, elems, budget, s, depth, rowLimit, shared))
    decreases Left(s), 4
  {
    hide Ascii, BuildRows;
    if budget >= 2 {
      var n := RetainedLength(|elems|, s, rowLimit, shared);
      var t := s.(retainedNodes := s.retainedNodes + 1);
      BuildRowsSound(w, elems[..Max(0, n)], budget, t, depth, rowLimit, [], 2);
      var o := BuildRows(w, elems[..Max(0, n)], budget, t, depth, rowLimit, [], 2);
      assert o.st.inDiagnostics == s.inDiagnostics;
    }
  }

  lemma NoteExtends(s: State, e: Element)
    ensures Extends(s, NoteElement(s, e)) && Left(NoteElement(s, e)) == Left(s)
  {
  }

  lemma RowSize(items: seq<Json>, built: Built, budget: int)
    requires built.Built? && Exact(built, budget)
    ensures ItemsSize(items + [built.value]) == ItemsSize(items) + CommaSize(items) + built.byteLength
    ensures built.byteLength <= budget
  {
    AppendItem(items, built.value);
  }

  lemma {:induction false} BuildRowsSound(w: World, elems: seq<Element>, budget: int, s: State, depth: nat,
                                          rowLimit: nat, items: seq<Json>, byteLength: nat)
    requires Left(s) >= 0 && byteLength == 2 + ItemsSize(items) <= budget
    ensures SoundRows(s, budget, BuildRows(w, elems, budget, s, depth, rowLimit, items, byteLength))
    decreases Left(s), 3, |elems|
  {
    hide BuildValue, Atomic, EntryOf, ItemsSize, Extends, NoteElement, Exact;
    ExtendsSelf(s);
    if elems != [] {
      var s1 := NoteElement(s, elems[0]);
      NoteExtends(s, elems[0]);
      var atomic := Atomic(w, s, elems[0]);
      if atomic && depth + 2 > MAX_RESULT_DEPTH {
        ReasonExtends(s1, MaxResultDepth);
        ExtendsTrans(s, s1, AddReason(s1, MaxResultDepth));
      } else {
        var childBudget := budget - byteLength - CommaSize(items);
        var o := BuildValue(w, EntryOf(elems[0]), childBudget, s1, depth + 1, rowLimit, false);
        BuildValueSound(w, EntryOf(elems[0]), childBudget, s1, depth + 1, rowLimit, false);
        ExtendsTrans(s, s1, o.st);
        RetainedExtends(s, o.st, s1.retainedNodes);
        if !Unusable(atomic, s1, o) {
          RowSize(items, o.built, childBudget);
          var n := byteLength + CommaSize(items) + o.built.byteLength;
          BuildRowsSound(w, elems[1..], budget, o.st, depth, rowLimit, items + [o.built.value], n);
          ExtendsTrans(s, o.st, BuildRows(w, elems[1..], budget, o.st, depth, rowLimit, items + [o.built.value], n).st);
        }
      }
    }
  }
}
