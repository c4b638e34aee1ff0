/**
 Whatever lies below the depth limit leaves its reason: a value that was met there, and a
 list just above the limit that is not empty.
 */
module DepthReasons {
  import opened JsText
  import opened Json
  import opened JsHeap
  import opened ResultTypes
  import opened FieldExceptions
  import opened Entitlements
  import opened Projection
  import opened Soundness
  import opened Pruning

  /** Met at `depth`, the value is a placeholder or a list of placeholders. */
  predicate Deep(j: Json, depth: nat) {
    depth > MAX_RESULT_DEPTH || (depth == MAX_RESULT_DEPTH && j.JArray? && j.items != [])
  }

  predicate MembersDeep(props: seq<Member>, depth: nat) {
    exists i :: 0 <= i < |props| && Deep(props[i].value, depth)
  }

  ghost predicate Admitted(depth: nat, o: Out) {
    o.built.Built? && Deep(o.built.value, depth) ==> MaxResultDepth in o.st.reasons
  }

  ghost predicate AdmittedAll(depth: nat, o: PropOut) {
    MembersDeep(o.acc.props, depth) ==> MaxResultDepth in o.st.reasons
  }

  // ----- values -----

  lemma BelowAdmitted(w: World, v: Value, budget: int, s: State, depth: nat, rowLimit: nat, shared: bool)
    requires Left(s) >= 0 && depth > MAX_RESULT_DEPTH
    ensures var o := BuildValue(w, v, budget, s, depth, rowLimit, shared);
            o.built.Built? ==> MaxResultDepth in o.st.reasons && o.built.value.JString?
  {
    hide Ascii, BuildNode, Unsupported, Shows;
    var t := s.(visitedNodes := s.visitedNodes + 1);
    UnsupportedShows(Ascii("[Max result depth exceeded]"), budget, t, MaxResultDepth);
    UnsupportedSound(Ascii("[Max result depth exceeded]"), budget, t, MaxResultDepth);
    ShowsString(Ascii("[Max result depth exceeded]"));
  }

  lemma ShowsString(text: Str)
    ensures forall j :: Shows(text, j) ==> j.JString?
  {
  }

  lemma {:induction false} RowsAdmitted(w: World, elems: seq<Element>, budget: int, s: State, depth: nat, rowLimit: nat,
                                        items: seq<Json>, byteLength: nat)
    requires Left(s) >= 0 && depth >= MAX_RESULT_DEPTH && (items != [] ==> MaxResultDepth in s.reasons)
    ensures var o := BuildRows(w, elems, budget, s, depth, rowLimit, items, byteLength);
            o.items != [] ==> MaxResultDepth in o.st.reasons
    decreases |elems|
  {
    hide BuildValue, Atomic, EntryOf, NoteElement, Unusable, Extends, Exact;
    if elems != [] {
      var s1 := NoteElement(s, elems[0]);
      NoteExtends(s, elems[0]);
      KeepsContext(s, s1);
      var v, n := EntryOf(elems[0]), budget - byteLength - CommaSize(items);
      var o := BuildValue(w, v, n, s1, depth + 1, rowLimit, false);
      BuildValueSound(w, v, n, s1, depth + 1, rowLimit, false);
      KeepsContext(s1, o.st);
      BelowAdmitted(w, v, n, s1, depth + 1, rowLimit, false);
      UsableBuilt(Atomic(w, s, elems[0]), s1, o);
      if !Unusable(Atomic(w, s, elems[0]), s1, o) {
        RowsAdmitted(w, elems[1..], budget, o.st, depth, rowLimit, items + [o.built.value],
                     byteLength + CommaSize(items) + o.built.byteLength);
      }
    }
  }

  lemma UsableBuilt(atomic: bool, s: State, o: Out)
    ensures !Unusable(atomic, s, o) ==> o.built.Built?
  {
  }

  lemma ArrayRowsAdmitted(w: World, elems: seq<Element>, budget: int, s: State, depth: nat, rowLimit: nat, shared: bool)
    requires Left(s) >= 0 && depth == MAX_RESULT_DEPTH
    ensures Admitted(depth, BuildArrayRows(w, elems, budget, s, depth, rowLimit, shared))
  {
    hide BuildRows;
    var n := RetainedLength(|elems|, s, rowLimit, shared);
    RowsAdmitted(w, elems[..Max(0, n)], budget, s.(retainedNodes := s.retainedNodes + 1), depth, rowLimit, [], 2);
  }

  /** Anything that is not a list is no concern at the limit itself. */
  lemma NotListAdmitted(depth: nat, o: Out)
    requires depth <= MAX_RESULT_DEPTH && (o.built.Built? ==> !o.built.value.JArray?)
    ensures Admitted(depth, o)
  {
  }

  lemma AboveAdmitted(depth: nat, o: Out)
    requires depth < MAX_RESULT_DEPTH
    ensures Admitted(depth, o)
  {
  }

  lemma TextAdmitted(text: Str, budget: int, s: State, depth: nat)
    requires depth <= MAX_RESULT_DEPTH
    ensures Admitted(depth, Fitted(text, budget, s))
  {
    hide FitString;
  }

  lemma ObjectAdmitted(w: World, id: set<Ref>, node: Node, budget: int, s: State, depth: nat, rowLimit: nat)
    requires Left(s) >= 0 && depth <= MAX_RESULT_DEPTH
    ensures Admitted(depth, BuildObject(w, id, node, budget, s, depth, rowLimit))
  {
    hide Ascii, BuildKeys, OtherKeys, Fitted, Admitted;
    TextAdmitted(CIRCULAR, budget, AddReason(s, CircularReference), depth);
    if id * s.ancestors == {} { NotListAdmitted(depth, BuildObject(w, id, node, budget, s, depth, rowLimit)); }
  }

  lemma ArrayAdmitted(w: World, id: set<Ref>, elems: seq<Element>, node: Node, budget: int, s: State, depth: nat,
                      rowLimit: nat, shared: bool)
    requires Left(s) >= 0 && depth == MAX_RESULT_DEPTH
    ensures Admitted(depth, BuildArray(w, id, elems, node, budget, s, depth, rowLimit, shared))
  {
    hide Ascii, BuildKeys, BuildRowsProperty, BuildArrayRows, Fitted, HasArrayMetadata, MetadataBeforeRows,
         MetadataAfterRows;
    if id * s.ancestors != {} {
      TextAdmitted(CIRCULAR, budget, AddReason(s, CircularReference), depth);
    } else if !HasArrayMetadata(node) {
      ArrayRowsAdmitted(w, elems, budget, Enter(s, id), depth, rowLimit, shared);
    }
  }

  lemma ExoticAdmitted(w: World, id: set<Ref>, toJson: ToJson, budget: int, s: State, depth: nat, rowLimit: nat,
                       shared: bool)
    requires Left(s) >= 0 && depth == MAX_RESULT_DEPTH
    ensures Admitted(depth, BuildExotic(w, id, toJson, budget, s, depth, rowLimit, shared))
  {
    hide Ascii, BuildValue, Fitted;
    if toJson.AccessorMethod? {
      TextAdmitted(ACCESSOR_OMITTED, budget, AddReason(s, AccessorOmitted), depth);
    } else if toJson.NoMethod? {
      TextAdmitted(Ascii("[Unsupported object]"), budget, AddReason(s, UnsupportedValue), depth);
    } else if id * s.ancestors != {} {
      TextAdmitted(CIRCULAR, budget, AddReason(s, CircularReference), depth);
    } else {
      var s1 := if toJson.Throws? then AddReason(s, UnsupportedValue).(hasErrors := true) else s;
      BelowAdmitted(w, Converted(toJson), budget, Enter(s1, id), depth + 1, rowLimit, shared);
    }
  }

  lemma ErrorAdmitted(w: World, id: set<Ref>, record: Node, budget: int, s: State, depth: nat, rowLimit: nat)
    requires Left(s) >= 0 && depth <= MAX_RESULT_DEPTH
    ensures Admitted(depth, BuildError(w, id, record, budget, s, depth, rowLimit))
  {
    hide Ascii, BuildObject, Fitted;
    if id * s.ancestors != {} {
      TextAdmitted(CIRCULAR, budget, AddReason(s, CircularReference), depth);
    } else {
      ObjectAdmitted(w, {}, record, budget, Enter(s, id), depth, rowLimit);
    }
  }

  lemma NodeAdmitted(w: World, id: set<Ref>, node: Node, budget: int, s: State, depth: nat, rowLimit: nat, shared: bool)
    requires Left(s) >= 0 && depth == MAX_RESULT_DEPTH
    ensures Admitted(depth, BuildNode(w, id, node, budget, s, depth, rowLimit, shared))
  {
    hide Ascii, BuildArray, BuildObject, BuildError, BuildExotic, Fitted, Admitted;
    match node.kind
    case KDate(None) => TextAdmitted(Ascii("[Invalid Date]"), budget, AddReason(s, UnsupportedValue), depth);
    case KDate(Some(iso)) => TextAdmitted(iso, budget, s, depth);
    case KBinary(n) =>
      TextAdmitted(Ascii("[binary data: ") + Decimal(n) + Ascii(" bytes]"), budget, AddReason(s, BinaryData), depth);
    case KArray(elems) => ArrayAdmitted(w, id, elems, node, budget, s, depth, rowLimit, shared);
    case KPlain => ObjectAdmitted(w, id, node, budget, s, depth, rowLimit);
    case KError(message, name, cause) =>
      ErrorAdmitted(w, id, ErrorRecord(message, name, cause), budget, s.(hasErrors := true), depth, rowLimit);
    case KExotic(toJson) => ExoticAdmitted(w, id, toJson, budget, s, depth, rowLimit, shared);
  }

  /** A value met below the limit, or a list of such values, has left the reason. */
  lemma ValueAdmitted(w: World, v: Value, budget: int, s: State, depth: nat, rowLimit: nat, shared: bool)
    requires Left(s) >= 0
    ensures Admitted(depth, BuildValue(w, v, budget, s, depth, rowLimit, shared))
  {
    hide Ascii, BuildNode, Fitted, Unsupported;
    var o := BuildValue(w, v, budget, s, depth, rowLimit, shared);
    if depth > MAX_RESULT_DEPTH {
      BelowAdmitted(w, v, budget, s, depth, rowLimit, shared);
    } else if depth < MAX_RESULT_DEPTH {
      AboveAdmitted(depth, o);
    } else if s.visitedNodes < s.limits.maxResultNodes {
      var t := s.(visitedNodes := s.visitedNodes + 1);
      match v
      case VRef(r) => NodeAdmitted(w, {r}, w.heap(r), budget, t, depth, rowLimit, shared);
      case VFresh(node) => NodeAdmitted(w, {}, node, budget, t, depth, rowLimit, shared);
      case VString(text) => TextAdmitted(text, budget, t, depth);
      case VBigInt(text) => TextAdmitted(text, budget, t, depth);
      case _ =>
    }
  }

  // ----- the members of an object -----

  lemma AppendAdmitted(acc: Acc, key: Str, built: Built, budget: int, s: State, depth: nat)
    requires built.Built? && Admitted(depth, Out(s, built)) && AdmittedAll(depth, PropOut(s, acc, true))
    ensures AdmittedAll(depth, Append(acc, key, built, budget, s))
  {
    hide StringSize, Deep;
    AppendMember(acc, key, built, budget, s);
    AppendReasons(acc, key, built, budget, s);
    var o := Append(acc, key, built, budget, s);
    if i :| 0 <= i < |o.acc.props| && Deep(o.acc.props[i].value, depth) {
      assert i < |acc.props| ==> Deep(acc.props[i].value, depth);
    }
  }

  lemma MoreReasons(depth: nat, acc: Acc, s: State, t: State, ok: bool)
    requires AdmittedAll(depth, PropOut(s, acc, true)) && s.reasons <= t.reasons
    ensures AdmittedAll(depth, PropOut(t, acc, ok))
  {
  }

  lemma OwnAdmitted(w: World, source: Node, key: Str, slot: Slot, acc: Acc, budget: int, childBudget: int, s: State,
                    depth: nat, rowLimit: nat)
    requires Left(s) >= 0 && childBudget >= 2 && AdmittedAll(depth + 1, PropOut(s, acc, true))
    ensures AdmittedAll(depth + 1, BuildOwn(w, source, key, slot, acc, budget, childBudget, s, depth, rowLimit))
  {
    hide Ascii, BuildChild, BuildEntitlement, Inspect, AddOwn, AdmittedAll, Admitted, Extends, Exact;
    var i := Inspect(w, key, slot, s);
    InspectExtends(w, key, slot, s);
    KeepsContext(s, i.st);
    MoreReasons(depth + 1, acc, s, i.st, true);
    if !s.inDiagnostics && key == EID_DATA {
      EntitlementAdmitted(w, source, i.value, acc, budget, childBudget, i.st, depth);
    } else {
      var o := BuildChild(w, key, i.value, childBudget, i.st, depth, rowLimit);
      BuildChildSound(w, key, i.value, childBudget, i.st, depth, rowLimit);
      KeepsContext(i.st, o.st);
      ChildAdmitted(w, key, i.value, childBudget, i.st, depth, rowLimit);
      MoreReasons(depth + 1, acc, i.st, o.st, true);
      MoreReasons(depth + 1, acc, i.st, o.st, false);
      if o.built.Built? { AddOwnAdmitted(acc, key, i.value, i.errorKey, o.built, budget, o.st, depth + 1); }
    }
  }

  lemma ChildAdmitted(w: World, key: Str, v: Value, childBudget: int, s: State, depth: nat, rowLimit: nat)
    requires Left(s) >= 0
    ensures Admitted(depth + 1, BuildChild(w, key, v, childBudget, s, depth, rowLimit))
  {
    hide Ascii, BuildValue, IsErrorMetadata, SharedKey;
    ValueAdmitted(w, v, childBudget, s.(inDiagnostics := s.inDiagnostics || IsErrorMetadata(key)), depth + 1, rowLimit,
                  SharedKey(w, key, v));
  }

  lemma AddOwnAdmitted(acc: Acc, key: Str, v: Value, errorKey: bool, built: Built, budget: int, s: State, depth: nat)
    requires built.Built? && Admitted(depth, Out(s, built)) && AdmittedAll(depth, PropOut(s, acc, true))
    ensures AdmittedAll(depth, AddOwn(acc, key, v, errorKey, built, budget, s))
  {
    hide Ascii, Append, MembersDeep, Admitted;
    AppendAdmitted(acc, key, built, budget, s, depth);
  }

  lemma EntitlementAdmitted(w: World, source: Node, v: Value, acc: Acc, budget: int, childBudget: int, s: State,
                            depth: nat)
    requires Left(s) >= 0 && AdmittedAll(depth + 1, PropOut(s, acc, true))
    ensures AdmittedAll(depth + 1, BuildEntitlement(w, source, v, acc, budget, childBudget, s, depth))
  {
    hide Ascii, BuildValue, Append, PrepareEidData, EmittedSummary, EidRecord, SummaryJson, Embed, StringSize, Extends,
         AdmittedAll, Admitted, Exact;
    var prepared := PrepareEidData(w, v, s);
    PrepareExtends(w, v, s);
    KeepsContext(s, prepared.st);
    var data := Embed(EidRecord(prepared.data));
    var o := BuildValue(w, data, Max(2, childBudget / 3), prepared.st, depth + 1, MAX_ENTITLEMENT_EIDS, false);
    BuildValueSound(w, data, Max(2, childBudget / 3), prepared.st, depth + 1, MAX_ENTITLEMENT_EIDS, false);
    KeepsContext(prepared.st, o.st);
    ValueAdmitted(w, data, Max(2, childBudget / 3), prepared.st, depth + 1, MAX_ENTITLEMENT_EIDS, false);
    MoreReasons(depth + 1, acc, s, o.st, true);
    MoreReasons(depth + 1, acc, s, o.st, false);
    if o.built.Built? {
      AppendAdmitted(acc, EID_DATA, o.built, budget, o.st, depth + 1);
      var p := Append(acc, EID_DATA, o.built, budget, o.st);
      var summary := EmittedSummary(w, source, o.built.value, prepared);
      if p.ok && summary.Some? { SummaryAdmitted(w, summary.value, budget, p, depth); }
    }
  }

  lemma SummaryAdmitted(w: World, summary: Summary, budget: int, p: PropOut, depth: nat)
    requires Left(p.st) >= 0 && p.ok && AdmittedAll(depth + 1, p)
    ensures var summaryBudget :=
              budget - p.acc.byteLength - CommaSize(p.acc.props) - StringSize(EID_DATA_TRUNCATION) - 1;
            var u := BuildValue(w, Embed(SummaryJson(summary)), summaryBudget, p.st, depth + 1, MAX_EID_SECURITIES,
                                false);
            var q := if u.built.Omit? then PropOut(u.st, p.acc, false)
                     else Append(p.acc, EID_DATA_TRUNCATION, u.built, budget, u.st);
            AdmittedAll(depth + 1,
                        PropOut(if q.ok then q.st else q.st.(omittedProperties := q.st.omittedProperties + 1), q.acc,
                                true))
  {
    hide Ascii, BuildValue, Append, SummaryJson, Embed, StringSize, Extends, Admitted, MembersDeep, Exact;
    var summaryBudget := budget - p.acc.byteLength - CommaSize(p.acc.props) - StringSize(EID_DATA_TRUNCATION) - 1;
    var v := Embed(SummaryJson(summary));
    var u := BuildValue(w, v, summaryBudget, p.st, depth + 1, MAX_EID_SECURITIES, false);
    BuildValueSound(w, v, summaryBudget, p.st, depth + 1, MAX_EID_SECURITIES, false);
    KeepsContext(p.st, u.st);
    ValueAdmitted(w, v, summaryBudget, p.st, depth + 1, MAX_EID_SECURITIES, false);
    MoreReasons(depth + 1, p.acc, p.st, u.st, true);
    if u.built.Built? { AppendAdmitted(p.acc, EID_DATA_TRUNCATION, u.built, budget, u.st, depth + 1); }
  }

  lemma StoredAdmitted(w: World, raw: Str, key: Str, acc: Acc, budget: int, childBudget: int, s: State, depth: nat)
    requires Left(s) >= 0 && AdmittedAll(depth + 1, PropOut(s, acc, true))
    ensures AdmittedAll(depth + 1, BuildStored(w, raw, key, acc, budget, childBudget, s, depth))
  {
    hide Ascii, BuildRaw, Append, MembersDeep, Extends;
    var t := s.(inDiagnostics := true);
    var r := BuildRaw(w, raw, childBudget, t, depth + 1);
    BuildRawSound(w, raw, childBudget, t, depth + 1);
    KeepsContext(t, r.st);
    RawObject(w, raw, childBudget, t, depth + 1);
    if r.RawBuilt? {
      var u := r.st.(inDiagnostics := s.inDiagnostics);
      AppendAdmitted(acc, key, Built(r.byteLength, r.value), budget, u, depth + 1);
    }
  }

  lemma RawObject(w: World, raw: Str, budget: int, s: State, depth: nat)
    requires Left(s) >= 0
    ensures var r := BuildRaw(w, raw, budget, s, depth); r.RawBuilt? ==> depth <= MAX_RESULT_DEPTH && r.value.JObject?
  {
    hide Ascii, BuildSecurities, StringSize, ReadDocument, HasOccurrences;
  }

  lemma PropertyAdmitted(w: World, source: Node, key: Str, acc: Acc, budget: int, s: State, depth: nat, rowLimit: nat)
    requires Left(s) >= 0 && AdmittedAll(depth + 1, PropOut(s, acc, true))
    ensures AdmittedAll(depth + 1, BuildProperty(w, source, key, acc, budget, s, depth, rowLimit))
  {
    hide Ascii, BuildStored, BuildOwn, StoredExceptions, StringSize, MembersDeep, Lookup, OPTIONAL_METADATA_KEYS;
    var slot, raw := Lookup(source.props, key), StoredExceptions(w, source, key);
    var childBudget := budget - acc.byteLength - CommaSize(acc.props) - 1 - StringSize(key);
    if childBudget >= 2 {
      if raw.Raw? { StoredAdmitted(w, raw.text, key, acc, budget, childBudget, s, depth); }
      if slot.Some? { OwnAdmitted(w, source, key, slot.value, acc, budget, childBudget, s, depth, rowLimit); }
    }
  }

  lemma {:induction false} KeysAdmitted(w: World, node: Node, keys: seq<Str>, stop: bool, acc: Acc, budget: int,
                                        s: State, depth: nat, rowLimit: nat)
    requires Left(s) >= 0 && AdmittedAll(depth + 1, PropOut(s, acc, true))
    ensures AdmittedAll(depth + 1, BuildKeys(w, node, keys, stop, acc, budget, s, depth, rowLimit))
    decreases |keys|
  {
    hide BuildProperty, MembersDeep;
    if keys != [] {
      var p := BuildProperty(w, node, keys[0], acc, budget, s, depth, rowLimit);
      PropertyAdmitted(w, node, keys[0], acc, budget, s, depth, rowLimit);
      var t := if p.ok then p.st else p.st.(omittedProperties := p.st.omittedProperties + 1);
      if p.ok || !stop { KeysAdmitted(w, node, keys[1..], stop, p.acc, budget, t, depth, rowLimit); }
    }
  }

  /** The members of an object that are placeholders or lists of them have left the reason. */
  lemma MembersAdmitted(w: World, node: Node, budget: int, s: State, depth: nat, rowLimit: nat, shared: bool)
    requires Left(s) >= 0 && node.kind.KPlain? && depth <= MAX_RESULT_DEPTH
    ensures var o := BuildValue(w, VFresh(node), budget, s, depth, rowLimit, shared);
            o.built.Built? && o.built.value.JObject? && MembersDeep(o.built.value.props, depth + 1) ==>
              MaxResultDepth in o.st.reasons
  {
    hide Ascii, BuildKeys, OtherKeys, Fitted, Unsupported, Primitive, MembersDeep, PRIORITY_KEYS;
    if s.visitedNodes < s.limits.maxResultNodes {
      var t := s.(visitedNodes := s.visitedNodes + 1);
      assert BuildValue(w, VFresh(node), budget, s, depth, rowLimit, shared)
             == BuildNode(w, {}, node, budget, t, depth, rowLimit, shared);
      assert BuildNode(w, {}, node, budget, t, depth, rowLimit, shared)
             == BuildObject(w, {}, node, budget, t, depth, rowLimit);
      if budget >= 2 {
        var u := Enter(t, {}).(retainedNodes := t.retainedNodes + 1);
        NoMembers(depth + 1, u);
        var p := BuildKeys(w, node, PRIORITY_KEYS, false, EMPTY_ACC, budget, u, depth, rowLimit);
        KeysAdmitted(w, node, PRIORITY_KEYS, false, EMPTY_ACC, budget, u, depth, rowLimit);
        KeysAdmitted(w, node, OtherKeys(node), true, p.acc, budget, p.st, depth, rowLimit);
      }
    }
  }

  lemma NoMembers(depth: nat, s: State)
    ensures AdmittedAll(depth, PropOut(s, EMPTY_ACC, true))
  {
  }
}
