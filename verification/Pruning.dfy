/**
 Whatever the budgets, the emitted value is a pruning of the input: array
 prefixes, sub-objects, strings cut at code-point boundaries with a marker that
 counts what was dropped, and fixed placeholders for what has no JSON form or
 contains itself. Without a recorded reason nothing is missing.
 */
module Pruning {
  import opened JsText
  import opened Json
  import opened JsHeap
  import opened ResultTypes
  import opened FieldExceptions
  import opened Entitlements
  import opened Projection
  import opened Soundness
  import opened Honesty
  import opened KeyOrder

  function Below(depth: nat): nat {
    if depth <= MAX_RESULT_DEPTH + 1 then MAX_RESULT_DEPTH + 2 - depth else 0
  }

  ghost predicate Shows(text: Str, j: Json) {
    j.JString? && Stands(text, j.s)
  }

  /**
   Where a value is met: the mode, the order of tables, and the objects that contain it.
   `whole`: nothing may be missing.
   */
  datatype Context = Context(whole: bool, diag: bool, rbm: bool, ancestors: set<Ref>)

  function ContextOf(whole: bool, s: State): Context {
    Context(whole, s.inDiagnostics, s.rowsBeforeMetadata, s.ancestors)
  }

  function Inside(c: Context, id: set<Ref>): Context { c.(ancestors := c.ancestors + id) }

  function Diagnosing(c: Context, diag: bool): Context { c.(diag := c.diag || diag) }

  /** A string comes out as it is, or cut. */
  ghost predicate Text(c: Context, text: Str, j: Json) {
    Shows(text, j) && (c.whole ==> j == JString(text))
  }

  /** A placeholder stands for what is missing. */
  ghost predicate Instead(c: Context, text: Str, j: Json) {
    !c.whole && Shows(text, j)
  }

  ghost predicate PruneValue(w: World, v: Value, j: Json, depth: nat, c: Context)
    decreases Below(depth), 4
  {
    if depth > MAX_RESULT_DEPTH then Instead(c, Ascii("[Max result depth exceeded]"), j)
    else
      match v
      case VString(s) => Text(c, s, j)
      case VBigInt(s) => Text(c, s, j)
      case VNull => j == JNull
      case VBool(b) => j == JBool(b)
      case VNum(num) => j == JNumber(num)
      case VRef(r) => PruneNode(w, {r}, w.heap(r), j, depth, c)
      case VFresh(node) => PruneNode(w, {}, node, j, depth, c)
      case _ => !c.whole && j == JNull
  }

  /** An object is cut off as circular exactly if it contains itself; `id` is its identity. */
  ghost predicate PruneNode(w: World, id: set<Ref>, node: Node, j: Json, depth: nat, c: Context)
    requires depth <= MAX_RESULT_DEPTH
    decreases Below(depth), 3
  {
    match node.kind
    case KDate(None) => Instead(c, Ascii("[Invalid Date]"), j)
    case KDate(Some(iso)) => Text(c, iso, j)
    case KBinary(n) => Instead(c, Ascii("[binary data: ") + Decimal(n) + Ascii(" bytes]"), j)
    case KExotic(AccessorMethod) => Instead(c, ACCESSOR_OMITTED, j)
    case KExotic(NoMethod) => Instead(c, Ascii("[Unsupported object]"), j)
    case _ =>
      if id * c.ancestors != {} then Instead(c, CIRCULAR, j)
      else PruneContent(w, node, j, depth, Inside(c, id))
  }

  ghost predicate PruneContent(w: World, node: Node, j: Json, depth: nat, c: Context)
    requires depth <= MAX_RESULT_DEPTH && !node.kind.KDate? && !node.kind.KBinary?
    requires node.kind.KExotic? ==> node.kind.toJson.Returns? || node.kind.toJson.Throws?
    decreases Below(depth), 2, 1
  {
    match node.kind
    case KArray(elems) =>
      if HasArrayMetadata(node) then PruneTable(w, elems, node, j, depth, c) else PruneRows(w, elems, j, depth, c)
    case KPlain => PruneObject(w, node, j, depth, c)
    case KError(message, name, cause) => PruneObject(w, ErrorRecord(message, name, cause), j, depth, c)
    case KExotic(toJson) => (c.whole ==> toJson.Returns?) && PruneValue(w, Converted(toJson), j, depth + 1, c)
  }

  ghost predicate PruneObject(w: World, node: Node, j: Json, depth: nat, c: Context)
    requires depth <= MAX_RESULT_DEPTH
    decreases Below(depth), 2, 0
  {
    && j.JObject? && ObjectOrder(node, j.props) && (c.whole ==> AllDue(w, node, c.diag, j.props))
    && forall i :: 0 <= i < |j.props| ==> PruneMember(w, node, Beside(j.props, i), j.props[i], depth, c)
  }

  ghost predicate PruneTable(w: World, elems: seq<Element>, node: Node, j: Json, depth: nat, c: Context)
    requires depth <= MAX_RESULT_DEPTH
    decreases Below(depth), 2, 0
  {
    && j.JObject? && TableOrder(c.rbm, j.props)
        && (c.whole ==> MetadataDue(w, node, c.diag, j.props) && HasKey(j.props, ROWS))
    && forall i :: 0 <= i < |j.props| ==>
         if j.props[i].key == ROWS then PruneRows(w, elems, j.props[i].value, depth + 1, c)
         else PruneMember(w, node, Beside(j.props, i), j.props[i], depth, c)
  }

  predicate HasKey(props: seq<Member>, key: Str) {
    exists i :: 0 <= i < |props| && props[i].key == key
  }

  /** A key with a value of its own; optional metadata that is undefined does not count. */
  predicate MustShow(w: World, node: Node, key: Str) {
    var slot := Lookup(node.props, key);
    && slot.Some? && StoredExceptions(w, node, key).Absent?
    && !(slot.value.Data? && slot.value.value.VUndefined? && key in OPTIONAL_METADATA_KEYS)
  }

  /** A key that shows up unless something is missing. */
  predicate Due(w: World, node: Node, diag: bool, key: Str) {
    || StoredExceptions(w, node, key).Raw?
    || (MustShow(w, node, key) && !(!diag && key == EID_DATA_TRUNCATION && Lookup(node.props, EID_DATA).Some?))
  }

  /** Every key is there, and the stored exceptions were readable. */
  ghost predicate AllDue(w: World, node: Node, diag: bool, props: seq<Member>) {
    && !StoredExceptions(w, node, FIELD_EXCEPTIONS).Malformed?
    && forall key :: Due(w, node, diag, key) ==> HasKey(props, key)
  }

  ghost predicate MetadataDue(w: World, node: Node, diag: bool, props: seq<Member>) {
    && !StoredExceptions(w, node, FIELD_EXCEPTIONS).Malformed?
    && forall key :: key in PRIORITY_KEYS && Due(w, node, diag, key) ==> HasKey(props, key)
  }

  /** No key of the object was lost. */
  ghost predicate KeepsKeys(w: World, node: Node, j: Json) {
    j.JObject? && AllDue(w, node, true, j.props)
  }

  /** In diagnostics an object entry never loses a key. */
  ghost predicate AtomicEntry(w: World, v: Value, j: Json, diag: bool) {
    diag && IsPlain(w, v) ==> KeepsKeys(w, NodeOf(w, v).value, j)
  }

  /** An emitted array is a prefix of the input array, entry by entry. */
  ghost predicate PruneRows(w: World, elems: seq<Element>, j: Json, depth: nat, c: Context)
    requires depth <= MAX_RESULT_DEPTH + 1
    decreases Below(depth), 1, 1
  {
    j.JArray? && RowsPrefix(w, elems, j.items, depth, c) && (c.whole ==> |j.items| == |elems|)
  }

  ghost predicate RowsPrefix(w: World, elems: seq<Element>, items: seq<Json>, depth: nat, c: Context)
    requires depth <= MAX_RESULT_DEPTH + 1
    decreases Below(depth), 1, 0
  {
    |items| <= |elems| && forall i :: 0 <= i < |items| ==> PruneEntry(w, elems[i], items[i], depth, c)
  }

  ghost predicate PruneEntry(w: World, e: Element, j: Json, depth: nat, c: Context)
    requires depth <= MAX_RESULT_DEPTH + 1
    decreases Below(depth), 0
  {
    && PruneValue(w, EntryOf(e), j, depth + 1, c) && AtomicEntry(w, EntryOf(e), j, c.diag)
    && (c.whole ==> !(e.Elem? && e.slot.Accessor?))
  }

  /** The entitlements directly before a member. */
  function Beside(props: seq<Member>, i: nat): Option<Json>
    requires i < |props|
  {
    if i > 0 && props[i - 1].key == EID_DATA then Some(props[i - 1].value) else None
  }

  /** Where an emitted property came from; `beside` are the entitlements before it. */
  ghost predicate PruneMember(w: World, node: Node, beside: Option<Json>, m: Member, depth: nat, c: Context)
    requires depth <= MAX_RESULT_DEPTH
    decreases Below(depth), 1
  {
    var slot, raw := Lookup(node.props, m.key), StoredExceptions(w, node, m.key);
    if raw.Raw? then PruneStored(w, raw.text, m.value, depth + 1, Diagnosing(c, true))
    else if !c.diag && m.key == EID_DATA_TRUNCATION && Lookup(node.props, EID_DATA).Some? then
      beside.Some? && PruneSummary(w, node, beside.value, m.value, depth + 1, c)
    else
      && slot.Some? && (c.whole ==> slot.value.Data?)
      && if !c.diag && m.key == EID_DATA then PruneEids(w, Shown(slot.value), m.value, depth + 1, c)
         else PruneValue(w, Shown(slot.value), m.value, depth + 1, Diagnosing(c, IsErrorMetadata(m.key)))
  }

  /** The value of a property, or the placeholder for a getter. */
  function Shown(slot: Slot): Value {
    if slot.Accessor? then VString(ACCESSOR_OMITTED) else slot.value
  }

  /** Entitlements shrink to leading valid EIDs of some securities, and then like any value. */
  ghost predicate PruneEids(w: World, v: Value, j: Json, depth: nat, c: Context)
    decreases Below(depth), 5
  {
    exists data: seq<EidEntry> ::
      Retains(w, v, data) && (c.whole ==> RetainsAll(w, v, data)) && PruneValue(w, Embed(EidRecord(data)), j, depth, c)
  }

  /** Beside the entitlements `emitted` stands their summary, shrunk like any value. */
  ghost predicate PruneSummary(w: World, node: Node, emitted: Json, j: Json, depth: nat, c: Context)
    requires Lookup(node.props, EID_DATA).Some?
    decreases Below(depth), 6
  {
    exists s: State :: SummaryFrom(w, node, emitted, j, depth, c, s)
  }

  /** The counts are those of what was emitted of the entitlements prepared in state `s`. */
  ghost predicate SummaryFrom(w: World, node: Node, emitted: Json, j: Json, depth: nat, c: Context, s: State)
    requires Lookup(node.props, EID_DATA).Some?
    decreases Below(depth), 5
  {
    && Left(s) >= 0
    && var p := PrepareEidData(w, Shown(Lookup(node.props, EID_DATA).value), s);
       var summary := EmittedSummary(w, node, emitted, p);
       && PruneValue(w, Embed(EidRecord(p.data)), emitted, depth, c)
       && summary.Some? && PruneValue(w, Embed(SummaryJson(summary.value)), j, depth, c)
  }

  /** A stored document expands to prefixes of its exception lists. */
  ghost predicate PruneStored(w: World, raw: Str, j: Json, depth: nat, c: Context)
    decreases Below(depth), 6
  {
    && w.parse(raw).Some? && ReadDocument(w.parse(raw).value).Some?
    && var doc := ReadDocument(w.parse(raw).value).value;
       && j.JObject? && PruneSecurities(w, doc, j.props, depth, c) && SecuritiesOrder(doc.securities, j.props)
       && (c.whole ==> AllSecurities(doc, j.props))
  }

  predicate AllSecurities(doc: Document, props: seq<Member>) {
    forall k :: 0 <= k < |doc.securities| ==> HasKey(props, doc.securities[k].key)
  }

  ghost predicate PruneSecurities(w: World, doc: Document, props: seq<Member>, depth: nat, c: Context)
    requires ValidDocument(doc)
    decreases Below(depth), 5, 1
  {
    forall i :: 0 <= i < |props| ==> PruneSecurity(w, doc, props[i], depth, c)
  }

  ghost predicate PruneSecurity(w: World, doc: Document, m: Member, depth: nat, c: Context)
    requires ValidDocument(doc)
    decreases Below(depth), 5, 0
  {
    exists k :: 0 <= k < |doc.securities| && doc.securities[k].key == m.key
      && ValidList(doc.securities[k].value, doc.entries)
      && PruneExceptions(w, doc.securities[k].value.items, doc.entries, m.value, depth + 1, c)
  }

  ghost predicate PruneExceptions(w: World, occurrences: seq<Json>, entries: Option<seq<Json>>, j: Json, depth: nat,
                                  c: Context)
    decreases Below(depth), 4, 1
  {
    j.JArray? && ExceptionsPrefix(w, occurrences, entries, j.items, depth, c)
        && (c.whole ==> |j.items| == |occurrences|)
  }

  ghost predicate ExceptionsPrefix(w: World, occurrences: seq<Json>, entries: Option<seq<Json>>, items: seq<Json>,
                                   depth: nat, c: Context)
    decreases Below(depth), 4, 0
  {
    && |items| <= |occurrences|
    && forall i :: 0 <= i < |items| ==>
         && ExceptionAt(occurrences[i], entries).Some?
         && depth <= MAX_RESULT_DEPTH
         && PruneValue(w, Embed(ExceptionAt(occurrences[i], entries).value), items[i], depth + 1, c)
         && AtomicEntry(w, Embed(ExceptionAt(occurrences[i], entries).value), items[i], true)
  }

  // ----- every builder prunes -----

  ghost predicate Prunes(w: World, v: Value, depth: nat, c: Context, built: Built) {
    built.Built? ==> PruneValue(w, v, built.value, depth, c)
  }

  /** With `whole`, no reason has been recorded by the end. */
  predicate Unflagged(whole: bool, s: State) { whole ==> s.reasons == {} }

  lemma UnflaggedBefore(whole: bool, s: State, t: State)
    requires Extends(s, t) && Unflagged(whole, t)
    ensures Unflagged(whole, s)
  {
    if whole { NoReasons(s, t); }
  }

  lemma NotWhole(whole: bool, s: State, reason: Reason)
    requires reason in s.reasons && Unflagged(whole, s)
    ensures !whole
  {
  }

  lemma FittedPrunes(text: Str, budget: int, s: State, c: Context)
    requires Unflagged(c.whole, Fitted(text, budget, s).st)
    ensures Fitted(text, budget, s).built.Built? ==> Text(c, text, Fitted(text, budget, s).built.value)
  {
    hide FitString;
    var f := FitString(text, budget, s.limits.maxStringChars);
    FitStringSound(text, budget, s.limits.maxStringChars);
    if f.overChars { assert MaxStringChars in Fitted(text, budget, s).st.reasons; }
    if f.overBytes { assert MaxResultBytes in Fitted(text, budget, s).st.reasons; }
  }

  lemma UnsupportedPrunes(text: Str, budget: int, s: State, reason: Reason, c: Context)
    requires Unflagged(c.whole, Unsupported(text, budget, s, reason).st)
    ensures !c.whole
    ensures Unsupported(text, budget, s, reason).built.Built? ==>
              Instead(c, text, Unsupported(text, budget, s, reason).built.value)
  {
    hide Fitted, Text;
    UnsupportedSound(text, budget, s, reason);
    UnsupportedShows(text, budget, s, reason);
  }

  lemma UnsupportedShows(text: Str, budget: int, s: State, reason: Reason)
    ensures Unsupported(text, budget, s, reason).built.Built? ==>
              Shows(text, Unsupported(text, budget, s, reason).built.value)
  {
    hide Fitted;
    FittedPrunes(text, budget, AddReason(s, reason), Context(false, false, false, {}));
  }

  lemma {:induction false} BuildValuePrunes(w: World, v: Value, budget: int, s: State, depth: nat, rowLimit: nat,
                                            shared: bool, whole: bool)
    requires Left(s) >= 0 && Unflagged(whole, BuildValue(w, v, budget, s, depth, rowLimit, shared).st)
    ensures Prunes(w, v, depth, ContextOf(whole, s), BuildValue(w, v, budget, s, depth, rowLimit, shared).built)
    decreases Left(s), 0
  {
    hide Ascii, BuildNode, PruneNode, Fitted, Unsupported, Text, Instead, Unflagged;
    if s.visitedNodes < s.limits.maxResultNodes {
      var t, c := s.(visitedNodes := s.visitedNodes + 1), ContextOf(whole, s);
      if depth > MAX_RESULT_DEPTH {
        UnsupportedPrunes(Ascii("[Max result depth exceeded]"), budget, t, MaxResultDepth, c);
      } else {
        match v
        case VString(text) => FittedPrunes(text, budget, t, c);
        case VBigInt(text) => FittedPrunes(text, budget, t, c);
        case VRef(r) => BuildNodePrunes(w, {r}, w.heap(r), budget, t, depth, rowLimit, shared, whole);
        case VFresh(node) => BuildNodePrunes(w, {}, node, budget, t, depth, rowLimit, shared, whole);
        case VNull =>
        case VBool(_) =>
        case VNum(_) =>
        case _ => UnsupportedNull(budget, t, whole);
      }
    }
  }

  lemma UnsupportedNull(budget: int, s: State, whole: bool)
    requires Unflagged(whole, Primitive(JNull, budget, AddReason(s, UnsupportedValue)).st)
    ensures !whole
  {
    assert UnsupportedValue in Primitive(JNull, budget, AddReason(s, UnsupportedValue)).st.reasons;
  }

  lemma {:induction false} BuildNodePrunes(w: World, id: set<Ref>, node: Node, budget: int, s: State, depth: nat,
                                           rowLimit: nat, shared: bool, whole: bool)
    requires Left(s) >= 0 && depth <= MAX_RESULT_DEPTH
    requires Unflagged(whole, BuildNode(w, id, node, budget, s, depth, rowLimit, shared).st)
    ensures var b := BuildNode(w, id, node, budget, s, depth, rowLimit, shared).built;
            b.Built? ==> PruneNode(w, id, node, b.value, depth, ContextOf(whole, s))
    decreases Left(s), 9
  {
    hide Ascii, BuildArray, BuildObject, BuildError, BuildExotic, Fitted, Text, Instead, PruneObject, PruneTable,
         PruneRows,
         PruneValue, HasArrayMetadata, Unflagged;
    ContextAfterError(whole, s);
    var c := ContextOf(whole, s);
    match node.kind
    case KDate(None) => UnsupportedPrunes(Ascii("[Invalid Date]"), budget, s, UnsupportedValue, c);
    case KDate(Some(iso)) => FittedPrunes(iso, budget, s, c);
    case KBinary(n) => UnsupportedPrunes(Ascii("[binary data: ") + Decimal(n) + Ascii(" bytes]"), budget, s, BinaryData,
                                         c);
    case KArray(elems) => BuildArrayPrunes(w, id, elems, node, budget, s, depth, rowLimit, shared, whole);
    case KPlain => BuildObjectPrunes(w, id, node, budget, s, depth, rowLimit, whole);
    case KError(message, name, cause) =>
      BuildErrorPrunes(w, id, ErrorRecord(message, name, cause), budget, s.(hasErrors := true), depth, rowLimit, whole);
    case KExotic(toJson) => BuildExoticPrunes(w, id, toJson, budget, s, depth, rowLimit, shared, whole);
  }

  lemma {:induction false} BuildErrorPrunes(w: World, id: set<Ref>, record: Node, budget: int, s: State, depth: nat,
                                            rowLimit: nat, whole: bool)
    requires Left(s) >= 0 && depth <= MAX_RESULT_DEPTH
             && Unflagged(whole, BuildError(w, id, record, budget, s, depth, rowLimit).st)
    ensures var b := BuildError(w, id, record, budget, s, depth, rowLimit).built;
            b.Built? ==>
              if id * s.ancestors != {} then Instead(ContextOf(whole, s), CIRCULAR, b.value)
              else PruneObject(w, record, b.value, depth, Inside(ContextOf(whole, s), id))
    decreases Left(s), 8
  {
    hide Ascii, BuildObject, Unsupported, PruneObject, Instead;
    if id * s.ancestors != {} {
      UnsupportedPrunes(CIRCULAR, budget, s, CircularReference, ContextOf(whole, s));
    } else {
      BuildObjectPrunes(w, {}, record, budget, Enter(s, id), depth, rowLimit, whole);
    }
    assert Inside(ContextOf(whole, Enter(s, id)), {}) == Inside(ContextOf(whole, s), id);
  }

  lemma {:induction false} BuildExoticPrunes(w: World, id: set<Ref>, toJson: ToJson, budget: int, s: State, depth: nat,
                                             rowLimit: nat, shared: bool, whole: bool)
    requires Left(s) >= 0 && depth <= MAX_RESULT_DEPTH
    requires Unflagged(whole, BuildExotic(w, id, toJson, budget, s, depth, rowLimit, shared).st)
    ensures var b := BuildExotic(w, id, toJson, budget, s, depth, rowLimit, shared).built;
            b.Built? ==>
              match toJson
              case AccessorMethod => Instead(ContextOf(whole, s), ACCESSOR_OMITTED, b.value)
              case NoMethod => Instead(ContextOf(whole, s), Ascii("[Unsupported object]"), b.value)
              case _ =>
                if id * s.ancestors != {} then Instead(ContextOf(whole, s), CIRCULAR, b.value)
                else (whole ==> toJson.Returns?)
                     && PruneValue(w, Converted(toJson), b.value, depth + 1, Inside(ContextOf(whole, s), id))
    decreases Left(s), 7
  {
    hide Ascii, BuildValue, Unsupported, PruneValue, Instead, Extends, Exact;
    var c := ContextOf(whole, s);
    if toJson.AccessorMethod? {
      UnsupportedPrunes(ACCESSOR_OMITTED, budget, s, AccessorOmitted, c);
    } else if toJson.NoMethod? {
      UnsupportedPrunes(Ascii("[Unsupported object]"), budget, s, UnsupportedValue, c);
    } else if id * s.ancestors != {} {
      UnsupportedPrunes(CIRCULAR, budget, s, CircularReference, c);
    } else {
      var s1 := if toJson.Throws? then AddReason(s, UnsupportedValue).(hasErrors := true) else s;
      var o := BuildValue(w, Converted(toJson), budget, Enter(s1, id), depth + 1, rowLimit, shared);
      BuildValuePrunes(w, Converted(toJson), budget, Enter(s1, id), depth + 1, rowLimit, shared, whole);
      BuildValueSound(w, Converted(toJson), budget, Enter(s1, id), depth + 1, rowLimit, shared);
      KeepsContext(Enter(s1, id), o.st);
      if toJson.Throws? { NotWhole(whole, o.st, UnsupportedValue); }
    }
  }

  /** Members added after `acc` all come from the object. */
  ghost predicate Grown(w: World, node: Node, depth: nat, c: Context, acc: Acc, acc': Acc)
    requires depth <= MAX_RESULT_DEPTH
  {
    && acc.props <= acc'.props
    && forall i :: |acc.props| <= i < |acc'.props| ==>
         PruneMember(w, node, Beside(acc'.props, i), acc'.props[i], depth, c)
  }

  lemma GrownTrans(w: World, node: Node, depth: nat, c: Context, x: Acc, y: Acc, z: Acc)
    requires depth <= MAX_RESULT_DEPTH && Grown(w, node, depth, c, x, y) && Grown(w, node, depth, c, y, z)
    ensures Grown(w, node, depth, c, x, z)
  {
    hide PruneMember, Ascii;
    forall i | |x.props| <= i < |y.props| ensures PruneMember(w, node, Beside(z.props, i), z.props[i], depth, c) {
      assert Beside(z.props, i) == Beside(y.props, i);
    }
  }

  /** The entitlements that end the members so far. */
  function LastEids(props: seq<Member>): Option<Json> {
    if props != [] && props[|props| - 1].key == EID_DATA then Some(props[|props| - 1].value) else None
  }

  lemma AppendGrows(w: World, node: Node, depth: nat, c: Context, acc: Acc, key: Str, built: Built, budget: int,
                    s: State)
    requires depth <= MAX_RESULT_DEPTH && built.Built?
    requires PruneMember(w, node, LastEids(acc.props), Member(key, built.value), depth, c)
    ensures Grown(w, node, depth, c, acc, Append(acc, key, built, budget, s).acc)
  {
    hide PruneMember, StringSize, Ascii;
    var all := acc.props + [Member(key, built.value)];
    assert Beside(all, |acc.props|) == LastEids(acc.props);
  }

  lemma {:induction false} BuildObjectPrunes(w: World, id: set<Ref>, node: Node, budget: int, s: State, depth: nat,
                                             rowLimit: nat, whole: bool)
    requires Left(s) >= 0 && depth <= MAX_RESULT_DEPTH
             && Unflagged(whole, BuildObject(w, id, node, budget, s, depth, rowLimit).st)
    ensures var b := BuildObject(w, id, node, budget, s, depth, rowLimit).built;
            b.Built? ==>
              if id * s.ancestors != {} then Instead(ContextOf(whole, s), CIRCULAR, b.value)
              else PruneObject(w, node, b.value, depth, Inside(ContextOf(whole, s), id))
    decreases Left(s), 7
  {
    hide Ascii, BuildKeys, Unsupported, OtherKeys, PruneMember, Instead, Extends, ObjectOrder, AllDue, Unflagged, AccOk,
         EidsAhead;
    if id * s.ancestors != {} {
      UnsupportedPrunes(CIRCULAR, budget, s, CircularReference, ContextOf(whole, s));
    } else if budget >= 2 {
      EmptyAcc(budget);
      var t := Enter(s, id).(retainedNodes := s.retainedNodes + 1);
      var p := BuildKeys(w, node, PRIORITY_KEYS, false, EMPTY_ACC, budget, t, depth, rowLimit);
      var q := BuildKeys(w, node, OtherKeys(node), true, p.acc, budget, p.st, depth, rowLimit);
      BuildKeysSound(w, node, PRIORITY_KEYS, false, EMPTY_ACC, budget, t, depth, rowLimit);
      BuildKeysSound(w, node, OtherKeys(node), true, p.acc, budget, p.st, depth, rowLimit);
      KeepsContext(t, p.st);
      LeftUnflagged(whole, q.st, id);
      UnflaggedBefore(whole, p.st, q.st);
      ObjectEids(node, p.acc);
      BuildKeysPrunes(w, node, PRIORITY_KEYS, false, EMPTY_ACC, budget, t, depth, rowLimit, whole);
      BuildKeysPrunes(w, node, OtherKeys(node), true, p.acc, budget, p.st, depth, rowLimit, whole);
      GrownTrans(w, node, depth, ContextOf(whole, t), EMPTY_ACC, p.acc, q.acc);
      ObjectKeysOrdered(w, node, budget, t, depth, rowLimit);
      if whole { ObjectAllDue(w, node, budget, t, depth, rowLimit); }
    }
  }

  /** The entitlements come at most once, and have not been emitted yet. */
  ghost predicate EidsAhead(keys: seq<Str>, acc: Acc) {
    DistinctKeys(keys) && (EID_DATA in keys ==> !HasKey(acc.props, EID_DATA))
  }

  lemma EidsStill(keys: seq<Str>, acc: Acc, p: Acc)
    requires keys != [] && EidsAhead(keys, acc) && AddsOne(keys[0], acc, p)
    ensures EidsAhead(keys[1..], p)
  {
    hide Ascii;
    if EID_DATA in keys[1..] {
      var added :| p.props == acc.props + added && (KeysOf(added) <= [keys[0]] || EidKeys(keys[0], KeysOf(added)));
      assert keys[0] != EID_DATA && |added| == |KeysOf(added)|;
      forall i | 0 <= i < |p.props| ensures p.props[i].key != EID_DATA {
        if i >= |acc.props| { assert KeysOf(added)[i - |acc.props|] == keys[0]; }
      }
    }
  }

  lemma ObjectEids(node: Node, acc: Acc)
    ensures EidsAhead(PRIORITY_KEYS, EMPTY_ACC) && EidsAhead(OtherKeys(node), acc)
  {
    hide Ascii, OtherKeys, PRIORITY_KEYS;
    PriorityDistinct();
    OtherKeysOrdinary(node);
    forall i | 0 <= i < |OtherKeys(node)| ensures OtherKeys(node)[i] != EID_DATA {
      assert OtherKeys(node)[i] in OtherKeys(node);
      NotSpecial(OtherKeys(node)[i]);
    }
  }

  lemma EmptyAcc(budget: int)
    requires budget >= 2
    ensures AccOk(EMPTY_ACC, budget)
  {
  }

  lemma LeftUnflagged(whole: bool, s: State, id: set<Ref>)
    requires Unflagged(whole, Leave(s, id))
    ensures Unflagged(whole, s)
  {
  }

  lemma {:induction false} BuildKeysPrunes(w: World, node: Node, keys: seq<Str>, stop: bool, acc: Acc, budget: int,
                                           s: State, depth: nat, rowLimit: nat, whole: bool)
    requires Left(s) >= 0 && depth <= MAX_RESULT_DEPTH && AccOk(acc, budget) && EidsAhead(keys, acc)
    requires Unflagged(whole, BuildKeys(w, node, keys, stop, acc, budget, s, depth, rowLimit).st)
    ensures Grown(w, node, depth, ContextOf(whole, s), acc,
                  BuildKeys(w, node, keys, stop, acc, budget, s, depth, rowLimit).acc)
    decreases Left(s), 6, |keys|
  {
    hide BuildProperty, PruneMember, Extends, AccOk, Grown, Unflagged, EidsAhead, AddsOne;
    GrownSelf(w, node, depth, ContextOf(whole, s), acc);
    if keys != [] {
      EidsFirst(keys, acc);
      PropertyAdds(w, node, keys[0], acc, budget, s, depth, rowLimit);
      EidsStill(keys, acc, BuildProperty(w, node, keys[0], acc, budget, s, depth, rowLimit).acc);
      var p := BuildProperty(w, node, keys[0], acc, budget, s, depth, rowLimit);
      BuildPropertySound(w, node, keys[0], acc, budget, s, depth, rowLimit);
      KeepsContext(s, p.st);
      var t := if p.ok then p.st else p.st.(omittedProperties := p.st.omittedProperties + 1);
      if p.ok || !stop {
        var o := BuildKeys(w, node, keys[1..], stop, p.acc, budget, t, depth, rowLimit);
        BuildKeysSound(w, node, keys[1..], stop, p.acc, budget, t, depth, rowLimit);
        UnflaggedBefore(whole, t, o.st);
        CountedUnflagged(whole, p.st);
        BuildPropertyPrunes(w, node, keys[0], acc, budget, s, depth, rowLimit, whole);
        BuildKeysPrunes(w, node, keys[1..], stop, p.acc, budget, t, depth, rowLimit, whole);
        GrownTrans(w, node, depth, ContextOf(whole, s), acc, p.acc, o.acc);
      } else {
        CountedUnflagged(whole, p.st);
        BuildPropertyPrunes(w, node, keys[0], acc, budget, s, depth, rowLimit, whole);
      }
    }
  }

  lemma EidsFirst(keys: seq<Str>, acc: Acc)
    requires keys != [] && EidsAhead(keys, acc)
    ensures keys[0] == EID_DATA ==> !HasKey(acc.props, EID_DATA)
  {
  }

  lemma CountedUnflagged(whole: bool, s: State)
    ensures Unflagged(whole, s.(omittedProperties := s.omittedProperties + 1)) == Unflagged(whole, s)
  {
  }

  lemma GrownSelf(w: World, node: Node, depth: nat, c: Context, acc: Acc)
    requires depth <= MAX_RESULT_DEPTH
    ensures Grown(w, node, depth, c, acc, acc)
  {
  }

  lemma ContextAfterError(whole: bool, s: State)
    ensures ContextOf(whole, s.(hasErrors := true)) == ContextOf(whole, s)
  {
  }

  lemma {:induction false} BuildPropertyPrunes(w: World, source: Node, key: Str, acc: Acc, budget: int, s: State,
                                               depth: nat, rowLimit: nat, whole: bool)
    requires Left(s) >= 0 && depth <= MAX_RESULT_DEPTH && AccOk(acc, budget)
    requires key == EID_DATA ==> !HasKey(acc.props, EID_DATA)
    requires Unflagged(whole, BuildProperty(w, source, key, acc, budget, s, depth, rowLimit).st)
    ensures Grown(w, source, depth, ContextOf(whole, s), acc,
                  BuildProperty(w, source, key, acc, budget, s, depth, rowLimit).acc)
    decreases Left(s), 5
  {
    hide Ascii, BuildStored, BuildOwn, StoredExceptions, StringSize, PropsSize, PruneMember, Grown,
         Unflagged, HasKey;
    GrownSelf(w, source, depth, ContextOf(whole, s), acc);
    var slot := Lookup(source.props, key);
    var raw := StoredExceptions(w, source, key);
    var available := budget - acc.byteLength - CommaSize(acc.props) - 1;
    if available >= 4 && StringSize(key) <= available - 2 {
      RawKey(w, source, key);
      if raw.Raw? {
        BuildStoredPrunes(w, source, key, acc, budget, available - StringSize(key), s, depth, whole);
      } else if raw.Absent? && slot.Some? && !(slot.value.Data? && slot.value.value.VUndefined?
          && key in OPTIONAL_METADATA_KEYS)
                && !(!s.inDiagnostics && key == EID_DATA_TRUNCATION && Lookup(source.props, EID_DATA).Some?) {
        BuildOwnPrunes(w, source, key, acc, budget, available - StringSize(key), s, depth, rowLimit, whole);
      }
    }
  }

  lemma {:induction false} BuildOwnPrunes(w: World, source: Node, key: Str, acc: Acc, budget: int, childBudget: int,
                                          s: State, depth: nat, rowLimit: nat, whole: bool)
    requires Left(s) >= 0 && childBudget >= 2 && depth <= MAX_RESULT_DEPTH && AccOk(acc, budget)
    requires Lookup(source.props, key).Some? && StoredExceptions(w, source, key).Absent?
    requires key == EID_DATA ==> !HasKey(acc.props, EID_DATA)
    requires !(!s.inDiagnostics && key == EID_DATA_TRUNCATION && Lookup(source.props, EID_DATA).Some?)
    requires Unflagged(whole, BuildOwn(w, source, key, Lookup(source.props, key).value, acc, budget, childBudget, s,
                                       depth, rowLimit).st)
    ensures Grown(w, source, depth, ContextOf(whole, s), acc,
                  BuildOwn(w, source, key, Lookup(source.props, key).value, acc, budget, childBudget, s, depth,
                           rowLimit).acc)
    decreases Left(s), 4
  {
    hide Ascii, BuildChild, BuildEntitlement, Inspect, AddOwn, Extends, Grown, PruneValue, PruneEids, StoredExceptions,
         IsErrorMetadata, AccOk, PruneStored, Unflagged, PruneSummary, HasKey, LastEids;
    GrownSelf(w, source, depth, ContextOf(whole, s), acc);
    var slot := Lookup(source.props, key).value;
    var i := Inspect(w, key, slot, s);
    InspectValue(w, key, slot, s);
    InspectExtends(w, key, slot, s);
    KeepsContext(s, i.st);
    var out := BuildOwn(w, source, key, slot, acc, budget, childBudget, s, depth, rowLimit);
    if !s.inDiagnostics && key == EID_DATA {
      BuildEntitlementSound(w, source, i.value, acc, budget, childBudget, i.st, depth);
      OwnData(whole, w, key, slot, s, out.st);
      BuildEntitlementPrunes(w, source, i.value, acc, budget, childBudget, i.st, depth, whole);
    } else {
      var o := BuildChild(w, key, i.value, childBudget, i.st, depth, rowLimit);
      BuildChildSound(w, key, i.value, childBudget, i.st, depth, rowLimit);
      if o.built.Built? {
        AddOwnSound(acc, key, i.value, i.errorKey, o.built, budget, o.st);
        UnflaggedBefore(whole, o.st, out.st);
        UnflaggedBefore(whole, i.st, o.st);
        ExtendsSelf(i.st);
        OwnData(whole, w, key, slot, s, i.st);
        BuildChildPrunes(w, key, i.value, childBudget, i.st, depth, rowLimit, whole);
        assert PruneMember(w, source, LastEids(acc.props), Member(key, o.built.value), depth, ContextOf(whole, s));
        AddOwnGrows(w, source, depth, ContextOf(whole, s), acc, key, i.value, i.errorKey, o.built, budget, o.st);
      }
    }
  }

  /** A getter leaves its reason. */
  lemma OwnData(whole: bool, w: World, key: Str, slot: Slot, s: State, t: State)
    requires Left(s) >= 0 && Extends(Inspect(w, key, slot, s).st, t) && Unflagged(whole, t)
    ensures whole ==> slot.Data?
  {
    hide ReportsError, Ascii, Inspect;
    var i := Inspect(w, key, slot, s);
    KeepsContext(i.st, t);
    if slot.Accessor? {
      GetterReason(w, key, s);
      NotWhole(whole, t, AccessorOmitted);
    }
  }

  lemma GetterReason(w: World, key: Str, s: State)
    requires Left(s) >= 0
    ensures AccessorOmitted in Inspect(w, key, Accessor, s).st.reasons
  {
    hide ReportsError, Ascii, Extends;
    var s1 := AddReason(s, AccessorOmitted);
    ReportsErrorExtends(w, key, VString(ACCESSOR_OMITTED), s1);
    KeepsContext(s1, ReportsError(w, key, VString(ACCESSOR_OMITTED), s1).0);
    assert AccessorOmitted in s1.reasons;
  }

  lemma InspectValue(w: World, key: Str, slot: Slot, s: State)
    requires Left(s) >= 0
    ensures Inspect(w, key, slot, s).value == Shown(slot)
  {
    hide ReportsError, Ascii;
  }

  lemma AddOwnGrows(w: World, node: Node, depth: nat, c: Context, acc: Acc, key: Str, v: Value, errorKey: bool,
                    built: Built, budget: int, s: State)
    requires depth <= MAX_RESULT_DEPTH && built.Built?
    requires PruneMember(w, node, LastEids(acc.props), Member(key, built.value), depth, c)
    ensures Grown(w, node, depth, c, acc, AddOwn(acc, key, v, errorKey, built, budget, s).acc)
  {
    hide Ascii, Append, PruneMember, Grown;
    AppendGrows(w, node, depth, c, acc, key, built, budget, s);
  }

  lemma {:induction false} BuildChildPrunes(w: World, key: Str, v: Value, childBudget: int, s: State, depth: nat,
                                            rowLimit: nat, whole: bool)
    requires Left(s) >= 0 && Unflagged(whole, BuildChild(w, key, v, childBudget, s, depth, rowLimit).st)
    ensures Prunes(w, v, depth + 1, Diagnosing(ContextOf(whole, s), IsErrorMetadata(key)),
                   BuildChild(w, key, v, childBudget, s, depth, rowLimit).built)
    decreases Left(s), 1
  {
    hide Ascii, BuildValue, PruneValue, IsErrorMetadata, SharedKey;
    var inDiagnostics := s.inDiagnostics || IsErrorMetadata(key);
    BuildValuePrunes(w, v, childBudget, s.(inDiagnostics := inDiagnostics), depth + 1, rowLimit, SharedKey(w, key, v),
                     whole);
  }

  lemma {:induction false} BuildEntitlementPrunes(w: World, source: Node, v: Value, acc: Acc, budget: int,
                                                  childBudget: int, s: State, depth: nat, whole: bool)
    requires Left(s) >= 0 && depth <= MAX_RESULT_DEPTH && !s.inDiagnostics
    requires Lookup(source.props, EID_DATA).Some? && StoredExceptions(w, source, EID_DATA).Absent?
    requires v == Shown(Lookup(source.props, EID_DATA).value) && (whole ==> Lookup(source.props, EID_DATA).value.Data?)
    requires AccOk(acc, budget) && !HasKey(acc.props, EID_DATA)
             && Unflagged(whole, BuildEntitlement(w, source, v, acc, budget, childBudget, s, depth).st)
    ensures Grown(w, source, depth, ContextOf(whole, s), acc,
                  BuildEntitlement(w, source, v, acc, budget, childBudget, s, depth).acc)
    decreases Left(s), 3
  {
    hide Ascii, BuildValue, Append, PrepareEidData, EmittedSummary, EidRecord, SummaryJson, Embed, StringSize, Extends,
         Grown,
         PruneValue, StoredExceptions, PruneStored, Retains, RetainsAll, Unflagged, AccOk, Exact, PruneSummary, HasKey,
         LastEids;
    var c := ContextOf(whole, s);
    GrownSelf(w, source, depth, c, acc);
    var prepared := PrepareEidData(w, v, s);
    PrepareExtends(w, v, s);
    KeepsContext(s, prepared.st);
    var data := Embed(EidRecord(prepared.data));
    var o := BuildValue(w, data, Max(2, childBudget / 3), prepared.st, depth + 1, MAX_ENTITLEMENT_EIDS, false);
    BuildValueSound(w, data, Max(2, childBudget / 3), prepared.st, depth + 1, MAX_ENTITLEMENT_EIDS, false);
    KeepsContext(prepared.st, o.st);
    if o.built.Built? {
      var p := Append(acc, EID_DATA, o.built, budget, o.st);
      var out := BuildEntitlement(w, source, v, acc, budget, childBudget, s, depth);
      ExactSize(o.built, Max(2, childBudget / 3));
      AppendSound(acc, EID_DATA, o.built, budget, o.st);
      AppendContext(whole, acc, EID_DATA, o.built, budget, o.st);
      AfterAppend(w, source, acc, budget, childBudget, s, depth, whole, prepared, o);
      UnflaggedBefore(whole, o.st, p.st);
      UnflaggedBefore(whole, prepared.st, o.st);
      BuildValuePrunes(w, data, Max(2, childBudget / 3), prepared.st, depth + 1, MAX_ENTITLEMENT_EIDS, false, whole);
      PreparedRetains(w, v, s);
      if whole { AllPrepared(w, v, s); }
      assert PruneEids(w, v, o.built.value, depth + 1, c);
      EidKeysDiffer();
      assert PruneMember(w, source, LastEids(acc.props), Member(EID_DATA, o.built.value), depth, c);
      AppendGrows(w, source, depth, c, acc, EID_DATA, o.built, budget, o.st);
      var summary := EmittedSummary(w, source, o.built.value, prepared);
      if p.ok && summary.Some? {
        var summaryBudget := budget - p.acc.byteLength - CommaSize(p.acc.props) - StringSize(EID_DATA_TRUNCATION) - 1;
        var u := BuildValue(w, Embed(SummaryJson(summary.value)), summaryBudget, p.st, depth + 1, MAX_EID_SECURITIES,
                            false);
        GrownSelf(w, source, depth, c, p.acc);
        if u.built.Built? {
          BuildValuePrunes(w, Embed(SummaryJson(summary.value)), summaryBudget, p.st, depth + 1, MAX_EID_SECURITIES,
                           false, whole);
          EidsAppended(acc, o.built, budget, o.st);
          SummaryMember(w, source, o.built.value, s, u.built.value, depth, c);
          AppendGrows(w, source, depth, c, p.acc, EID_DATA_TRUNCATION, u.built, budget, u.st);
          GrownTrans(w, source, depth, c, acc, p.acc, Append(p.acc, EID_DATA_TRUNCATION, u.built, budget, u.st).acc);
        }
      }
    }
  }

  lemma AllPrepared(w: World, v: Value, s: State)
    requires Left(s) >= 0 && Unflagged(true, PrepareEidData(w, v, s).st)
    ensures RetainsAll(w, v, PrepareEidData(w, v, s).data)
  {
    hide PrepareEidData, RetainsAll;
    PreparedUnflagged(w, v, s);
  }

  lemma ExactSize(built: Built, budget: int)
    requires built.Built? && Exact(built, budget)
    ensures built.byteLength == Size(built.value)
  {
  }

  /** No reason at the end means none after the record, nor after the summary was built. */
  lemma AfterAppend(w: World, source: Node, acc: Acc, budget: int, childBudget: int, s: State, depth: nat, whole: bool,
                    prepared: Prepared, o: Out)
    requires Left(prepared.st) >= 0 && o.built.Built? && Left(o.st) >= 0
    requires Unflagged(whole, AfterRecord(w, source, acc, budget, depth, prepared, o).st)
    ensures var p := Append(acc, EID_DATA, o.built, budget, o.st);
            var summary := EmittedSummary(w, source, o.built.value, prepared);
            && Unflagged(whole, p.st)
            && (p.ok && summary.Some? ==>
                  var summaryBudget :=
                    budget - p.acc.byteLength - CommaSize(p.acc.props) - StringSize(EID_DATA_TRUNCATION) - 1;
                  Unflagged(whole, BuildValue(w, Embed(SummaryJson(summary.value)), summaryBudget, p.st, depth + 1,
                                              MAX_EID_SECURITIES,
                                              false).st))
  {
    hide Ascii, BuildValue, Append, EmittedSummary, SummaryJson, Embed, StringSize, Extends, Exact;
    var p := Append(acc, EID_DATA, o.built, budget, o.st);
    var summary := EmittedSummary(w, source, o.built.value, prepared);
    if p.ok && summary.Some? {
      var v := Embed(SummaryJson(summary.value));
      var summaryBudget := budget - p.acc.byteLength - CommaSize(p.acc.props) - StringSize(EID_DATA_TRUNCATION) - 1;
      var u := BuildValue(w, v, summaryBudget, p.st, depth + 1, MAX_EID_SECURITIES, false);
      BuildValueSound(w, v, summaryBudget, p.st, depth + 1, MAX_EID_SECURITIES, false);
      KeepsContext(p.st, u.st);
      if u.built.Built? { AppendReasons(p.acc, EID_DATA_TRUNCATION, u.built, budget, u.st); }
    }
  }

  lemma AppendReasons(acc: Acc, key: Str, built: Built, budget: int, s: State)
    requires built.Built?
    ensures s.reasons <= Append(acc, key, built, budget, s).st.reasons
  {
    hide Ascii, StringSize;
  }

  /** What `BuildEntitlement` makes of a built record. */
  function AfterRecord(w: World, source: Node, acc: Acc, budget: int, depth: nat, prepared: Prepared, o: Out): PropOut
    requires o.built.Built? && Left(o.st) >= 0
  {
    hide Append, EmittedSummary, SummaryJson, Embed, StringSize;
    var p := Append(acc, EID_DATA, o.built, budget, o.st);
    var summary := EmittedSummary(w, source, o.built.value, prepared);
    if !p.ok || summary.None? then p
    else
      var summaryBudget := budget - p.acc.byteLength - CommaSize(p.acc.props) - StringSize(EID_DATA_TRUNCATION) - 1;
      var u := BuildValue(w, Embed(SummaryJson(summary.value)), summaryBudget, p.st, depth + 1, MAX_EID_SECURITIES,
                          false);
      var q := if u.built.Omit? then PropOut(u.st, p.acc, false)
               else Append(p.acc, EID_DATA_TRUNCATION, u.built, budget, u.st);
      PropOut(if q.ok then q.st else q.st.(omittedProperties := q.st.omittedProperties + 1), q.acc, true)
  }

  lemma AppendContext(whole: bool, acc: Acc, key: Str, built: Built, budget: int, s: State)
    requires built.Built?
    ensures ContextOf(whole, Append(acc, key, built, budget, s).st) == ContextOf(whole, s)
  {
    hide Ascii, StringSize;
  }

  lemma EidsAppended(acc: Acc, built: Built, budget: int, s: State)
    requires built.Built? && !HasKey(acc.props, EID_DATA) && Append(acc, EID_DATA, built, budget, s).ok
    ensures LastEids(Append(acc, EID_DATA, built, budget, s).acc.props) == Some(built.value)
  {
    hide Ascii, StringSize;
  }

  lemma SummaryMember(w: World, source: Node, emitted: Json, s: State, j: Json, depth: nat, c: Context)
    requires depth <= MAX_RESULT_DEPTH && !c.diag && Lookup(source.props, EID_DATA).Some? && Left(s) >= 0
    requires var p := PrepareEidData(w, Shown(Lookup(source.props, EID_DATA).value), s);
             var summary := EmittedSummary(w, source, emitted, p);
             && PruneValue(w, Embed(EidRecord(p.data)), emitted, depth + 1, c)
             && summary.Some? && PruneValue(w, Embed(SummaryJson(summary.value)), j, depth + 1, c)
    ensures PruneMember(w, source, Some(emitted), Member(EID_DATA_TRUNCATION, j), depth, c)
  {
    hide Ascii, PruneStored, PruneEids, PruneValue, RawFieldExceptions, EmittedSummary, SummaryJson, Embed,
         PrepareEidData,
         EidRecord;
    EidKeysDiffer();
    assert SummaryFrom(w, source, emitted, j, depth + 1, c, s);
    assert PruneSummary(w, source, emitted, j, depth + 1, c);
  }

  lemma {:induction false} BuildStoredPrunes(w: World, source: Node, key: Str, acc: Acc, budget: int, childBudget: int,
                                             s: State, depth: nat, whole: bool)
    requires Left(s) >= 0 && depth <= MAX_RESULT_DEPTH && StoredExceptions(w, source, key).Raw?
    requires Unflagged(whole, BuildStored(w, StoredExceptions(w, source, key).text, key, acc, budget, childBudget, s,
                                          depth).st)
    ensures Grown(w, source, depth, ContextOf(whole, s), acc,
                  BuildStored(w, StoredExceptions(w, source, key).text, key, acc, budget, childBudget, s, depth).acc)
    decreases Left(s), 4
  {
    hide Ascii, BuildRaw, Append, Grown, StoredExceptions, PruneStored, PruneValue, PruneEids, PruneSummary, LastEids;
    GrownSelf(w, source, depth, ContextOf(whole, s), acc);
    var raw := StoredExceptions(w, source, key).text;
    var r := BuildRaw(w, raw, childBudget, s.(inDiagnostics := true), depth + 1);
    if r.RawBuilt? {
      AppendReasons(acc, key, Built(r.byteLength, r.value), budget, r.st.(inDiagnostics := s.inDiagnostics));
      BuildRawPrunes(w, raw, childBudget, s.(inDiagnostics := true), depth + 1, whole);
      assert PruneMember(w, source, LastEids(acc.props), Member(key, r.value), depth, ContextOf(whole, s));
      AppendGrows(w, source, depth, ContextOf(whole, s), acc, key, Built(r.byteLength, r.value), budget,
                  r.st.(inDiagnostics := s.inDiagnostics));
    }
  }

  lemma {:induction false} BuildRawPrunes(w: World, raw: Str, budget: int, s: State, depth: nat, whole: bool)
    requires Left(s) >= 0 && s.inDiagnostics && Unflagged(whole, BuildRaw(w, raw, budget, s, depth).st)
    ensures var r := BuildRaw(w, raw, budget, s, depth); r.RawBuilt? ==>
              PruneStored(w, raw, r.value, depth, ContextOf(whole, s))
    decreases Left(s), 3
  {
    hide BuildSecurities, StringSize, ReadDocument, HasOccurrences, PruneSecurities, AllSecurities, Unflagged,
         SecuritiesOrder;
    if s.visitedNodes < s.limits.maxResultNodes && depth <= MAX_RESULT_DEPTH && budget >= 2 {
      var t := s.(visitedNodes := s.visitedNodes + 1);
      if StringSize(raw) <= s.limits.maxResultBytes && |raw| <= Left(t) {
        var parsed := w.parse(raw);
        if parsed.Some? && ReadDocument(parsed.value).Some? {
          var doc := ReadDocument(parsed.value).value;
          var u := t.(visitedNodes := t.visitedNodes + |raw|, hasErrors := s.hasErrors
                      || HasOccurrences(doc.securities),
                      retainedNodes := s.retainedNodes + 1);
          assert doc.securities[0..] == doc.securities;
          NoSecurities(w, doc, depth, ContextOf(whole, s));
          BuildSecuritiesPrunes(w, doc, 0, EMPTY_ACC, budget, u, depth, whole);
          SecuritiesOrdered(w, doc.securities, doc.entries, budget, u, depth);
          SecuritiesFrom0(doc, BuildSecurities(w, doc.securities, doc.entries, EMPTY_ACC, budget, u, depth).acc.props);
        }
      }
    }
  }

  /** From the security at `k` on, all are there. */
  predicate SecuritiesFrom(doc: Document, k: nat, props: seq<Member>) {
    forall i :: k <= i < |doc.securities| ==> HasKey(props, doc.securities[i].key)
  }

  lemma SecuritiesFrom0(doc: Document, props: seq<Member>)
    ensures SecuritiesFrom(doc, 0, props) == AllSecurities(doc, props)
  {
  }

  lemma NoSecurities(w: World, doc: Document, depth: nat, c: Context)
    requires ValidDocument(doc)
    ensures PruneSecurities(w, doc, [], depth, c)
  {
  }

  lemma MoreSecurities(w: World, doc: Document, props: seq<Member>, k: nat, j: Json, depth: nat, c: Context)
    requires ValidDocument(doc) && PruneSecurities(w, doc, props, depth, c) && k < |doc.securities|
    requires ValidList(doc.securities[k].value, doc.entries)
    requires PruneExceptions(w, doc.securities[k].value.items, doc.entries, j, depth + 1, c)
    ensures PruneSecurities(w, doc, props + [Member(doc.securities[k].key, j)], depth, c)
  {
    hide PruneExceptions, ExceptionAt;
    assert PruneSecurity(w, doc, Member(doc.securities[k].key, j), depth, c);
  }

  lemma {:induction false} BuildSecuritiesPrunes(w: World, doc: Document, k: nat, acc: Acc, budget: int, s: State,
                                                 depth: nat, whole: bool)
    requires Left(s) >= 0 && s.inDiagnostics && AccOk(acc, budget) && ValidDocument(doc) && k <= |doc.securities|
    requires PruneSecurities(w, doc, acc.props, depth, ContextOf(whole, s))
    requires Unflagged(whole, BuildSecurities(w, doc.securities[k..], doc.entries, acc, budget, s, depth).st)
    ensures var o := BuildSecurities(w, doc.securities[k..], doc.entries, acc, budget, s, depth);
            && acc.props <= o.acc.props && PruneSecurities(w, doc, o.acc.props, depth, ContextOf(whole, s))
            && (whole ==> SecuritiesFrom(doc, k, o.acc.props))
    decreases Left(s), 2, |doc.securities| - k
  {
    hide BuildExceptionArray, Append, StringSize, PropsSize, Extends, PruneExceptions, PruneSecurities, ExceptionAt,
         Unflagged,
         SecuritiesFrom, AccOk;
    if k == |doc.securities| {
      NoneFrom(doc, k, acc.props);
    } else {
      var securities := doc.securities[k..];
      assert securities[1..] == doc.securities[k + 1..] && securities[0] == doc.securities[k];
      var key, comma := securities[0].key, CommaSize(acc.props);
      if 2 <= budget - acc.byteLength - comma - 3 && StringSize(key) <= budget - acc.byteLength - comma - 3 {
        assert ValidList(securities[0].value, doc.entries);
        var childBudget := budget - acc.byteLength - comma - StringSize(key) - 1;
        var o := BuildExceptionArray(w, securities[0].value.items, doc.entries, childBudget, s, depth + 1);
        BuildExceptionArraySound(w, securities[0].value.items, doc.entries, childBudget, s, depth + 1);
        if o.built.Built? {
          KeepsContext(s, o.st);
          var p := Append(acc, key, o.built, budget, o.st);
          AppendSound(acc, key, o.built, budget, o.st);
          KeepsContext(o.st, p.st);
          AppendAfterBuildSucceeds(acc, key, o.built, budget, o.st);
          AppendShows(acc, key, o.built, budget, o.st);
          AppendMember(acc, key, o.built, budget, o.st);
          BuildSecuritiesSound(w, securities[1..], doc.entries, p.acc, budget, p.st, depth);
          UnflaggedBefore(whole, p.st, BuildSecurities(w, securities[1..], doc.entries, p.acc, budget, p.st, depth).st);
          BuildExceptionArrayPrunes(w, securities[0].value.items, doc.entries, childBudget, s, depth + 1, whole);
          MoreSecurities(w, doc, acc.props, k, o.built.value, depth, ContextOf(whole, s));
          BuildSecuritiesPrunes(w, doc, k + 1, p.acc, budget, p.st, depth, whole);
          var out := BuildSecurities(w, securities[1..], doc.entries, p.acc, budget, p.st, depth);
          PrefixHasKey(p.acc.props, out.acc.props, key);
          if whole { OneMoreFrom(doc, k, out.acc.props); }
        } else {
          BlockedList(whole, o.st, depth + 1);
        }
      } else {
        NotWhole1(whole, s);
      }
    }
  }

  lemma NoneFrom(doc: Document, k: nat, props: seq<Member>)
    requires k == |doc.securities|
    ensures SecuritiesFrom(doc, k, props)
  {
  }

  lemma OneMoreFrom(doc: Document, k: nat, props: seq<Member>)
    requires k < |doc.securities| && SecuritiesFrom(doc, k + 1, props) && HasKey(props, doc.securities[k].key)
    ensures SecuritiesFrom(doc, k, props)
  {
  }

  lemma BlockedList(whole: bool, s: State, depth: nat)
    requires BlockedAt(s, depth) && Unflagged(whole, s.(omittedProperties := s.omittedProperties + 1))
    ensures !whole
  {
  }

  lemma NotWhole1(whole: bool, s: State)
    requires Unflagged(whole, AddReason(s, MaxResultBytes).(omittedProperties := s.omittedProperties + 1))
    ensures !whole
  {
    assert MaxResultBytes in AddReason(s, MaxResultBytes).reasons;
  }

  lemma AppendMember(acc: Acc, key: Str, built: Built, budget: int, s: State)
    requires built.Built?
    ensures var p := Append(acc, key, built, budget, s).acc.props;
            p == acc.props || p == acc.props + [Member(key, built.value)]
  {
    hide StringSize;
  }

  lemma {:induction false} BuildExceptionArrayPrunes(w: World, occurrences: seq<Json>, entries: Option<seq<Json>>,
                                                     budget: int, s: State, depth: nat, whole: bool)
    requires Left(s) >= 0 && s.inDiagnostics
    requires forall i :: 0 <= i < |occurrences| ==> ExceptionAt(occurrences[i], entries).Some?
    requires Unflagged(whole, BuildExceptionArray(w, occurrences, entries, budget, s, depth).st)
    ensures var b := BuildExceptionArray(w, occurrences, entries, budget, s, depth).built;
            b.Built? ==> PruneExceptions(w, occurrences, entries, b.value, depth, ContextOf(whole, s))
    decreases Left(s), 1
  {
    hide BuildExceptions, ExceptionAt, ExceptionsPrefix, Unflagged;
    if s.visitedNodes < s.limits.maxResultNodes && depth <= MAX_RESULT_DEPTH && budget >= 2 {
      var t := s.(visitedNodes := s.visitedNodes + 1, retainedNodes := s.retainedNodes + 1);
      assert occurrences[0..] == occurrences;
      NoExceptions(w, occurrences, entries, depth, ContextOf(whole, s));
      BuildExceptionsPrunes(w, occurrences, 0, entries, budget, t, depth, [], 2, whole);
    }
  }

  lemma NoExceptions(w: World, occurrences: seq<Json>, entries: Option<seq<Json>>, depth: nat, c: Context)
    ensures ExceptionsPrefix(w, occurrences, entries, [], depth, c)
  {
  }

  lemma {:induction false} BuildExceptionsPrunes(w: World, occurrences: seq<Json>, k: nat, entries: Option<seq<Json>>,
                                                 budget: int, s: State, depth: nat, items: seq<Json>, byteLength: nat,
                                                 whole: bool)
    requires Left(s) >= 0 && s.inDiagnostics && k == |items| <= |occurrences| && byteLength == 2 + ItemsSize(items)
             <= budget
    requires forall i :: 0 <= i < |occurrences| ==> ExceptionAt(occurrences[i], entries).Some?
    requires ExceptionsPrefix(w, occurrences, entries, items, depth, ContextOf(whole, s))
    requires Unflagged(whole, BuildExceptions(w, occurrences[k..], entries, budget, s, depth, items, byteLength).st)
    ensures var b := BuildExceptions(w, occurrences[k..], entries, budget, s, depth, items, byteLength).built;
            b.Built? ==> PruneExceptions(w, occurrences, entries, b.value, depth, ContextOf(whole, s))
    decreases Left(s), 1, |occurrences| - k
  {
    hide BuildValue, Embed, ExceptionAt, ItemsSize, Extends, ExceptionsPrefix, AtomicEntry, PruneValue, Size, Unflagged;
    if k < |occurrences| {
      assert occurrences[k..][1..] == occurrences[k + 1..] && occurrences[k..][0] == occurrences[k];
      var childBudget := budget - byteLength - CommaSize(items);
      if s.visitedNodes >= s.limits.maxResultNodes {
        Flagged(whole, s, MaxResultNodes);
      } else if depth + 2 > MAX_RESULT_DEPTH {
        Flagged(whole, s, MaxResultDepth);
      } else if childBudget < 2 {
        Flagged(whole, s, MaxResultBytes);
      } else {
        var entry := ExceptionAt(occurrences[k], entries).value;
        var o := BuildValue(w, Embed(entry), childBudget, s, depth + 1, MAX_SAFE_INTEGER, false);
        BuildValueSound(w, Embed(entry), childBudget, s, depth + 1, MAX_SAFE_INTEGER, false);
        KeepsContext(s, o.st);
        if o.built.Built? && o.built.value.JObject? && o.st.omittedProperties <= s.omittedProperties {
          AppendItem(items, o.built.value);
          var n := byteLength + CommaSize(items) + o.built.byteLength;
          BuildExceptionsSound(w, occurrences[k + 1..], entries, budget, o.st, depth, items + [o.built.value], n);
          UnflaggedBefore(whole, o.st, BuildExceptions(w, occurrences[k + 1..], entries, budget, o.st, depth,
                                                       items + [o.built.value], n).st);
          BuildValuePrunes(w, Embed(entry), childBudget, s, depth + 1, MAX_SAFE_INTEGER, false, whole);
          ValueShows(w, Embed(entry), childBudget, s, depth + 1, MAX_SAFE_INTEGER);
          MoreExceptions(w, occurrences, entries, items, o.built.value, depth, ContextOf(whole, s));
          BuildExceptionsPrunes(w, occurrences, k + 1, entries, budget, o.st, depth, items + [o.built.value], n, whole);
        } else {
          EntryFlagged(w, entry, childBudget, s, depth + 1, whole);
        }
      }
    }
  }

  lemma Flagged(whole: bool, s: State, reason: Reason)
    requires Unflagged(whole, AddReason(s, reason))
    ensures !whole
  {
    assert reason in AddReason(s, reason).reasons;
  }

  /** An exception that is given up has left a reason. */
  lemma EntryFlagged(w: World, entry: Json, budget: int, s: State, depth: nat, whole: bool)
    requires Left(s) >= 0 && entry.JObject?
    requires var o := BuildValue(w, Embed(entry), budget, s, depth, MAX_SAFE_INTEGER, false);
             && !(o.built.Built? && o.built.value.JObject? && o.st.omittedProperties <= s.omittedProperties)
             && Unflagged(whole, o.st.(retainedNodes := s.retainedNodes))
    ensures !whole
  {
    hide BuildValue, DataProps;
    UnusableReason(w, Embed(entry), budget, s, depth, MAX_SAFE_INTEGER, true);
  }

  lemma MoreExceptions(w: World, occurrences: seq<Json>, entries: Option<seq<Json>>, items: seq<Json>, j: Json,
                       depth: nat, c: Context)
    requires ExceptionsPrefix(w, occurrences, entries, items, depth, c) && |items| < |occurrences|
    requires depth <= MAX_RESULT_DEPTH && ExceptionAt(occurrences[|items|], entries).Some?
    requires PruneValue(w, Embed(ExceptionAt(occurrences[|items|], entries).value), j, depth + 1, c)
    requires AtomicEntry(w, Embed(ExceptionAt(occurrences[|items|], entries).value), j, true)
    ensures ExceptionsPrefix(w, occurrences, entries, items + [j], depth, c)
  {
    hide PruneValue, ExceptionAt, Embed, AtomicEntry;
  }

  lemma {:induction false} BuildArrayPrunes(w: World, id: set<Ref>, elems: seq<Element>, node: Node, budget: int,
                                            s: State, depth: nat, rowLimit: nat, shared: bool, whole: bool)
    requires Left(s) >= 0 && depth <= MAX_RESULT_DEPTH
    requires Unflagged(whole, BuildArray(w, id, elems, node, budget, s, depth, rowLimit, shared).st)
    ensures var b := BuildArray(w, id, elems, node, budget, s, depth, rowLimit, shared).built;
            b.Built? ==>
              if id * s.ancestors != {} then Instead(ContextOf(whole, s), CIRCULAR, b.value)
              else if HasArrayMetadata(node) then PruneTable(w, elems, node, b.value, depth,
                                                             Inside(ContextOf(whole, s), id))
              else PruneRows(w, elems, b.value, depth, Inside(ContextOf(whole, s), id))
    decreases Left(s), 7
  {
    hide Ascii, BuildTable, BuildArrayRows, Unsupported, HasArrayMetadata, PruneTable, PruneRows, Instead;
    if id * s.ancestors != {} {
      UnsupportedPrunes(CIRCULAR, budget, s, CircularReference, ContextOf(whole, s));
    } else if HasArrayMetadata(node) {
      BuildTablePrunes(w, elems, node, budget, Enter(s, id), depth, rowLimit, shared, whole);
    } else {
      BuildArrayRowsPrunes(w, elems, budget, Enter(s, id), depth, rowLimit, shared, whole);
    }
  }

  lemma {:induction false} BuildTablePrunes(w: World, elems: seq<Element>, node: Node, budget: int, s: State,
                                            depth: nat, rowLimit: nat, shared: bool, whole: bool)
    requires Left(s) >= 0 && depth <= MAX_RESULT_DEPTH
    requires Unflagged(whole, BuildTable(w, elems, node, budget, s, depth, rowLimit, shared).st)
    ensures var b := BuildTable(w, elems, node, budget, s, depth, rowLimit, shared).built;
            b.Built? ==> PruneTable(w, elems, node, b.value, depth, ContextOf(whole, s))
    decreases Left(s), 6, |PRIORITY_KEYS| + 1
  {
    hide Ascii, BuildKeys, BuildRowsProperty, MetadataBeforeRows, MetadataAfterRows, Extends, PruneTable, Grown,
         PruneRows, Unflagged, MetadataDue, HasKey, TableOrder, AccOk, RowsMember, EidsAhead;
    if budget >= 2 {
      EmptyAcc(budget);
      var s1 := s.(retainedNodes := s.retainedNodes + 1);
      var before, after := MetadataBeforeRows(s.rowsBeforeMetadata), MetadataAfterRows(s.rowsBeforeMetadata);
      KeyListBounds(s.rowsBeforeMetadata);
      var p := BuildKeys(w, node, before, false, EMPTY_ACC, budget, s1, depth, rowLimit);
      BuildKeysSound(w, node, before, false, EMPTY_ACC, budget, s1, depth, rowLimit);
      KeepsContext(s1, p.st);
      var q := BuildRowsProperty(w, elems, p.acc, budget, p.st, depth, rowLimit, shared);
      BuildRowsPropertySound(w, elems, p.acc, budget, p.st, depth, rowLimit, shared);
      KeepsContext(p.st, q.st);
      var t := BuildKeys(w, node, after, false, q.acc, budget, q.st, depth, rowLimit);
      BuildKeysSound(w, node, after, false, q.acc, budget, q.st, depth, rowLimit);
      UnflaggedBefore(whole, q.st, t.st);
      UnflaggedBefore(whole, p.st, q.st);
      TableEids(w, elems, node, budget, s1, depth, rowLimit, shared);
      BuildKeysPrunes(w, node, before, false, EMPTY_ACC, budget, s1, depth, rowLimit, whole);
      BuildRowsPropertyPrunes(w, elems, p.acc, budget, p.st, depth, rowLimit, shared, whole);
      BuildKeysPrunes(w, node, after, false, q.acc, budget, q.st, depth, rowLimit, whole);
      TableKeysOrdered(w, elems, node, budget, s1, depth, rowLimit, shared, s.rowsBeforeMetadata);
      if whole {
        NoneLeft(t.st);
        TableAllDue(w, elems, node, budget, s1, depth, rowLimit, shared);
      }
      NoRowsAmong(w, node, s.rowsBeforeMetadata, true, EMPTY_ACC, budget, s1, depth, rowLimit);
      NoRowsAmong(w, node, s.rowsBeforeMetadata, false, q.acc, budget, q.st, depth, rowLimit);
      TableMembers(w, elems, node, depth, ContextOf(whole, s), p.acc, q.acc, t.acc);
    }
  }

  lemma TableEids(w: World, elems: seq<Element>, node: Node, budget: int, s: State, depth: nat, rowLimit: nat,
                  shared: bool)
    requires Left(s) >= 0
    ensures var before, after := MetadataBeforeRows(s.rowsBeforeMetadata), MetadataAfterRows(s.rowsBeforeMetadata);
            var p := BuildKeys(w, node, before, false, EMPTY_ACC, budget, s, depth, rowLimit);
            var q := BuildRowsProperty(w, elems, p.acc, budget, p.st, depth, rowLimit, shared);
            EidsAhead(before, EMPTY_ACC) && EidsAhead(after, q.acc)
  {
    hide Ascii, BuildKeys, BuildRowsProperty, Follows, PRIORITY_KEYS, Filter, IsErrorKey, Paired, Adds, KeepsDistinct;
    PriorityDistinct();
    FilterSpec(PRIORITY_KEYS, IsErrorMetadata);
    FilterSpec(PRIORITY_KEYS, IsPlainMetadata);
    EidKeysPlain();
    ListsPaired(s.rowsBeforeMetadata);
    var before := MetadataBeforeRows(s.rowsBeforeMetadata);
    var p := BuildKeys(w, node, before, false, EMPTY_ACC, budget, s, depth, rowLimit);
    KeysAdd(w, node, before, false, EMPTY_ACC, budget, s, depth, rowLimit);
    var q := BuildRowsProperty(w, elems, p.acc, budget, p.st, depth, rowLimit, shared);
    RowsAdd(w, elems, p.acc, budget, p.st, depth, rowLimit, shared);
    AddsTrans(before, [ROWS], EMPTY_ACC, p.acc, q.acc);
    AddsAll(before + [ROWS], q.acc);
    FollowsIn(KeysOf(q.acc.props), before + [ROWS]);
    RowsNotEids();
    if EID_DATA !in before {
      forall i | 0 <= i < |q.acc.props| ensures q.acc.props[i].key != EID_DATA {
        assert KeysOf(q.acc.props)[i] in KeysOf(q.acc.props);
      }
    }
  }

  lemma RowsNotEids()
    ensures ROWS != EID_DATA
  {
    assert |ROWS| == 4 && |EID_DATA| == 7;
  }

  lemma NoneLeft(s: State)
    requires Unflagged(true, s)
    ensures s.reasons == {}
  {
  }

  /** The rows were appended, or left out. */
  ghost predicate RowsMember(w: World, elems: seq<Element>, depth: nat, c: Context, p: Acc, q: Acc)
    requires depth <= MAX_RESULT_DEPTH
  {
    || (q.props == p.props && (c.whole ==> HasKey(q.props, ROWS)))
    || (&& |q.props| == |p.props| + 1 && q.props[..|p.props|] == p.props && q.props[|p.props|].key == ROWS
        && PruneRows(w, elems, q.props[|p.props|].value, depth + 1, c))
  }

  lemma TableMembers(w: World, elems: seq<Element>, node: Node, depth: nat, c: Context, p: Acc, q: Acc, t: Acc)
    requires depth <= MAX_RESULT_DEPTH && Grown(w, node, depth, c, EMPTY_ACC, p) && Grown(w, node, depth, c, q, t)
    requires RowsMember(w, elems, depth, c, p, q) && TableOrder(c.rbm, t.props)
    requires forall i :: 0 <= i < |p.props| ==> p.props[i].key != ROWS
    requires forall i :: |q.props| <= i < |t.props| ==> t.props[i].key != ROWS
    requires c.whole ==> MetadataDue(w, node, c.diag, t.props) && HasKey(t.props, ROWS)
    ensures PruneTable(w, elems, node, JObject(t.props), depth, c)
  {
    hide Ascii, PruneMember, PruneRows, TableOrder, MetadataDue, HasKey;
    forall i | 0 <= i < |p.props| ensures Beside(t.props, i) == Beside(p.props, i) && t.props[i] == p.props[i] {
      assert t.props[i] == q.props[i] == p.props[i];
      if i > 0 { assert t.props[i - 1] == q.props[i - 1] == p.props[i - 1]; }
    }
  }

  lemma {:induction false} BuildRowsPropertyPrunes(w: World, elems: seq<Element>, acc: Acc, budget: int, s: State,
                                                   depth: nat, rowLimit: nat, shared: bool, whole: bool)
    requires Left(s) >= 0 && depth <= MAX_RESULT_DEPTH && AccOk(acc, budget)
    requires Unflagged(whole, BuildRowsProperty(w, elems, acc, budget, s, depth, rowLimit, shared).st)
    ensures RowsMember(w, elems, depth, ContextOf(whole, s), acc,
                       BuildRowsProperty(w, elems, acc, budget, s, depth, rowLimit, shared).acc)
    decreases Left(s), 5
  {
    hide Ascii, BuildArrayRows, Append, StringSize, PruneRows, HasKey, Extends, PropsSize, Size;
    if s.visitedNodes < s.limits.maxResultNodes {
      var rowsBudget := budget - acc.byteLength - CommaSize(acc.props) - StringSize(ROWS) - 1;
      var t := s.(visitedNodes := s.visitedNodes + 1);
      BuildArrayRowsSound(w, elems, rowsBudget, t, depth + 1, rowLimit, shared);
      var o := BuildArrayRows(w, elems, rowsBudget, t, depth + 1, rowLimit, shared);
      if o.built.Built? {
        AppendAfterBuildSucceeds(acc, ROWS, o.built, budget, o.st);
        BuildArrayRowsPrunes(w, elems, rowsBudget, t, depth + 1, rowLimit, shared, whole);
        AppendMember(acc, ROWS, o.built, budget, o.st);
        AppendShows(acc, ROWS, o.built, budget, o.st);
      } else {
        BlockedOut(whole, o.st);
      }
    } else {
      Flagged(whole, s, MaxResultNodes);
    }
  }

  lemma BlockedOut(whole: bool, s: State)
    requires Blocked(s) && (whole ==> s.reasons == {})
    ensures !whole
  {
  }

  lemma {:induction false} BuildArrayRowsPrunes(w: World, elems: seq<Element>, budget: int, s: State, depth: nat,
                                                rowLimit: nat, shared: bool, whole: bool)
    requires Left(s) >= 0 && depth <= MAX_RESULT_DEPTH + 1
    requires Unflagged(whole, BuildArrayRows(w, elems, budget, s, depth, rowLimit, shared).st)
    ensures var b := BuildArrayRows(w, elems, budget, s, depth, rowLimit, shared).built;
            b.Built? ==> PruneRows(w, elems, b.value, depth, ContextOf(whole, s))
    decreases Left(s), 4
  {
    hide BuildRows, PruneEntry, CloseRows;
    if budget >= 2 {
      var n := RetainedLength(|elems|, s, rowLimit, shared);
      var kept := elems[..Max(0, n)];
      var t := s.(retainedNodes := s.retainedNodes + 1);
      var o := BuildRows(w, kept, budget, t, depth, rowLimit, [], 2);
      CloseRowsReasons(o.st, |elems|, n, |o.items|, SharedRows(s, shared));
      assert kept[0..] == kept;
      BuildRowsPrunes(w, kept, 0, budget, t, depth, rowLimit, [], 2, whole);
    }
  }

  lemma {:induction false} BuildRowsPrunes(w: World, elems: seq<Element>, k: nat, budget: int, s: State, depth: nat,
                                           rowLimit: nat, items: seq<Json>, byteLength: nat, whole: bool)
    requires Left(s) >= 0 && depth <= MAX_RESULT_DEPTH + 1 && k == |items| <= |elems|
             && byteLength == 2 + ItemsSize(items) <= budget
    requires RowsPrefix(w, elems, items, depth, ContextOf(whole, s))
    requires Unflagged(whole, BuildRows(w, elems[k..], budget, s, depth, rowLimit, items, byteLength).st)
    ensures var r := BuildRows(w, elems[k..], budget, s, depth, rowLimit, items, byteLength).items;
            RowsPrefix(w, elems, r, depth, ContextOf(whole, s)) && (whole ==> |r| == |elems|)
    decreases Left(s), 3, |elems| - k
  {
    hide BuildValue, EntryOf, Atomic, ItemsSize, Extends, RowsPrefix, NoteElement, Exact, Unusable, AtomicEntry,
         Unflagged, PruneValue;
    if k < |elems| {
      assert elems[k..][1..] == elems[k + 1..] && elems[k..][0] == elems[k];
      var s1 := NoteElement(s, elems[k]);
      NoteExtends(s, elems[k]);
      KeepsContext(s, s1);
      var atomic := Atomic(w, s, elems[k]);
      if atomic && depth + 2 > MAX_RESULT_DEPTH {
        Flagged(whole, s1, MaxResultDepth);
      } else {
        var childBudget := budget - byteLength - CommaSize(items);
        var o := BuildValue(w, EntryOf(elems[k]), childBudget, s1, depth + 1, rowLimit, false);
        BuildValueSound(w, EntryOf(elems[k]), childBudget, s1, depth + 1, rowLimit, false);
        KeepsContext(s1, o.st);
        if !Unusable(atomic, s1, o) {
          UsableAtomic(w, elems[k], childBudget, s, s1, depth + 1, rowLimit);
          RowSize(items, o.built, childBudget);
          var n := byteLength + CommaSize(items) + o.built.byteLength;
          var out := BuildRows(w, elems[k + 1..], budget, o.st, depth, rowLimit, items + [o.built.value], n);
          BuildRowsSound(w, elems[k + 1..], budget, o.st, depth, rowLimit, items + [o.built.value], n);
          UnflaggedBefore(whole, o.st, out.st);
          UnflaggedBefore(whole, s1, o.st);
          NotedUnflagged(whole, s, elems[k]);
          BuildValuePrunes(w, EntryOf(elems[k]), childBudget, s1, depth + 1, rowLimit, false, whole);
          MoreRows(w, elems, items, o.built.value, depth, ContextOf(whole, s));
          BuildRowsPrunes(w, elems, k + 1, budget, o.st, depth, rowLimit, items + [o.built.value], n, whole);
        } else {
          RowFlagged(w, elems[k], childBudget, s, depth + 1, rowLimit, whole);
        }
      }
    }
  }

  lemma NotedUnflagged(whole: bool, s: State, e: Element)
    requires Unflagged(whole, NoteElement(s, e))
    ensures whole ==> !(e.Elem? && e.slot.Accessor?)
  {
    NoteHonest(s, e);
  }

  /** A row that is given up has left a reason. */
  lemma RowFlagged(w: World, e: Element, budget: int, s: State, depth: nat, rowLimit: nat, whole: bool)
    requires Left(s) >= 0 && Left(NoteElement(s, e)) >= 0
    requires var s1 := NoteElement(s, e);
             var o := BuildValue(w, EntryOf(e), budget, s1, depth, rowLimit, false);
             Unusable(Atomic(w, s, e), s1, o) && Unflagged(whole, o.st.(retainedNodes := s1.retainedNodes))
    ensures !whole
  {
    hide BuildValue, EntryOf, Atomic, NoteElement, Unusable;
    AtomicPlain(w, s, e);
    UnusableReason(w, EntryOf(e), budget, NoteElement(s, e), depth, rowLimit, Atomic(w, s, e));
  }

  lemma UsableAtomic(w: World, e: Element, budget: int, s: State, s1: State, depth: nat, rowLimit: nat)
    requires Left(s1) >= 0 && s1.inDiagnostics == s.inDiagnostics
    requires !Unusable(Atomic(w, s, e), s1, BuildValue(w, EntryOf(e), budget, s1, depth, rowLimit, false))
    ensures var o := BuildValue(w, EntryOf(e), budget, s1, depth, rowLimit, false);
            o.built.Built? && AtomicEntry(w, EntryOf(e), o.built.value, s.inDiagnostics)
  {
    hide BuildValue, EntryOf, KeepsKeys;
    if Atomic(w, s, e) {
      ValueShows(w, EntryOf(e), budget, s1, depth, rowLimit);
    }
  }

  lemma MoreRows(w: World, elems: seq<Element>, items: seq<Json>, j: Json, depth: nat, c: Context)
    requires depth <= MAX_RESULT_DEPTH + 1 && |items| < |elems| && RowsPrefix(w, elems, items, depth, c)
    requires PruneValue(w, EntryOf(elems[|items|]), j, depth + 1, c)
             && AtomicEntry(w, EntryOf(elems[|items|]), j, c.diag)
    requires c.whole ==> !(elems[|items|].Elem? && elems[|items|].slot.Accessor?)
    ensures RowsPrefix(w, elems, items + [j], depth, c)
  {
    hide PruneValue, EntryOf, AtomicEntry;
  }

  // ----- objects in diagnostics keep their keys or are dropped -----

  lemma PropertyShows(w: World, source: Node, key: Str, acc: Acc, budget: int, s: State, depth: nat, rowLimit: nat)
    requires Left(s) >= 0
    ensures var p := BuildProperty(w, source, key, acc, budget, s, depth, rowLimit);
            p.ok && p.st.omittedProperties <= s.omittedProperties ==>
              && (Due(w, source, s.inDiagnostics, key) ==> HasKey(p.acc.props, key))
              && !StoredExceptions(w, source, key).Malformed?
  {
    hide Ascii, BuildStored, BuildOwn, StoredExceptions, StringSize, HasKey, Lookup, OPTIONAL_METADATA_KEYS;
    RawKey(w, source, key);
    var slot, raw := Lookup(source.props, key), StoredExceptions(w, source, key);
    var available := budget - acc.byteLength - CommaSize(acc.props) - 1;
    if available >= 4 && StringSize(key) <= available - 2 {
      if raw.Raw? { StoredShows(w, raw.text, key, acc, budget, available - StringSize(key), s, depth); }
      if slot.Some? { OwnShows(w, source, key, slot.value, acc, budget, available - StringSize(key), s, depth,
                               rowLimit); }
    }
  }

  lemma RawKey(w: World, source: Node, key: Str)
    ensures !StoredExceptions(w, source, key).Absent? ==> key == FIELD_EXCEPTIONS && key != EID_DATA_TRUNCATION
  {
    EidKeysDiffer();
    hide Ascii, RawFieldExceptions;
  }

  lemma StoredShows(w: World, raw: Str, key: Str, acc: Acc, budget: int, childBudget: int, s: State, depth: nat)
    requires Left(s) >= 0
    ensures var p := BuildStored(w, raw, key, acc, budget, childBudget, s, depth);
            p.ok && p.st.omittedProperties <= s.omittedProperties ==> HasKey(p.acc.props, key)
  {
    hide Ascii, BuildRaw, Append, HasKey, Extends;
    var t := s.(inDiagnostics := true);
    var r := BuildRaw(w, raw, childBudget, t, depth + 1);
    BuildRawSound(w, raw, childBudget, t, depth + 1);
    OmissionsGrow(t, r.st);
    RawOmitCounts(w, raw, childBudget, t, depth + 1);
    if r.RawBuilt? {
      AppendShows(acc, key, Built(r.byteLength, r.value), budget, r.st.(inDiagnostics := s.inDiagnostics));
    }
  }

  lemma RawOmitCounts(w: World, raw: Str, budget: int, s: State, depth: nat)
    requires Left(s) >= 0
    ensures var r := BuildRaw(w, raw, budget, s, depth); r.RawOmit? ==> r.st.omittedProperties > s.omittedProperties
  {
    hide Ascii, BuildSecurities, StringSize, ReadDocument, HasOccurrences;
  }

  lemma OwnShows(w: World, source: Node, key: Str, slot: Slot, acc: Acc, budget: int, childBudget: int, s: State,
                 depth: nat, rowLimit: nat)
    requires Left(s) >= 0 && childBudget >= 2
    ensures var p := BuildOwn(w, source, key, slot, acc, budget, childBudget, s, depth, rowLimit);
            p.ok ==> HasKey(p.acc.props, key)
  {
    hide Ascii, BuildChild, BuildEntitlement, Inspect, Append, HasKey;
    var i := Inspect(w, key, slot, s);
    if !s.inDiagnostics && key == EID_DATA {
      EntitlementShows(w, source, i.value, acc, budget, childBudget, i.st, depth);
    } else {
      var o := BuildChild(w, key, i.value, childBudget, i.st, depth, rowLimit);
      if o.built.Built? { AppendShows(acc, key, o.built, budget, o.st); }
    }
  }

  lemma EntitlementShows(w: World, source: Node, v: Value, acc: Acc, budget: int, childBudget: int, s: State,
                         depth: nat)
    requires Left(s) >= 0
    ensures var p := BuildEntitlement(w, source, v, acc, budget, childBudget, s, depth); p.ok ==>
              HasKey(p.acc.props, EID_DATA)
  {
    hide Ascii, BuildValue, Append, PrepareEidData, EmittedSummary, EidRecord, SummaryJson, Embed, StringSize, HasKey;
    var prepared := PrepareEidData(w, v, s);
    var o := BuildValue(w, Embed(EidRecord(prepared.data)), Max(2, childBudget / 3), prepared.st, depth + 1,
                        MAX_ENTITLEMENT_EIDS, false);
    if o.built.Built? {
      AppendShows(acc, EID_DATA, o.built, budget, o.st);
      var p := Append(acc, EID_DATA, o.built, budget, o.st);
      var summary := EmittedSummary(w, source, o.built.value, prepared);
      if p.ok && summary.Some? {
        var summaryBudget := budget - p.acc.byteLength - CommaSize(p.acc.props) - StringSize(EID_DATA_TRUNCATION) - 1;
        var u := BuildValue(w, Embed(SummaryJson(summary.value)), summaryBudget, p.st, depth + 1, MAX_EID_SECURITIES,
                            false);
        if u.built.Built? {
          AppendMember(p.acc, EID_DATA_TRUNCATION, u.built, budget, u.st);
          PrefixHasKey(p.acc.props, Append(p.acc, EID_DATA_TRUNCATION, u.built, budget, u.st).acc.props, EID_DATA);
        }
      }
    }
  }

  lemma AppendShows(acc: Acc, key: Str, built: Built, budget: int, s: State)
    requires built.Built?
    ensures var p := Append(acc, key, built, budget, s); p.ok ==> HasKey(p.acc.props, key)
  {
    hide StringSize;
    var props := acc.props + [Member(key, built.value)];
    assert props[|acc.props|].key == key;
  }

  lemma PrefixHasKey(a: seq<Member>, b: seq<Member>, key: Str)
    requires a <= b && HasKey(a, key)
    ensures HasKey(b, key)
  {
    var i :| 0 <= i < |a| && a[i].key == key;
    assert b[i].key == key;
  }

  ghost predicate ShowsKeys(w: World, node: Node, diag: bool, keys: seq<Str>, props: seq<Member>) {
    forall key :: key in keys ==>
      (Due(w, node, diag, key) ==> HasKey(props, key)) && !StoredExceptions(w, node, key).Malformed?
  }

  lemma {:induction false} KeysShow(w: World, node: Node, keys: seq<Str>, stop: bool, acc: Acc, budget: int, s: State,
                                    depth: nat, rowLimit: nat)
    requires Left(s) >= 0 && AccOk(acc, budget)
    ensures var o := BuildKeys(w, node, keys, stop, acc, budget, s, depth, rowLimit);
            o.st.omittedProperties == s.omittedProperties ==> ShowsKeys(w, node, s.inDiagnostics, keys, o.acc.props)
    decreases |keys|
  {
    hide BuildProperty, Extends, AccOk, Due, HasKey, StoredExceptions;
    if keys != [] {
      var p := BuildProperty(w, node, keys[0], acc, budget, s, depth, rowLimit);
      BuildPropertySound(w, node, keys[0], acc, budget, s, depth, rowLimit);
      PropertyShows(w, node, keys[0], acc, budget, s, depth, rowLimit);
      KeepsContext(s, p.st);
      OmissionsGrow(s, p.st);
      var t := if p.ok then p.st else p.st.(omittedProperties := p.st.omittedProperties + 1);
      if p.ok || !stop {
        var o := BuildKeys(w, node, keys[1..], stop, p.acc, budget, t, depth, rowLimit);
        BuildKeysSound(w, node, keys[1..], stop, p.acc, budget, t, depth, rowLimit);
        OmissionsGrow(t, o.st);
        KeysGrow(w, node, keys[1..], stop, p.acc, budget, t, depth, rowLimit);
        KeysShow(w, node, keys[1..], stop, p.acc, budget, t, depth, rowLimit);
        if o.st.omittedProperties == s.omittedProperties {
          forall key | key in keys
            ensures (Due(w, node, s.inDiagnostics, key) ==> HasKey(o.acc.props, key))
                    && !StoredExceptions(w, node, key).Malformed?
          {
            if key == keys[0] {
              if Due(w, node, s.inDiagnostics, key) { PrefixHasKey(p.acc.props, o.acc.props, key); }
            } else {
              assert key in keys[1..];
            }
          }
        }
      }
    }
  }

  lemma OmissionsGrow(s: State, t: State)
    requires Extends(s, t)
    ensures s.omittedProperties <= t.omittedProperties
  {
  }

  lemma {:induction false} FilterKeeps(keys: seq<Str>, keep: Str -> bool, key: Str)
    requires key in keys && keep(key)
    ensures key in Filter(keys, keep)
  {
    if keys[0] != key {
      assert key in keys[1..];
      FilterKeeps(keys[1..], keep, key);
    }
  }

  lemma KeyCovered(w: World, node: Node, diag: bool, key: Str)
    requires Due(w, node, diag, key)
    ensures key in PRIORITY_KEYS || key in OtherKeys(node)
  {
    assert PRIORITY_KEYS[7] == FIELD_EXCEPTIONS;
    hide Ascii, RawFieldExceptions, OPTIONAL_METADATA_KEYS;
    KeysSpec(node.props);
    if key !in PRIORITY_KEYS {
      FilterKeeps(Keys(node.props), IsOrdinary, key);
    }
  }

  /** When no property was omitted, every key is there. */
  lemma ObjectAllDue(w: World, node: Node, budget: int, s: State, depth: nat, rowLimit: nat)
    requires Left(s) >= 0 && budget >= 2
    ensures var p := BuildKeys(w, node, PRIORITY_KEYS, false, EMPTY_ACC, budget, s, depth, rowLimit);
            var q := BuildKeys(w, node, OtherKeys(node), true, p.acc, budget, p.st, depth, rowLimit);
            && s.omittedProperties <= q.st.omittedProperties
            && (q.st.reasons == {} ==> q.st.omittedProperties == s.omittedProperties)
            && (q.st.omittedProperties == s.omittedProperties ==> AllDue(w, node, s.inDiagnostics, q.acc.props))
  {
    assert PRIORITY_KEYS[7] == FIELD_EXCEPTIONS;
    hide Ascii, BuildKeys, OtherKeys, Extends, Due, HasKey, AccOk, PRIORITY_KEYS, StoredExceptions;
    EmptyAcc(budget);
    var p := BuildKeys(w, node, PRIORITY_KEYS, false, EMPTY_ACC, budget, s, depth, rowLimit);
    BuildKeysSound(w, node, PRIORITY_KEYS, false, EMPTY_ACC, budget, s, depth, rowLimit);
    KeysShow(w, node, PRIORITY_KEYS, false, EMPTY_ACC, budget, s, depth, rowLimit);
    KeepsContext(s, p.st);
    OmissionsGrow(s, p.st);
    var q := BuildKeys(w, node, OtherKeys(node), true, p.acc, budget, p.st, depth, rowLimit);
    BuildKeysSound(w, node, OtherKeys(node), true, p.acc, budget, p.st, depth, rowLimit);
    KeysShow(w, node, OtherKeys(node), true, p.acc, budget, p.st, depth, rowLimit);
    KeysGrow(w, node, OtherKeys(node), true, p.acc, budget, p.st, depth, rowLimit);
    OmissionsGrow(p.st, q.st);
    ExtendsTrans(s, p.st, q.st);
    OmissionReason(s, q.st);
    if q.st.omittedProperties == s.omittedProperties {
      forall key | Due(w, node, s.inDiagnostics, key) ensures HasKey(q.acc.props, key) {
        KeyCovered(w, node, s.inDiagnostics, key);
        if key in PRIORITY_KEYS {
          PrefixHasKey(p.acc.props, q.acc.props, key);
        }
      }
    }
  }

  lemma MetadataCovered(rbm: bool, key: Str)
    requires key in PRIORITY_KEYS
    ensures key in MetadataBeforeRows(rbm) || key in MetadataAfterRows(rbm)
  {
    hide Ascii, IsErrorKey;
    if rbm {
      if IsErrorMetadata(key) { FilterKeeps(PRIORITY_KEYS, IsErrorMetadata, key); }
          else { FilterKeeps(PRIORITY_KEYS, IsPlainMetadata, key); }
    }
  }

  /** The same of the metadata of a table, and its rows. */
  lemma TableAllDue(w: World, elems: seq<Element>, node: Node, budget: int, s: State, depth: nat, rowLimit: nat,
                    shared: bool)
    requires Left(s) >= 0 && budget >= 2
    requires TableKeys(w, elems, node, budget, s, depth, rowLimit, shared).st.reasons == {}
    ensures var t := TableKeys(w, elems, node, budget, s, depth, rowLimit, shared);
            MetadataDue(w, node, s.inDiagnostics, t.acc.props) && HasKey(t.acc.props, ROWS)
  {
    hide Ascii, BuildKeys, BuildRowsProperty, MetadataBeforeRows, MetadataAfterRows, Extends, HasKey, AccOk, ShowsKeys,
         MetadataDue;
    EmptyAcc(budget);
    var before, after := MetadataBeforeRows(s.rowsBeforeMetadata), MetadataAfterRows(s.rowsBeforeMetadata);
    var p := BuildKeys(w, node, before, false, EMPTY_ACC, budget, s, depth, rowLimit);
    BuildKeysSound(w, node, before, false, EMPTY_ACC, budget, s, depth, rowLimit);
    KeysShow(w, node, before, false, EMPTY_ACC, budget, s, depth, rowLimit);
    KeepsContext(s, p.st);
    OmissionsGrow(s, p.st);
    var q := BuildRowsProperty(w, elems, p.acc, budget, p.st, depth, rowLimit, shared);
    BuildRowsPropertySound(w, elems, p.acc, budget, p.st, depth, rowLimit, shared);
    RowsShow(w, elems, p.acc, budget, p.st, depth, rowLimit, shared);
    KeepsContext(p.st, q.st);
    OmissionsGrow(p.st, q.st);
    var t := BuildKeys(w, node, after, false, q.acc, budget, q.st, depth, rowLimit);
    BuildKeysSound(w, node, after, false, q.acc, budget, q.st, depth, rowLimit);
    KeysShow(w, node, after, false, q.acc, budget, q.st, depth, rowLimit);
    KeysGrow(w, node, after, false, q.acc, budget, q.st, depth, rowLimit);
    OmissionsGrow(q.st, t.st);
    NoReasons(q.st, t.st);
    ExtendsTrans(s, p.st, q.st);
    ExtendsTrans(s, q.st, t.st);
    OmissionReason(s, t.st);
    PrefixHasKey(q.acc.props, t.acc.props, ROWS);
    BothShow(w, node, s, p.acc.props, t.acc.props);
  }

  lemma BothShow(w: World, node: Node, s: State, p: seq<Member>, t: seq<Member>)
    requires p <= t && ShowsKeys(w, node, s.inDiagnostics, MetadataBeforeRows(s.rowsBeforeMetadata), p)
    requires ShowsKeys(w, node, s.inDiagnostics, MetadataAfterRows(s.rowsBeforeMetadata), t)
    ensures MetadataDue(w, node, s.inDiagnostics, t)
  {
    assert PRIORITY_KEYS[7] == FIELD_EXCEPTIONS;
    hide Ascii, MetadataBeforeRows, MetadataAfterRows, Due, HasKey, PRIORITY_KEYS, StoredExceptions;
    forall key | key in PRIORITY_KEYS
      ensures (Due(w, node, s.inDiagnostics, key) ==> HasKey(t, key)) && !StoredExceptions(w, node, key).Malformed?
    {
      MetadataCovered(s.rowsBeforeMetadata, key);
      if key in MetadataBeforeRows(s.rowsBeforeMetadata)
          && Due(w, node, s.inDiagnostics, key) { PrefixHasKey(p, t, key); }
    }
  }

  /** The members of a table. */
  function TableKeys(w: World, elems: seq<Element>, node: Node, budget: int, s: State, depth: nat, rowLimit: nat,
                     shared: bool): PropOut
    requires Left(s) >= 0
  {
    var p := BuildKeys(w, node, MetadataBeforeRows(s.rowsBeforeMetadata), false, EMPTY_ACC, budget, s, depth, rowLimit);
    var q := BuildRowsProperty(w, elems, p.acc, budget, p.st, depth, rowLimit, shared);
    BuildKeys(w, node, MetadataAfterRows(s.rowsBeforeMetadata), false, q.acc, budget, q.st, depth, rowLimit)
  }

  lemma RowsShow(w: World, elems: seq<Element>, acc: Acc, budget: int, s: State, depth: nat, rowLimit: nat,
                 shared: bool)
    requires Left(s) >= 0 && AccOk(acc, budget)
    ensures var o := BuildRowsProperty(w, elems, acc, budget, s, depth, rowLimit, shared);
            acc.props <= o.acc.props && (o.st.reasons == {} ==> HasKey(o.acc.props, ROWS))
  {
    hide Ascii, BuildArrayRows, Append, StringSize, HasKey, Extends, PropsSize, Size;
    if s.visitedNodes < s.limits.maxResultNodes {
      var rowsBudget := budget - acc.byteLength - CommaSize(acc.props) - StringSize(ROWS) - 1;
      var t := s.(visitedNodes := s.visitedNodes + 1);
      BuildArrayRowsSound(w, elems, rowsBudget, t, depth + 1, rowLimit, shared);
      var o := BuildArrayRows(w, elems, rowsBudget, t, depth + 1, rowLimit, shared);
      if o.built.Built? {
        AppendAfterBuildSucceeds(acc, ROWS, o.built, budget, o.st);
        AppendMember(acc, ROWS, o.built, budget, o.st);
        AppendShows(acc, ROWS, o.built, budget, o.st);
      } else {
        BlockedOut(o.st.reasons == {}, o.st);
      }
    } else {
      Flagged(AddReason(s, MaxResultNodes).reasons == {}, s, MaxResultNodes);
    }
  }

  lemma ObjectShows(w: World, id: set<Ref>, node: Node, budget: int, s: State, depth: nat, rowLimit: nat)
    requires Left(s) >= 0 && s.inDiagnostics && id * s.ancestors == {} && budget >= 2
    ensures var o := BuildObject(w, id, node, budget, s, depth, rowLimit);
            o.built.Built? && (o.st.omittedProperties == s.omittedProperties ==> KeepsKeys(w, node, o.built.value))
  {
    hide Ascii, BuildKeys, OtherKeys, AllDue;
    ObjectAllDue(w, node, budget, Enter(s, id).(retainedNodes := s.retainedNodes + 1), depth, rowLimit);
  }

  lemma ValueShows(w: World, v: Value, budget: int, s: State, depth: nat, rowLimit: nat)
    requires Left(s) >= 0 && s.inDiagnostics
    ensures var o := BuildValue(w, v, budget, s, depth, rowLimit, false);
            o.built.Built? && o.built.value.JObject? && o.st.omittedProperties <= s.omittedProperties ==>
              AtomicEntry(w, v, o.built.value, true)
  {
    hide Ascii, BuildObject, BuildArray, BuildError, BuildExotic, Fitted, Unsupported, Primitive, KeepsKeys, Extends,
         Shows;
    if IsPlain(w, v) && s.visitedNodes < s.limits.maxResultNodes {
      var t := s.(visitedNodes := s.visitedNodes + 1);
      var id, node := if v.VRef? then {v.ref} else {}, NodeOf(w, v).value;
      if depth > MAX_RESULT_DEPTH {
        UnsupportedShows(Ascii("[Max result depth exceeded]"), budget, t, MaxResultDepth);
        ShowsText(Ascii("[Max result depth exceeded]"));
      } else {
        assert BuildValue(w, v, budget, s, depth, rowLimit, false)
               == BuildNode(w, id, node, budget, t, depth, rowLimit, false);
        assert BuildNode(w, id, node, budget, t, depth, rowLimit, false)
               == BuildObject(w, id, node, budget, t, depth, rowLimit);
        var o := BuildObject(w, id, node, budget, t, depth, rowLimit);
        ObjectBuilds(w, id, node, budget, t, depth, rowLimit);
        if o.built.Built? && o.built.value.JObject? {
          ObjectShows(w, id, node, budget, t, depth, rowLimit);
          BuildObjectSound(w, id, node, budget, t, depth, rowLimit);
          OmissionsGrow(t, o.st);
        }
      }
    }
  }

  lemma ShowsText(text: Str)
    ensures forall j :: Shows(text, j) ==> !j.JObject?
  {
  }

  lemma ObjectBuilds(w: World, id: set<Ref>, node: Node, budget: int, s: State, depth: nat, rowLimit: nat)
    requires Left(s) >= 0
    ensures var o := BuildObject(w, id, node, budget, s, depth, rowLimit);
            o.built.Built? && o.built.value.JObject? ==> id * s.ancestors == {} && budget >= 2
  {
    hide Ascii, BuildKeys, OtherKeys, Unsupported, Shows;
    UnsupportedShows(CIRCULAR, budget, s, CircularReference);
    ShowsText(CIRCULAR);
  }
}
