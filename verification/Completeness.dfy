/**
 Completeness: a value that has a whole form and for which every budget
 suffices is emitted whole, without a new truncation reason. Together with
 `Honesty` this says exactly when the projector is lossless.
 */
module Completeness {
  import opened JsText
  import opened Json
  import opened JsHeap
  import opened ResultTypes
  import opened Entitlements
  import opened Projection
  import opened Soundness
  import opened Whole
  import opened Honesty

  /** The diagnostics after `notes` were remembered one by one. */
  function Noted(diagnostics: seq<Member>, notes: seq<Member>): seq<Member>
    decreases |notes|
  {
    if notes == [] then diagnostics
    else if |diagnostics| >= MAX_ERROR_DIAGNOSTICS then diagnostics
    else Noted(diagnostics + [notes[0]], notes[1..])
  }

  lemma {:induction false} NotedThen(d: seq<Member>, a: seq<Member>, b: seq<Member>)
    ensures Noted(Noted(d, a), b) == Noted(d, a + b)
    decreases |a|
  {
    if a == [] {
      assert a + b == b;
    } else if |d| < MAX_ERROR_DIAGNOSTICS {
      NotedThen(d + [a[0]], a[1..], b);
      assert (a + b)[1..] == a[1..] + b;
    } else if b != [] {
      assert a + b != [];
    }
  }

  /** From no diagnostics on, the first ones are kept. */
  lemma {:induction false} NotedFirst(d: seq<Member>, notes: seq<Member>)
    requires |d| <= MAX_ERROR_DIAGNOSTICS
    ensures Noted(d, notes)
         == if |d + notes| <= MAX_ERROR_DIAGNOSTICS then d + notes else (d + notes)[..MAX_ERROR_DIAGNOSTICS]
    decreases |notes|
  {
    if notes == [] {
      assert d + notes == d;
    } else if |d| < MAX_ERROR_DIAGNOSTICS {
      NotedFirst(d + [notes[0]], notes[1..]);
      assert d + [notes[0]] + notes[1..] == d + notes;
    } else {
      assert (d + notes)[..MAX_ERROR_DIAGNOSTICS] == d;
    }
  }

  predicate Traced(s: State, trace: Trace, t: State) {
    && t.maximumArrayRows == Max(s.maximumArrayRows, trace.rows)
    && t.diagnostics == Noted(s.diagnostics, trace.notes)
  }

  lemma TracedThen(s: State, a: Trace, t: State, b: Trace, u: State)
    requires Traced(s, a, t) && Traced(t, b, u)
    ensures Traced(s, TraceThen(a, b), u)
  {
    hide Noted;
    NotedThen(s.diagnostics, a.notes, b.notes);
  }

  predicate Unhurt(s: State, c: Cost, t: State) {
    && Charged(s, c, t) && Traced(s, c.trace, t)
    && t.reasons == s.reasons + (if c.upstream then {UpstreamTruncation} else {})
    && t.omittedProperties == s.omittedProperties
  }

  predicate Intact(s: State, x: Whole, o: Out) {
    x.Full? && o.built.Built? && o.built.value == x.json && Unhurt(s, x.cost, o.st)
  }

  lemma UnhurtThen(s: State, a: Cost, t: State, b: Cost, u: State)
    requires Unhurt(s, a, t) && Unhurt(t, b, u)
    ensures Unhurt(s, Then(a, b), u)
  {
    hide Traced, TraceThen;
    TracedThen(s, a.trace, t, b.trace, u);
  }

  lemma AffordsSplit(s: State, rowLimit: nat, a: Cost, b: Cost, t: State)
    requires Affords(s, rowLimit, Then(a, b)) && Extends(s, t)
    ensures Affords(s, rowLimit, a)
    ensures Charged(s, a, t) ==> Affords(t, rowLimit, b)
  {
  }

  lemma {:induction false} NeedPrefix(a: seq<Member>, b: seq<Member>)
    ensures NeedProps(a) <= NeedProps(a + b)
    decreases |b|
  {
    if b == [] {
      assert a + b == a;
    } else {
      var n := |b| - 1;
      NeedPrefix(a, b[..n]);
      assert (a + b)[..|a + b| - 1] == a + b[..n];
    }
  }

  lemma {:induction false} NeedItemsPrefix(a: seq<Json>, b: seq<Json>)
    ensures NeedItems(a) <= NeedItems(a + b)
    decreases |b|
  {
    if b == [] {
      assert a + b == a;
    } else {
      var n := |b| - 1;
      NeedItemsPrefix(a, b[..n]);
      assert (a + b)[..|a + b| - 1] == a + b[..n];
    }
  }

  // ----- no object of a whole value is its own ancestor -----

  /** Somewhere, `a` has a whole form that takes more than `n` visits. */
  ghost predicate Heavier(w: World, rbm: bool, a: Ref, n: nat) {
    exists d: nat, diag: bool, shared: bool ::
      WholeValue(w, VRef(a), d, diag, rbm, shared).Full? && WholeValue(w, VRef(a), d, diag, rbm, shared).cost.visits > n
  }

  ghost predicate Clear(w: World, rbm: bool, ancestors: set<Ref>, n: nat) {
    forall a :: a in ancestors ==> Heavier(w, rbm, a, n)
  }

  /** A value without references meets no ancestor. */
  ghost predicate Safe(free: bool, w: World, rbm: bool, ancestors: set<Ref>, n: nat) {
    free || Clear(w, rbm, ancestors, n)
  }

  lemma SafeBelow(free: bool, w: World, rbm: bool, ancestors: set<Ref>, n: nat, m: nat)
    requires Safe(free, w, rbm, ancestors, n) && m <= n
    ensures Safe(free, w, rbm, ancestors, m)
  {
    hide Clear;
    if !free { ClearBelow(w, rbm, ancestors, n, m); }
  }

  lemma SafeToo(free: bool, free': bool, w: World, rbm: bool, ancestors: set<Ref>, n: nat)
    requires Safe(free, w, rbm, ancestors, n) && (free ==> free')
    ensures Safe(free', w, rbm, ancestors, n)
  {
    hide Clear;
  }

  // ----- values without references -----

  predicate RefFree(v: Value) {
    match v
    case VRef(_) => false
    case VFresh(node) => RefFreeNode(node)
    case _ => true
  }

  predicate RefFreeSlot(slot: Slot) { slot.Data? ==> RefFree(slot.value) }

  predicate RefFreeElems(elems: seq<Element>) {
    forall i :: 0 <= i < |elems| ==> RefFreeElem(elems[i])
  }

  predicate RefFreeElem(e: Element) { e.Elem? ==> RefFreeSlot(e.slot) }

  predicate RefFreeProps(props: seq<Property>) {
    forall i :: 0 <= i < |props| ==> RefFreeSlot(props[i].slot)
  }

  predicate RefFreeNode(node: Node) {
    && RefFreeProps(node.props)
    && match node.kind
       case KArray(elems) => RefFreeElems(elems)
       case KError(message, name, cause) => RefFree(message) && RefFree(name) && (cause.Some? ==> RefFree(cause.value))
       case KExotic(Returns(value)) => RefFree(value)
       case _ => true
  }

  lemma {:induction false} LookupFree(props: seq<Property>, key: Str)
    requires RefFreeProps(props) && Lookup(props, key).Some?
    ensures RefFreeSlot(Lookup(props, key).value)
  {
    hide RefFreeSlot;
    if props[0].key != key { LookupFree(props[1..], key); }
  }

  lemma ValueFree(v: Value)
    ensures v.VRef? ==> !RefFree(v)
    ensures v.VFresh? ==> RefFree(v) == RefFreeNode(v.node)
  {
  }

  lemma OwnFree(node: Node, key: Str)
    requires RefFreeNode(node) && Lookup(node.props, key).Some? && Lookup(node.props, key).value.Data?
    ensures RefFree(Lookup(node.props, key).value.value)
  {
    hide RefFree;
    LookupFree(node.props, key);
  }

  lemma ContentFree(node: Node)
    requires RefFreeNode(node)
    ensures node.kind.KArray? ==> RefFreeElems(node.kind.elems)
    ensures node.kind.KExotic? && node.kind.toJson.Returns? ==> RefFree(node.kind.toJson.value)
    ensures node.kind.KError? ==> RefFreeNode(ErrorRecord(node.kind.message, node.kind.name, node.kind.cause))
  {
    if node.kind.KError? { RecordFree(node.kind.message, node.kind.name, node.kind.cause); }
  }

  lemma RecordFree(message: Value, name: Value, cause: Option<Value>)
    requires RefFree(message) && RefFree(name) && (cause.Some? ==> RefFree(cause.value))
    ensures RefFreeNode(ErrorRecord(message, name, cause))
  {
    hide Ascii, RefFreeSlot, RefFree;
    DataFree(message);
    DataFree(name);
    if cause.Some? { DataFree(cause.value); }
    var props := ErrorRecord(message, name, cause).props;
    assert props[0].slot == Data(message) && props[1].slot == Data(name);
    assert |props| == 3 ==> props[2].slot == Data(cause.value);
  }

  lemma EntryFree(elems: seq<Element>)
    requires RefFreeElems(elems) && elems != []
    ensures RefFree(EntryOf(elems[0])) && RefFreeElems(elems[1..])
  {
    hide Ascii;
    var e := elems[0];
    assert RefFreeElem(e);
    if e.Elem? && e.slot.Data? {
      assert RefFreeSlot(e.slot);
      assert RefFree(e.slot.value);
    }
  }

  /** JSON holds no references. */
  lemma {:induction false} EmbedFree(j: Json)
    ensures RefFree(Embed(j))
    decreases j
  {
    hide RefFreeSlot;
    match j
    case JArray(items) =>
      var elems := DataElems(items);
      forall i | 0 <= i < |elems| ensures RefFreeElem(elems[i]) { EmbedFree(items[i]); DataFree(Embed(items[i])); }
      assert RefFreeElems(elems) && RefFreeProps([]);
      assert RefFreeNode(Node(KArray(elems), []));
    case JObject(members) =>
      var props := DataProps(members);
      forall i | 0 <= i < |props| ensures RefFreeSlot(props[i].slot) {
        EmbedFree(members[i].value);
        DataFree(Embed(members[i].value));
      }
      assert RefFreeProps(props);
      assert RefFreeNode(Node(KPlain, props));
    case _ =>
  }

  lemma DataFree(v: Value)
    requires RefFree(v)
    ensures RefFreeSlot(Data(v))
  {
  }

  lemma ClearBelow(w: World, rbm: bool, ancestors: set<Ref>, n: nat, m: nat)
    requires Clear(w, rbm, ancestors, n) && m <= n
    ensures Clear(w, rbm, ancestors, m)
  {
    forall a | a in ancestors ensures Heavier(w, rbm, a, m) {
      assert Heavier(w, rbm, a, n);
    }
  }

  predicate Same(x: Whole, y: Whole) {
    x.Full? && y.Full? ==> x.json == y.json && x.cost.visits == y.cost.visits
  }

  predicate SameList<T(==)>(x: WholeList<T>, y: WholeList<T>) {
    x.FullList? && y.FullList? ==> x.list == y.list && x.cost.visits == y.cost.visits
  }

  /** The whole form does not depend on where the value is met. */
  lemma {:induction false} ValueStable(w: World, v: Value, d: nat, diag: bool, shared: bool, e: nat, diag': bool,
                                       shared': bool, rbm: bool)
    ensures Same(WholeValue(w, v, d, diag, rbm, shared), WholeValue(w, v, e, diag', rbm, shared'))
    decreases Room(d), 6
  {
    hide Ascii, WholeNode;
    if d <= MAX_RESULT_DEPTH && e <= MAX_RESULT_DEPTH {
      match v
      case VRef(r) => NodeStable(w, w.heap(r), d, diag, shared, e, diag', shared', rbm);
      case VFresh(node) => NodeStable(w, node, d, diag, shared, e, diag', shared', rbm);
      case _ =>
    }
  }

  lemma {:induction false} NodeStable(w: World, node: Node, d: nat, diag: bool, shared: bool, e: nat, diag': bool,
                                      shared': bool, rbm: bool)
    ensures Same(WholeNode(w, node, d, diag, rbm, shared), WholeNode(w, node, e, diag', rbm, shared'))
    decreases Room(d), 5
  {
    hide Ascii, WholeTable, WholeRows, WholeObject, WholeValue, HasArrayMetadata;
    match node.kind
    case KArray(elems) =>
      TableStable(w, elems, node, d, diag, shared, e, diag', shared', rbm);
      RowsStable(w, elems, d, diag, shared, e, diag', shared', rbm);
    case KPlain => ObjectStable(w, node, d, diag, e, diag', rbm);
    case KError(message, name, cause) => ObjectStable(w, ErrorRecord(message, name, cause), d, diag, e, diag', rbm);
    case KExotic(Returns(value)) =>
      if d < MAX_RESULT_DEPTH { ValueStable(w, value, d + 1, diag, shared, e + 1, diag', shared', rbm); }
    case _ =>
  }

  lemma {:induction false} ObjectStable(w: World, node: Node, d: nat, diag: bool, e: nat, diag': bool, rbm: bool)
    ensures Same(WholeObject(w, node, d, diag, rbm), WholeObject(w, node, e, diag', rbm))
    decreases Room(d), 4
  {
    hide Ascii, WholeProps, OtherKeys;
    PropsStable(w, node, PRIORITY_KEYS, d, diag, e, diag', rbm);
    PropsStable(w, node, OtherKeys(node), d, diag, e, diag', rbm);
  }

  lemma {:induction false} PropsStable(w: World, node: Node, keys: seq<Str>, d: nat, diag: bool, e: nat, diag': bool,
                                       rbm: bool)
    ensures SameList(WholeProps(w, node, keys, d, diag, rbm), WholeProps(w, node, keys, e, diag', rbm))
    decreases Room(d), 3, |keys|
  {
    hide Ascii, WholeProp;
    if keys != [] {
      PropStable(w, node, keys[0], d, diag, e, diag', rbm);
      PropsStable(w, node, keys[1..], d, diag, e, diag', rbm);
    }
  }

  lemma {:induction false} PropStable(w: World, node: Node, key: Str, d: nat, diag: bool, e: nat, diag': bool,
                                      rbm: bool)
    ensures SameList(WholeProp(w, node, key, d, diag, rbm), WholeProp(w, node, key, e, diag', rbm))
    decreases Room(d), 2
  {
    hide Ascii, WholeOwn, StoredExceptions, Lookup, OPTIONAL_METADATA_KEYS;
    var slot := Lookup(node.props, key);
    if slot.Some? && slot.value.Data? && d <= MAX_RESULT_DEPTH && e <= MAX_RESULT_DEPTH {
      OwnStable(w, key, slot.value.value, d, diag, e, diag', rbm);
    }
  }

  lemma {:induction false} OwnStable(w: World, key: Str, v: Value, d: nat, diag: bool, e: nat, diag': bool, rbm: bool)
    requires d <= MAX_RESULT_DEPTH && e <= MAX_RESULT_DEPTH
    ensures SameList(WholeOwn(w, key, v, d, diag, rbm), WholeOwn(w, key, v, e, diag', rbm))
    decreases Room(d), 1
  {
    hide Ascii, WholeValue, ErrorVisits, IsErrorMetadata, SharedKey, Then, Appending, FREE;
    var shared := SharedKey(w, key, v);
    ValueStable(w, v, d + 1, diag || IsErrorMetadata(key), shared, e + 1, diag' || IsErrorMetadata(key), shared, rbm);
    var x := WholeValue(w, v, d + 1, diag || IsErrorMetadata(key), rbm, shared);
    var y := WholeValue(w, v, e + 1, diag' || IsErrorMetadata(key), rbm, shared);
    if ErrorVisits(w, key, v).Some? {
      if x.Full? { OwnVisits(w, key, v, x.json, x.cost, ErrorVisits(w, key, v).value); }
      if y.Full? { OwnVisits(w, key, v, y.json, y.cost, ErrorVisits(w, key, v).value); }
    }
  }

  lemma OwnVisits(w: World, key: Str, v: Value, j: Json, c: Cost, n: nat)
    ensures Then(FREE.(visits := n), Then(c, Appending(w, key, v, j))).visits == n + c.visits
  {
    hide Ascii, Reports, ReportsTruncation, TraceThen;
  }

  lemma {:induction false} TableStable(w: World, elems: seq<Element>, node: Node, d: nat, diag: bool, shared: bool,
                                       e: nat, diag': bool, shared': bool, rbm: bool)
    ensures Same(WholeTable(w, elems, node, d, diag, rbm, shared), WholeTable(w, elems, node, e, diag', rbm, shared'))
    decreases Room(d), 4
  {
    hide Ascii, WholeProps, WholeRows, MetadataBeforeRows, MetadataAfterRows;
    PropsStable(w, node, MetadataBeforeRows(rbm), d, diag, e, diag', rbm);
    RowsStable(w, elems, d + 1, diag, shared, e + 1, diag', shared', rbm);
    PropsStable(w, node, MetadataAfterRows(rbm), d, diag, e, diag', rbm);
  }

  lemma {:induction false} RowsStable(w: World, elems: seq<Element>, d: nat, diag: bool, shared: bool, e: nat,
                                      diag': bool, shared': bool, rbm: bool)
    ensures Same(WholeRows(w, elems, d, diag, rbm, shared), WholeRows(w, elems, e, diag', rbm, shared'))
    decreases Room(d), 2
  {
    hide WholeItems;
    ItemsStable(w, elems, d, diag, e, diag', rbm);
  }

  lemma {:induction false} ItemsStable(w: World, elems: seq<Element>, d: nat, diag: bool, e: nat, diag': bool,
                                       rbm: bool)
    ensures SameList(WholeItems(w, elems, d, diag, rbm), WholeItems(w, elems, e, diag', rbm))
    decreases Room(d), 1, |elems|
  {
    hide WholeValue, IsPlain, EntryOf;
    if elems != [] {
      if d < MAX_RESULT_DEPTH {
        ValueStable(w, EntryOf(elems[0]), d + 1, diag, false, e + 1, diag', false, rbm);
      }
      ItemsStable(w, elems[1..], d, diag, e, diag', rbm);
    }
  }

  lemma NotAncestor(w: World, r: Ref, depth: nat, diag: bool, rbm: bool, shared: bool, ancestors: set<Ref>)
    requires WholeValue(w, VRef(r), depth, diag, rbm, shared).Full?
    requires Clear(w, rbm, ancestors, WholeValue(w, VRef(r), depth, diag, rbm, shared).cost.visits)
    ensures {r} * ancestors == {}
  {
    hide WholeValue;
    if r in ancestors {
      var n := WholeValue(w, VRef(r), depth, diag, rbm, shared).cost.visits;
      assert Heavier(w, rbm, r, n);
      var d: nat, diag': bool, shared': bool :|
        WholeValue(w, VRef(r), d, diag', rbm, shared').Full?
            && WholeValue(w, VRef(r), d, diag', rbm, shared').cost.visits > n;
      ValueStable(w, VRef(r), depth, diag, shared, d, diag', shared', rbm);
      assert false;
    }
  }

  lemma ClearEnter(w: World, r: Ref, depth: nat, diag: bool, rbm: bool, shared: bool, ancestors: set<Ref>, n: nat)
    requires WholeValue(w, VRef(r), depth, diag, rbm, shared).Full?
    requires n < WholeValue(w, VRef(r), depth, diag, rbm, shared).cost.visits
    requires Clear(w, rbm, ancestors, WholeValue(w, VRef(r), depth, diag, rbm, shared).cost.visits)
    ensures Clear(w, rbm, ancestors + {r}, n)
  {
    hide WholeValue;
    ClearBelow(w, rbm, ancestors, WholeValue(w, VRef(r), depth, diag, rbm, shared).cost.visits, n);
    assert Heavier(w, rbm, r, n);
  }

  // ----- leaves -----

  lemma FittedComplete(text: Str, budget: int, s: State, rowLimit: nat)
    requires StringSize(text) <= budget && |text| <= s.limits.maxStringChars
    ensures Intact(s, Leaf(JString(text), |text|), Fitted(text, budget, s))
  {
    hide FitString, StringSize;
    FitStringSound(text, budget, s.limits.maxStringChars);
    assert s.reasons + {} + {} == s.reasons;
  }

  lemma ChargeComplete(s: State, x: Whole, o: Out)
    requires Intact(s.(visitedNodes := s.visitedNodes + 1), x, o)
    ensures Intact(s, Charge(VISIT, x), o)
  {
    hide Noted, Then;
    ThenFree(x.cost);
  }

  lemma {:induction false} ScanOccurrencesComplete(w: World, node: Node, keys: seq<Str>, s: State)
    requires Left(s) >= 0 && OccurrenceVisits(w, node, keys).Some?
    requires s.visitedNodes + OccurrenceVisits(w, node, keys).value <= s.limits.maxResultNodes
    ensures ScanOccurrences(w, node, keys, s)
         == (s.(visitedNodes := s.visitedNodes + OccurrenceVisits(w, node, keys).value), Occurs(w, node, keys))
    decreases |keys|
  {
    if keys != [] {
      var slot := Lookup(node.props, keys[0]);
      if slot.None? || (IsArray(w, slot.value.value) && NodeOf(w, slot.value.value).value.kind.elems == []) {
        ScanOccurrencesComplete(w, node, keys[1..], s.(visitedNodes := s.visitedNodes + 1));
      }
    }
  }

  function Inspection(w: World, key: Str, v: Value): Cost
    requires ErrorVisits(w, key, v).Some?
  {
    FREE.(visits := ErrorVisits(w, key, v).value)
  }

  lemma InspectComplete(w: World, key: Str, slot: Slot, s: State)
    requires Left(s) >= 0 && slot.Data? && ErrorVisits(w, key, slot.value).Some?
    requires s.visitedNodes + ErrorVisits(w, key, slot.value).value <= s.limits.maxResultNodes
    ensures var i := Inspect(w, key, slot, s);
            && i.value == slot.value && Unhurt(s, Inspection(w, key, slot.value), i.st)
            && i.errorKey == Reports(w, key, slot.value)
  {
    hide Ascii, ScanOccurrences, OccurrenceVisits, IsErrorKey, Occurs;
    if IsPlain(w, slot.value) && IsErrorKey(key) && key == FIELD_EXCEPTIONS {
      ScanOccurrencesComplete(w, NodeOf(w, slot.value).value, Keys(NodeOf(w, slot.value).value.props), s);
    }
  }

  // ----- the builders -----

  lemma {:induction false} BuildValueComplete(w: World, v: Value, budget: int, s: State, depth: nat, rowLimit: nat,
                                              shared: bool)
    requires Left(s) >= 0
    requires var x := WholeValue(w, v, depth, s.inDiagnostics, s.rowsBeforeMetadata, shared);
             x.Full? && Need(x.json) <= budget && Affords(s, rowLimit, x.cost)
             && Safe(RefFree(v), w, s.rowsBeforeMetadata, s.ancestors, x.cost.visits)
    ensures Intact(s, WholeValue(w, v, depth, s.inDiagnostics, s.rowsBeforeMetadata, shared),
                   BuildValue(w, v, budget, s, depth, rowLimit, shared))
    decreases Left(s), 0
  {
    hide Ascii, BuildNode, WholeNode, Fitted, Unsupported, Primitive, StringSize, Clear, RefFree, RefFreeNode,
         RefFreeElems, Intact, Affords, Then;
    var x := WholeValue(w, v, depth, s.inDiagnostics, s.rowsBeforeMetadata, shared);
    var o := BuildValue(w, v, budget, s, depth, rowLimit, shared);
    var t := s.(visitedNodes := s.visitedNodes + 1);
    ValueFree(v);
    match v
    case VString(text) => TextComplete(text, budget, s, rowLimit);
    case VBigInt(text) => TextComplete(text, budget, s, rowLimit);
    case VNull => PrimitiveComplete(JNull, budget, s, rowLimit);
    case VBool(b) => PrimitiveComplete(JBool(b), budget, s, rowLimit);
    case VNum(num) => PrimitiveComplete(JNumber(num), budget, s, rowLimit);
    case VRef(r) =>
      var y := WholeNode(w, w.heap(r), depth, s.inDiagnostics, s.rowsBeforeMetadata, shared);
      AffordsVisit(s, rowLimit, y.cost);
      NotAncestor(w, r, depth, s.inDiagnostics, s.rowsBeforeMetadata, shared, s.ancestors);
      ClearEnter(w, r, depth, s.inDiagnostics, s.rowsBeforeMetadata, shared, s.ancestors, y.cost.visits);
      BuildNodeComplete(w, {r}, w.heap(r), budget, t, depth, rowLimit, shared);
      ChargeComplete(s, y, o);
    case VFresh(node) =>
      var y := WholeNode(w, node, depth, s.inDiagnostics, s.rowsBeforeMetadata, shared);
      AffordsVisit(s, rowLimit, y.cost);
      SafeBelow(RefFree(v), w, s.rowsBeforeMetadata, s.ancestors, x.cost.visits, y.cost.visits);
      assert s.ancestors + {} == s.ancestors;
      BuildNodeComplete(w, {}, node, budget, t, depth, rowLimit, shared);
      ChargeComplete(s, y, o);
    case _ =>
  }

  lemma AffordsVisit(s: State, rowLimit: nat, c: Cost)
    requires Affords(s, rowLimit, Then(VISIT, c))
    ensures s.visitedNodes < s.limits.maxResultNodes
    ensures Affords(s.(visitedNodes := s.visitedNodes + 1), rowLimit, c) && Then(VISIT, c).visits == c.visits + 1
  {
  }

  lemma TextComplete(text: Str, budget: int, s: State, rowLimit: nat)
    requires StringSize(text) <= budget && Affords(s, rowLimit, Then(VISIT, Leaf(JString(text), |text|).cost))
    ensures s.visitedNodes < s.limits.maxResultNodes
    ensures Intact(s, Charge(VISIT, Leaf(JString(text), |text|)),
                   Fitted(text, budget, s.(visitedNodes := s.visitedNodes + 1)))
  {
    hide Fitted, StringSize, Intact;
    var t := s.(visitedNodes := s.visitedNodes + 1);
    FittedComplete(text, budget, t, rowLimit);
    ChargeComplete(s, Leaf(JString(text), |text|), Fitted(text, budget, t));
  }

  lemma PrimitiveComplete(j: Json, budget: int, s: State, rowLimit: nat)
    requires (j.JNull? || j.JBool? || j.JNumber?) && Need(j) <= budget
             && Affords(s, rowLimit, Then(VISIT, Leaf(j, 0).cost))
    ensures s.visitedNodes < s.limits.maxResultNodes
    ensures Intact(s, Charge(VISIT, Leaf(j, 0)), Primitive(j, budget, s.(visitedNodes := s.visitedNodes + 1)))
  {
    hide Then, Size;
    assert Need(j) == Size(j);
    var c := Leaf(j, 0).cost;
    ThenFree(c);
    hide Need;
  }

  lemma {:induction false} BuildNodeComplete(w: World, id: set<Ref>, node: Node, budget: int, s: State, depth: nat,
                                             rowLimit: nat, shared: bool)
    requires Left(s) >= 0 && depth <= MAX_RESULT_DEPTH && id * s.ancestors == {}
    requires var x := WholeNode(w, node, depth, s.inDiagnostics, s.rowsBeforeMetadata, shared);
             x.Full? && Need(x.json) <= budget && Affords(s, rowLimit, x.cost)
             && Safe(RefFreeNode(node), w, s.rowsBeforeMetadata, s.ancestors + id, x.cost.visits)
    ensures Intact(s, WholeNode(w, node, depth, s.inDiagnostics, s.rowsBeforeMetadata, shared),
                   BuildNode(w, id, node, budget, s, depth, rowLimit, shared))
    decreases Left(s), 9
  {
    hide Ascii, BuildArray, BuildObject, BuildError, BuildExotic, Fitted, Unsupported, WholeTable, WholeRows,
         WholeObject,
         WholeValue, HasArrayMetadata, Clear, RefFree, RefFreeNode, RefFreeElems, StringSize;
    if RefFreeNode(node) { ContentFree(node); }
    match node.kind
    case KDate(Some(iso)) => FittedComplete(iso, budget, s, rowLimit);
    case KArray(elems) => BuildArrayComplete(w, id, elems, node, budget, s, depth, rowLimit, shared);
    case KPlain => BuildObjectComplete(w, id, node, budget, s, depth, rowLimit);
    case KError(message, name, cause) =>
      BuildErrorComplete(w, id, ErrorRecord(message, name, cause), budget, s.(hasErrors := true), depth, rowLimit);
    case KExotic(Returns(value)) => BuildExoticComplete(w, id, value, budget, s, depth, rowLimit, shared);
    case _ =>
  }

  lemma {:induction false} BuildErrorComplete(w: World, id: set<Ref>, record: Node, budget: int, s: State, depth: nat,
                                              rowLimit: nat)
    requires Left(s) >= 0 && depth <= MAX_RESULT_DEPTH && id * s.ancestors == {}
    requires var x := AsError(WholeObject(w, record, depth, s.inDiagnostics, s.rowsBeforeMetadata));
             x.Full? && Need(x.json) <= budget && Affords(s, rowLimit, x.cost)
             && Safe(RefFreeNode(record), w, s.rowsBeforeMetadata, s.ancestors + id, x.cost.visits)
    ensures Intact(s, AsError(WholeObject(w, record, depth, s.inDiagnostics, s.rowsBeforeMetadata)),
                   BuildError(w, id, record, budget, s, depth, rowLimit))
    decreases Left(s), 8
  {
    hide Ascii, BuildObject, Unsupported, WholeObject, Clear, RefFree, RefFreeNode, RefFreeElems, Affords, Then, Unhurt,
         Remember, Need;
    var x := WholeObject(w, record, depth, s.inDiagnostics, s.rowsBeforeMetadata);
    var t := Enter(s, id);
    assert t.ancestors + {} == s.ancestors + id;
    NoteCost(s, rowLimit, x.cost, ERROR, x.json);
    AffordsShift(s, t, rowLimit, x.cost);
    BuildObjectComplete(w, {}, record, budget, t, depth, rowLimit);
    var o := BuildObject(w, {}, record, budget, t, depth, rowLimit);
    var u := Remember(o.st, ERROR, x.json);
    NoteUnhurt(o.st, ERROR, x.json);
    UnhurtThen(t, x.cost, o.st, Note(ERROR, x.json), u);
    UnhurtShift(t, s, Then(x.cost, Note(ERROR, x.json)), u, Leave(u, id));
  }

  /** A note costs nothing. */
  lemma NoteCost(s: State, rowLimit: nat, c: Cost, key: Str, j: Json)
    ensures Then(c, Note(key, j)).visits == c.visits
    ensures Affords(s, rowLimit, Then(c, Note(key, j))) ==> Affords(s, rowLimit, c)
  {
    hide TraceThen;
  }

  lemma NoteUnhurt(s: State, key: Str, j: Json)
    ensures Unhurt(s, Note(key, j), Remember(s, key, j))
  {
    NotedOne(s.diagnostics, Member(key, j));
    assert s.reasons + {} == s.reasons;
    hide Noted;
  }

  lemma NotedOne(d: seq<Member>, m: Member)
    ensures Noted(d, [m]) == if |d| >= MAX_ERROR_DIAGNOSTICS then d else d + [m]
  {
    if |d| < MAX_ERROR_DIAGNOSTICS { assert Noted(d + [m], [m][1..]) == d + [m]; }
  }

  lemma {:induction false} BuildExoticComplete(w: World, id: set<Ref>, value: Value, budget: int, s: State, depth: nat,
                                               rowLimit: nat, shared: bool)
    requires Left(s) >= 0 && depth < MAX_RESULT_DEPTH && id * s.ancestors == {}
    requires var x := WholeValue(w, value, depth + 1, s.inDiagnostics, s.rowsBeforeMetadata, shared);
             x.Full? && Need(x.json) <= budget && Affords(s, rowLimit, x.cost)
             && Safe(RefFree(value), w, s.rowsBeforeMetadata, s.ancestors + id, x.cost.visits)
    ensures Intact(s, WholeValue(w, value, depth + 1, s.inDiagnostics, s.rowsBeforeMetadata, shared),
                   BuildExotic(w, id, Returns(value), budget, s, depth, rowLimit, shared))
    decreases Left(s), 7
  {
    hide Ascii, BuildValue, Unsupported, WholeValue, Clear, RefFree, RefFreeNode, RefFreeElems;
    BuildValueComplete(w, value, budget, Enter(s, id), depth + 1, rowLimit, shared);
  }

  lemma {:induction false} BuildObjectComplete(w: World, id: set<Ref>, node: Node, budget: int, s: State, depth: nat,
                                               rowLimit: nat)
    requires Left(s) >= 0 && depth <= MAX_RESULT_DEPTH && id * s.ancestors == {}
    requires var x := WholeObject(w, node, depth, s.inDiagnostics, s.rowsBeforeMetadata);
             x.Full? && Need(x.json) <= budget && Affords(s, rowLimit, x.cost)
             && Safe(RefFreeNode(node), w, s.rowsBeforeMetadata, s.ancestors + id, x.cost.visits)
    ensures Intact(s, WholeObject(w, node, depth, s.inDiagnostics, s.rowsBeforeMetadata),
                   BuildObject(w, id, node, budget, s, depth, rowLimit))
    decreases Left(s), 7
  {
    hide Ascii, BuildKeys, Unsupported, OtherKeys, WholeProps, Extends, Fresh, Safe, RefFree, RefFreeNode, RefFreeElems,
         NeedProps, Affords, Unhurt, Then,
         PRIORITY_KEYS, AccOk;
    EmptyAccOk(budget);
    var t := Enter(s, id).(retainedNodes := s.retainedNodes + 1);
    var x := WholeProps(w, node, PRIORITY_KEYS, depth, s.inDiagnostics, s.rowsBeforeMetadata);
    var y := WholeProps(w, node, OtherKeys(node), depth, s.inDiagnostics, s.rowsBeforeMetadata);
    ObjectKeysFresh(w, node, depth, s.inDiagnostics, s.rowsBeforeMetadata);
    NeedPrefix(x.list, y.list);
    assert [] + x.list == x.list;
    var p := BuildKeys(w, node, PRIORITY_KEYS, false, EMPTY_ACC, budget, t, depth, rowLimit);
    BuildKeysSound(w, node, PRIORITY_KEYS, false, EMPTY_ACC, budget, t, depth, rowLimit);
    KeepsContext(t, p.st);
    AffordsShift(s, t, rowLimit, Then(x.cost, y.cost));
    AffordsSplit(t, rowLimit, x.cost, y.cost, p.st);
    TwoVisits(x.cost, y.cost);
    SafeBelow(RefFreeNode(node), w, s.rowsBeforeMetadata, t.ancestors, Then(x.cost, y.cost).visits, x.cost.visits);
    SafeBelow(RefFreeNode(node), w, s.rowsBeforeMetadata, t.ancestors, Then(x.cost, y.cost).visits, y.cost.visits);
    BuildKeysComplete(w, node, PRIORITY_KEYS, false, EMPTY_ACC, budget, t, depth, rowLimit);
    assert Charged(t, x.cost, p.st) by { UnhurtCharged(t, x.cost, p.st); }
    var q := BuildKeys(w, node, OtherKeys(node), true, p.acc, budget, p.st, depth, rowLimit);
    BuildKeysComplete(w, node, OtherKeys(node), true, p.acc, budget, p.st, depth, rowLimit);
    UnhurtThen(t, x.cost, p.st, y.cost, q.st);
    UnhurtShift(t, s, Then(x.cost, y.cost), q.st, Leave(q.st, id));
  }

  lemma TwoVisits(a: Cost, b: Cost)
    ensures Then(a, b).visits == a.visits + b.visits
  {
  }

  lemma AffordsShift(s: State, t: State, rowLimit: nat, c: Cost)
    requires Affords(s, rowLimit, c)
    requires t.limits == s.limits && t.visitedNodes == s.visitedNodes && t.remainingRows == s.remainingRows
    ensures Affords(t, rowLimit, c)
  {
  }

  lemma UnhurtCharged(s: State, c: Cost, t: State)
    requires Unhurt(s, c, t)
    ensures Charged(s, c, t)
  {
  }

  lemma UnhurtShift(t: State, s: State, c: Cost, u: State, v: State)
    requires Unhurt(t, c, u)
    requires t.visitedNodes == s.visitedNodes && t.remainingRows == s.remainingRows && t.reasons == s.reasons
    requires t.omittedProperties == s.omittedProperties
    requires u.visitedNodes == v.visitedNodes && u.remainingRows == v.remainingRows && u.reasons == v.reasons
    requires u.omittedProperties == v.omittedProperties
    requires t.maximumArrayRows == s.maximumArrayRows && t.diagnostics == s.diagnostics
    requires u.maximumArrayRows == v.maximumArrayRows && u.diagnostics == v.diagnostics
    ensures Unhurt(s, c, v)
  {
  }

  ghost predicate IntactProps(s: State, acc: Acc, x: WholeList<Member>, o: PropOut) {
    x.FullList? && o.ok && o.acc.props == acc.props + x.list && Unhurt(s, x.cost, o.st)
  }

  /** Everything that completeness asks of a list of properties. */
  ghost predicate Ready(free: bool, w: World, s: State, budget: int, rowLimit: nat, keys: seq<Str>, acc: Acc,
                        x: WholeList<Member>) {
    && Left(s) >= 0 && AccOk(acc, budget) && Fresh(keys, acc.props)
    && x.FullList? && NeedProps(acc.props + x.list) <= budget && Affords(s, rowLimit, x.cost)
    && Safe(free, w, s.rowsBeforeMetadata, s.ancestors, x.cost.visits)
  }

  lemma {:induction false} BuildKeysComplete(w: World, node: Node, keys: seq<Str>, stop: bool, acc: Acc, budget: int,
                                             s: State, depth: nat, rowLimit: nat)
    requires depth <= MAX_RESULT_DEPTH
    requires Ready(RefFreeNode(node), w, s, budget, rowLimit, keys, acc,
                   WholeProps(w, node, keys, depth, s.inDiagnostics, s.rowsBeforeMetadata))
    ensures IntactProps(s, acc, WholeProps(w, node, keys, depth, s.inDiagnostics, s.rowsBeforeMetadata),
                        BuildKeys(w, node, keys, stop, acc, budget, s, depth, rowLimit))
    decreases Left(s), 6, |keys|
  {
    hide BuildProperty, WholeProp, Extends, AccOk, NeedProps, Affords, Safe, RefFree, RefFreeNode, RefFreeElems, Fresh;
    if keys == [] {
      assert acc.props + [] == acc.props;
    } else {
      var x := WholeProp(w, node, keys[0], depth, s.inDiagnostics, s.rowsBeforeMetadata);
      var y := WholeProps(w, node, keys[1..], depth, s.inDiagnostics, s.rowsBeforeMetadata);
      var p := BuildProperty(w, node, keys[0], acc, budget, s, depth, rowLimit);
      BuildPropertySound(w, node, keys[0], acc, budget, s, depth, rowLimit);
      KeepsContext(s, p.st);
      WholePropKey(w, node, keys[0], depth, s.inDiagnostics, s.rowsBeforeMetadata);
      FreshRest(keys, acc.props, x.list);
      assert acc.props + x.list + y.list == acc.props + (x.list + y.list);
      NeedPrefix(acc.props + x.list, y.list);
      AffordsSplit(s, rowLimit, x.cost, y.cost, p.st);
      SafeBelow(RefFreeNode(node), w, s.rowsBeforeMetadata, s.ancestors, Then(x.cost, y.cost).visits, x.cost.visits);
      SafeBelow(RefFreeNode(node), w, s.rowsBeforeMetadata, s.ancestors, Then(x.cost, y.cost).visits, y.cost.visits);
      BuildPropertyComplete(w, node, keys[0], acc, budget, s, depth, rowLimit);
      BuildKeysComplete(w, node, keys[1..], stop, p.acc, budget, p.st, depth, rowLimit);
      UnhurtThen(s, x.cost, p.st, y.cost,
                 BuildKeys(w, node, keys[1..], stop, p.acc, budget, p.st, depth, rowLimit).st);
    }
  }

  lemma {:induction false} BuildPropertyComplete(w: World, source: Node, key: Str, acc: Acc, budget: int, s: State,
                                                 depth: nat, rowLimit: nat)
    requires depth <= MAX_RESULT_DEPTH
    requires Ready(RefFreeNode(source), w, s, budget, rowLimit, [key], acc,
                   WholeProp(w, source, key, depth, s.inDiagnostics, s.rowsBeforeMetadata))
    ensures IntactProps(s, acc, WholeProp(w, source, key, depth, s.inDiagnostics, s.rowsBeforeMetadata),
                        BuildProperty(w, source, key, acc, budget, s, depth, rowLimit))
    decreases Left(s), 5
  {
    hide Ascii, BuildStored, BuildOwn, StoredExceptions, StringSize, PropsSize, WholeOwn, Fresh, NeedProps, Affords,
         Clear, RefFree, RefFreeNode, RefFreeElems;
    var slot := Lookup(source.props, key);
    var x := WholeProp(w, source, key, depth, s.inDiagnostics, s.rowsBeforeMetadata);
    assert acc.props + [] == acc.props;
    if slot.Some? && slot.value.Data?
        && x == WholeOwn(w, key, slot.value.value, depth, s.inDiagnostics, s.rowsBeforeMetadata) {
      WholeOwnMember(w, key, slot.value.value, depth, s.inDiagnostics, s.rowsBeforeMetadata);
      if RefFreeNode(source) { OwnFree(source, key); }
      NeedOfProperty(acc, key, x.list[0].value, budget);
      var available := budget - acc.byteLength - CommaSize(acc.props) - 1;
      BuildOwnComplete(w, source, key, slot.value, acc, budget, available - StringSize(key), s, depth, rowLimit);
    }
  }

  lemma WholeOwnMember(w: World, key: Str, v: Value, depth: nat, diag: bool, rbm: bool)
    requires depth <= MAX_RESULT_DEPTH && WholeOwn(w, key, v, depth, diag, rbm).FullList?
    ensures var x := WholeOwn(w, key, v, depth, diag, rbm);
            x.list == [Member(key, x.list[0].value)]
  {
    hide WholeValue, ErrorVisits, IsErrorMetadata, SharedKey;
  }

  /** The need of a property leaves room for its key and at least two bytes of value. */
  lemma NeedOfProperty(acc: Acc, key: Str, j: Json, budget: int)
    requires AccOk(acc, budget) && NeedProps(acc.props + [Member(key, j)]) <= budget
    ensures var available := budget - acc.byteLength - CommaSize(acc.props) - 1;
            available >= 4 && StringSize(key) <= available - 2 && Need(j) <= available - StringSize(key)
  {
    hide Need, PropsSize;
    var props := acc.props + [Member(key, j)];
    assert props[..|acc.props|] == acc.props && props[|acc.props|] == Member(key, j);
  }

  lemma {:induction false} BuildOwnComplete(w: World, source: Node, key: Str, slot: Slot, acc: Acc, budget: int,
                                            childBudget: int, s: State, depth: nat, rowLimit: nat)
    requires childBudget >= 2 && depth <= MAX_RESULT_DEPTH && slot.Data? && !(!s.inDiagnostics && key == EID_DATA)
    requires childBudget == budget - acc.byteLength - CommaSize(acc.props) - 1 - StringSize(key)
    requires Ready(RefFree(slot.value), w, s, budget, rowLimit, [key], acc,
                   WholeOwn(w, key, slot.value, depth, s.inDiagnostics, s.rowsBeforeMetadata))
    requires Need(WholeOwn(w, key, slot.value, depth, s.inDiagnostics, s.rowsBeforeMetadata).list[0].value)
             <= childBudget
    ensures IntactProps(s, acc, WholeOwn(w, key, slot.value, depth, s.inDiagnostics, s.rowsBeforeMetadata),
                        BuildOwn(w, source, key, slot, acc, budget, childBudget, s, depth, rowLimit))
    decreases Left(s), 4
  {
    hide Ascii, BuildChild, BuildEntitlement, Inspect, AddOwn, StringSize, WholeValue, Extends, Fresh, NeedProps, Need,
         PropsSize,
         ErrorVisits, Clear, RefFree, RefFreeNode, RefFreeElems, Affords, Unhurt, SharedKey, IsErrorMetadata,
         ReportsTruncation;
    var v := slot.value;
    var i := Inspect(w, key, slot, s);
    InspectExtends(w, key, slot, s);
    KeepsContext(s, i.st);
    var x := WholeValue(w, v, depth + 1, s.inDiagnostics || IsErrorMetadata(key), s.rowsBeforeMetadata,
                        SharedKey(w, key, v));
    var a, b := Inspection(w, key, v), Appending(w, key, v, x.json);
    var whole := Then(a, Then(x.cost, b));
    AffordsSplit(s, rowLimit, a, Then(x.cost, b), i.st);
    AffordsVisits(s, rowLimit, a);
    InspectComplete(w, key, slot, s);
    UnhurtCharged(s, a, i.st);
    SafeBelow(RefFree(slot.value), w, s.rowsBeforeMetadata, s.ancestors, whole.visits, x.cost.visits);
    var o := BuildChild(w, key, v, childBudget, i.st, depth, rowLimit);
    BuildChildSound(w, key, v, childBudget, i.st, depth, rowLimit);
    AffordsSplit(i.st, rowLimit, x.cost, b, o.st);
    BuildChildComplete(w, key, v, childBudget, i.st, depth, rowLimit);
    AddOwnComplete(w, acc, key, v, o.built, budget, childBudget, o.st);
    var p := AddOwn(acc, key, v, i.errorKey, o.built, budget, o.st);
    UnhurtThen(i.st, x.cost, o.st, b, p.st);
    UnhurtThen(s, a, i.st, Then(x.cost, b), p.st);
  }

  lemma AffordsVisits(s: State, rowLimit: nat, c: Cost)
    requires Affords(s, rowLimit, c)
    ensures s.visitedNodes + c.visits <= s.limits.maxResultNodes
  {
  }

  lemma {:induction false} BuildChildComplete(w: World, key: Str, v: Value, childBudget: int, s: State, depth: nat,
                                              rowLimit: nat)
    requires Left(s) >= 0
    requires var x := ChildWhole(w, key, v, s, depth);
             x.Full? && Need(x.json) <= childBudget && Affords(s, rowLimit, x.cost)
             && Safe(RefFree(v), w, s.rowsBeforeMetadata, s.ancestors, x.cost.visits)
    ensures Intact(s, ChildWhole(w, key, v, s, depth), BuildChild(w, key, v, childBudget, s, depth, rowLimit))
    decreases Left(s), 1
  {
    hide Ascii, BuildValue, WholeValue, IsErrorMetadata, SharedKey, Clear, RefFree, RefFreeNode, RefFreeElems, Need;
    var inDiagnostics := s.inDiagnostics || IsErrorMetadata(key);
    BuildValueComplete(w, v, childBudget, s.(inDiagnostics := inDiagnostics), depth + 1, rowLimit,
                       SharedKey(w, key, v));
  }

  lemma AddOwnComplete(w: World, acc: Acc, key: Str, v: Value, built: Built, budget: int, childBudget: int, s: State)
    requires built.Built? && built.byteLength <= childBudget && Fresh([key], acc.props)
    requires childBudget == budget - acc.byteLength - CommaSize(acc.props) - 1 - StringSize(key)
    ensures var p := AddOwn(acc, key, v, Reports(w, key, v), built, budget, s);
            && p.ok && p.acc.props == acc.props + [Member(key, built.value)]
            && Unhurt(s, Appending(w, key, v, built.value), p.st)
  {
    hide Ascii, Append, StringSize, Reports, Noted;
    AppendAfterBuildSucceeds(acc, key, built, budget, s);
    AppendNew(acc, key, built, budget, s);
    NotedOne(s.diagnostics, Member(key, built.value));
    NothingNoted(s.diagnostics);
    assert s.reasons + {} == s.reasons;
  }

  lemma NothingNoted(d: seq<Member>)
    ensures Noted(d, []) == d
  {
  }

  lemma {:induction false} BuildArrayComplete(w: World, id: set<Ref>, elems: seq<Element>, node: Node, budget: int,
                                              s: State, depth: nat, rowLimit: nat, shared: bool)
    requires Left(s) >= 0 && depth <= MAX_RESULT_DEPTH && id * s.ancestors == {}
    requires var x := if HasArrayMetadata(node) then WholeTable(w, elems, node, depth, s.inDiagnostics,
                                                                s.rowsBeforeMetadata, shared)
                      else WholeRows(w, elems, depth, s.inDiagnostics, s.rowsBeforeMetadata, shared);
             x.Full? && Need(x.json) <= budget && Affords(s, rowLimit, x.cost)
             && Safe(RefFreeNode(node) && RefFreeElems(elems), w, s.rowsBeforeMetadata, s.ancestors + id, x.cost.visits)
    ensures Intact(s,
                   if HasArrayMetadata(node) then WholeTable(w, elems, node, depth, s.inDiagnostics,
                                                             s.rowsBeforeMetadata, shared)
                   else WholeRows(w, elems, depth, s.inDiagnostics, s.rowsBeforeMetadata, shared),
                   BuildArray(w, id, elems, node, budget, s, depth, rowLimit, shared))
    decreases Left(s), 7
  {
    hide Ascii, BuildTable, BuildArrayRows, Unsupported, HasArrayMetadata, WholeTable, WholeRows, Clear, RefFree,
         RefFreeNode, RefFreeElems, Need;
    if HasArrayMetadata(node) {
      BuildTableComplete(w, elems, node, budget, Enter(s, id), depth, rowLimit, shared);
    } else {
      BuildArrayRowsComplete(w, elems, budget, Enter(s, id), depth, rowLimit, shared);
    }
  }

  lemma ThreeVisits(a: Cost, b: Cost, c: Cost)
    ensures Then(a, Then(b, c)).visits == a.visits + b.visits + c.visits
  {
  }

  lemma EmptyAccOk(budget: int)
    ensures budget >= 2 ==> AccOk(EMPTY_ACC, budget)
  {
  }

  lemma {:induction false} BuildTableComplete(w: World, elems: seq<Element>, node: Node, budget: int, s: State,
                                              depth: nat, rowLimit: nat, shared: bool)
    requires Left(s) >= 0 && depth <= MAX_RESULT_DEPTH
    requires var x := WholeTable(w, elems, node, depth, s.inDiagnostics, s.rowsBeforeMetadata, shared);
             x.Full? && Need(x.json) <= budget && Affords(s, rowLimit, x.cost)
             && Safe(RefFreeNode(node) && RefFreeElems(elems), w, s.rowsBeforeMetadata, s.ancestors, x.cost.visits)
    ensures Intact(s, WholeTable(w, elems, node, depth, s.inDiagnostics, s.rowsBeforeMetadata, shared),
                   BuildTable(w, elems, node, budget, s, depth, rowLimit, shared))
    decreases Left(s), 6, |PRIORITY_KEYS| + 1
  {
    hide Ascii, BuildKeys, BuildRowsProperty, MetadataBeforeRows, MetadataAfterRows, WholeProps, WholeRowsProp, Extends,
         Fresh,
         Clear, RefFree, RefFreeNode, RefFreeElems, NeedProps, Affords, Unhurt, Then, AccOk, PropsSize, IsErrorMetadata;
    var s1 := s.(retainedNodes := s.retainedNodes + 1);
    var before, after := MetadataBeforeRows(s.rowsBeforeMetadata), MetadataAfterRows(s.rowsBeforeMetadata);
    KeyListBounds(s.rowsBeforeMetadata);
    TableKeysFresh(w, elems, node, depth, s.inDiagnostics, s.rowsBeforeMetadata, shared);
    var x := WholeProps(w, node, before, depth, s.inDiagnostics, s.rowsBeforeMetadata);
    var y := WholeRowsProp(w, elems, depth, s.inDiagnostics, s.rowsBeforeMetadata, shared);
    var z := WholeProps(w, node, after, depth, s.inDiagnostics, s.rowsBeforeMetadata);
    assert [] + x.list == x.list;
    assert x.list + (y.list + z.list) == x.list + y.list + z.list;
    NeedPrefix(x.list, y.list + z.list);
    NeedPrefix(x.list + y.list, z.list);
    var total := Then(x.cost, Then(y.cost, z.cost));
    ThreeVisits(x.cost, y.cost, z.cost);
    EmptyAccOk(budget);
    var p := BuildKeys(w, node, before, false, EMPTY_ACC, budget, s1, depth, rowLimit);
    BuildKeysSound(w, node, before, false, EMPTY_ACC, budget, s1, depth, rowLimit);
    KeepsContext(s1, p.st);
    AffordsShift(s, s1, rowLimit, total);
    AffordsSplit(s1, rowLimit, x.cost, Then(y.cost, z.cost), p.st);
    SafeBelow(RefFreeNode(node) && RefFreeElems(elems), w, s.rowsBeforeMetadata, s.ancestors, total.visits,
              x.cost.visits);
    SafeBelow(RefFreeNode(node) && RefFreeElems(elems), w, s.rowsBeforeMetadata, s.ancestors, total.visits,
              y.cost.visits);
    SafeBelow(RefFreeNode(node) && RefFreeElems(elems), w, s.rowsBeforeMetadata, s.ancestors, total.visits,
              z.cost.visits);
    BuildKeysComplete(w, node, before, false, EMPTY_ACC, budget, s1, depth, rowLimit);
    UnhurtCharged(s1, x.cost, p.st);
    var q := BuildRowsProperty(w, elems, p.acc, budget, p.st, depth, rowLimit, shared);
    BuildRowsPropertySound(w, elems, p.acc, budget, p.st, depth, rowLimit, shared);
    KeepsContext(p.st, q.st);
    AffordsSplit(p.st, rowLimit, y.cost, z.cost, q.st);
    BuildRowsPropertyComplete(w, elems, p.acc, budget, p.st, depth, rowLimit, shared);
    UnhurtCharged(p.st, y.cost, q.st);
    var t := BuildKeys(w, node, after, false, q.acc, budget, q.st, depth, rowLimit);
    BuildKeysComplete(w, node, after, false, q.acc, budget, q.st, depth, rowLimit);
    UnhurtThen(p.st, y.cost, q.st, z.cost, t.st);
    UnhurtThen(s1, x.cost, p.st, Then(y.cost, z.cost), t.st);
    UnhurtShift(s1, s, total, t.st, t.st);
  }

  lemma {:induction false} BuildRowsPropertyComplete(w: World, elems: seq<Element>, acc: Acc, budget: int, s: State,
                                                     depth: nat, rowLimit: nat, shared: bool)
    requires depth <= MAX_RESULT_DEPTH
    requires Ready(RefFreeElems(elems), w, s, budget, rowLimit, [ROWS], acc,
                   WholeRowsProp(w, elems, depth, s.inDiagnostics, s.rowsBeforeMetadata, shared))
    ensures IntactProps(s, acc, WholeRowsProp(w, elems, depth, s.inDiagnostics, s.rowsBeforeMetadata, shared),
                        BuildRowsProperty(w, elems, acc, budget, s, depth, rowLimit, shared))
    decreases Left(s), 5
  {
    hide Ascii, BuildArrayRows, Append, StringSize, WholeRows, Extends, Fresh, NeedProps, Need, Clear, RefFree,
         RefFreeNode, RefFreeElems;
    var t := s.(visitedNodes := s.visitedNodes + 1);
    var x := WholeRows(w, elems, depth + 1, s.inDiagnostics, s.rowsBeforeMetadata, shared);
    NeedOfProperty(acc, ROWS, x.json, budget);
    var rowsBudget := budget - acc.byteLength - CommaSize(acc.props) - StringSize(ROWS) - 1;
    SafeBelow(RefFreeElems(elems), w, s.rowsBeforeMetadata, s.ancestors, Then(VISIT, x.cost).visits, x.cost.visits);
    var o := BuildArrayRows(w, elems, rowsBudget, t, depth + 1, rowLimit, shared);
    BuildArrayRowsSound(w, elems, rowsBudget, t, depth + 1, rowLimit, shared);
    BuildArrayRowsComplete(w, elems, rowsBudget, t, depth + 1, rowLimit, shared);
    AppendAfterBuildSucceeds(acc, ROWS, o.built, budget, o.st);
    AppendNew(acc, ROWS, o.built, budget, o.st);
    ChargeComplete(s, x, o);
  }

  lemma {:induction false} BuildArrayRowsComplete(w: World, elems: seq<Element>, budget: int, s: State, depth: nat,
                                                  rowLimit: nat, shared: bool)
    requires Left(s) >= 0
    requires var x := WholeRows(w, elems, depth, s.inDiagnostics, s.rowsBeforeMetadata, shared);
             x.Full? && Need(x.json) <= budget && Affords(s, rowLimit, x.cost)
             && Safe(RefFreeElems(elems), w, s.rowsBeforeMetadata, s.ancestors, x.cost.visits)
    ensures Intact(s, WholeRows(w, elems, depth, s.inDiagnostics, s.rowsBeforeMetadata, shared),
                   BuildArrayRows(w, elems, budget, s, depth, rowLimit, shared))
    decreases Left(s), 4
  {
    hide BuildRows, WholeItems, Extends, Clear, RefFree, RefFreeNode, RefFreeElems, NeedItems;
    WholeItemsLength(w, elems, depth, s.inDiagnostics, s.rowsBeforeMetadata);
    var x := WholeItems(w, elems, depth, s.inDiagnostics, s.rowsBeforeMetadata);
    var n := RetainedLength(|elems|, s, rowLimit, shared);
    assert n == |elems| && elems[..Max(0, n)] == elems;
    var t := s.(retainedNodes := s.retainedNodes + 1);
    assert [] + x.list == x.list;
    BuildRowsSound(w, elems, budget, t, depth, rowLimit, [], 2);
    BuildRowsComplete(w, elems, budget, t, depth, rowLimit, [], 2);
    KeepsContext(t, BuildRows(w, elems, budget, t, depth, rowLimit, [], 2).st);
  }

  /** A row that is whole is appended and the next one is built. */
  lemma RowKept(w: World, elems: seq<Element>, budget: int, s: State, depth: nat, rowLimit: nat, items: seq<Json>,
                byteLength: nat)
    requires Left(s) >= 0 && elems != [] && NoteElement(s, elems[0]) == s
    requires !(Atomic(w, s, elems[0]) && depth + 2 > MAX_RESULT_DEPTH)
    requires var o := BuildValue(w, EntryOf(elems[0]), budget - byteLength - CommaSize(items), s, depth + 1, rowLimit,
                                 false);
             o.built.Built? && !Unusable(Atomic(w, s, elems[0]), s, o)
    ensures var o := BuildValue(w, EntryOf(elems[0]), budget - byteLength - CommaSize(items), s, depth + 1, rowLimit,
                                false);
            BuildRows(w, elems, budget, s, depth, rowLimit, items, byteLength)
                == BuildRows(w, elems[1..], budget, o.st, depth, rowLimit, items + [o.built.value],
                             byteLength + CommaSize(items) + o.built.byteLength)
  {
    hide BuildValue, EntryOf, Atomic, NoteElement, Unusable, Extends;
  }

  lemma ItemsParts(w: World, elems: seq<Element>, depth: nat, diag: bool, rbm: bool)
    ensures WholeItems(w, elems, depth, diag, rbm)
         == if elems == [] then FullList([], FREE)
            else Join(WholeItem(w, elems[0], depth, diag, rbm), WholeItems(w, elems[1..], depth, diag, rbm))
  {
    hide WholeItem, Join;
  }

  lemma RowsDone(w: World, budget: int, s: State, depth: nat, rowLimit: nat, items: seq<Json>, byteLength: nat)
    requires Left(s) >= 0
    ensures BuildRows(w, [], budget, s, depth, rowLimit, items, byteLength) == RowsOut(s, items, byteLength)
  {
  }

  lemma RowsSafe(w: World, elems: seq<Element>, rbm: bool, ancestors: set<Ref>, a: Cost, b: Cost)
    requires elems != [] && Safe(RefFreeElems(elems), w, rbm, ancestors, Then(a, b).visits)
    ensures Safe(RefFree(EntryOf(elems[0])), w, rbm, ancestors, a.visits)
    ensures Safe(RefFreeElems(elems[1..]), w, rbm, ancestors, b.visits)
  {
    hide EntryOf, RefFree, RefFreeElems, Safe;
    var free := RefFreeElems(elems);
    if free { EntryFree(elems); }
    SafeBelow(free, w, rbm, ancestors, Then(a, b).visits, a.visits);
    SafeBelow(free, w, rbm, ancestors, Then(a, b).visits, b.visits);
    SafeToo(free, RefFree(EntryOf(elems[0])), w, rbm, ancestors, a.visits);
    SafeToo(free, RefFreeElems(elems[1..]), w, rbm, ancestors, b.visits);
  }

  /** A row that the budgets cover comes out whole. */
  lemma RowComplete(w: World, elems: seq<Element>, budget: int, s: State, depth: nat, rowLimit: nat, items: seq<Json>,
                    byteLength: nat, x: WholeList<Json>, c: Cost)
    requires Left(s) >= 0 && byteLength == 2 + ItemsSize(items) && elems != []
    requires x == WholeItem(w, elems[0], depth, s.inDiagnostics, s.rowsBeforeMetadata) && x.FullList? && |x.list| == 1
    requires Affords(s, rowLimit, Then(x.cost, c)) && Need(x.list[0]) <= budget - byteLength - CommaSize(items)
    requires Safe(RefFree(EntryOf(elems[0])), w, s.rowsBeforeMetadata, s.ancestors, x.cost.visits)
    ensures var o := BuildValue(w, EntryOf(elems[0]), budget - byteLength - CommaSize(items), s, depth + 1, rowLimit,
                                false);
            var n := byteLength + CommaSize(items) + (if o.built.Built? then o.built.byteLength else 0);
            && NoteElement(s, elems[0]) == s && !(Atomic(w, s, elems[0]) && depth + 2 > MAX_RESULT_DEPTH)
            && o.built.Built? && !Unusable(Atomic(w, s, elems[0]), s, o) && items + [o.built.value] == items + x.list
            && Extends(s, o.st) && Unhurt(s, x.cost, o.st) && Affords(o.st, rowLimit, c)
            && n == 2 + ItemsSize(items + x.list) <= budget
    decreases Left(s), 2
  {
    hide BuildValue, EntryOf, Atomic, ItemsSize, WholeItem, Extends, Need, Exact, Safe, RefFree, Affords, NoteElement,
         Unusable, Unhurt, Intact, Then;
    var childBudget := budget - byteLength - CommaSize(items);
    var o := BuildValue(w, EntryOf(elems[0]), childBudget, s, depth + 1, rowLimit, false);
    WholeItemParts(w, elems[0], s, depth);
    BuildValueSound(w, EntryOf(elems[0]), childBudget, s, depth + 1, rowLimit, false);
    AffordsSplit(s, rowLimit, x.cost, c, o.st);
    BuildValueComplete(w, EntryOf(elems[0]), childBudget, s, depth + 1, rowLimit, false);
    UsableIntact(Atomic(w, s, elems[0]), s, x.list[0], x.cost, o);
    RowSize(items, o.built, childBudget);
    assert [o.built.value] == x.list;
  }

  lemma {:induction false} BuildRowsComplete(w: World, elems: seq<Element>, budget: int, s: State, depth: nat,
                                             rowLimit: nat, items: seq<Json>, byteLength: nat)
    requires Left(s) >= 0 && byteLength == 2 + ItemsSize(items) <= budget
    requires var x := WholeItems(w, elems, depth, s.inDiagnostics, s.rowsBeforeMetadata);
             x.FullList? && NeedItems(items + x.list) <= budget && Affords(s, rowLimit, x.cost)
             && Safe(RefFreeElems(elems), w, s.rowsBeforeMetadata, s.ancestors, x.cost.visits)
    ensures var x := WholeItems(w, elems, depth, s.inDiagnostics, s.rowsBeforeMetadata);
            var o := BuildRows(w, elems, budget, s, depth, rowLimit, items, byteLength);
            o.items == items + x.list && Unhurt(s, x.cost, o.st)
    decreases Left(s), 3, |elems|
  {
    hide BuildValue, EntryOf, Atomic, ItemsSize, NeedItems, WholeItem, Need, Safe, RefFree, RefFreeElems, Affords,
         NoteElement, Unusable, BuildRows, Unhurt, WholeItems, Then, Extends;
    ItemsParts(w, elems, depth, s.inDiagnostics, s.rowsBeforeMetadata);
    if elems == [] {
      RowsDone(w, budget, s, depth, rowLimit, items, byteLength);
      assert items + [] == items;
      UnhurtNothing(s);
    } else {
      var x := WholeItem(w, elems[0], depth, s.inDiagnostics, s.rowsBeforeMetadata);
      var y := WholeItems(w, elems[1..], depth, s.inDiagnostics, s.rowsBeforeMetadata);
      WholeItemParts(w, elems[0], s, depth);
      NeedOfRows(items, x.list, y.list, budget);
      RowsSafe(w, elems, s.rowsBeforeMetadata, s.ancestors, x.cost, y.cost);
      RowComplete(w, elems, budget, s, depth, rowLimit, items, byteLength, x, y.cost);
      RowKept(w, elems, budget, s, depth, rowLimit, items, byteLength);
      var o := BuildValue(w, EntryOf(elems[0]), budget - byteLength - CommaSize(items), s, depth + 1, rowLimit, false);
      KeepsContext(s, o.st);
      var n := byteLength + CommaSize(items) + o.built.byteLength;
      BuildRowsComplete(w, elems[1..], budget, o.st, depth, rowLimit, items + x.list, n);
      UnhurtThen(s, x.cost, o.st, y.cost,
                 BuildRows(w, elems[1..], budget, o.st, depth, rowLimit, items + x.list, n).st);
    }
  }

  lemma UnhurtNothing(s: State)
    ensures Unhurt(s, FREE, s)
  {
  }

  lemma UsableIntact(atomic: bool, s: State, j: Json, c: Cost, o: Out)
    requires Intact(s, Full(j, c), o) && (atomic ==> j.JObject?)
    ensures !Unusable(atomic, s, o) && o.built.Built? && o.built.value == j && Unhurt(s, c, o.st) && Charged(s, c, o.st)
  {
  }

  lemma NeedOfRows(items: seq<Json>, x: seq<Json>, y: seq<Json>, budget: int)
    requires |x| == 1 && NeedItems(items + (x + y)) <= budget
    ensures x == [x[0]] && items + x + y == items + (x + y) && NeedItems(items + x + y) <= budget
    ensures Need(x[0]) <= budget - 2 - ItemsSize(items) - CommaSize(items)
  {
    hide Need, NeedItems, ItemsSize;
    assert x == [x[0]];
    assert items + x + y == items + (x + y);
    NeedItemsPrefix(items + x, y);
    NeedOfItem(items, x[0], budget);
  }

  lemma WholeItemParts(w: World, e: Element, s: State, depth: nat)
    requires WholeItem(w, e, depth, s.inDiagnostics, s.rowsBeforeMetadata).FullList?
    ensures var x := WholeItem(w, e, depth, s.inDiagnostics, s.rowsBeforeMetadata);
            && NoteElement(s, e) == s
            && !(Atomic(w, s, e) && depth + 2 > MAX_RESULT_DEPTH)
            && |x.list| == 1 && (Atomic(w, s, e) ==> x.list[0].JObject?)
            && WholeValue(w, EntryOf(e), depth + 1, s.inDiagnostics, s.rowsBeforeMetadata, false)
                == Full(x.list[0], x.cost)
  {
    hide Ascii, EntryOf, WholeProps, WholeTable, WholeRows, OtherKeys;
    var v := EntryOf(e);
    if Atomic(w, s, e) {
      var node := NodeOf(w, v).value;
      assert WholeNode(w, node, depth + 1, s.inDiagnostics, s.rowsBeforeMetadata, false)
          == WholeObject(w, node, depth + 1, s.inDiagnostics, s.rowsBeforeMetadata);
    }
  }

  lemma NeedOfItem(items: seq<Json>, j: Json, budget: int)
    requires NeedItems(items + [j]) <= budget
    ensures Need(j) <= budget - 2 - ItemsSize(items) - CommaSize(items)
  {
    hide Need;
    assert (items + [j])[..|items|] == items;
  }
}
