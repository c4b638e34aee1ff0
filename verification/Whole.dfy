/**
 The reference meaning of a value: its whole normalised JSON form, when one
 exists, and what keeping it whole costs. Nothing here knows about budgets.
 */
module Whole {
  import opened JsText
  import opened Json
  import opened JsHeap
  import opened ResultTypes
  import opened Entitlements
  import opened Projection

  /**
   `visits`: nodes inspected. `spend`: rows charged to the shared row allowance.
   `peak`: the allowance needed on entry, if any shared array occurs. `widest`,
   `longest`: the longest row-limited array and the longest string. `upstream`:
   the value itself reports truncation. `trace`: what else it leaves in the state.
   */
  datatype Cost = Cost(
    visits: nat, spend: nat, peak: Option<nat>, widest: nat, longest: nat, upstream: bool, trace: Trace)

  /** The longest array that draws on the shared allowance, and the errors reported, in order. */
  datatype Trace = Trace(rows: nat, notes: seq<Member>)

  const FREE := Cost(0, 0, None, 0, 0, false, Trace(0, []))
  const VISIT := Cost(1, 0, None, 0, 0, false, Trace(0, []))

  function TraceThen(a: Trace, b: Trace): Trace { Trace(Max(a.rows, b.rows), a.notes + b.notes) }

  function PeakThen(p: Option<nat>, spend: nat, q: Option<nat>): Option<nat> {
    if q.None? then p else if p.None? then Some(spend + q.value) else Some(Max(p.value, spend + q.value))
  }

  /** The cost of `a` followed by `b`. */
  function Then(a: Cost, b: Cost): Cost {
    Cost(a.visits + b.visits, a.spend + b.spend, PeakThen(a.peak, a.spend, b.peak),
         Max(a.widest, b.widest), Max(a.longest, b.longest), a.upstream || b.upstream, TraceThen(a.trace, b.trace))
  }

  lemma ThenFree(c: Cost)
    ensures Then(c, FREE) == c && Then(FREE, c) == c
    ensures Then(VISIT, c) == c.(visits := c.visits + 1)
  {
    assert c.trace.notes + [] == c.trace.notes && [] + c.trace.notes == c.trace.notes;
  }

  /**
   `Lossy`: no whole form within the depth limit. `Special`: entitlement or stored
   field-exception metadata occurs, which has its own rules.
   */
  datatype Whole = Lossy | Special | Full(json: Json, cost: Cost)
  datatype WholeList<T> = LossyList | SpecialList | FullList(list: seq<T>, cost: Cost)

  function Join<T>(a: WholeList<T>, b: WholeList<T>): WholeList<T> {
    if a.LossyList? || b.LossyList? then LossyList
    else if a.SpecialList? || b.SpecialList? then SpecialList
    else FullList(a.list + b.list, Then(a.cost, b.cost))
  }

  function Charge(c: Cost, x: Whole): Whole {
    if x.Full? then Full(x.json, Then(c, x.cost)) else x
  }

  function Room(depth: nat): nat {
    if depth <= MAX_RESULT_DEPTH then MAX_RESULT_DEPTH + 1 - depth else 0
  }

  function Leaf(j: Json, longest: nat): Whole {
    Full(j, FREE.(longest := longest))
  }

  function WholeValue(w: World, v: Value, depth: nat, diag: bool, rbm: bool, shared: bool): Whole
    decreases Room(depth), 6
  {
    if depth > MAX_RESULT_DEPTH then Lossy
    else
      Charge(VISIT,
        match v
        case VString(s) => Leaf(JString(s), |s|)
        case VBigInt(text) => Leaf(JString(text), |text|)
        case VNull => Leaf(JNull, 0)
        case VBool(b) => Leaf(JBool(b), 0)
        case VNum(num) => Leaf(JNumber(num), 0)
        case VRef(r) => WholeNode(w, w.heap(r), depth, diag, rbm, shared)
        case VFresh(node) => WholeNode(w, node, depth, diag, rbm, shared)
        case _ => Lossy)
  }

  function WholeNode(w: World, node: Node, depth: nat, diag: bool, rbm: bool, shared: bool): Whole
    decreases Room(depth), 5
  {
    match node.kind
    case KDate(Some(iso)) => Leaf(JString(iso), |iso|)
    case KArray(elems) =>
      if HasArrayMetadata(node) then WholeTable(w, elems, node, depth, diag, rbm, shared)
      else WholeRows(w, elems, depth, diag, rbm, shared)
    case KPlain => WholeObject(w, node, depth, diag, rbm)
    case KError(message, name, cause) => AsError(WholeObject(w, ErrorRecord(message, name, cause), depth, diag, rbm))
    case KExotic(Returns(value)) =>
      if depth < MAX_RESULT_DEPTH then WholeValue(w, value, depth + 1, diag, rbm, shared) else Lossy
    case _ => Lossy
  }

  function AsObject(p: WholeList<Member>): Whole {
    match p
    case LossyList => Lossy
    case SpecialList => Special
    case FullList(props, cost) => Full(JObject(props), cost)
  }

  function Note(key: Str, j: Json): Cost { FREE.(trace := Trace(0, [Member(key, j)])) }

  /** An error is reported after it was built. */
  function AsError(x: Whole): Whole {
    if x.Full? then Full(x.json, Then(x.cost, Note(ERROR, x.json))) else x
  }

  /** Priority keys first, then the others in enumeration order. */
  function WholeObject(w: World, node: Node, depth: nat, diag: bool, rbm: bool): Whole
    decreases Room(depth), 4
  {
    AsObject(Join(WholeProps(w, node, PRIORITY_KEYS, depth, diag, rbm),
                  WholeProps(w, node, OtherKeys(node), depth, diag, rbm)))
  }

  function WholeProps(w: World, node: Node, keys: seq<Str>, depth: nat, diag: bool, rbm: bool): WholeList<Member>
    decreases Room(depth), 3, |keys|
  {
    if keys == [] then FullList([], FREE)
    else Join(WholeProp(w, node, keys[0], depth, diag, rbm), WholeProps(w, node, keys[1..], depth, diag, rbm))
  }

  /** Visits spent on looking for occurrences under `fieldExceptions`; none if a getter is met. */
  function OccurrenceVisits(w: World, node: Node, keys: seq<Str>): Option<nat> {
    if keys == [] then Some(0)
    else
      var slot := Lookup(node.props, keys[0]);
      if slot.Some? && slot.value.Accessor? then None
      else if slot.Some? && (!IsArray(w, slot.value.value) || NodeOf(w, slot.value.value).value.kind.elems != [])
      then Some(1)
      else
        var rest := OccurrenceVisits(w, node, keys[1..]);
        if rest.None? then None else Some(1 + rest.value)
  }

  function ErrorVisits(w: World, key: Str, v: Value): Option<nat> {
    if IsErrorKey(key) && key == FIELD_EXCEPTIONS && IsPlain(w, v)
    then OccurrenceVisits(w, NodeOf(w, v).value, Keys(NodeOf(w, v).value.props))
    else Some(0)
  }

  /** Whether the scan under `fieldExceptions` meets an occurrence. */
  function Occurs(w: World, node: Node, keys: seq<Str>): bool {
    if keys == [] then false
    else
      var slot := Lookup(node.props, keys[0]);
      if slot.Some? && slot.value.Data?
         && (!IsArray(w, slot.value.value) || NodeOf(w, slot.value.value).value.kind.elems != [])
      then true
      else Occurs(w, node, keys[1..])
  }

  /** Whether a property reports an error. */
  function Reports(w: World, key: Str, v: Value): bool {
    && IsErrorKey(key)
    && if key == FIELD_EXCEPTIONS && IsPlain(w, v) then Occurs(w, NodeOf(w, v).value, Keys(NodeOf(w, v).value.props))
       else HasReportedError(w, v)
  }

  /** What is left after a property was appended. */
  function Appending(w: World, key: Str, v: Value, j: Json): Cost {
    var c := FREE.(upstream := ReportsTruncation(key, v));
    if Reports(w, key, v) then c.(trace := Trace(0, [Member(key, j)])) else c
  }

  function ReportsTruncation(key: Str, v: Value): bool {
    (key == TRUNCATED || key == TRUNCATED_INPUT) && v == VBool(true)
  }

  function WholeProp(w: World, node: Node, key: Str, depth: nat, diag: bool, rbm: bool): WholeList<Member>
    decreases Room(depth), 2
  {
    var slot, raw := Lookup(node.props, key), StoredExceptions(w, node, key);
    if raw.Malformed? then LossyList
    else if raw.Raw? then SpecialList
    else if slot.None? || (slot.value.Data? && slot.value.value.VUndefined? && key in OPTIONAL_METADATA_KEYS)
    then FullList([], FREE)
    else if !diag && key == EID_DATA_TRUNCATION && Lookup(node.props, EID_DATA).Some? then SpecialList
    else if slot.value.Accessor? || depth > MAX_RESULT_DEPTH then LossyList
    else if !diag && key == EID_DATA then SpecialList
    else WholeOwn(w, key, slot.value.value, depth, diag, rbm)
  }

  function WholeOwn(w: World, key: Str, v: Value, depth: nat, diag: bool, rbm: bool): WholeList<Member>
    requires depth <= MAX_RESULT_DEPTH
    decreases Room(depth), 1
  {
    var x := WholeValue(w, v, depth + 1, diag || IsErrorMetadata(key), rbm, SharedKey(w, key, v));
    if x.Lossy? || ErrorVisits(w, key, v).None? then LossyList
    else if x.Special? then SpecialList
    else
      FullList([Member(key, x.json)],
               Then(FREE.(visits := ErrorVisits(w, key, v).value),
                    Then(x.cost, Appending(w, key, v, x.json))))
  }

  /** An array with metadata is an object holding the metadata and its rows. */
  function WholeTable(w: World, elems: seq<Element>, node: Node, depth: nat, diag: bool, rbm: bool, shared: bool): Whole
    decreases Room(depth), 4
  {
    AsObject(Join(WholeProps(w, node, MetadataBeforeRows(rbm), depth, diag, rbm),
                  Join(WholeRowsProp(w, elems, depth, diag, rbm, shared),
                       WholeProps(w, node, MetadataAfterRows(rbm), depth, diag, rbm))))
  }

  function WholeRowsProp(w: World, elems: seq<Element>, depth: nat, diag: bool, rbm: bool,
                         shared: bool): WholeList<Member>
    decreases Room(depth), 3
  {
    match Charge(VISIT, WholeRows(w, elems, depth + 1, diag, rbm, shared))
    case Lossy => LossyList
    case Special => SpecialList
    case Full(json, cost) => FullList([Member(ROWS, json)], cost)
  }

  function RowCost(n: nat, diag: bool, shared: bool, c: Cost): Cost {
    if diag then c
    else if shared then
      c.(spend := c.spend + n, peak := Some(if c.peak.None? then n else Max(n, c.peak.value)),
         widest := Max(n, c.widest),
         trace := c.trace.(rows := Max(n, c.trace.rows)))
    else c.(widest := Max(n, c.widest))
  }

  function WholeRows(w: World, elems: seq<Element>, depth: nat, diag: bool, rbm: bool, shared: bool): Whole
    decreases Room(depth), 2
  {
    match WholeItems(w, elems, depth, diag, rbm)
    case LossyList => Lossy
    case SpecialList => Special
    case FullList(items, cost) => Full(JArray(items), RowCost(|elems|, diag, shared, cost))
  }

  function WholeItems(w: World, elems: seq<Element>, depth: nat, diag: bool, rbm: bool): WholeList<Json>
    decreases Room(depth), 1, |elems|
  {
    if elems == [] then FullList([], FREE)
    else Join(WholeItem(w, elems[0], depth, diag, rbm), WholeItems(w, elems[1..], depth, diag, rbm))
  }

  function WholeItem(w: World, e: Element, depth: nat, diag: bool, rbm: bool): WholeList<Json>
    decreases Room(depth), 0
  {
    if depth >= MAX_RESULT_DEPTH || (e.Elem? && e.slot.Accessor?)
       || (diag && IsPlain(w, EntryOf(e)) && depth + 2 > MAX_RESULT_DEPTH)
    then LossyList
    else
      match WholeValue(w, EntryOf(e), depth + 1, diag, rbm, false)
      case Lossy => LossyList
      case Special => SpecialList
      case Full(json, cost) => FullList([json], cost)
  }
}
