/** One bounded projection from start to end (`limitResultWithRowPriority`, `projectResult`). */
module Results {
  import opened JsText
  import opened Json
  import opened JsHeap
  import opened ResultTypes
  import opened Projection

  const ROW_COUNT := Ascii("rowCount")
  const UPDATE_COUNT := Ascii("updateCount")

  const REASON_ORDER: seq<Reason> := [
    MaxRows, MaxStringChars, MaxResultBytes, MaxResultNodes, MaxResultDepth, CircularReference, BinaryData,
    AccessorOmitted,
    UnsupportedValue, InvalidEntitlementData, EntitlementLimit, UpstreamTruncation]

  function Ordered(order: seq<Reason>, reasons: set<Reason>): seq<Reason> {
    if order == [] then []
    else (if order[0] in reasons then [order[0]] else []) + Ordered(order[1..], reasons)
  }

  /** A count of zero is left out of the summary. */
  datatype Truncation = Truncation(
    reasons: seq<Reason>, inspectedNodes: Option<nat>, retainedNodes: Option<nat>, omittedProperties: nat,
    omittedRows: nat)

  datatype LimitResult = LimitResult(
    byteLength: nat, inspectedNodes: nat, maximumArrayRows: nat, retainedRows: nat, errorDiagnostics: seq<Member>,
    hasErrors: bool, rowCount: Option<nat>, truncation: Option<Truncation>, value: Json)
  {
    predicate Truncated() { truncation.Some? }
  }

  function CountSlot(props: seq<Property>, key: Str): (r: Option<nat>)
    ensures r.Some? ==> r.value <= MAX_SAFE_INTEGER
  {
    match Lookup(props, key)
    case Some(Data(VNum(Int(n)))) => if 0 <= n <= MAX_SAFE_INTEGER then Some(n) else None
    case _ => None
  }

  function RowCountOf(w: World, v: Value): Option<nat> {
    if IsArray(w, v) then Some(|NodeOf(w, v).value.kind.elems|)
    else if NodeOf(w, v).None? then None
    else
      var props := NodeOf(w, v).value.props;
      if CountSlot(props, ROW_COUNT).Some? then CountSlot(props, ROW_COUNT) else CountSlot(props, UPDATE_COUNT)
  }

  function SummaryOf(s: State): Option<Truncation> {
    if s.reasons == {} then None
    else Some(Truncation(Ordered(REASON_ORDER, s.reasons), Some(s.visitedNodes), Some(s.retainedNodes),
                         s.omittedProperties,
                         s.omittedRows))
  }

  /** The result read off the final traversal state; an omitted root becomes `null`. */
  function Finish(built: Built, s: State, rowCount: Option<nat>): LimitResult {
    var t := if built.Omit? then AddReason(s, MaxResultBytes) else s;
    LimitResult(if built.Omit? then 4 else built.byteLength, t.visitedNodes, t.maximumArrayRows, t.retainedRows,
                t.diagnostics,
                t.hasErrors, rowCount, SummaryOf(t), if built.Omit? then JNull else built.value)
  }

  function ProjectionOf(w: World, v: Value, limits: Limits, rowsBeforeMetadata: bool): Out {
    BuildValue(w, v, limits.maxResultBytes, InitialState(limits, rowsBeforeMetadata), 0, limits.maxRows, true)
  }

  function ExhaustedProjection(rowCount: Option<nat>): LimitResult {
    LimitResult(4, 0, 0, 0, [], false, rowCount, Some(Truncation([MaxResultNodes], Some(0), Some(0), 0, 0)), JNull)
  }

  /** The limits as a caller gives them. */
  datatype Options = Options(maxResultBytes: int, maxResultNodes: int, maxRows: int, maxStringChars: int)

  /** A limit that `validateResultLimits` refuses. */
  datatype Refusal = BadResultBytes | BadResultNodes | BadRows | BadStringChars | BadContentBytes | BadMaterializedNodes

  predicate PositiveSafe(n: int) { 0 < n <= MAX_SAFE_INTEGER }

  predicate ValidOptions(o: Options) {
    4 <= o.maxResultBytes <= MAX_SAFE_INTEGER && PositiveSafe(o.maxResultNodes) && PositiveSafe(o.maxRows)
    && PositiveSafe(o.maxStringChars)
  }

  /** `validateResultLimits`: the first limit refused. */
  function Refused(o: Options): (r: Option<Refusal>)
    ensures r.None? <==> ValidOptions(o)
  {
    if !PositiveSafe(o.maxResultBytes) then Some(BadResultBytes)
    else if !PositiveSafe(o.maxResultNodes) then Some(BadResultNodes)
    else if !PositiveSafe(o.maxRows) then Some(BadRows)
    else if !PositiveSafe(o.maxStringChars) then Some(BadStringChars)
    else if o.maxResultBytes < 4 then Some(BadResultBytes)
    else None
  }

  function LimitsOf(o: Options): Limits
    requires ValidOptions(o)
  {
    Limits(o.maxResultBytes, o.maxResultNodes, o.maxRows, o.maxStringChars)
  }

  /** A `RangeError` or a result. */
  datatype Attempt<+T> = RangeError(refusal: Refusal) | Ok(value: T)

  /** `projectResult`: without any node to visit nothing is validated or projected. */
  function TryProject(w: World, v: Value, o: Options, rowsBeforeMetadata: bool): Attempt<LimitResult> {
    if o.maxResultNodes == 0 then Ok(ExhaustedProjection(RowCountOf(w, v)))
    else if Refused(o).Some? then RangeError(Refused(o).value)
    else Ok(ProjectResult(w, v, LimitsOf(o), rowsBeforeMetadata))
  }

  /** The projection under limits that pass validation. */
  function ProjectResult(w: World, v: Value, limits: Limits, rowsBeforeMetadata: bool): LimitResult {
    if limits.maxResultNodes == 0 then ExhaustedProjection(RowCountOf(w, v))
    else
      var o := ProjectionOf(w, v, limits, rowsBeforeMetadata);
      Finish(o.built, o.st, RowCountOf(w, v))
  }
}
