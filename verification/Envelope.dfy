/**
 The tool result (`result-envelope.ts`): up to three projections that share one
 node budget, the artifact envelope, and the content text. Functions say what is
 produced; the methods below produce it step by step.
 */
module Envelope {
  import opened JsText
  import opened Json
  import opened JsHeap
  import opened ResultTypes
  import opened Entitlements
  import opened Projection
  import opened Results
  import Projector

  const ENVELOPE_RESERVE: nat := 768
  const MIN_BYTES: nat := 256
  const MIN_NODES: nat := 10

  const TOOL_NAMES: seq<string> := [
    "xbbg_bdp", "xbbg_bdh", "xbbg_bds", "xbbg_bdib", "xbbg_bdtick", "xbbg_check_entitlements", "xbbg_delay_status",
    "xbbg_bql",
    "xbbg_bsrch", "xbbg_bqr", "xbbg_bflds", "xbbg_beqs", "xbbg_yas", "xbbg_preferreds", "xbbg_corporate_bonds",
    "xbbg_index_members", "xbbg_resolve_isins", "xbbg_resolve_venues", "xbbg_auction_snapshot", "xbbg_issuer_isins",
    "xbbg_etf_holdings", "xbbg_stream_snapshot", "xbbg_mktbar_snapshot", "xbbg_depth_snapshot", "xbbg_ext_ticker",
    "xbbg_ext_futures", "xbbg_ext_cdx", "xbbg_ext_currency", "xbbg_ext_bql_builder", "xbbg_ext_chart_spec",
    "xbbg_ext_market_session", "xbbg_ext_yas_overrides", "xbbg_ext_constants", "xbbg_ext_columns", "xbbg_ext_calculate"]

  function ReasonName(r: Reason): string {
    match r
    case MaxRows => "max_rows"
    case MaxStringChars => "max_string_chars"
    case MaxResultBytes => "max_result_bytes"
    case MaxResultNodes => "max_result_nodes"
    case MaxResultDepth => "max_result_depth"
    case CircularReference => "circular_reference"
    case BinaryData => "binary_data"
    case AccessorOmitted => "accessor_omitted"
    case UnsupportedValue => "unsupported_value"
    case InvalidEntitlementData => "invalid_entitlement_data"
    case EntitlementLimit => "entitlement_limit"
    case UpstreamTruncation => "upstream_truncation"
  }

  datatype ToolLimits = ToolLimits(
    result: Options, maxContentBytes: int, maxContentRows: int, materializedNodes: Option<int>)

  datatype ToolEnvelope = ToolEnvelope(
    tool: string, rowCount: Option<nat>, truncated: bool, truncation: Option<Truncation>, hasErrors: bool, data: Json)

  datatype ToolResult = ToolResult(content: Bytes, artifact: ToolEnvelope)

  // ----- JSON forms -----

  function Count(n: nat): Json { JNumber(Int(n)) }

  function RowCountJson(n: Option<nat>): Json { if n.None? then JNull else Count(n.value) }

  function ReasonsJson(reasons: seq<Reason>): Json {
    JArray(seq(|reasons|, i requires 0 <= i < |reasons| => JString(Ascii(ReasonName(reasons[i])))))
  }

  function When(keep: bool, key: string, value: Json): seq<Member> {
    if keep then [Member(Ascii(key), value)] else []
  }

  function Known(n: Option<nat>): nat { if n.None? then 0 else n.value }

  function TruncationJson(t: Truncation): Json {
    JObject([Member(Ascii("reasons"), ReasonsJson(t.reasons))]
            + When(t.inspectedNodes.Some?, "inspectedNodes", Count(Known(t.inspectedNodes)))
            + When(t.retainedNodes.Some?, "retainedNodes", Count(Known(t.retainedNodes)))
            + When(t.omittedProperties != 0, "omittedPropertiesAtLeast", Count(t.omittedProperties))
            + When(t.omittedRows != 0, "omittedRows", Count(t.omittedRows)))
  }

  function HeadOf(e: ToolEnvelope): seq<Member> {
    [Member(Ascii("tool"), JString(Ascii(e.tool)))]
    + [Member(ROW_COUNT, RowCountJson(e.rowCount))]
    + [Member(TRUNCATED, JBool(e.truncated))]
    + When(e.truncation.Some?, "truncation", if e.truncation.Some? then TruncationJson(e.truncation.value) else JNull)
    + When(e.hasErrors, "hasErrors", JBool(true))
  }

  function EnvelopeJson(e: ToolEnvelope): Json {
    JObject(HeadOf(e) + [Member(DATA, e.data)])
  }

  // ----- merging two projections -----

  function ReasonsOf(r: LimitResult): seq<Reason> {
    if r.truncation.None? then [] else r.truncation.value.reasons
  }

  function OmittedProperties(r: LimitResult): nat {
    if r.truncation.None? then 0 else r.truncation.value.omittedProperties
  }

  function OmittedRows(r: LimitResult): nat {
    if r.truncation.None? then 0 else r.truncation.value.omittedRows
  }

  function RetainedNodes(r: LimitResult): Option<nat> {
    if r.truncation.None? then None else r.truncation.value.retainedNodes
  }

  function SetOf(reasons: seq<Reason>): set<Reason> { set r | r in reasons }

  /** A later projection of an earlier one's value: reasons and losses of both, the value of the later. */
  function Merged(first: LimitResult, second: LimitResult): LimitResult {
    var reasons := SetOf(ReasonsOf(first)) + SetOf(ReasonsOf(second));
    var inspected := first.inspectedNodes + second.inspectedNodes;
    LimitResult(
      second.byteLength, inspected, second.maximumArrayRows, second.retainedRows,
      if second.errorDiagnostics == [] then first.errorDiagnostics else second.errorDiagnostics,
      first.hasErrors || second.hasErrors, first.rowCount,
      if reasons == {} then None
      else Some(Truncation(Ordered(REASON_ORDER, reasons), Some(inspected),
                           if RetainedNodes(second).Some? then RetainedNodes(second) else RetainedNodes(first),
                           OmittedProperties(first) + OmittedProperties(second), OmittedRows(first)
                               + OmittedRows(second))),
      second.value)
  }

  method MergeLimited(first: LimitResult, second: LimitResult) returns (r: LimitResult)
    ensures r == Merged(first, second)
  {
    hide Ordered;
    var reasons := SetOf(ReasonsOf(first));
    var others := ReasonsOf(second);
    for i := 0 to |others|
      invariant reasons == SetOf(ReasonsOf(first)) + SetOf(others[..i])
    {
      reasons := reasons + {others[i]};
      assert others[..i + 1] == others[..i] + [others[i]];
    }
    assert others[..|others|] == others;
    var retained := if RetainedNodes(second).Some? then RetainedNodes(second) else RetainedNodes(first);
    var omittedProperties := OmittedProperties(first) + OmittedProperties(second);
    var omittedRows := OmittedRows(first) + OmittedRows(second);
    var truncation :=
      if reasons == {} then None
      else Some(Truncation(Ordered(REASON_ORDER, reasons), Some(first.inspectedNodes + second.inspectedNodes), retained,
                           omittedProperties, omittedRows));
    r := LimitResult(second.byteLength, first.inspectedNodes + second.inspectedNodes, second.maximumArrayRows,
                     second.retainedRows, if second.errorDiagnostics
                         == [] then first.errorDiagnostics else second.errorDiagnostics,
                     first.hasErrors || second.hasErrors, first.rowCount, truncation, second.value);
  }

  function WithInspections(r: LimitResult, inspected: nat): LimitResult {
    r.(inspectedNodes := inspected,
       truncation := if r.truncation.None? then None else Some(r.truncation.value.(inspectedNodes := Some(inspected))))
  }

  // ----- fitting the artifact -----

  function EnvelopeOf(tool: string, r: LimitResult, truncated: bool, truncation: Option<Truncation>): ToolEnvelope {
    ToolEnvelope(tool, r.rowCount, truncated, truncation, r.hasErrors, r.value)
  }

  function Because(reasons: seq<Reason>): Option<Truncation> {
    Some(Truncation(reasons, None, None, 0, 0))
  }

  /** The first reason other than the byte limit, if any, and then the byte limit. */
  function Compact(reasons: seq<Reason>): seq<Reason> {
    if reasons == [] then [MaxResultBytes]
    else if reasons[0] != MaxResultBytes then [reasons[0], MaxResultBytes]
    else Compact(reasons[1..])
  }

  /** The artifact with less and less said about the truncation. */
  function Candidates(tool: string, r: LimitResult): seq<ToolEnvelope> {
    var reasons := if r.truncation.None? then [MaxResultBytes] else r.truncation.value.reasons;
    [EnvelopeOf(tool, r, r.Truncated(), r.truncation),
     EnvelopeOf(tool, r, true, Because(reasons)),
     EnvelopeOf(tool, r, true, Because(Compact(reasons))),
     EnvelopeOf(tool, r, true, Because([MaxResultBytes]))]
  }

  function WithoutData(tool: string, r: LimitResult): ToolEnvelope {
    ToolEnvelope(tool, r.rowCount, true, Because([MaxResultBytes]), r.hasErrors, JNull)
  }

  /** The first candidate that fits. */
  function FirstFitting(candidates: seq<ToolEnvelope>, fallback: ToolEnvelope, maxResultBytes: int): ToolEnvelope {
    if candidates == [] then fallback
    else if Size(EnvelopeJson(candidates[0])) <= maxResultBytes then candidates[0]
    else FirstFitting(candidates[1..], fallback, maxResultBytes)
  }

  function FittedArtifact(tool: string, r: LimitResult, maxResultBytes: int): ToolEnvelope {
    FirstFitting(Candidates(tool, r), WithoutData(tool, r), maxResultBytes)
  }

  /** `reasons.find(...)` */
  method FindPrimary(reasons: seq<Reason>) returns (primary: Reason)
    ensures Compact(reasons) == if primary == MaxResultBytes then [primary] else [primary, MaxResultBytes]
  {
    assert reasons[0..] == reasons;
    for i := 0 to |reasons|
      invariant Compact(reasons) == Compact(reasons[i..])
    {
      assert reasons[i..][1..] == reasons[i + 1..];
      if reasons[i] != MaxResultBytes {
        return reasons[i];
      }
    }
    return MaxResultBytes;
  }

  method FitArtifact(tool: string, r: LimitResult, maxResultBytes: int) returns (envelope: ToolEnvelope)
    ensures envelope == FittedArtifact(tool, r, maxResultBytes)
  {
    hide Size, EnvelopeJson, Compact;
    ghost var c := Candidates(tool, r);
    ghost var fallback := WithoutData(tool, r);
    assert c[1..][1..] == c[2..] && c[2..][1..] == c[3..] && c[3..][1..] == [];
    envelope := EnvelopeOf(tool, r, r.Truncated(), r.truncation);
    if Size(EnvelopeJson(envelope)) <= maxResultBytes {
      return;
    }
    assert FittedArtifact(tool, r, maxResultBytes) == FirstFitting(c[1..], fallback, maxResultBytes);
    var reasons := if r.truncation.None? then [MaxResultBytes] else r.truncation.value.reasons;
    envelope := EnvelopeOf(tool, r, true, Because(reasons));
    if Size(EnvelopeJson(envelope)) <= maxResultBytes {
      return;
    }
    assert FittedArtifact(tool, r, maxResultBytes) == FirstFitting(c[2..], fallback, maxResultBytes);
    var primary := FindPrimary(reasons);
    var compactReasons := if primary == MaxResultBytes then [primary] else [primary, MaxResultBytes];
    envelope := EnvelopeOf(tool, r, true, Because(compactReasons));
    if Size(EnvelopeJson(envelope)) <= maxResultBytes {
      return;
    }
    assert FittedArtifact(tool, r, maxResultBytes) == FirstFitting(c[3..], fallback, maxResultBytes);
    envelope := EnvelopeOf(tool, r, true, Because([MaxResultBytes]));
    if Size(EnvelopeJson(envelope)) <= maxResultBytes {
      return;
    }
    assert FirstFitting(c[3..], fallback, maxResultBytes) == FirstFitting([], fallback, maxResultBytes);
    envelope := ToolEnvelope(tool, r.rowCount, true, Because([MaxResultBytes]), r.hasErrors, JNull);
  }

  // ----- the content text -----

  /** The UTF-8 bytes of an ASCII literal. */
  function Text(text: string): (bytes: Bytes)
    ensures |bytes| == |text|
  {
    seq(|text|, i requires 0 <= i < |text| => if text[i] as int < 0x80 then text[i] as int else 0x3F)
  }

  function Digits(n: nat): Bytes { Decimal(n) }

  function BoolText(b: bool): Bytes { if b then Text("true") else Text("false") }

  function RowText(rowCount: Option<nat>): Bytes {
    if rowCount.None? then Text("row count unknown")
    else Digits(rowCount.value) + Text(" row") + (if rowCount.value == 1 then [] else Text("s"))
  }

  function ReasonList(reasons: seq<Reason>): Bytes {
    if reasons == [] then []
    else if |reasons| == 1 then Text(ReasonName(reasons[0]))
    else Text(ReasonName(reasons[0])) + Text(",") + ReasonList(reasons[1..])
  }

  function ReasonText(t: Option<Truncation>): Bytes {
    if t.None? then Text("none") else ReasonList(t.value.reasons)
  }

  predicate LooksEmpty(e: ToolEnvelope) { e.rowCount == Some(0) || (!e.truncated && e.data == JNull) }

  function Notes(e: ToolEnvelope): Bytes {
    (if LooksEmpty(e)
     then Text("; empty result; verify identifiers, fields, and date range before concluding no data exists") else [])
    + (if e.hasErrors then Text("; Bloomberg error diagnostics included in preview") else [])
  }

  function Headline(e: ToolEnvelope, contentTruncated: bool): Bytes {
    Text(e.tool) + Text(": ") + RowText(e.rowCount) + Text("; artifactTruncated=") + BoolText(e.truncated)
    + Text("; contentTruncated=") + BoolText(contentTruncated)
  }

  function Summary(e: ToolEnvelope, contentTruncation: Option<Truncation>): Bytes {
    Headline(e, contentTruncation.Some?) + Text("; artifactReasons=") + ReasonText(e.truncation)
    + Text("; contentReasons=") + ReasonText(contentTruncation) + Notes(e)
  }

  function CompactSummary(e: ToolEnvelope, contentTruncated: bool): Bytes {
    Headline(e, contentTruncated) + Text("; hasErrors=") + BoolText(e.hasErrors)
  }

  /** Assignment to a record: an existing key keeps its place. */
  function Assign(props: seq<Member>, m: Member): seq<Member> {
    if props == [] then [m]
    else if props[0].key == m.key then [m] + props[1..]
    else [props[0]] + Assign(props[1..], m)
  }

  function Spread(props: seq<Member>, more: seq<Member>): seq<Member> {
    if more == [] then props else Assign(Spread(props, more[..|more| - 1]), more[|more| - 1])
  }

  /** The content projection is an object, or `null` when not even that was kept. */
  function Payload(e: ToolEnvelope, r: LimitResult): Json {
    JObject(Spread([Member(Ascii("tool"), JString(Ascii(e.tool))), Member(ROW_COUNT, RowCountJson(e.rowCount)),
                    Member(TRUNCATED, JBool(e.truncated)), Member(Ascii("contentTruncated"), JBool(r.Truncated()))],
                   if r.value.JObject? then r.value.props else [Member(DATA, JNull)]))
  }

  function FullContent(e: ToolEnvelope, r: LimitResult): Bytes {
    Summary(e, r.truncation) + [0x0A] + Render(Payload(e, r))
  }

  function CompactContent(e: ToolEnvelope, r: LimitResult): Bytes {
    CompactSummary(e, r.Truncated()) + [0x0A] + Render(r.value)
  }

  function ContentText(e: ToolEnvelope, r: LimitResult, maxContentBytes: int): Bytes {
    if |FullContent(e, r)| <= maxContentBytes then FullContent(e, r)
    else if |CompactContent(e, r)| <= maxContentBytes then CompactContent(e, r)
    else CompactSummary(e, r.Truncated())
  }

  // ----- budgets -----

  function ProjectionBudget(totalBytes: int, reserve: nat): int {
    Max(4, totalBytes - Min(reserve, totalBytes / 2))
  }

  predicate HasEidMetadata(w: World, v: Value) {
    NodeOf(w, v).Some? && Lookup(NodeOf(w, v).value.props, EID_DATA).Some?
  }

  function CanonicalNodes(available: nat, hasEidMetadata: bool): nat {
    if available == 0 then 0
    else Max(1, if hasEidMetadata then available - (available + 4) / 5 else available / 3)
  }

  function CanonicalOptions(l: ToolLimits, nodes: nat): Options {
    Options(Max(l.result.maxResultBytes, l.maxContentBytes), nodes, Max(l.result.maxRows, l.maxContentRows),
            l.result.maxStringChars)
  }

  /** What the content shows: the remembered error diagnostics, if any, and the data. */
  function ContentSource(canonical: LimitResult): Json {
    JObject(When(canonical.errorDiagnostics != [], "diagnostics", DiagnosticsJson(canonical.errorDiagnostics))
            + [Member(DATA, canonical.value)])
  }

  function DiagnosticsJson(diagnostics: seq<Member>): Json {
    JArray(seq(|diagnostics|, i requires 0 <= i < |diagnostics| => JObject([diagnostics[i]])))
  }

  predicate CanReuse(canonical: LimitResult, byteLength: nat, maxBytes: int, maxRows: int) {
    byteLength <= maxBytes && canonical.maximumArrayRows <= maxRows
  }

  function Reused(w: World, value: Json, canonical: LimitResult): LimitResult {
    LimitResult(Size(value), 0, canonical.maximumArrayRows, canonical.retainedRows, [], false,
                RowCountOf(w, Embed(value)), None,
                value)
  }

  // ----- the whole result -----

  datatype Projections = Projections(canonical: LimitResult, artifact: LimitResult, content: LimitResult)

  function Materialized(l: ToolLimits): int {
    if l.materializedNodes.None? then 0 else l.materializedNodes.value
  }

  /** The checks made before any work. */
  function Precheck(l: ToolLimits): Option<Refusal> {
    if l.result.maxResultBytes < MIN_BYTES then Some(BadResultBytes)
    else if l.maxContentBytes < MIN_BYTES then Some(BadContentBytes)
    else if l.result.maxResultNodes < MIN_NODES then Some(BadResultNodes)
    else if Refused(l.result).Some? then Refused(l.result)
    else if Materialized(l) < 0 || Materialized(l) > l.result.maxResultNodes then Some(BadMaterializedNodes)
    else None
  }

  function Available(l: ToolLimits): nat
    requires Precheck(l).None?
  {
    l.result.maxResultNodes - Materialized(l)
  }

  function Canonical(w: World, v: Value, l: ToolLimits): Attempt<LimitResult>
    requires Precheck(l).None?
  {
    TryProject(w, v, CanonicalOptions(l, CanonicalNodes(Available(l), HasEidMetadata(w, v))), false)
  }

  predicate ReusesArtifact(c: LimitResult, l: ToolLimits) {
    CanReuse(c, c.byteLength, ProjectionBudget(l.result.maxResultBytes, ENVELOPE_RESERVE), l.result.maxRows)
  }

  predicate ReusesContent(c: LimitResult, l: ToolLimits) {
    CanReuse(c, Size(ContentSource(c)), ProjectionBudget(l.maxContentBytes, ENVELOPE_RESERVE), l.maxContentRows)
  }

  function Remaining(c: LimitResult, l: ToolLimits): nat
    requires Precheck(l).None?
  {
    Max(0, Available(l) - c.inspectedNodes)
  }

  function ArtifactNodes(c: LimitResult, l: ToolLimits): nat
    requires Precheck(l).None?
  {
    if ReusesArtifact(c, l) then 0
    else if ReusesContent(c, l) then Remaining(c, l)
    else Remaining(c, l) / 2
  }

  function ContentNodes(c: LimitResult, l: ToolLimits): nat
    requires Precheck(l).None?
  {
    if ReusesContent(c, l) then 0 else Remaining(c, l) - ArtifactNodes(c, l)
  }

  function ArtifactOptions(c: LimitResult, l: ToolLimits): Options
    requires Precheck(l).None?
  {
    Options(ProjectionBudget(l.result.maxResultBytes, ENVELOPE_RESERVE), ArtifactNodes(c, l), l.result.maxRows,
            MAX_SAFE_INTEGER)
  }

  function ContentOptions(c: LimitResult, l: ToolLimits): Options
    requires Precheck(l).None?
  {
    Options(ProjectionBudget(l.maxContentBytes, ENVELOPE_RESERVE), ContentNodes(c, l), l.maxContentRows,
            MAX_SAFE_INTEGER)
  }

  function ArtifactProjection(w: World, c: LimitResult, l: ToolLimits): Attempt<LimitResult>
    requires Precheck(l).None?
  {
    if ReusesArtifact(c, l) then Ok(Reused(w, c.value, c))
    else TryProject(w, Embed(c.value), ArtifactOptions(c, l), false)
  }

  function ContentProjection(w: World, c: LimitResult, l: ToolLimits): Attempt<LimitResult>
    requires Precheck(l).None?
  {
    if ReusesContent(c, l) then Ok(Reused(w, ContentSource(c), c))
    else TryProject(w, Embed(ContentSource(c)), ContentOptions(c, l), true)
  }

  /** The artifact and the content, both made from the canonical projection. */
  function Derive(w: World, c: LimitResult, l: ToolLimits): Attempt<Projections>
    requires Precheck(l).None?
  {
    match ArtifactProjection(w, c, l)
    case RangeError(refusal) => RangeError(refusal)
    case Ok(a) =>
      match ContentProjection(w, c, l)
      case RangeError(refusal) => RangeError(refusal)
      case Ok(p) => Ok(Projections(c, a, p))
  }

  function Project(w: World, v: Value, l: ToolLimits): Attempt<Projections>
    requires Precheck(l).None?
  {
    match Canonical(w, v, l)
    case RangeError(refusal) => RangeError(refusal)
    case Ok(c) => Derive(w, c, l)
  }

  /** Every inspection, from materializing the input to the last projection. */
  function Inspections(l: ToolLimits, p: Projections): nat
    requires Precheck(l).None?
  {
    Materialized(l) + p.canonical.inspectedNodes + p.artifact.inspectedNodes + p.content.inspectedNodes
  }

  function ArtifactResult(l: ToolLimits, p: Projections): LimitResult
    requires Precheck(l).None?
  {
    WithInspections(Merged(p.canonical, p.artifact), Inspections(l, p))
  }

  function ContentResult(l: ToolLimits, p: Projections): LimitResult
    requires Precheck(l).None?
  {
    WithInspections(Merged(p.canonical, p.content), Inspections(l, p))
  }

  function Assemble(tool: string, l: ToolLimits, p: Projections): ToolResult
    requires Precheck(l).None?
  {
    var artifact := FittedArtifact(tool, ArtifactResult(l, p), l.result.maxResultBytes);
    ToolResult(ContentText(artifact, ContentResult(l, p), l.maxContentBytes), artifact)
  }

  /** `createToolResult` */
  function ToolResultOf(w: World, tool: string, v: Value, l: ToolLimits): Attempt<ToolResult> {
    if Precheck(l).Some? then RangeError(Precheck(l).value)
    else
      match Project(w, v, l)
      case RangeError(refusal) => RangeError(refusal)
      case Ok(p) => Ok(Assemble(tool, l, p))
  }

  method DeriveProjections(w: World, canonical: LimitResult, availableNodeBudget: nat, l: ToolLimits)
    returns (r: Attempt<Projections>)
    requires Precheck(l).None? && availableNodeBudget == Available(l)
    ensures r == Derive(w, canonical, l)
  {
    hide Ascii, Size, RowCountOf, TryProject, Embed, Precheck, ProjectionBudget, CanReuse, Reused;
    var artifactDataBudget := ProjectionBudget(l.result.maxResultBytes, ENVELOPE_RESERVE);
    var contentDataBudget := ProjectionBudget(l.maxContentBytes, ENVELOPE_RESERVE);
    var contentSource: seq<Member> := [];
    if |canonical.errorDiagnostics| > 0 {
      contentSource := contentSource + [Member(Ascii("diagnostics"), DiagnosticsJson(canonical.errorDiagnostics))];
    }
    contentSource := contentSource + [Member(DATA, canonical.value)];
    assert JObject(contentSource) == ContentSource(canonical);
    var reuseArtifact := CanReuse(canonical, canonical.byteLength, artifactDataBudget, l.result.maxRows);
    var reuseContent := CanReuse(canonical, Size(JObject(contentSource)), contentDataBudget, l.maxContentRows);
    var remainingNodeBudget := Max(0, availableNodeBudget - canonical.inspectedNodes);
    var artifactNodeBudget :=
      if !reuseArtifact then if !reuseContent then remainingNodeBudget / 2 else remainingNodeBudget else 0;
    var contentNodeBudget := if !reuseContent then remainingNodeBudget - artifactNodeBudget else 0;
    var attempt := Ok(Reused(w, canonical.value, canonical));
    if !reuseArtifact {
      attempt := Projector.ProjectWithin(
        w, Embed(canonical.value), Options(artifactDataBudget, artifactNodeBudget, l.result.maxRows,
                                           MAX_SAFE_INTEGER), false);
    }
    assert attempt == ArtifactProjection(w, canonical, l);
    if attempt.RangeError? {
      return RangeError(attempt.refusal);
    }
    var artifactProjection := attempt.value;
    attempt := Ok(Reused(w, JObject(contentSource), canonical));
    if !reuseContent {
      attempt := Projector.ProjectWithin(
        w, Embed(JObject(contentSource)), Options(contentDataBudget, contentNodeBudget, l.maxContentRows,
                                                  MAX_SAFE_INTEGER), true);
    }
    assert attempt == ContentProjection(w, canonical, l);
    if attempt.RangeError? {
      return RangeError(attempt.refusal);
    }
    r := Ok(Projections(canonical, artifactProjection, attempt.value));
  }

  method CreateToolResult(w: World, tool: string, v: Value, l: ToolLimits) returns (r: Attempt<ToolResult>)
    ensures r == ToolResultOf(w, tool, v, l)
  {
    hide Ascii, TryProject, FittedArtifact, ContentText, Merged, HasEidMetadata, Derive, CanonicalNodes;
    var initialInspectedNodes := Materialized(l);
    if l.result.maxResultBytes < MIN_BYTES {
      return RangeError(BadResultBytes);
    }
    if l.maxContentBytes < MIN_BYTES {
      return RangeError(BadContentBytes);
    }
    if l.result.maxResultNodes < MIN_NODES {
      return RangeError(BadResultNodes);
    }
    var refused := Projector.ValidateResultLimits(l.result);
    if refused.Some? {
      return RangeError(refused.value);
    }
    if initialInspectedNodes < 0 || initialInspectedNodes > l.result.maxResultNodes {
      return RangeError(BadMaterializedNodes);
    }
    var availableNodeBudget := l.result.maxResultNodes - initialInspectedNodes;
    var canonicalNodeBudget := CanonicalNodes(availableNodeBudget, HasEidMetadata(w, v));
    var attempt := Projector.ProjectWithin(w, v, CanonicalOptions(l, canonicalNodeBudget), false);
    if attempt.RangeError? {
      return RangeError(attempt.refusal);
    }
    var derived := DeriveProjections(w, attempt.value, availableNodeBudget, l);
    if derived.RangeError? {
      return RangeError(derived.refusal);
    }
    var p := derived.value;
    var inspectedNodes := initialInspectedNodes + p.canonical.inspectedNodes + p.artifact.inspectedNodes
                          + p.content.inspectedNodes;
    var artifactLimited := MergeLimited(p.canonical, p.artifact);
    var contentLimited := MergeLimited(p.canonical, p.content);
    var envelope := FitArtifact(tool, WithInspections(artifactLimited, inspectedNodes), l.result.maxResultBytes);
    r := Ok(ToolResult(ContentText(envelope, WithInspections(contentLimited, inspectedNodes), l.maxContentBytes),
                       envelope));
  }
}
