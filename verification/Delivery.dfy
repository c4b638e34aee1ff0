/** What every tool result guarantees: byte limits, a bound on the work, and honest flags. */
module Delivery {
  import opened JsText
  import opened Json
  import opened JsHeap
  import opened ResultTypes
  import opened Entitlements
  import opened Projection
  import opened Results
  import opened Envelope
  import opened Guarantees
  import opened Whole
  import opened Honesty
  import C = Completeness
  import opened KeyOrder
  import opened Reprojection

  // ----- sizes of the parts of an envelope -----

  /** What the size of the envelope depends on: a short name, and a count that is a safe integer. */
  predicate Nameable(tool: string, rowCount: Option<nat>) {
    PlainText(tool) && |tool| <= 23 && (rowCount.Some? ==> rowCount.value <= MAX_SAFE_INTEGER)
  }

  lemma ToolNamesPlain()
    ensures forall i :: 0 <= i < |TOOL_NAMES| ==> PlainText(TOOL_NAMES[i]) && |TOOL_NAMES[i]| <= 23
  {
    hide PlainText;
    NamesPlain1();
    NamesPlain2();
    NamesPlain3();
    NamesPlain4();
    NamesPlain5();
    NamesPlain6();
    NamesPlain7();
    NamesPlain8();
    NamesPlain9();
  }

  lemma NamesPlain1()
    ensures PlainText("xbbg_bdp") && PlainText("xbbg_bdh") && PlainText("xbbg_bds")
    ensures PlainText("xbbg_bdib") && PlainText("xbbg_bdtick")
  {
  }

  lemma NamesPlain2()
    ensures PlainText("xbbg_check_entitlements") && PlainText("xbbg_delay_status") && PlainText("xbbg_bql")
    ensures PlainText("xbbg_bsrch") && PlainText("xbbg_bqr")
  {
  }

  lemma NamesPlain3()
    ensures PlainText("xbbg_bflds") && PlainText("xbbg_beqs") && PlainText("xbbg_yas")
    ensures PlainText("xbbg_preferreds")
  {
  }

  lemma NamesPlain4()
    ensures PlainText("xbbg_corporate_bonds") && PlainText("xbbg_index_members") && PlainText("xbbg_resolve_isins")
    ensures PlainText("xbbg_resolve_venues")
  {
  }

  lemma NamesPlain5()
    ensures PlainText("xbbg_auction_snapshot") && PlainText("xbbg_issuer_isins") && PlainText("xbbg_etf_holdings")
    ensures PlainText("xbbg_stream_snapshot")
  {
  }

  lemma NamesPlain6()
    ensures PlainText("xbbg_mktbar_snapshot") && PlainText("xbbg_depth_snapshot") && PlainText("xbbg_ext_ticker")
    ensures PlainText("xbbg_ext_futures")
  {
  }

  lemma NamesPlain7()
    ensures PlainText("xbbg_ext_cdx") && PlainText("xbbg_ext_currency") && PlainText("xbbg_ext_bql_builder")
    ensures PlainText("xbbg_ext_chart_spec")
  {
  }

  lemma NamesPlain8()
    ensures PlainText("xbbg_ext_market_session") && PlainText("xbbg_ext_yas_overrides")
            && PlainText("xbbg_ext_constants")
    ensures PlainText("xbbg_ext_columns")
  {
  }

  lemma NamesPlain9()
    ensures PlainText("xbbg_ext_calculate")
  {
  }

  lemma LiteralSize(text: string)
    requires PlainText(text)
    ensures StringSize(Ascii(text)) == 2 + |text|
  {
    AsciiVerbatim(text);
    VerbatimSize(Ascii(text));
  }

  lemma CountDigits(n: nat)
    requires n <= MAX_SAFE_INTEGER
    ensures |Decimal(n)| <= 16
  {
    hide Decimal;
    assert Pow10(8) == 100000000;
    assert Pow10(16) == 100000000 * Pow10(8);
    DecimalLength(n, 16);
  }

  lemma RowCountSize(n: Option<nat>)
    requires n.Some? ==> n.value <= MAX_SAFE_INTEGER
    ensures Size(RowCountJson(n)) <= 16
  {
    if n.Some? { CountDigits(n.value); }
  }

  lemma OneItemSize(j: Json)
    ensures Size(JArray([j])) == 2 + Size(j)
  {
    AppendItem([], j);
    assert [] + [j] == [j];
  }

  lemma OnePropSize(key: Str, j: Json)
    ensures Size(JObject([Member(key, j)])) == 3 + StringSize(key) + Size(j)
  {
    hide StringSize;
    AppendProp([], key, j);
    assert [] + [Member(key, j)] == [Member(key, j)];
  }

  lemma ReasonLiterals()
    ensures StringSize(Ascii("max_result_bytes")) == 18 && StringSize(Ascii("reasons")) == 9
  {
    assert PlainText("max_result_bytes");
    assert PlainText("reasons");
    LiteralSize("max_result_bytes");
    LiteralSize("reasons");
    hide Ascii, StringSize;
  }

  lemma ByteReasonSize()
    ensures Size(TruncationJson(Because([MaxResultBytes]).value)) == 32
  {
    hide Ascii, StringSize, ItemsSize, PropsSize, TruncationJson;
    ReasonLiterals();
    var name := JString(Ascii("max_result_bytes"));
    assert Size(name) == 18;
    hide Size;
    OneItemSize(name);
    OnePropSize(Ascii("reasons"), JArray([name]));
    ByteReasonJson(name);
  }

  lemma ByteReasonJson(name: Json)
    requires name == JString(Ascii("max_result_bytes"))
    ensures TruncationJson(Because([MaxResultBytes]).value) == JObject([Member(Ascii("reasons"), JArray([name]))])
  {
    hide Ascii;
    assert ReasonsJson([MaxResultBytes]).items == [name];
  }

  lemma AppendWhen(props: seq<Member>, keep: bool, key: string, value: Json)
    requires PlainText(key)
    ensures PropsSize(props + When(keep, key, value)) <= PropsSize(props) + 4 + |key| + Size(value)
    ensures When(keep, key, value) != [] || props + When(keep, key, value) == props
  {
    hide Ascii, StringSize, Size, PropsSize;
    AppendProp(props, Ascii(key), value);
    LiteralSize(key);
    assert !keep ==> props + When(keep, key, value) == props;
  }

  function Lead(e: ToolEnvelope): seq<Member> {
    [Member(Ascii("tool"), JString(Ascii(e.tool)))] + [Member(ROW_COUNT, RowCountJson(e.rowCount))]
    + [Member(TRUNCATED, JBool(e.truncated))]
  }

  lemma LeadSize(e: ToolEnvelope)
    requires Nameable(e.tool, e.rowCount)
    ensures PropsSize(Lead(e)) <= if e.truncated then 77 else 78
  {
    hide Ascii, StringSize, PropsSize, RowCountJson;
    var p1 := [Member(Ascii("tool"), JString(Ascii(e.tool)))];
    AppendProp([], Ascii("tool"), JString(Ascii(e.tool)));
    assert [] + p1 == p1;
    EmptyProps();
    assert PlainText("tool");
    LiteralSize("tool");
    LiteralSize(e.tool);
    var p2 := p1 + [Member(ROW_COUNT, RowCountJson(e.rowCount))];
    AppendProp(p1, ROW_COUNT, RowCountJson(e.rowCount));
    assert PlainText("rowCount");
    LiteralSize("rowCount");
    RowCountSize(e.rowCount);
    AppendProp(p2, TRUNCATED, JBool(e.truncated));
    assert PlainText("truncated");
    LiteralSize("truncated");
  }

  lemma EnvelopeSize(e: ToolEnvelope)
    ensures Size(EnvelopeJson(e)) <= 10 + PropsSize(HeadOf(e)) + Size(e.data)
  {
    hide Ascii, StringSize, PropsSize, HeadOf;
    AppendProp(HeadOf(e), DATA, e.data);
    assert PlainText("data");
    LiteralSize("data");
  }

  /** With the shortest summary everything but the data takes at most 150 bytes. */
  lemma ShortEnvelopeSize(e: ToolEnvelope)
    requires Nameable(e.tool, e.rowCount) && e.truncated && e.truncation == Because([MaxResultBytes])
    ensures Size(EnvelopeJson(e)) <= 150 + Size(e.data)
  {
    hide Ascii, PropsSize, Size, EnvelopeJson, TruncationJson;
    LeadSize(e);
    var t := TruncationJson(e.truncation.value);
    ByteReasonSize();
    assert PlainText("truncation");
    AppendWhen(Lead(e), true, "truncation", t);
    assert PlainText("hasErrors");
    AppendWhen(Lead(e) + When(true, "truncation", t), e.hasErrors, "hasErrors", JBool(true));
    TrueSize();
    assert HeadOf(e) == Lead(e) + When(true, "truncation", t) + When(e.hasErrors, "hasErrors", JBool(true));
    EnvelopeSize(e);
  }

  /** Without a summary it takes at most 105 bytes. */
  lemma PlainEnvelopeSize(e: ToolEnvelope)
    requires Nameable(e.tool, e.rowCount) && e.truncation == None
    ensures Size(EnvelopeJson(e)) <= 105 + Size(e.data)
  {
    hide Ascii, PropsSize, Size, EnvelopeJson;
    LeadSize(e);
    assert PlainText("hasErrors");
    AppendWhen(Lead(e), e.hasErrors, "hasErrors", JBool(true));
    TrueSize();
    assert HeadOf(e) == Lead(e) + When(e.hasErrors, "hasErrors", JBool(true));
    EnvelopeSize(e);
  }

  lemma TrueSize()
    ensures Size(JBool(true)) == 4
  {
  }

  lemma EmptyProps()
    ensures PropsSize([]) == 0
  {
  }

  // ----- byte limits -----

  /** Whatever the fitting picks is within the limit, and keeps the data from 300 bytes on. */
  lemma FitBounded(tool: string, r: LimitResult, maxResultBytes: int)
    requires maxResultBytes >= MIN_BYTES && Nameable(tool, r.rowCount)
    ensures var e := FittedArtifact(tool, r, maxResultBytes);
            && Size(EnvelopeJson(e)) <= maxResultBytes
            && (Size(r.value) + 150 <= maxResultBytes ==> e.data == r.value)
            && (e.data == r.value || (e.data == JNull && e.truncated))
            && (!e.truncated ==> !r.Truncated() && e.data == r.value)
            && (!r.Truncated() && Size(r.value) + 105 <= maxResultBytes ==> !e.truncated)
            && (e.truncated <==> e.truncation.Some?)
            && e.tool == tool && e.rowCount == r.rowCount && e.hasErrors == r.hasErrors
  {
    hide EnvelopeJson, Size, Ascii, Compact;
    var c := Candidates(tool, r);
    var fallback := WithoutData(tool, r);
    assert c[1..][1..] == c[2..] && c[2..][1..] == c[3..] && c[3..][1..] == [];
    assert FirstFitting(c, fallback, maxResultBytes)
        == if Size(EnvelopeJson(c[0])) <= maxResultBytes then c[0] else FirstFitting(c[1..], fallback, maxResultBytes);
    assert FirstFitting(c[1..], fallback, maxResultBytes)
        == if Size(EnvelopeJson(c[1])) <= maxResultBytes then c[1] else FirstFitting(c[2..], fallback, maxResultBytes);
    assert FirstFitting(c[2..], fallback, maxResultBytes)
        == if Size(EnvelopeJson(c[2])) <= maxResultBytes then c[2] else FirstFitting(c[3..], fallback, maxResultBytes);
    assert FirstFitting(c[3..], fallback, maxResultBytes)
        == if Size(EnvelopeJson(c[3])) <= maxResultBytes then c[3] else fallback;
    if r.truncation.None? { PlainEnvelopeSize(c[0]); }
    ShortEnvelopeSize(c[3]);
    ShortEnvelopeSize(fallback);
    NullSize();
  }

  lemma HeadlineSize(e: ToolEnvelope, contentTruncated: bool)
    requires Nameable(e.tool, e.rowCount)
    ensures |CompactSummary(e, contentTruncated)| <= 112
  {
    hide Decimal;
    if e.rowCount.Some? { CountDigits(e.rowCount.value); }
    assert |RowText(e.rowCount)| <= 21;
  }

  /** The content is within its limit, and always shows the projected value. */
  lemma ContentBounded(e: ToolEnvelope, r: LimitResult, maxContentBytes: int)
    requires Nameable(e.tool, e.rowCount) && Size(r.value) + 113 <= maxContentBytes
    ensures var text := ContentText(e, r, maxContentBytes);
            |text| <= maxContentBytes && (text == FullContent(e, r) || text == CompactContent(e, r))
  {
    hide FullContent, CompactSummary, Size, Render;
    HeadlineSize(e, r.Truncated());
    SizeIsTextLength(r.value);
  }

  // ----- the three projections -----

  /** Nothing in a `TryProject` result escapes its limits, validated or not. */
  predicate Within(r: LimitResult, o: Options) {
    && r.byteLength == Size(r.value) <= o.maxResultBytes
    && r.inspectedNodes <= o.maxResultNodes
    && (r.Truncated() ==> r.truncation.value.reasons != [])
  }

  lemma TryWithin(w: World, v: Value, o: Options, rowsBeforeMetadata: bool)
    requires o.maxResultBytes >= 4 && o.maxResultNodes >= 0
    ensures var a := TryProject(w, v, o, rowsBeforeMetadata);
            a.Ok? ==> Within(a.value, o) && a.value.rowCount == RowCountOf(w, v)
  {
    hide Size, Render, RowCountOf, ProjectionOf, Ordered;
    NullSize();
    if ValidOptions(o) {
      ProjectionBounded(w, v, LimitsOf(o), rowsBeforeMetadata);
      SizeIsTextLength(ProjectResult(w, v, LimitsOf(o), rowsBeforeMetadata).value);
      var out := ProjectionOf(w, v, LimitsOf(o), rowsBeforeMetadata);
      var t := if out.built.Omit? then AddReason(out.st, MaxResultBytes) else out.st;
      ReasonsKept(t.reasons);
    }
  }

  lemma ReasonsKept(reasons: set<Reason>)
    ensures reasons != {} ==> Ordered(REASON_ORDER, reasons) != []
  {
    hide Ordered;
    AllReasonsOrdered(reasons);
    if reasons != {} {
      var r :| r in reasons;
      assert r in Ordered(REASON_ORDER, reasons);
    }
  }

  /** Merging never forgets a truncation and never invents one. */
  lemma MergedTruncated(first: LimitResult, second: LimitResult)
    requires first.Truncated() ==> first.truncation.value.reasons != []
    requires second.Truncated() ==> second.truncation.value.reasons != []
    ensures Merged(first, second).Truncated() <==> first.Truncated() || second.Truncated()
    ensures var r := Merged(first, second);
            r.Truncated() ==> forall x :: x in r.truncation.value.reasons <==>
              x in ReasonsOf(first) || x in ReasonsOf(second)
  {
    hide Ordered;
    AllReasonsOrdered(SetOf(ReasonsOf(first)) + SetOf(ReasonsOf(second)));
    if first.Truncated() { assert first.truncation.value.reasons[0] in SetOf(ReasonsOf(first)); }
    if second.Truncated() { assert second.truncation.value.reasons[0] in SetOf(ReasonsOf(second)); }
  }

  /** Each projection stays within its share of the budgets. */
  lemma SharesWithin(w: World, v: Value, l: ToolLimits)
    requires Precheck(l).None? && Project(w, v, l).Ok?
    ensures var p := Project(w, v, l).value;
            && Within(p.canonical, CanonicalOptions(l, CanonicalNodes(Available(l), HasEidMetadata(w, v))))
            && Within(p.artifact, ArtifactOptions(p.canonical, l))
            && Within(p.content, ContentOptions(p.canonical, l))
            && p.canonical.rowCount == RowCountOf(w, v)
  {
    hide Size, RowCountOf, TryProject, Embed, HasEidMetadata, ContentSource;
    var p := Project(w, v, l).value;
    TryWithin(w, v, CanonicalOptions(l, CanonicalNodes(Available(l), HasEidMetadata(w, v))), false);
    TryWithin(w, Embed(p.canonical.value), ArtifactOptions(p.canonical, l), false);
    TryWithin(w, Embed(ContentSource(p.canonical)), ContentOptions(p.canonical, l), true);
  }

  /** Materializing, canonical, artifact and content inspections share one limit. */
  lemma WorkBounded(w: World, v: Value, l: ToolLimits)
    requires Precheck(l).None? && Project(w, v, l).Ok?
    ensures Inspections(l, Project(w, v, l).value) <= l.result.maxResultNodes
  {
    hide Size, Project, ReusesArtifact, ReusesContent, HasEidMetadata;
    SharesWithin(w, v, l);
  }

  /** A JavaScript array has fewer than 2^32 elements. */
  predicate ArrayLengthOk(w: World, v: Value) {
    IsArray(w, v) ==> |NodeOf(w, v).value.kind.elems| < 0x1_0000_0000
  }

  lemma RowCountNameable(w: World, tool: string, v: Value)
    requires tool in TOOL_NAMES && ArrayLengthOk(w, v)
    ensures Nameable(tool, RowCountOf(w, v))
  {
    hide PlainText;
    ToolNamesPlain();
  }

  /**
   Both byte limits hold, including the last resorts; the artifact keeps its projected
   data from 300 bytes on; and the content always shows its projected value, so that the
   summary on its own is never returned.
   */
  lemma DeliveredWithinLimits(w: World, tool: string, v: Value, l: ToolLimits)
    requires tool in TOOL_NAMES && ArrayLengthOk(w, v)
    requires Precheck(l).None? && Project(w, v, l).Ok?
    ensures var p := Project(w, v, l).value;
            var r := Assemble(tool, l, p);
            && |Render(EnvelopeJson(r.artifact))| <= l.result.maxResultBytes
            && |r.content| <= l.maxContentBytes
            && (r.artifact.data == p.artifact.value || (r.artifact.data == JNull && l.result.maxResultBytes < 300))
            && (r.content == FullContent(r.artifact, ContentResult(l, p))
                || r.content == CompactContent(r.artifact, ContentResult(l, p)))
            && (r.artifact.truncated <==> r.artifact.truncation.Some?)
            && (r.artifact.truncated <== p.canonical.Truncated() || p.artifact.Truncated())
            && (r.artifact.truncated ==> p.canonical.Truncated() || p.artifact.Truncated())
  {
    hide Size, Render, RowCountOf, Project, ContentText, FittedArtifact, EnvelopeJson, FullContent, CompactContent,
         IsArray,
         ContentSource, Ordered;
    var p := Project(w, v, l).value;
    SharesWithin(w, v, l);
    RowCountNameable(w, tool, v);
    MergedTruncated(p.canonical, p.artifact);
    FitBounded(tool, ArtifactResult(l, p), l.result.maxResultBytes);
    var artifact := FittedArtifact(tool, ArtifactResult(l, p), l.result.maxResultBytes);
    SizeIsTextLength(EnvelopeJson(artifact));
    ContentBounded(artifact, ContentResult(l, p), l.maxContentBytes);
  }

  // ----- honest flags -----

  predicate FitsOptions(x: Whole, o: Options)
    requires x.Full?
  {
    && Size(x.json) + (if TightTail(x.json) then 1 else 0) <= o.maxResultBytes
    && x.cost.visits <= o.maxResultNodes
    && x.cost.widest <= o.maxRows
    && x.cost.longest <= o.maxStringChars
    && (x.cost.peak.Some? ==> x.cost.peak.value <= o.maxRows)
  }

  /** The result of keeping everything, as far as later projections depend on it. */
  function Expected(x: Whole): LimitResult
    requires x.Full?
  {
    LimitResult(Size(x.json), x.cost.visits, x.cost.trace.rows, x.cost.spend, C.Noted([], x.cost.trace.notes), false,
                None, None, x.json)
  }

  predicate Foreseen(x: Whole, r: LimitResult)
    requires x.Full?
  {
    var e := Expected(x);
    && r.value == e.value && r.byteLength == e.byteLength && r.inspectedNodes == e.inspectedNodes
    && r.maximumArrayRows == e.maximumArrayRows && r.errorDiagnostics == e.errorDiagnostics
  }

  /** Nothing else of the canonical result decides what is made of it. */
  lemma ForeseenSame(x: Whole, c: LimitResult, l: ToolLimits)
    requires Precheck(l).None? && x.Full? && Foreseen(x, c)
    ensures ReusesArtifact(c, l) == ReusesArtifact(Expected(x), l)
    ensures ArtifactOptions(c, l) == ArtifactOptions(Expected(x), l)
  {
    hide Size, ProjectionBudget, C.Noted, Precheck, Available;
    assert ContentSource(c) == ContentSource(Expected(x));
  }

  lemma TryLossless(w: World, v: Value, o: Options, rbm: bool)
    requires o.maxResultNodes >= 0 && TryProject(w, v, o, rbm).Ok?
    ensures var r := TryProject(w, v, o, rbm).value;
            var x := WholeValue(w, v, 0, false, rbm, true);
            && (!r.Truncated() ==> !x.Lossy?)
            && (x.Full? ==> (!r.Truncated() <==> FitsOptions(x, o) && !x.cost.upstream))
            && (x.Full? && FitsOptions(x, o) ==> r.value == x.json && Foreseen(x, r))
  {
    hide WholeValue, ProjectResult, RowCountOf, Size, TightTail;
    if o.maxResultNodes > 0 {
      LosslessExactly(w, v, LimitsOf(o), rbm);
    } else {
      WholeVisits(w, v, 0, false, rbm, true);
    }
  }

  /** The whole form of a whole form. */
  function Again(w: World, x: Whole): Whole
    requires x.Full?
  {
    WholeValue(w, Embed(x.json), 0, false, false, true)
  }

  /** Whether the artifact can keep a canonical value that is whole, told from the value alone. */
  predicate KeepsArtifact(w: World, x: Whole, l: ToolLimits)
    requires Precheck(l).None? && x.Full?
  {
    || ReusesArtifact(Expected(x), l)
    || (Again(w, x).Full? && FitsOptions(Again(w, x), ArtifactOptions(Expected(x), l)) && !Again(w, x).cost.upstream)
  }

  /**
   The artifact goes out unflagged exactly when both projections can keep everything,
   and then its data is the whole normalised value.
   */
  lemma ArtifactLosslessExactly(w: World, tool: string, v: Value, l: ToolLimits)
    requires tool in TOOL_NAMES && ArrayLengthOk(w, v)
    requires Precheck(l).None? && Project(w, v, l).Ok?
    ensures var p := Project(w, v, l).value;
            var e := Assemble(tool, l, p).artifact;
            var x := WholeValue(w, v, 0, false, false, true);
            && (!e.truncated ==> !x.Lossy?)
            && (x.Full? && !Again(w, x).Special? ==>
                 && (!e.truncated ==> e.data == x.json)
                 && (!e.truncated <==>
                       && FitsOptions(x, CanonicalOptions(l, CanonicalNodes(Available(l), HasEidMetadata(w, v))))
                       && !x.cost.upstream
                       && KeepsArtifact(w, x, l)))
  {
    hide WholeValue, TryProject, FitsOptions, HasEidMetadata, Assemble, ArrayLengthOk, Precheck, Project,
         CanonicalNodes, KeepsArtifact, Again, ArtifactProjection;
    var p := Project(w, v, l).value;
    var x := WholeValue(w, v, 0, false, false, true);
    ProjectParts(w, v, l);
    TryLossless(w, v, CanonicalOptions(l, CanonicalNodes(Available(l), HasEidMetadata(w, v))), false);
    ArtifactData(w, tool, v, l);
    if x.Full? && !p.canonical.Truncated() && !Again(w, x).Special? {
      ArtifactKept(w, v, p.canonical, l);
    }
  }

  lemma ProjectParts(w: World, v: Value, l: ToolLimits)
    requires Precheck(l).None? && Project(w, v, l).Ok?
    ensures var p := Project(w, v, l).value;
            && Canonical(w, v, l) == Ok(p.canonical)
            && ArtifactProjection(w, p.canonical, l) == Ok(p.artifact)
            && ContentProjection(w, p.canonical, l) == Ok(p.content)
  {
    hide Canonical, ArtifactProjection, ContentProjection, Precheck;
  }

  lemma ArtifactKept(w: World, v: Value, c: LimitResult, l: ToolLimits)
    requires Precheck(l).None? && ArtifactProjection(w, c, l).Ok?
    requires var x := WholeValue(w, v, 0, false, false, true); x.Full? && Foreseen(x, c) && !Again(w, x).Special?
    ensures var x := WholeValue(w, v, 0, false, false, true);
            var a := ArtifactProjection(w, c, l).value;
            (!a.Truncated() <==> KeepsArtifact(w, x, l)) && (!a.Truncated() ==> a.value == x.json)
  {
    hide WholeValue, TryProject, FitsOptions, Embed, ReusesArtifact, Fixed, Precheck, RowCountOf, Size, ArtifactNodes,
         ProjectionBudget, Expected, ArtifactOptions;
    var x := WholeValue(w, v, 0, false, false, true);
    ForeseenSame(x, c, l);
    ForeseenValue(x, c);
    ArtifactNodesNat(c, l);
    if !ReusesArtifact(c, l) {
      TryLossless(w, Embed(c.value), ArtifactOptions(c, l), false);
      ValueFixed(w, false, v, 0, false, true);
      FixedAt(w, false, x.json, 0, false, true);
    }
  }

  lemma ForeseenValue(x: Whole, c: LimitResult)
    requires x.Full? && Foreseen(x, c)
    ensures c.value == x.json
  {
  }

  lemma ArtifactNodesNat(c: LimitResult, l: ToolLimits)
    requires Precheck(l).None?
    ensures ArtifactOptions(c, l).maxResultNodes >= 0
  {
    hide ArtifactNodes, Precheck, ProjectionBudget;
  }

  lemma ArtifactData(w: World, tool: string, v: Value, l: ToolLimits)
    requires tool in TOOL_NAMES && ArrayLengthOk(w, v)
    requires Precheck(l).None? && Project(w, v, l).Ok?
    ensures var p := Project(w, v, l).value;
            var e := Assemble(tool, l, p).artifact;
            && (!e.truncated <==> !p.canonical.Truncated() && !p.artifact.Truncated())
            && (!e.truncated ==> e.data == p.artifact.value)
  {
    hide Size, RowCountOf, Project, ContentText, FittedArtifact, IsArray, Ordered, Render, EnvelopeJson, FullContent,
         CompactContent;
    DeliveredWithinLimits(w, tool, v, l);
    RowCountNameable(w, tool, v);
    SharesWithin(w, v, l);
    FitBounded(tool, ArtifactResult(l, Project(w, v, l).value), l.result.maxResultBytes);
  }

  /**
   An unflagged artifact has nothing missing, entitlement and stored metadata included: its
   data is the canonical value, or that value projected again, each without any loss.
   */
  lemma ArtifactKeepsAll(w: World, tool: string, v: Value, l: ToolLimits)
    requires tool in TOOL_NAMES && ArrayLengthOk(w, v)
    requires Precheck(l).None? && Project(w, v, l).Ok?
    ensures var e, c := Assemble(tool, l, Project(w, v, l).value).artifact, Project(w, v, l).value.canonical.value;
            !e.truncated ==> KeepsAll(w, v, c, false) && (e.data == c || KeepsAll(w, Embed(c), e.data, false))
  {
    hide TryProject, HasEidMetadata, Assemble, ArrayLengthOk, Precheck, Project, CanonicalNodes, KeepsAll,
         ReusesArtifact, ArtifactNodes,
         ProjectionBudget, Embed, RowCountOf, Size;
    var p := Project(w, v, l).value;
    ProjectParts(w, v, l);
    ArtifactData(w, tool, v, l);
    TryKeepsAll(w, v, CanonicalOptions(l, CanonicalNodes(Available(l), HasEidMetadata(w, v))), false);
    if !ReusesArtifact(p.canonical, l) {
      TryKeepsAll(w, Embed(p.canonical.value), ArtifactOptions(p.canonical, l), false);
    }
  }

  lemma TryKeepsAll(w: World, v: Value, o: Options, rbm: bool)
    requires TryProject(w, v, o, rbm).Ok?
    ensures var r := TryProject(w, v, o, rbm).value; !r.Truncated() ==> KeepsAll(w, v, r.value, rbm)
  {
    hide ProjectResult, RowCountOf, KeepsAll;
    if o.maxResultNodes != 0 { ResultPrunes(w, v, LimitsOf(o), rbm); }
  }

  /**
   When the content is not flagged either, the data it shows is the whole value too: the
   content object's last member is `data`.
   */
  lemma ContentLossless(w: World, v: Value, l: ToolLimits)
    requires Precheck(l).None? && Project(w, v, l).Ok?
    ensures var p := Project(w, v, l).value;
            var x := WholeValue(w, v, 0, false, false, true);
            !ContentResult(l, p).Truncated() ==>
              && !x.Lossy?
              && (x.Full? && !WholeValue(w, Embed(ContentSource(p.canonical)), 0, false, true, true).Special? ==>
                    p.content.value.JObject? && ValueAt(p.content.value.props, DATA) == Some(x.json))
  {
    hide WholeValue, TryProject, FitsOptions, Embed, HasEidMetadata, ReusesContent, Precheck, Project, Reused,
         ContentSource,
         CanonicalNodes, ArtifactProjection, ValueAt, Size, ContentNodes, ProjectionBudget, Ordered;
    var p := Project(w, v, l).value;
    var x := WholeValue(w, v, 0, false, false, true);
    ProjectParts(w, v, l);
    SharesWithin(w, v, l);
    MergedTruncated(p.canonical, p.content);
    TryLossless(w, v, CanonicalOptions(l, CanonicalNodes(Available(l), HasEidMetadata(w, v))), false);
    if x.Full? && !p.canonical.Truncated() && !p.content.Truncated()
       && !WholeValue(w, Embed(ContentSource(p.canonical)), 0, false, true, true).Special?
    {
      ContentKept(w, v, p.canonical, l);
    }
  }

  lemma ContentKept(w: World, v: Value, c: LimitResult, l: ToolLimits)
    requires Precheck(l).None? && ContentProjection(w, c, l).Ok? && !ContentProjection(w, c, l).value.Truncated()
    requires var x := WholeValue(w, v, 0, false, false, true); x.Full? && c.value == x.json
    requires !WholeValue(w, Embed(ContentSource(c)), 0, false, true, true).Special?
    ensures var a := ContentProjection(w, c, l).value; a.value.JObject? && ValueAt(a.value.props, DATA) == Some(c.value)
  {
    hide WholeValue, TryProject, FitsOptions, Embed, ReusesContent, Fixed, Precheck, RowCountOf, ContentNodes,
         ProjectionBudget, ContentSource, ValueAt;
    SourceHasData(c);
    if !ReusesContent(c, l) {
      TryLossless(w, Embed(ContentSource(c)), ContentOptions(c, l), true);
      ValueFixed(w, true, v, 0, false, true);
      SourceWhole(w, c);
    }
  }

  lemma SourceHasData(c: LimitResult)
    ensures ContentSource(c).JObject? && ValueAt(ContentSource(c).props, DATA) == Some(c.value)
    ensures Distinct(ContentSource(c).props)
  {
    hide Embed, DiagnosticsJson;
    var props := ContentSource(c).props;
    assert |DIAGNOSTICS| != |DATA|;
    hide Ascii;
    ValueAtMember(props, |props| - 1);
  }

  /** A whole content object shows the data unchanged, if the data is a fixed point. */
  lemma SourceWhole(w: World, c: LimitResult)
    requires Fixed(w, true, c.value)
    ensures var y := WholeValue(w, Embed(ContentSource(c)), 0, false, true, true);
            y.Full? ==> y.json.JObject? && ValueAt(y.json.props, DATA) == Some(c.value)
  {
    hide Ascii, Embed, WholeProp, WholeValue, Fixed, OtherKeys, DataProps, ContentSource, ValueAt, Pick, Distinct,
         KeysOf;
    SourceHasData(c);
    var props := ContentSource(c).props;
    var node := Node(KPlain, DataProps(props));
    EmbeddedObject(w, props, 0, false, true, true);
    SourceKeys(c);
    EmbeddedProp(w, props, DATA, 0, false, true);
    WholePropsKeys(w, node, PRIORITY_KEYS, 0, false, true);
    var x := WholeProps(w, node, PRIORITY_KEYS, 0, false, true);
    var y := WholeProps(w, node, [DATA], 0, false, true);
    if x.FullList? && y.FullList? {
      OneProp(w, node, DATA);
      ValueAtLast(x.list, Member(DATA, c.value));
    }
  }

  lemma OneProp(w: World, node: Node, key: Str)
    ensures var y := WholeProps(w, node, [key], 0, false, true);
            y.FullList? ==> WholeProp(w, node, key, 0, false,
                                      true).FullList? && y.list == WholeProp(w, node, key, 0, false, true).list
  {
    hide WholeProp;
    assert [key][1..] == [];
  }

  lemma SourceKeys(c: LimitResult)
    ensures OtherKeys(Node(KPlain, DataProps(ContentSource(c).props))) == [DATA] && DATA !in PRIORITY_KEYS
  {
    hide Ascii, OtherKeys, DataProps, Pick;
    DataOrdinary();
    SourceHasData(c);
    var a := When(c.errorDiagnostics != [], "diagnostics", DiagnosticsJson(c.errorDiagnostics));
    var b := [Member(DATA, c.value)];
    assert PRIORITY_KEYS[15] == DIAGNOSTICS;
    EmbeddedOtherKeys(a, b);
    assert KeysOf(b) == [DATA];
  }

  lemma DataOrdinary()
    ensures DATA !in PRIORITY_KEYS
  {
    PrioritySignatures();
    assert |DATA| == 4;
    hide Ascii;
    forall i | 0 <= i < |PRIORITY_KEYS| ensures PRIORITY_KEYS[i] != DATA {
      assert SIGNATURES[i].0 != 4;
    }
  }

  // ----- values without special metadata -----

  /** No entitlement list and no stored field exceptions anywhere. */
  predicate Unmarked(j: Json) {
    match j
    case JArray(items) => forall i :: 0 <= i < |items| ==> Unmarked(items[i])
    case JObject(props) =>
      forall i :: 0 <= i < |props| ==>
        props[i].key != EID_DATA && props[i].key != FIELD_EXCEPTIONS_KEY && Unmarked(props[i].value)
    case _ => true
  }

  lemma {:induction false} UnmarkedNotSpecial(w: World, j: Json, d: nat, diag: bool, rbm: bool, shared: bool)
    requires Unmarked(j)
    ensures !WholeValue(w, Embed(j), d, diag, rbm, shared).Special?
    decreases j, 2
  {
    hide Ascii, WholeProps, WholeItems, OtherKeys, DataProps, DataElems;
    match j
    case JArray(items) =>
      UnmarkedItems(w, items, d, diag, rbm);
      var node := Node(KArray(DataElems(items)), []);
      assert !HasArrayMetadata(node);
      assert WholeNode(w, node, d, diag, rbm, shared) == WholeRows(w, DataElems(items), d, diag, rbm, shared);
    case JObject(props) =>
      var node := Node(KPlain, DataProps(props));
      UnmarkedProps(w, props, PRIORITY_KEYS, d, diag, rbm);
      UnmarkedProps(w, props, OtherKeys(node), d, diag, rbm);
      assert WholeNode(w, node, d, diag, rbm, shared) == WholeObject(w, node, d, diag, rbm);
    case _ =>
  }

  lemma {:induction false} UnmarkedItems(w: World, items: seq<Json>, d: nat, diag: bool, rbm: bool)
    requires forall i :: 0 <= i < |items| ==> Unmarked(items[i])
    ensures !WholeItems(w, DataElems(items), d, diag, rbm).SpecialList?
    decreases items, 1
  {
    hide WholeValue, IsPlain, Embed;
    if items != [] {
      assert DataElems(items)[1..] == DataElems(items[1..]);
      UnmarkedNotSpecial(w, items[0], d + 1, diag, rbm, false);
      UnmarkedItems(w, items[1..], d, diag, rbm);
    }
  }

  lemma {:induction false} UnmarkedProps(w: World, props: seq<Member>, keys: seq<Str>, d: nat, diag: bool, rbm: bool)
    requires Unmarked(JObject(props))
    ensures !WholeProps(w, Node(KPlain, DataProps(props)), keys, d, diag, rbm).SpecialList?
    decreases props, 1, |keys|
  {
    hide WholeProp, DataProps, Unmarked;
    if keys != [] {
      UnmarkedProp(w, props, keys[0], d, diag, rbm);
      UnmarkedProps(w, props, keys[1..], d, diag, rbm);
    }
  }

  lemma {:induction false} UnmarkedProp(w: World, props: seq<Member>, key: Str, d: nat, diag: bool, rbm: bool)
    requires Unmarked(JObject(props))
    ensures !WholeProp(w, Node(KPlain, DataProps(props)), key, d, diag, rbm).SpecialList?
    decreases props, 0
  {
    hide Ascii, Embed, WholeValue, StoredExceptions, DataProps, ErrorVisits, IsErrorMetadata, SharedKey,
         ReportsTruncation, ValueAt;
    EmbeddedLookup(props, key);
    EmbeddedLookup(props, EID_DATA);
    ValueAtPresent(props, key);
    ValueAtPresent(props, EID_DATA);
    UnmarkedStored(w, props, key);
    if ValueAt(props, key).Some? {
      var i :| 0 <= i < |props| && props[i] == Member(key, ValueAt(props, key).value);
      UnmarkedNotSpecial(w, props[i].value, d + 1, diag || IsErrorMetadata(key), rbm,
                         SharedKey(w, key, Embed(props[i].value)));
    }
  }

  lemma UnmarkedStored(w: World, props: seq<Member>, key: Str)
    requires Unmarked(JObject(props))
    ensures StoredExceptions(w, Node(KPlain, DataProps(props)), key).Absent?
  {
    hide Ascii, DataProps, ValueAt, Lookup;
    EmbeddedLookup(props, METADATA);
    ValueAtPresent(props, METADATA);
    if ValueAt(props, METADATA).Some? {
      var j := ValueAt(props, METADATA).value;
      if j.JObject? {
        EmbeddedLookup(j.props, FIELD_EXCEPTIONS_KEY);
        ValueAtPresent(j.props, FIELD_EXCEPTIONS_KEY);
      }
    }
  }

  // ----- refused limits -----

  /**
   Beyond the documented checks nothing is refused, with one exception: a row limit for
   the content that is not positive is noticed only when the content must be projected again.
   */
  lemma AcceptedExactly(w: World, tool: string, v: Value, l: ToolLimits)
    requires l.maxContentBytes <= MAX_SAFE_INTEGER && l.maxContentRows <= MAX_SAFE_INTEGER
    ensures ToolResultOf(w, tool, v, l).Ok? <==>
              && Precheck(l).None?
              && Canonical(w, v, l).Ok?
              && var c := Canonical(w, v, l).value;
                 ReusesContent(c, l) || ContentNodes(c, l) == 0 || l.maxContentRows > 0
    ensures Precheck(l).None? ==> Canonical(w, v, l).Ok?
  {
    hide Size, RowCountOf, ProjectResult, HasEidMetadata, Embed, ContentSource, Assemble;
  }

  /** Rows materialized while collecting a snapshot never make the envelope refuse its limits. */
  lemma SnapshotAdmitted(l: ToolLimits, materializedRows: nat)
    requires Precheck(l).None? && materializedRows <= l.result.maxResultNodes / 3
    ensures Precheck(l.(materializedNodes := Some(materializedRows))).None?
    ensures Available(l.(materializedNodes := Some(materializedRows))) >= 2 * l.result.maxResultNodes / 3
  {
  }
}
