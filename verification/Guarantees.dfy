/** What one bounded projection guarantees, from the lemmas about its parts. */
module Guarantees {
  import opened Json
  import opened JsHeap
  import opened ResultTypes
  import opened Projection
  import opened Results
  import opened Soundness
  import opened Whole
  import opened Honesty
  import opened Completeness
  import opened Pruning

  lemma {:induction false} OrderedMembers(order: seq<Reason>, reasons: set<Reason>)
    ensures forall r :: r in Ordered(order, reasons) <==> r in order && r in reasons
  {
    if order != [] {
      OrderedMembers(order[1..], reasons);
      assert forall r :: r in order <==> r == order[0] || r in order[1..];
    }
  }

  lemma AllReasonsOrdered(reasons: set<Reason>)
    ensures forall r :: r in Ordered(REASON_ORDER, reasons) <==> r in reasons
  {
    OrderedMembers(REASON_ORDER, reasons);
    forall r: Reason ensures r in REASON_ORDER {
      match r
      case MaxRows => assert REASON_ORDER[0] == r;
      case MaxStringChars => assert REASON_ORDER[1] == r;
      case MaxResultBytes => assert REASON_ORDER[2] == r;
      case MaxResultNodes => assert REASON_ORDER[3] == r;
      case MaxResultDepth => assert REASON_ORDER[4] == r;
      case CircularReference => assert REASON_ORDER[5] == r;
      case BinaryData => assert REASON_ORDER[6] == r;
      case AccessorOmitted => assert REASON_ORDER[7] == r;
      case UnsupportedValue => assert REASON_ORDER[8] == r;
      case InvalidEntitlementData => assert REASON_ORDER[9] == r;
      case EntitlementLimit => assert REASON_ORDER[10] == r;
      case UpstreamTruncation => assert REASON_ORDER[11] == r;
    }
  }

  /**
   The size reported is the length of the JSON text and within the limit, for every
   graph, cyclic or endless; the work stays within the node limit, and rows are conserved.
   */
  lemma ProjectionBounded(w: World, v: Value, limits: Limits, rowsBeforeMetadata: bool)
    requires limits.maxResultBytes >= 4
    ensures var r := ProjectResult(w, v, limits, rowsBeforeMetadata);
            && r.byteLength == |Render(r.value)| <= limits.maxResultBytes
            && r.inspectedNodes <= limits.maxResultNodes
            && |r.errorDiagnostics| <= MAX_ERROR_DIAGNOSTICS
    ensures var o := ProjectionOf(w, v, limits, rowsBeforeMetadata);
            o.st.ancestors == {} && o.st.remainingRows + o.st.retainedRows == limits.maxRows
  {
    hide BuildValue, Render, Size;
    var o := ProjectionOf(w, v, limits, rowsBeforeMetadata);
    BuildValueSound(w, v, limits.maxResultBytes, InitialState(limits, rowsBeforeMetadata), 0, limits.maxRows, true);
    SizeIsTextLength(ProjectResult(w, v, limits, rowsBeforeMetadata).value);
    NullSize();
  }

  lemma NullSize()
    ensures Size(JNull) == 4
  {
  }

  /** The limits a value of the given whole form needs. */
  predicate FitsLimits(x: Whole, limits: Limits)
    requires x.Full?
  {
    && Size(x.json) + (if TightTail(x.json) then 1 else 0) <= limits.maxResultBytes
    && x.cost.visits <= limits.maxResultNodes
    && x.cost.widest <= limits.maxRows
    && x.cost.longest <= limits.maxStringChars
    && (x.cost.peak.Some? ==> x.cost.peak.value <= limits.maxRows)
  }

  /** An unflagged result is the whole value; the flag is raised exactly when some limit is too small for it. */
  lemma LosslessExactly(w: World, v: Value, limits: Limits, rowsBeforeMetadata: bool)
    ensures var r := ProjectResult(w, v, limits, rowsBeforeMetadata);
            var x := WholeValue(w, v, 0, false, rowsBeforeMetadata, true);
            && (!r.Truncated() ==> !x.Lossy?)
            && (x.Full? ==> (!r.Truncated() <==> FitsLimits(x, limits) && !x.cost.upstream))
            && (x.Full? && FitsLimits(x, limits) ==>
                 && r.value == x.json && r.inspectedNodes == x.cost.visits && r.retainedRows == x.cost.spend
                 && r.byteLength == Size(x.json) && r.maximumArrayRows == x.cost.trace.rows
                 && r.errorDiagnostics == Noted([], x.cost.trace.notes))
  {
    hide BuildValue, WholeValue, Need, Size, TightTail, Clear;
    var s := InitialState(limits, rowsBeforeMetadata);
    var x := WholeValue(w, v, 0, false, rowsBeforeMetadata, true);
    BuildValueSound(w, v, limits.maxResultBytes, s, 0, limits.maxRows, true);
    BuildValueHonest(w, v, limits.maxResultBytes, s, 0, limits.maxRows, true);
    if x.Full? {
      NeedExact(x.json);
      WholeVisits(w, v, 0, false, rowsBeforeMetadata, true);
      if FitsLimits(x, limits) {
        NoAncestors(w, rowsBeforeMetadata, x.cost.visits);
        BuildValueComplete(w, v, limits.maxResultBytes, s, 0, limits.maxRows, true);
      }
    }
    ReasonExtends(ProjectionOf(w, v, limits, rowsBeforeMetadata).st, MaxResultBytes);
  }

  lemma NoAncestors(w: World, rbm: bool, n: nat)
    ensures Clear(w, rbm, {}, n)
  {
  }

  lemma WholeVisits(w: World, v: Value, depth: nat, diag: bool, rbm: bool, shared: bool)
    ensures var x := WholeValue(w, v, depth, diag, rbm, shared); x.Full? ==> x.cost.visits >= 1
  {
    hide WholeNode;
  }

  /** The value is there with nothing missing, entitlement and stored metadata included. */
  ghost predicate KeepsAll(w: World, v: Value, j: Json, rowsBeforeMetadata: bool) {
    PruneValue(w, v, j, 0, Context(true, false, rowsBeforeMetadata, {}))
  }

  /**
   The result is a pruning of the input, with nothing missing unless it is flagged; or it
   is `null`, with a reason.
   */
  lemma ResultPrunes(w: World, v: Value, limits: Limits, rowsBeforeMetadata: bool)
    ensures var r := ProjectResult(w, v, limits, rowsBeforeMetadata);
            if r.Truncated() then
              || PruneValue(w, v, r.value, 0, Context(false, false, rowsBeforeMetadata, {}))
              || (&& r.value == JNull
                  && (if limits.maxResultNodes
                      == 0 then MaxResultNodes else MaxResultBytes) in r.truncation.value.reasons)
            else KeepsAll(w, v, r.value, rowsBeforeMetadata)
  {
    hide BuildValue, PruneValue, Ordered;
    var s := InitialState(limits, rowsBeforeMetadata);
    var o := ProjectionOf(w, v, limits, rowsBeforeMetadata);
    BuildValuePrunes(w, v, limits.maxResultBytes, s, 0, limits.maxRows, true, o.st.reasons == {});
    var t := AddReason(o.st, MaxResultBytes);
    AllReasonsOrdered(t.reasons);
    assert MaxResultBytes in t.reasons;
  }
}
