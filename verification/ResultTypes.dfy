/** Limits, truncation reasons and the traversal state (`result-types.ts`). */
module ResultTypes {
  import opened JsText
  import opened Json
  import opened JsHeap

  const MAX_RESULT_DEPTH: nat := 32
  const MAX_ERROR_DIAGNOSTICS: nat := 8

  datatype Reason =
    | MaxRows | MaxStringChars | MaxResultBytes | MaxResultNodes | MaxResultDepth | CircularReference
    | BinaryData | AccessorOmitted | UnsupportedValue | InvalidEntitlementData | EntitlementLimit
    | UpstreamTruncation

  datatype Limits = Limits(maxResultBytes: nat, maxResultNodes: nat, maxRows: nat, maxStringChars: nat)

  datatype State = State(
    limits: Limits,
    rowsBeforeMetadata: bool,
    ancestors: set<Ref>,
    diagnostics: seq<Member>,
    reasons: set<Reason>,
    inDiagnostics: bool,
    maximumArrayRows: nat,
    hasErrors: bool,
    omittedProperties: nat,
    remainingRows: int,
    omittedRows: nat,
    retainedNodes: nat,
    retainedRows: nat,
    visitedNodes: nat)

  /** Nodes that may still be visited. */
  function Left(s: State): int {
    s.limits.maxResultNodes - s.visitedNodes
  }

  function AddReason(s: State, reason: Reason): State {
    s.(reasons := s.reasons + {reason})
  }

  /** Enough for termination: the limits are fixed and the visit count only grows, up to the limit. */
  predicate Onward(s: State, t: State) {
    t.limits == s.limits && s.visitedNodes <= t.visitedNodes && (Left(s) >= 0 ==> Left(t) >= 0)
  }

  /** A value was refused: no visit is left, or it does not fit the bytes. */
  predicate Blocked(s: State) {
    (MaxResultNodes in s.reasons && Left(s) == 0) || MaxResultBytes in s.reasons
  }

  /** A stored document is also refused below the depth limit. */
  predicate BlockedDeep(s: State) {
    MaxResultBytes in s.reasons || MaxResultNodes in s.reasons || MaxResultDepth in s.reasons
  }

  /** One of the reasons for which a property is left out. */
  predicate Blamed(s: State) {
    BlockedDeep(s) || UnsupportedValue in s.reasons
  }

  /** What every traversal step keeps: fixed limits, restored context, budgets that only shrink. */
  predicate Extends(s: State, t: State) {
    && t.limits == s.limits
    && t.rowsBeforeMetadata == s.rowsBeforeMetadata
    && t.ancestors == s.ancestors
    && t.inDiagnostics == s.inDiagnostics
    && s.visitedNodes <= t.visitedNodes
    && (Left(s) >= 0 ==> Left(t) >= 0)
    && s.reasons <= t.reasons
    && t.remainingRows + t.retainedRows == s.remainingRows + s.retainedRows
    && s.retainedRows <= t.retainedRows
    && s.omittedProperties <= t.omittedProperties
    && (s.omittedProperties < t.omittedProperties ==> Blamed(t))
    && s.omittedRows <= t.omittedRows
    && s.diagnostics <= t.diagnostics
    && (|s.diagnostics| <= MAX_ERROR_DIAGNOSTICS ==> |t.diagnostics| <= MAX_ERROR_DIAGNOSTICS)
    && (s.hasErrors ==> t.hasErrors)
    && s.maximumArrayRows <= t.maximumArrayRows
  }

  function InitialState(limits: Limits, rowsBeforeMetadata: bool): State {
    State(limits, rowsBeforeMetadata, {}, [], {}, false, 0, false, 0, limits.maxRows, 0, 0, 0, 0)
  }

  /** `rememberErrorDiagnostic` */
  function Remember(s: State, key: Str, value: Json): State {
    var s := s.(hasErrors := true);
    if |s.diagnostics| >= MAX_ERROR_DIAGNOSTICS then s
    else s.(diagnostics := s.diagnostics + [Member(key, value)])
  }

  datatype Built = Omit | Built(byteLength: nat, value: Json)

  /** `ObjectAccumulator`: the members kept so far and the size of their text. */
  datatype Acc = Acc(byteLength: nat, props: seq<Member>)

  const EMPTY_ACC := Acc(2, [])

  datatype Out = Out(st: State, built: Built)
  datatype PropOut = PropOut(st: State, acc: Acc, ok: bool)
}
