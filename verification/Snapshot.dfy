/**
 Collecting a bounded snapshot from a live subscription (`tools.ts`). What the
 subscription and the abort signal do is not determined: every claim holds for
 every run.
 */
module Snapshot {

  datatype Option<+T> = None | Some(value: T)

  type Item = nat

  /** Reading a row, or converting an update, gives an item or throws. */
  datatype Fetch = Gives(item: Item) | Throws(error: nat)

  /** An Arrow table, an update with `toObject`, or any other value. */
  datatype Update = Table(rows: seq<Fetch>) | Convertible(fetch: Fetch) | Plain(item: Item)

  datatype Normal = Rows(rows: seq<Item>) | TruncatedRows(rows: seq<Item>, rowCount: nat) | Single(item: Item)

  datatype Result<+T> = Ok(value: T) | Failed(error: Failure)

  datatype Failure = AbortedCall | NextFailed(error: nat) | UpdateFailed(error: nat)

  function Min(a: nat, b: nat): nat { if a < b then a else b }

  // ----- normalising one update -----

  function FetchAll(rows: seq<Fetch>): (r: Result<seq<Item>>)
    ensures r.Failed? ==> r.error.UpdateFailed?
  {
    if rows == [] then Ok([])
    else
      var n := |rows| - 1;
      var before := FetchAll(rows[..n]);
      if before.Failed? then before
      else if rows[n].Throws? then Failed(UpdateFailed(rows[n].error))
      else Ok(before.value + [rows[n].item])
  }

  datatype Normalized = Normalized(value: Normal, materializedRows: nat)

  /** At most `maxRows` rows of a table are read; a shorter table is kept whole. */
  function Normalize(u: Update, maxRows: nat): (r: Result<Normalized>)
    ensures r.Ok? ==> r.value.materializedRows <= maxRows
    ensures r.Failed? ==> r.error.UpdateFailed?
  {
    match u
    case Table(rows) =>
      var n := Min(|rows|, maxRows);
      var fetched := FetchAll(rows[..n]);
      if fetched.Failed? then Failed(fetched.error)
      else Ok(Normalized(if n == |rows| then Rows(fetched.value) else TruncatedRows(fetched.value, |rows|), n))
    case Convertible(fetch) =>
      if fetch.Throws? then Failed(UpdateFailed(fetch.error)) else Ok(Normalized(Single(fetch.item), 0))
    case Plain(item) => Ok(Normalized(Single(item), 0))
  }

  lemma {:induction false} FetchAllFails(rows: seq<Fetch>, n: nat)
    requires n <= |rows| && FetchAll(rows[..n]).Failed?
    ensures FetchAll(rows) == FetchAll(rows[..n])
    decreases |rows|
  {
    if n < |rows| {
      assert rows[..|rows| - 1][..n] == rows[..n];
      FetchAllFails(rows[..|rows| - 1], n);
    } else {
      assert rows[..n] == rows;
    }
  }

  method RowsFromArrowTable(rows: seq<Fetch>, maxRows: nat) returns (r: Result<Normalized>)
    ensures r == Normalize(Table(rows), maxRows)
  {
    var retainedRows := Min(|rows|, maxRows);
    var items: seq<Item> := [];
    ghost var wanted := rows[..retainedRows];
    for index := 0 to retainedRows
      invariant FetchAll(wanted[..index]) == Ok(items)
    {
      assert wanted[..index + 1][..index] == wanted[..index];
      if rows[index].Throws? {
        FetchAllFails(wanted, index + 1);
        return Failed(UpdateFailed(rows[index].error));
      }
      items := items + [rows[index].item];
    }
    assert wanted[..retainedRows] == wanted;
    return Ok(Normalized(if retainedRows == |rows| then Rows(items) else TruncatedRows(items, |rows|), retainedRows));
  }

  method NormalizeStreamUpdate(u: Update, maxRows: nat) returns (r: Result<Normalized>)
    ensures r == Normalize(u, maxRows)
  {
    match u
    case Table(rows) => r := RowsFromArrowTable(rows, maxRows);
    case Convertible(fetch) =>
      return if fetch.Throws? then Failed(UpdateFailed(fetch.error)) else Ok(Normalized(Single(fetch.item), 0));
    case Plain(item) => return Ok(Normalized(Single(item), 0));
  }

  // ----- many updates on one allowance -----

  datatype Batch = Batch(values: seq<Normal>, rowsLeft: nat)

  function With(b: Batch, n: Normalized): Batch
    requires n.materializedRows <= b.rowsLeft
  {
    Batch(b.values + [n.value], b.rowsLeft - n.materializedRows)
  }

  function NormalizeAll(updates: seq<Update>, allowance: nat): Result<Batch> {
    if updates == [] then Ok(Batch([], allowance))
    else
      var n := |updates| - 1;
      var before := NormalizeAll(updates[..n], allowance);
      if before.Failed? then before
      else
        var u := Normalize(updates[n], before.value.rowsLeft);
        if u.Failed? then Failed(u.error)
        else Ok(With(before.value, u.value))
  }

  lemma NormalizeMore(updates: seq<Update>, u: Update, allowance: nat)
    requires NormalizeAll(updates, allowance).Ok?
    ensures var b := NormalizeAll(updates, allowance).value;
            var n := Normalize(u, b.rowsLeft);
            NormalizeAll(updates + [u], allowance)
            == if n.Failed? then Failed(n.error)
               else Ok(With(b, n.value))
  {
    assert (updates + [u])[..|updates|] == updates;
  }

  function RowsIn(v: Normal): nat { if v.Single? then 0 else |v.rows| }

  function TotalRows(values: seq<Normal>): nat {
    if values == [] then 0 else TotalRows(values[..|values| - 1]) + RowsIn(values[|values| - 1])
  }

  lemma {:induction false} FetchAllLength(rows: seq<Fetch>)
    ensures FetchAll(rows).Ok? ==> |FetchAll(rows).value| == |rows|
  {
    if rows != [] { FetchAllLength(rows[..|rows| - 1]); }
  }

  /** The rows kept in all updates are exactly what the allowance lost. */
  lemma {:induction false} AllowanceSpent(updates: seq<Update>, allowance: nat)
    ensures var r := NormalizeAll(updates, allowance);
            r.Ok? ==> |r.value.values| == |updates| && r.value.rowsLeft <= allowance
                      && TotalRows(r.value.values) == allowance - r.value.rowsLeft
  {
    if updates != [] {
      var n := |updates| - 1;
      AllowanceSpent(updates[..n], allowance);
      var before := NormalizeAll(updates[..n], allowance);
      if before.Ok? {
        var u := Normalize(updates[n], before.value.rowsLeft);
        if u.Ok? {
          if updates[n].Table? { FetchAllLength(updates[n].rows[..Min(|updates[n].rows|, before.value.rowsLeft)]); }
          var values := before.value.values + [u.value.value];
          assert values[..|values| - 1] == before.value.values;
        }
      }
    }
  }

  // ----- the subscription -----

  datatype Next = Value(update: Update) | Done | TimedOut | Aborted | Rejects(error: nat)

  /** What was asked of the subscription, with what came of it; a release also records the abort signal. */
  datatype Call = CallNext(outcome: Next) | CallUnsubscribe(drain: bool, aborted: bool, error: Option<nat>)

  function Asked(outcomes: seq<Next>): seq<Call> {
    seq(|outcomes|, i requires 0 <= i < |outcomes| => CallNext(outcomes[i]))
  }

  /** The updates that `next` delivered. */
  function Received(outcomes: seq<Next>): seq<Update> {
    if outcomes == [] then []
    else
      var n := |outcomes| - 1;
      Received(outcomes[..n]) + if outcomes[n].Value? then [outcomes[n].update] else []
  }

  lemma OneMore(outcomes: seq<Next>, next: Next)
    ensures Asked(outcomes + [next]) == Asked(outcomes) + [CallNext(next)]
    ensures Received(outcomes + [next])
            == if next.Value? then Received(outcomes) + [next.update] else Received(outcomes)
    ensures Asked([]) == [] && Received([]) == []
  {
    assert (outcomes + [next])[..|outcomes|] == outcomes;
  }

  /** A live subscription with its abort signal; `calls` records what was asked of it. */
  class Session {
    var aborted: bool
    ghost var calls: seq<Call>

    constructor (aborted: bool)
      ensures this.aborted == aborted && calls == []
    {
      this.aborted, calls := aborted, [];
    }

    /** One `next`, raced against the deadline and the abort signal, which may fire whatever the race gives. */
    method NextWithinTimeout() returns (next: Next, ghost asked: bool)
      modifies this
      ensures calls == if asked then old(calls) + [CallNext(next)] else old(calls)
      ensures asked || next.TimedOut? || next.Aborted?
      ensures old(aborted) ==> aborted && next.Aborted? && calls == old(calls)
      ensures next.Aborted? ==> aborted
    {
      if aborted {
        return Aborted, false;
      }
      if * {
        return TimedOut, false;
      }
      asked := true;
      aborted := *;
      next := *;
      if next.Aborted? && !aborted {
        next := TimedOut;
      }
      calls := calls + [CallNext(next)];
    }

    method Unsubscribe(drain: bool) returns (error: Option<nat>)
      modifies this
      ensures calls == old(calls) + [CallUnsubscribe(drain, old(aborted), error)]
      ensures old(aborted) ==> aborted
    {
      error := *;
      calls := calls + [CallUnsubscribe(drain, aborted, error)];
      if !aborted {
        aborted := *;
      }
    }
  }

  datatype Reason = MaxUpdates | Timeout | StreamDone

  datatype Collected = Collected(updates: seq<Normal>, reason: Reason, materializedRows: nat,
                                 unsubscribeError: Option<nat>)

  /** `calls` are the earlier ones and then one `next` for each outcome. */
  ghost predicate Logged(earlier: seq<Call>, calls: seq<Call>,
                         outcomes: seq<Next>) { calls == earlier + Asked(outcomes) }

  lemma LoggedMore(earlier: seq<Call>, calls: seq<Call>, outcomes: seq<Next>, next: Next)
    requires Logged(earlier, calls, outcomes)
    ensures Logged(earlier, calls + [CallNext(next)], outcomes + [next])
  {
    OneMore(outcomes, next);
    assert earlier + Asked(outcomes) + [CallNext(next)] == earlier + (Asked(outcomes) + [CallNext(next)]);
  }

  /** Every `next` but the last delivered an update. */
  predicate Delivered(outcomes: seq<Next>) {
    forall i :: 0 <= i < |outcomes| - 1 ==> outcomes[i].Value?
  }

  function Final(outcomes: seq<Next>): Option<Next> {
    if outcomes == [] then None else Some(outcomes[|outcomes| - 1])
  }

  predicate AllValues(outcomes: seq<Next>) { forall i :: 0 <= i < |outcomes| ==> outcomes[i].Value? }

  lemma ValuesDelivered(outcomes: seq<Next>, next: Next)
    requires AllValues(outcomes)
    ensures Delivered(outcomes) && (Final(outcomes).Some? ==> Final(outcomes).value.Value?)
    ensures Delivered(outcomes + [next]) && Final(outcomes + [next]) == Some(next)
    ensures next.Value? ==> AllValues(outcomes + [next])
  {
  }

  datatype Ending = Ending(reason: Reason, failed: Option<Failure>)

  /** How a `next` without an update ends the loop. */
  function EndingOf(next: Next): Ending
    requires !next.Value?
  {
    match next
    case Done => Ending(StreamDone, None)
    case TimedOut => Ending(Timeout, None)
    case Aborted => Ending(MaxUpdates, Some(AbortedCall))
    case Rejects(error) => Ending(MaxUpdates, Some(NextFailed(error)))
  }

  /** What the loop leaves behind, in terms of what `next` gave. */
  ghost predicate Ran(outcomes: seq<Next>, maxUpdates: nat, allowance: nat, b: Batch, e: Ending) {
    && Delivered(outcomes) && |outcomes| <= |Received(outcomes)| + 1 && |Received(outcomes)| <= maxUpdates
    && (e.failed.Some? && e.failed.value.NextFailed? <==> Final(outcomes).Some? && Final(outcomes).value.Rejects?)
    && (e.failed.Some? && e.failed.value.NextFailed? ==> e.failed.value.error == Final(outcomes).value.error)
    && (e.failed.None? ==> NormalizeAll(Received(outcomes), allowance) == Ok(b) && |b.values| == |Received(outcomes)|)
    && (e.failed.None? ==> (e.reason.MaxUpdates? <==> |b.values| == maxUpdates))
    && (e.failed.None? ==> (e.reason.StreamDone? <==> Final(outcomes) == Some(Done)))
    && (e.failed.Some? && e.failed.value.UpdateFailed? <==> NormalizeAll(Received(outcomes), allowance).Failed?)
    && (e.failed.Some? && e.failed.value.UpdateFailed? ==>
          NormalizeAll(Received(outcomes), allowance) == Failed(e.failed.value))
  }

  /** The loop so far: only updates, all of them normalised. */
  ghost predicate Running(outcomes: seq<Next>, maxUpdates: nat, allowance: nat, b: Batch) {
    && AllValues(outcomes) && |b.values| == |outcomes| == |Received(outcomes)| <= maxUpdates
    && NormalizeAll(Received(outcomes), allowance) == Ok(b)
  }

  lemma RunningStart(maxUpdates: nat, allowance: nat)
    ensures Running([], maxUpdates, allowance, Batch([], allowance))
  {
  }

  lemma RunningMore(outcomes: seq<Next>, u: Update, maxUpdates: nat, allowance: nat, b: Batch)
    requires Running(outcomes, maxUpdates, allowance, b) && |b.values| < maxUpdates
    ensures var n := Normalize(u, b.rowsLeft);
            if n.Failed? then Ran(outcomes + [Value(u)], maxUpdates, allowance, b, Ending(MaxUpdates, Some(n.error)))
            else Running(outcomes + [Value(u)], maxUpdates, allowance, With(b, n.value))
  {
    hide Received, NormalizeAll, Normalize, Final, Delivered;
    OneMore(outcomes, Value(u));
    ValuesDelivered(outcomes, Value(u));
    NormalizeMore(Received(outcomes), u, allowance);
    NormalizeFails(u, b.rowsLeft);
  }

  lemma NormalizeFails(u: Update, maxRows: nat)
    ensures Normalize(u, maxRows).Failed? ==> Normalize(u, maxRows).error.UpdateFailed?
  {
  }

  lemma RunningEnds(outcomes: seq<Next>, next: Next, asked: bool, maxUpdates: nat, allowance: nat, b: Batch)
    requires Running(outcomes, maxUpdates, allowance, b) && |b.values| < maxUpdates && !next.Value?
    requires asked || next.TimedOut? || next.Aborted?
    ensures Ran(if asked then outcomes + [next] else outcomes, maxUpdates, allowance, b, EndingOf(next))
  {
    hide Received, NormalizeAll, Final, Delivered;
    OneMore(outcomes, next);
    ValuesDelivered(outcomes, next);
  }

  lemma RunningFull(outcomes: seq<Next>, maxUpdates: nat, allowance: nat, b: Batch)
    requires Running(outcomes, maxUpdates, allowance, b) && |b.values| >= maxUpdates
    ensures Ran(outcomes, maxUpdates, allowance, b, Ending(MaxUpdates, None))
  {
    hide Received, NormalizeAll, Final, Delivered;
    ValuesDelivered(outcomes, Done);
  }

  /** The loop: updates until there are enough of them, the stream ends, time runs out, or something fails. */
  method CollectUpdates(session: Session, maxUpdates: nat, allowance: nat) returns (b: Batch, e: Ending,
                                                                                    ghost outcomes: seq<Next>)
    modifies session
    ensures Logged(old(session.calls), session.calls, outcomes)
    ensures Ran(outcomes, maxUpdates, allowance, b, e)
    ensures old(session.aborted) ==> session.aborted
    ensures e.failed == Some(AbortedCall) ==> session.aborted
  {
    b, e, outcomes := Batch([], allowance), Ending(MaxUpdates, None), [];
    assert Logged(session.calls, session.calls, []);
    RunningStart(maxUpdates, allowance);
    hide Logged, Running, Ran, Normalize, Received, Asked;
    while |b.values| < maxUpdates
      invariant Running(outcomes, maxUpdates, allowance, b)
      invariant Logged(old(session.calls), session.calls, outcomes)
      invariant old(session.aborted) ==> session.aborted
      invariant e == Ending(MaxUpdates, None)
      decreases maxUpdates - |b.values|
    {
      ghost var before := session.calls;
      var next, asked := session.NextWithinTimeout();
      LoggedMore(old(session.calls), before, outcomes, next);
      if !next.Value? {
        RunningEnds(outcomes, next, asked, maxUpdates, allowance, b);
        outcomes := if asked then outcomes + [next] else outcomes;
        e := EndingOf(next);
        return;
      }
      RunningMore(outcomes, next.update, maxUpdates, allowance, b);
      outcomes := outcomes + [next];
      var normalized := NormalizeStreamUpdate(next.update, b.rowsLeft);
      if normalized.Failed? {
        NormalizeFails(next.update, b.rowsLeft);
        e := Ending(MaxUpdates, Some(normalized.error));
        return;
      }
      b := With(b, normalized.value);
    }
    RunningFull(outcomes, maxUpdates, allowance, b);
  }

  /**
   On every run, whether it ends with enough updates, the end of the stream, a timeout,
   an abort or an error: the subscription is released exactly once, after the last
   `next`, and drained exactly if that was asked for and the abort signal had not fired by
   then, be it during a `next` that still delivered. An error while releasing is reported
   with what was collected, and never hides why collecting failed.
   */
  method CollectSnapshot(session: Session, maxUpdates: nat, drain: bool, maxRows: nat, maxResultNodes: nat)
    returns (r: Result<Collected>, ghost outcomes: seq<Next>, ghost release: Call)
    modifies session
    ensures session.calls == old(session.calls) + Asked(outcomes) + [release]
    ensures release.CallUnsubscribe? && (release.drain <==> drain && !release.aborted)
    ensures old(session.aborted) ==> release.aborted
    ensures r == Failed(AbortedCall) ==> release.aborted
    ensures Delivered(outcomes) && |outcomes| <= |Received(outcomes)| + 1 && |Received(outcomes)| <= maxUpdates
    ensures r.Ok? ==>
              var all := NormalizeAll(Received(outcomes), Min(maxRows, maxResultNodes / 3));
              && all.Ok? && r.value.updates == all.value.values
              && |r.value.updates| <= maxUpdates
              && r.value.materializedRows == TotalRows(r.value.updates) <= Min(maxRows, maxResultNodes / 3)
              && (r.value.reason.MaxUpdates? <==> |r.value.updates| == maxUpdates)
              && (r.value.reason.StreamDone? <==> Final(outcomes) == Some(Done))
              && r.value.unsubscribeError == release.error
    ensures r.Failed? && r.error.UpdateFailed? <==>
              NormalizeAll(Received(outcomes), Min(maxRows, maxResultNodes / 3)).Failed?
    ensures r.Failed? && r.error.UpdateFailed? ==>
              NormalizeAll(Received(outcomes), Min(maxRows, maxResultNodes / 3)) == Failed(r.error)
    ensures r.Failed? && r.error.NextFailed? <==> Final(outcomes).Some? && Final(outcomes).value.Rejects?
    ensures r.Failed? && r.error.NextFailed? ==> r.error.error == Final(outcomes).value.error
  {
    hide NormalizeAll, TotalRows, Received, Final, Delivered;
    var allowance: nat := Min(maxRows, maxResultNodes / 3);
    var b, e;
    b, e, outcomes := CollectUpdates(session, maxUpdates, allowance);
    ghost var aborted := session.aborted;
    var draining := drain && !session.aborted;
    var error := session.Unsubscribe(draining);
    release := CallUnsubscribe(draining, aborted, error);
    if e.failed.Some? {
      return Failed(e.failed.value), outcomes, release;
    }
    AllowanceSpent(Received(outcomes), allowance);
    return Ok(Collected(b.values, e.reason, allowance - b.rowsLeft, error)), outcomes, release;
  }
}
