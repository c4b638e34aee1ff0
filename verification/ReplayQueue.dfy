/**
 The bounded producer/consumer queue of the replay benchmark
 (`AutonomousNativeSubscription`): one producer that runs in bursts, any number of
 readers, close and stop requests, interleaved in any order. A step is what runs
 between two points where the original awaits.
 */
module ReplayQueue {

  datatype Option<+T> = None | Some(value: T)

  datatype Batch = Batch(id: nat, rows: nat)

  /** The counters of the subscription. */
  datatype Metrics = Metrics(
    deliveredBatches: nat, deliveredRows: nat, deliveredAfterDrop: nat, sawDrop: bool,
    discardedBatches: nat, discardedRows: nat, drainedBatches: nat, drainedRows: nat, droppedBatches: nat,
    droppedRows: nat, maxQueueDepth: nat, producedBatches: nat, producedRows: nat)

  /**
   Which batch went where: `answers` maps each `next` call to its answer, `takers` lists
   the calls that got a batch, `admitted` the batches that were not dropped.
   */
  datatype Log = Log(
    answers: map<nat, Option<Batch>>, takers: seq<nat>, delivered: seq<Batch>, drained: seq<Batch>,
    discarded: seq<Batch>, dropped: seq<Batch>, admitted: seq<Batch>)

  /** The subscription, with the producer's loop index. */
  datatype State = State(
    batches: seq<Batch>, capacity: nat, burst: nat, queue: seq<Batch>, waiters: seq<nat>, active: bool, cancelled: bool,
    settled: bool, index: nat, calls: nat, m: Metrics, log: Log)

  function Rows(batches: seq<Batch>): nat {
    if batches == [] then 0 else Rows(batches[..|batches| - 1]) + batches[|batches| - 1].rows
  }

  function Max(a: nat, b: nat): nat { if a < b then b else a }

  // ----- the steps -----

  function Deliver(s: State, call: nat, batch: Batch): State {
    s.(m := s.m.(deliveredAfterDrop := s.m.deliveredAfterDrop + (if s.m.sawDrop then 1 else 0),
                 deliveredBatches := s.m.deliveredBatches + 1, deliveredRows := s.m.deliveredRows + batch.rows),
       log := s.log.(answers := s.log.answers[call := Some(batch)], takers := s.log.takers + [call],
                     delivered := s.log.delivered + [batch]))
  }

  /** Every waiting call is answered with the end of the stream. */
  function AllEnded(answers: map<nat, Option<Batch>>, waiters: seq<nat>): map<nat, Option<Batch>> {
    map call | call in answers.Keys + (set w | w in waiters) :: if call in waiters then None else answers[call]
  }

  function ResolveWaiters(s: State): State {
    s.(waiters := [], log := s.log.(answers := AllEnded(s.log.answers, s.waiters)))
  }

  function Produced(s: State, batch: Batch): State {
    s.(m := s.m.(producedBatches := s.m.producedBatches + 1, producedRows := s.m.producedRows + batch.rows),
       index := s.index + 1)
  }

  function Admit(s: State, batch: Batch): State { s.(log := s.log.(admitted := s.log.admitted + [batch])) }

  function HandOver(s: State, batch: Batch): State
    requires s.waiters != []
  {
    Deliver(Admit(s, batch).(waiters := s.waiters[1..]), s.waiters[0], batch)
  }

  function Enqueue(s: State, batch: Batch): State {
    Admit(s, batch).(queue := s.queue + [batch], m := s.m.(maxQueueDepth := Max(s.m.maxQueueDepth, |s.queue| + 1)))
  }

  function Drop(s: State, batch: Batch): State {
    s.(m := s.m.(sawDrop := true, droppedBatches := s.m.droppedBatches + 1,
                 droppedRows := s.m.droppedRows + batch.rows),
       log := s.log.(dropped := s.log.dropped + [batch]))
  }

  /** One round of the producer's loop, for the batch at `index`. */
  function Offer(s: State): State
    requires s.index < |s.batches|
  {
    var batch := s.batches[s.index];
    var t := Produced(s, batch);
    if s.waiters != [] then HandOver(t, batch) else if |s.queue| < s.capacity then Enqueue(t, batch) else Drop(t, batch)
  }

  function Settle(s: State): State { ResolveWaiters(s.(active := false)).(settled := true) }

  /** The producer runs until the end of a burst, or to its end. */
  function Produce(s: State): State
    requires s.burst > 0
    decreases |s.batches| - s.index
  {
    if s.index < |s.batches| && s.active then
      var t := Offer(s);
      if t.index % t.burst == 0 then t else Produce(t)
    else Settle(s)
  }

  function Ask(s: State): State { s.(calls := s.calls + 1) }

  function TakeQueued(s: State): State
    requires s.queue != []
  {
    Deliver(Ask(s).(queue := s.queue[1..]), s.calls, s.queue[0])
  }

  function AnswerEnd(s: State): State {
    Ask(s).(log := s.log.(answers := s.log.answers[s.calls := None]))
  }

  function Wait(s: State): State { Ask(s).(waiters := s.waiters + [s.calls]) }

  function Next(s: State): State {
    if s.queue != [] then TakeQueued(s) else if !s.active then AnswerEnd(s) else Wait(s)
  }

  function Deactivate(s: State): State {
    if s.active then s.(active := false, cancelled := true) else s
  }

  function Close(s: State): State { ResolveWaiters(Deactivate(s)) }

  /** The queue is emptied, into the drained or the discarded batches. */
  function TakeOut(s: State, drain: bool): State {
    if drain then
      s.(queue := [], log := s.log.(drained := s.log.drained + s.queue),
         m := s.m.(drainedBatches := s.m.drainedBatches + |s.queue|, drainedRows := s.m.drainedRows + Rows(s.queue)))
    else
      s.(queue := [], log := s.log.(discarded := s.log.discarded + s.queue),
         m := s.m.(discardedBatches := s.m.discardedBatches + |s.queue|,
                   discardedRows := s.m.discardedRows + Rows(s.queue)))
  }

  /** The end of `stop`, once the producer has settled. */
  function EndStop(s: State, drain: bool): State { ResolveWaiters(TakeOut(s, drain)) }

  datatype Step = DoProduce | DoNext | DoClose | DoStop | DoFinish(drain: bool)

  /** The producer runs until it has settled; a stop ends only after that. */
  predicate Enabled(s: State, step: Step) {
    match step
    case DoProduce => !s.settled
    case DoFinish(_) => s.settled
    case _ => true
  }

  function Take(s: State, step: Step): State
    requires s.burst > 0
  {
    match step
    case DoProduce => Produce(s)
    case DoNext => Next(s)
    case DoClose => Close(s)
    case DoStop => Deactivate(s)
    case DoFinish(drain) => EndStop(s, drain)
  }

  function Start(batches: seq<Batch>, capacity: nat, burst: nat): State {
    State(batches, capacity, burst, [], [], true, false, false, 0, 0,
          Metrics(0, 0, 0, false, 0, 0, 0, 0, 0, 0, 0, 0, 0),
          Log(map[], [], [], [], [], [], []))
  }

  // ----- what every run keeps -----

  /** Produced batches are delivered, drained, discarded, dropped or still queued; so are their rows. */
  predicate Conserved(s: State) {
    && s.m.producedBatches == s.m.deliveredBatches + s.m.drainedBatches + s.m.discardedBatches + s.m.droppedBatches
        + |s.queue|
    && s.m.producedRows == s.m.deliveredRows + s.m.drainedRows + s.m.discardedRows + s.m.droppedRows + Rows(s.queue)
  }

  predicate Bounded(s: State) {
    |s.queue| <= s.m.maxQueueDepth <= s.capacity
  }

  /** Readers wait only for an empty queue and a live producer. */
  predicate Waiting(s: State) {
    && (s.waiters != [] ==> s.queue == [] && !s.settled)
    && (s.settled ==> !s.active)
  }

  /** Delivered, then taken out by a stop, then queued: the admitted batches in order. */
  predicate InOrder(s: State) {
    && s.log.admitted == s.log.delivered + s.log.drained + s.log.discarded + s.queue
    && (s.log.drained != [] || s.log.discarded != [] ==> s.queue == [] && s.settled)
    && (s.log.drained == [] || s.log.discarded == [])
  }

  /** The counters count what the logs list. */
  predicate Counted(s: State) {
    && s.m.deliveredBatches == |s.log.delivered| && s.m.deliveredRows == Rows(s.log.delivered)
    && s.m.drainedBatches == |s.log.drained| && s.m.drainedRows == Rows(s.log.drained)
    && s.m.discardedBatches == |s.log.discarded| && s.m.discardedRows == Rows(s.log.discarded)
    && s.m.droppedBatches == |s.log.dropped| && s.m.droppedRows == Rows(s.log.dropped)
    && s.m.producedBatches == s.index && (s.m.sawDrop <==> s.log.dropped != [])
        && s.m.deliveredAfterDrop <= s.m.deliveredBatches
  }

  /** `all` is `kept` and `dropped` merged, each in its own order. */
  ghost predicate Merged(all: seq<Batch>, kept: seq<Batch>, dropped: seq<Batch>)
    decreases |all|
  {
    if all == [] then kept == [] && dropped == []
    else
      var n, x := |all| - 1, all[|all| - 1];
      || (kept != [] && kept[|kept| - 1] == x && Merged(all[..n], kept[..|kept| - 1], dropped))
      || (dropped != [] && dropped[|dropped| - 1] == x && Merged(all[..n], kept, dropped[..|dropped| - 1]))
  }

  /** The producer goes through the batches in order and passes over none. */
  ghost predicate Sourced(s: State) {
    s.index <= |s.batches| && Merged(s.batches[..s.index], s.log.admitted, s.log.dropped)
  }

  predicate Ascending(calls: seq<nat>) { forall i, j :: 0 <= i < j < |calls| ==> calls[i] < calls[j] }

  /** Each call is waiting or answered once. */
  ghost predicate Answered(s: State) {
    && (forall c :: c in s.log.answers || c in s.waiters <==> 0 <= c < s.calls)
    && (forall c :: c in s.waiters ==> c !in s.log.answers)
    && Ascending(s.waiters)
  }

  /** The calls that got a batch got the delivered ones, first come first served. */
  predicate Served(s: State) {
    && |s.log.takers| == |s.log.delivered|
    && Ascending(s.log.takers)
    && (forall i :: 0 <= i < |s.log.takers| ==>
          s.log.takers[i] in s.log.answers && s.log.answers[s.log.takers[i]] == Some(s.log.delivered[i]))
    && (forall c :: c in s.log.answers && s.log.answers[c].Some? ==> c in s.log.takers)
  }

  /** Once a call has got the end of the stream, or waits, no later call gets a batch before it. */
  predicate Ended(s: State) {
    && (forall c, i :: c in s.log.answers && s.log.answers[c].None? && 0 <= i < |s.log.takers| ==> s.log.takers[i] < c)
    && (forall c :: c in s.log.answers && s.log.answers[c].None? ==> !s.active && s.queue == [])
    && (forall c, i :: c in s.waiters && 0 <= i < |s.log.takers| ==> s.log.takers[i] < c)
  }

  ghost predicate Inv(s: State) {
    && s.burst > 0
    && Accounts(s) && Calls(s)
  }

  ghost predicate Accounts(s: State) {
    Conserved(s) && Bounded(s) && Waiting(s) && InOrder(s) && Counted(s) && Sourced(s)
  }

  ghost predicate Calls(s: State) { Answered(s) && Served(s) && Ended(s) }

  // ----- rows of logs -----

  lemma RowsLast(batches: seq<Batch>, b: Batch)
    ensures Rows(batches + [b]) == Rows(batches) + b.rows
  {
    assert (batches + [b])[..|batches|] == batches;
  }

  lemma {:induction false} RowsConcat(a: seq<Batch>, b: seq<Batch>)
    ensures Rows(a + b) == Rows(a) + Rows(b)
    decreases |b|
  {
    if b == [] {
      assert a + b == a;
    } else {
      var n := |b| - 1;
      RowsConcat(a, b[..n]);
      RowsLast(a + b[..n], b[n]);
      assert a + b == a + b[..n] + [b[n]];
    }
  }

  lemma RowsFirst(batches: seq<Batch>)
    requires batches != []
    ensures Rows(batches) == batches[0].rows + Rows(batches[1..])
  {
    RowsConcat([batches[0]], batches[1..]);
    RowsLast([], batches[0]);
    assert [] + [batches[0]] == [batches[0]];
    assert batches == [batches[0]] + batches[1..];
  }

  lemma MergedKept(all: seq<Batch>, kept: seq<Batch>, dropped: seq<Batch>, b: Batch)
    requires Merged(all, kept, dropped)
    ensures Merged(all + [b], kept + [b], dropped) && Merged(all + [b], kept, dropped + [b])
  {
    assert (all + [b])[..|all|] == all && (kept + [b])[..|kept|] == kept && (dropped + [b])[..|dropped|] == dropped;
  }

  // ----- steps keep the accounts -----

  lemma OfferSourced(s: State)
    requires Sourced(s) && s.index < |s.batches|
    ensures var b := s.batches[s.index]; var all := s.batches[..s.index + 1];
            Merged(all, s.log.admitted + [b], s.log.dropped) && Merged(all, s.log.admitted, s.log.dropped + [b])
  {
    hide Merged;
    var b := s.batches[s.index];
    MergedKept(s.batches[..s.index], s.log.admitted, s.log.dropped, b);
    assert s.batches[..s.index + 1] == s.batches[..s.index] + [b];
  }

  lemma HandOverAccounts(s: State, b: Batch)
    requires Accounts(s) && s.index < |s.batches| && b == s.batches[s.index] && s.waiters != []
    ensures Accounts(HandOver(Produced(s, b), b))
  {
    hide Rows, Merged;
    OfferSourced(s);
    RowsLast(s.log.delivered, b);
    assert s.log.drained == [] && s.log.discarded == []
           && s.queue == [] by { hide Conserved, Bounded, Counted, Sourced; }
    assert s.log.delivered + [] + [] + [] == s.log.delivered;
    assert (s.log.delivered + [b]) + [] + [] + [] == s.log.delivered + [b];
  }

  lemma EnqueueAccounts(s: State, b: Batch)
    requires Accounts(s) && s.index < |s.batches| && b == s.batches[s.index] && s.waiters == []
             && |s.queue| < s.capacity && !s.settled
    ensures Accounts(Enqueue(Produced(s, b), b))
  {
    hide Rows, Merged;
    OfferSourced(s);
    RowsLast(s.queue, b);
    assert s.log.delivered + s.log.drained + s.log.discarded + (s.queue + [b])
           == s.log.delivered + s.log.drained + s.log.discarded + s.queue + [b];
  }

  lemma DropAccounts(s: State, b: Batch)
    requires Accounts(s) && s.index < |s.batches| && b == s.batches[s.index] && s.waiters == []
    ensures Accounts(Drop(Produced(s, b), b))
  {
    hide Rows, Merged;
    OfferSourced(s);
    RowsLast(s.log.dropped, b);
  }

  lemma OfferAccounts(s: State)
    requires Accounts(s) && s.active && !s.settled && s.index < |s.batches|
    ensures Accounts(Offer(s))
  {
    hide Accounts, Produced, HandOver, Enqueue, Drop;
    var b := s.batches[s.index];
    if s.waiters != [] {
      HandOverAccounts(s, b);
    } else if |s.queue| < s.capacity {
      EnqueueAccounts(s, b);
    } else {
      DropAccounts(s, b);
    }
  }

  lemma {:induction false} ProduceKeeps(s: State)
    requires Inv(s) && !s.settled
    ensures Inv(Produce(s))
    decreases |s.batches| - s.index
  {
    hide Offer, Accounts, Calls, Settle;
    if s.index < |s.batches| && s.active {
      OfferAccounts(s);
      OfferCalls(s);
      OfferContext(s);
      var t := Offer(s);
      if t.index % t.burst != 0 { ProduceKeeps(t); }
    } else {
      SettleKeeps(s);
    }
  }

  lemma OfferContext(s: State)
    requires s.index < |s.batches|
    ensures var t := Offer(s);
            t.burst == s.burst && t.settled == s.settled && t.index == s.index + 1 && t.batches == s.batches
  {
  }

  /** The call log is untouched, and the queue stays empty once the stream has ended. */
  lemma CallsSame(s: State, t: State)
    requires Calls(s) && t.log.answers == s.log.answers && t.waiters == s.waiters && t.calls == s.calls
             && t.log.takers == s.log.takers
    requires t.log.delivered == s.log.delivered && (!s.active ==> !t.active)
             && (!s.active && s.queue == [] ==> t.queue == [])
    ensures Calls(t)
  {
    assert Served(t) by { hide Answered, Ended; }
    assert Ended(t) by { hide Answered, Served; }
  }

  lemma ResolveAccounts(s: State)
    requires Accounts(s)
    ensures Accounts(ResolveWaiters(s))
  {
    hide Rows, Merged;
  }

  lemma ResolveServed(s: State)
    requires Answered(s) && Served(s)
    ensures Served(ResolveWaiters(s))
  {
    var t := ResolveWaiters(s);
    assert forall c :: c in t.log.answers && t.log.answers[c].Some? ==> c in s.log.answers && s.log.answers[c].Some?;
  }

  lemma ResolveKeeps(s: State)
    requires Accounts(s) && Calls(s) && !s.active && (s.waiters != [] ==> s.queue == [])
    ensures Accounts(ResolveWaiters(s)) && Calls(ResolveWaiters(s))
  {
    hide Accounts, Answered, Served, Ended, ResolveWaiters;
    ResolveAccounts(s);
    ResolveServed(s);
    ResolveAnswered(s);
    ResolveEnded(s);
  }

  lemma ResolveAnswered(s: State)
    requires Answered(s)
    ensures Answered(ResolveWaiters(s))
  {
  }

  lemma ResolveEnded(s: State)
    requires Ended(s) && !s.active && (s.waiters != [] ==> s.queue == [])
    ensures Ended(ResolveWaiters(s))
  {
    var t := ResolveWaiters(s);
    forall c | c in t.log.answers && t.log.answers[c].None?
      ensures t.queue == [] && forall i :: 0 <= i < |t.log.takers| ==> t.log.takers[i] < c
    {
      assert c in s.waiters || (c in s.log.answers && s.log.answers[c].None?);
    }
  }

  lemma SettledKeeps(s: State)
    requires Accounts(s) && Calls(s) && !s.active && s.waiters == []
    ensures var t := s.(settled := true); Accounts(t) && Calls(t)
  {
    hide Rows, Merged, Calls;
    CallsSame(s, s.(settled := true));
  }

  lemma SettleKeeps(s: State)
    requires Inv(s) && !s.settled
    ensures Inv(Settle(s))
  {
    DeactivateKeeps(s, s.cancelled);
    var t := s.(active := false);
    assert s.waiters != [] ==> s.queue == [];
    hide Accounts, Calls, ResolveWaiters;
    ResolveKeeps(t);
    ResolveContext(t);
    SettledKeeps(ResolveWaiters(t));
  }

  lemma ResolveContext(s: State)
    ensures var t := ResolveWaiters(s);
            t.waiters == [] && t.active == s.active && t.burst == s.burst && t.settled == s.settled
  {
  }

  lemma DeactivateKeeps(s: State, cancelled: bool)
    requires Accounts(s) && Calls(s)
    ensures var t := s.(active := false, cancelled := cancelled); Accounts(t) && Calls(t)
  {
    hide Rows, Merged, Calls;
    CallsSame(s, s.(active := false, cancelled := cancelled));
  }

  lemma HandOverCalls(s: State, b: Batch)
    requires Calls(s) && s.active && s.waiters != []
    ensures Calls(HandOver(Produced(s, b), b))
  {
    var t := HandOver(Produced(s, b), b);
    var call := s.waiters[0];
    assert s.waiters == [call] + t.waiters && call in s.waiters;
    hide HandOver, Produced;
    TakerServed(s, t, call, b);
    HandOverAnswered(s, t, call);
    HandOverEnded(s, t, call, b);
  }

  lemma HandOverEnded(s: State, t: State, call: nat, b: Batch)
    requires Answered(s) && Ended(s) && s.active && s.waiters == [call] + t.waiters && t.active
    requires t.log.answers == s.log.answers[call := Some(b)] && t.log.takers == s.log.takers + [call]
    ensures Ended(t)
  {
    assert call in s.waiters;
    forall c | c in t.waiters ensures call < c && c in s.waiters {
      var i :| 0 <= i < |t.waiters| && t.waiters[i] == c;
      assert s.waiters[0] < s.waiters[i + 1];
    }
  }

  lemma HandOverAnswered(s: State, t: State, call: nat)
    requires Answered(s) && s.waiters == [call] + t.waiters && t.log.answers.Keys == s.log.answers.Keys + {call}
             && t.calls == s.calls
    ensures Answered(t)
  {
    assert call in s.waiters;
    forall i, j | 0 <= i < j < |t.waiters| ensures t.waiters[i] < t.waiters[j] {
      assert s.waiters[i + 1] < s.waiters[j + 1];
    }
    forall c | c in t.waiters ensures c !in t.log.answers && c in s.waiters {
      var i :| 0 <= i < |t.waiters| && t.waiters[i] == c;
      assert s.waiters[0] < s.waiters[i + 1];
    }
  }

  lemma OfferCalls(s: State)
    requires Calls(s) && s.active && s.index < |s.batches|
    ensures Calls(Offer(s))
  {
    hide HandOver, Calls;
    var b := s.batches[s.index];
    if s.waiters != [] { HandOverCalls(s, b); } else { CallsSame(s, Offer(s)); }
  }

  /** A delivery to a call that comes after all takers. */
  lemma TakerServed(s: State, t: State, call: nat, b: Batch)
    requires Calls(s) && call !in s.log.answers
    requires forall i :: 0 <= i < |s.log.takers| ==> s.log.takers[i] < call
    requires t.log.answers == s.log.answers[call := Some(b)] && t.log.takers == s.log.takers + [call]
             && t.log.delivered == s.log.delivered + [b]
    ensures Served(t)
  {
    forall c | c in t.log.answers && t.log.answers[c].Some? ensures c in t.log.takers {
      if c != call { assert c in s.log.takers; }
    }
  }

  lemma NextAccounts(s: State)
    requires Accounts(s)
    ensures Accounts(Next(s))
  {
    hide Rows, Merged;
    if s.queue != [] {
      var b := s.queue[0];
      RowsFirst(s.queue);
      RowsLast(s.log.delivered, b);
      assert s.queue == [b] + s.queue[1..];
      assert s.log.drained == [] && s.log.discarded == [];
      assert s.log.delivered + [] + [] + s.queue == s.log.delivered + [b] + [] + [] + s.queue[1..];
    }
  }

  lemma NextCalls(s: State)
    requires Waiting(s) && Calls(s)
    ensures Calls(Next(s))
  {
    hide TakeQueued, Calls, Ask;
    if s.queue != [] { TakeQueuedCalls(s); } else if s.active { WaitCalls(s); } else { EndCalls(s); }
  }

  lemma EndCalls(s: State)
    requires Calls(s) && !s.active && s.queue == []
    ensures Calls(AnswerEnd(s))
  {
    TakersBefore(s);
    var t := AnswerEnd(s);
    assert Served(t) by { hide Ended; }
    assert Ended(t) by { hide Served; }
  }

  lemma TakeQueuedCalls(s: State)
    requires Waiting(s) && Calls(s) && s.queue != []
    ensures Calls(TakeQueued(s))
  {
    var t := TakeQueued(s);
    TakersBefore(s);
    TakerServed(s, t, s.calls, s.queue[0]);
    assert Answered(t) by { hide Served, Ended; TakeQueuedAnswered(s, t); }
    assert Ended(t) by { hide Served, Answered; }
  }

  lemma TakeQueuedAnswered(s: State, t: State)
    requires Answered(s) && s.waiters == [] && t.waiters == [] && t.calls == s.calls + 1
    requires t.log.answers.Keys == s.log.answers.Keys + {s.calls}
    ensures Answered(t)
  {
  }

  lemma WaitCalls(s: State)
    requires Calls(s) && s.active
    ensures Calls(Wait(s))
  {
    TakersBefore(s);
    WaitAnswered(s);
    assert Ended(Wait(s)) by { hide Served, Answered; }
    assert Served(Wait(s)) by { hide Ended, Answered; }
  }

  lemma WaitAnswered(s: State)
    requires Answered(s)
    ensures Answered(Wait(s))
  {
    var t := Wait(s);
    assert s.calls !in s.log.answers;
    forall i, j | 0 <= i < j < |t.waiters| ensures t.waiters[i] < t.waiters[j] {
      assert s.waiters[i] in s.waiters;
    }
    assert forall c :: c in t.waiters <==> c in s.waiters || c == s.calls;
  }

  lemma TakersBefore(s: State)
    requires Answered(s) && Served(s)
    ensures forall i :: 0 <= i < |s.log.takers| ==> s.log.takers[i] < s.calls
  {
  }

  lemma TakeOutKeeps(s: State, drain: bool)
    requires Accounts(s) && Calls(s) && s.settled
    ensures Accounts(TakeOut(s, drain)) && Calls(TakeOut(s, drain))
  {
    hide Rows, Merged, Calls;
    CallsSame(s, TakeOut(s, drain));
    RowsNone();
    if s.queue == [] {
      assert s.log.drained + [] == s.log.drained && s.log.discarded + [] == s.log.discarded;
      assert TakeOut(s, drain) == s;
    } else {
      TakeOutAccounts(s, drain);
    }
  }

  lemma NothingBetween(d: seq<Batch>, q: seq<Batch>)
    ensures d + [] + [] + q == d + q && d + q + [] + [] == d + q && d + [] + q + [] == d + q && [] + q == q
  {
    assert d + [] == d;
  }

  lemma TakeOutInOrder(s: State, drain: bool)
    requires InOrder(s) && s.settled && s.queue != []
    ensures InOrder(TakeOut(s, drain)) && s.log.drained == [] && s.log.discarded == []
  {
    NothingBetween(s.log.delivered, s.queue);
  }

  lemma TakeOutAccounts(s: State, drain: bool)
    requires Accounts(s) && s.settled && s.queue != []
    ensures Accounts(TakeOut(s, drain))
  {
    hide Rows, Merged, InOrder;
    RowsNone();
    TakeOutInOrder(s, drain);
    NothingBetween([], s.queue);
  }

  lemma FinishKeeps(s: State, drain: bool)
    requires Inv(s) && s.settled
    ensures Inv(EndStop(s, drain))
  {
    TakeOutKeeps(s, drain);
    var t := TakeOut(s, drain);
    assert !t.active && t.queue == [];
    hide Accounts, Calls, ResolveWaiters;
    ResolveKeeps(t);
    ResolveContext(t);
  }

  lemma RowsNone()
    ensures Rows([]) == 0
  {
  }

  // ----- every run -----

  lemma StepKeeps(s: State, step: Step)
    requires Inv(s) && Enabled(s, step)
    ensures Inv(Take(s, step))
  {
    match step
    case DoProduce => ProduceKeeps(s);
    case DoNext =>
      NextAccounts(s);
      NextCalls(s);
    case DoClose =>
      DeactivateKeeps(s, true);
      CloseKeeps(s);
    case DoStop => DeactivateKeeps(s, true);
    case DoFinish(drain) => FinishKeeps(s, drain);
  }

  lemma CloseKeeps(s: State)
    requires Inv(s)
    ensures Inv(Close(s))
  {
    DeactivateKeeps(s, true);
    var t := Deactivate(s);
    assert s.waiters != [] ==> s.queue == [];
    hide Accounts, Calls, ResolveWaiters;
    ResolveKeeps(t);
    ResolveContext(t);
  }

  lemma {:induction false} StartKeeps(batches: seq<Batch>, capacity: nat, burst: nat)
    requires burst > 0
    ensures Inv(Start(batches, capacity, burst))
  {
    assert batches[..0] == [];
  }

  /** `t` comes from `s` by the given steps, each enabled when it is taken. */
  predicate Runs(s: State, steps: seq<Step>, t: State)
    decreases |steps|
  {
    if steps == [] then t == s else s.burst > 0 && Enabled(s, steps[0]) && Runs(Take(s, steps[0]), steps[1..], t)
  }

  lemma {:induction false} RunKeeps(s: State, steps: seq<Step>, t: State)
    requires Inv(s) && Runs(s, steps, t)
    ensures Inv(t)
    decreases |steps|
  {
    hide Accounts, Calls, Take;
    if steps != [] {
      StepKeeps(s, steps[0]);
      RunKeeps(Take(s, steps[0]), steps[1..], t);
    }
  }

  /** Every interleaving, from the constructor on: all that `Inv` states holds at every point. */
  lemma EveryRun(batches: seq<Batch>, capacity: nat, burst: nat, steps: seq<Step>, t: State)
    requires burst > 0
    requires Runs(Produce(Start(batches, capacity, burst)), steps, t)
    ensures Inv(t)
    ensures t.settled ==> forall c :: 0 <= c < t.calls ==> c in t.log.answers
  {
    hide Accounts, Calls, Take, Start, Produce;
    StartKeeps(batches, capacity, burst);
    StartContext(batches, capacity, burst);
    ProduceKeeps(Start(batches, capacity, burst));
    RunKeeps(Produce(Start(batches, capacity, burst)), steps, t);
    SettledAnswered(t);
  }

  lemma StartContext(batches: seq<Batch>, capacity: nat, burst: nat)
    ensures !Start(batches, capacity, burst).settled
  {
  }

  lemma SettledAnswered(s: State)
    requires Inv(s)
    ensures s.settled ==> forall c :: 0 <= c < s.calls ==> c in s.log.answers
  {
    hide Served, Ended, Merged, Rows;
  }

  /** Each turn of the producer ends it or moves it on. */
  lemma {:induction false} ProducerProgress(s: State)
    requires s.burst > 0
    ensures Produce(s).settled || Produce(s).index > s.index
    decreases |s.batches| - s.index
  {
    hide Offer;
    if s.index < |s.batches| && s.active {
      OfferContext(s);
      if Offer(s).index % Offer(s).burst != 0 { ProducerProgress(Offer(s)); }
    }
  }

  /** The condition of `assertQueueConservation`. */
  predicate PassesCheck(s: State) {
    && s.m.deliveredBatches + s.m.drainedBatches + s.m.droppedBatches + s.m.discardedBatches == s.m.producedBatches
    && s.m.deliveredRows + s.m.drainedRows + s.m.droppedRows + s.m.discardedRows == s.m.producedRows
    && s.m.maxQueueDepth <= s.capacity
  }

  /** The check passes exactly when nothing is queued; so it does once any reader has seen the end. */
  lemma CheckExactly(s: State)
    requires Inv(s)
    ensures PassesCheck(s) <==> s.queue == []
    ensures (exists c :: c in s.log.answers && s.log.answers[c].None?) ==> PassesCheck(s)
  {
    hide Merged, Served, Answered;
  }

  // ----- the subscription as it runs -----

  datatype Reply = Delivered(batch: Batch) | EndOfStream | Pending

  class AutonomousNativeSubscription {
    const batches: seq<Batch>
    const capacity: nat
    const producerBurst: nat
    var queue: seq<Batch>
    var waiters: seq<nat>
    var active: bool
    var cancelled: bool
    var settled: bool
    var index: nat
    var calls: nat
    var metrics: Metrics
    ghost var log: Log

    ghost function View(): State
      reads this
    {
      State(batches, capacity, producerBurst, queue, waiters, active, cancelled, settled, index, calls, metrics, log)
    }

    ghost predicate Valid()
      reads this
    {
      Inv(View())
    }

    constructor (batches: seq<Batch>, capacity: nat, producerBurst: nat)
      requires producerBurst > 0
      ensures Valid() && View() == Produce(Start(batches, capacity, producerBurst))
    {
      this.batches, this.capacity, this.producerBurst := batches, capacity, producerBurst;
      queue, waiters, active, cancelled, settled, index, calls := [], [], true, false, false, 0, 0;
      metrics := Metrics(0, 0, 0, false, 0, 0, 0, 0, 0, 0, 0, 0, 0);
      log := Log(map[], [], [], [], [], [], []);
      new;
      hide Accounts, Calls;
      StartKeeps(batches, capacity, producerBurst);
      ProduceTurn();
    }

    /** The producer from one await to the next. */
    method ProduceTurn()
      requires Valid() && !settled
      modifies this
      ensures Valid() && View() == Produce(old(View()))
    {
      hide Accounts, Calls, Offer;
      ProduceKeeps(View());
      ghost var goal := Produce(View());
      ghost var start := View();
      while index < |batches| && active
        invariant producerBurst > 0 && Produce(View()) == goal
        decreases |batches| - index
      {
        OfferContext(View());
        OfferBatch();
        if index % producerBurst == 0 {
          return;
        }
      }
      active := false;
      AnswerWaiters();
      settled := true;
    }

    method OfferBatch()
      requires index < |batches|
      modifies this
      ensures View() == Offer(old(View()))
    {
      var batch := batches[index];
      index := index + 1;
      metrics := metrics.(producedBatches := metrics.producedBatches + 1,
                          producedRows := metrics.producedRows + batch.rows);
      if waiters != [] {
        var waiter := waiters[0];
        waiters := waiters[1..];
        log := log.(admitted := log.admitted + [batch]);
        RecordDelivery(waiter, batch);
      } else if |queue| < capacity {
        queue := queue + [batch];
        metrics := metrics.(maxQueueDepth := Max(metrics.maxQueueDepth, |queue|));
        log := log.(admitted := log.admitted + [batch]);
      } else {
        metrics := metrics.(sawDrop := true, droppedBatches := metrics.droppedBatches + 1,
                            droppedRows := metrics.droppedRows + batch.rows);
        log := log.(dropped := log.dropped + [batch]);
      }
    }

    method RecordDelivery(call: nat, batch: Batch)
      modifies this
      ensures View() == Deliver(old(View()), call, batch)
    {
      if metrics.sawDrop {
        metrics := metrics.(deliveredAfterDrop := metrics.deliveredAfterDrop + 1);
      }
      metrics := metrics.(deliveredBatches := metrics.deliveredBatches + 1,
                          deliveredRows := metrics.deliveredRows + batch.rows);
      log := log.(answers := log.answers[call := Some(batch)], takers := log.takers + [call],
                  delivered := log.delivered + [batch]);
    }

    method AnswerWaiters()
      modifies this
      ensures View() == ResolveWaiters(old(View()))
    {
      log := log.(answers := AllEnded(log.answers, waiters));
      waiters := [];
    }

    method NextArrowBatch() returns (reply: Reply)
      requires Valid()
      modifies this
      ensures Valid() && View() == Next(old(View()))
      ensures reply
              == if old(queue) != [] then Delivered(old(queue)[0]) else if !old(active) then EndOfStream else Pending
    {
      hide Accounts, Calls;
      StepKeeps(View(), DoNext);
      var call := calls;
      calls := calls + 1;
      if queue != [] {
        var queued := queue[0];
        queue := queue[1..];
        RecordDelivery(call, queued);
        return Delivered(queued);
      }
      if !active {
        log := log.(answers := log.answers[call := None]);
        return EndOfStream;
      }
      waiters := waiters + [call];
      return Pending;
    }

    method SignalClosing()
      requires Valid()
      modifies this
      ensures Valid() && View() == Close(old(View()))
    {
      hide Accounts, Calls;
      StepKeeps(View(), DoClose);
      if active {
        cancelled := true;
        active := false;
      }
      AnswerWaiters();
    }

    /** `stop` up to the point where it awaits the producer. */
    method BeginStop()
      requires Valid()
      modifies this
      ensures Valid() && View() == Deactivate(old(View()))
    {
      hide Accounts, Calls;
      StepKeeps(View(), DoStop);
      if active {
        cancelled := true;
        active := false;
      }
    }

    /** The rest of `stop`, once the producer has settled. */
    method FinishStop(drain: bool) returns (r: Option<seq<Batch>>)
      requires Valid() && settled
      modifies this
      ensures Valid() && View() == EndStop(old(View()), drain)
      ensures r == if drain && old(queue) != [] then Some(old(queue)) else None
    {
      hide Accounts, Calls;
      StepKeeps(View(), DoFinish(drain));
      var queued := queue;
      queue := [];
      var queuedRows := SumRows(queued);
      if drain {
        metrics := metrics.(drainedBatches := metrics.drainedBatches + |queued|,
                            drainedRows := metrics.drainedRows + queuedRows);
        log := log.(drained := log.drained + queued);
      } else {
        metrics := metrics.(discardedBatches := metrics.discardedBatches + |queued|,
                            discardedRows := metrics.discardedRows + queuedRows);
        log := log.(discarded := log.discarded + queued);
      }
      AnswerWaiters();
      return if drain && |queued| > 0 then Some(queued) else None;
    }

    /** `assertQueueConservation` on the current metrics. */
    method ConservationHolds() returns (ok: bool)
      requires Valid()
      ensures ok <==> queue == []
    {
      hide Accounts, Calls;
      CheckExactly(View());
      var accountedBatches :=
        metrics.deliveredBatches + metrics.drainedBatches + metrics.droppedBatches + metrics.discardedBatches;
      var accountedRows := metrics.deliveredRows + metrics.drainedRows + metrics.droppedRows + metrics.discardedRows;
      ok := accountedBatches == metrics.producedBatches && accountedRows == metrics.producedRows
            && metrics.maxQueueDepth <= capacity;
    }
  }

  method SumRows(batches: seq<Batch>) returns (rows: nat)
    ensures rows == Rows(batches)
  {
    rows := 0;
    for i := 0 to |batches|
      invariant rows == Rows(batches[..i])
    {
      RowsLast(batches[..i], batches[i]);
      assert batches[..i + 1] == batches[..i] + [batches[i]];
      rows := rows + batches[i].rows;
    }
    assert batches[..|batches|] == batches;
  }
}
