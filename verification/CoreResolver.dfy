/**
 The memoised import and connection of `createCoreResolver` (`core-loader.ts`), as a
 state machine over every interleaving of callers, settlements and rejection handlers.
 A promise is known by the number of its attempt.
 */
module CoreResolver {

  datatype Option<+T> = None | Some(value: T)

  datatype Status = Pending | Resolved | Rejected(error: nat)

  /** Attempts so far, the remembered one, and those whose rejection handler has run. */
  datatype Memo = Memo(attempts: seq<Status>, current: Option<nat>, handled: set<nat>)

  /** What an engine attempt waits for before it connects: a core given in the options, or an import. */
  datatype Wait = GivenCore | Import(attempt: nat)

  /** A caller of `getEngine` gets the engine of the options, or waits for an attempt. */
  datatype Caller = GivenEngine | Awaits(attempt: nat)

  datatype State = State(
    coreGiven: bool, engineGiven: bool, core: Memo, engine: Memo, waits: seq<Wait>, connecting: set<nat>,
    callers: seq<Caller>)

  datatype Step =
    | GetEngine
    | GetCore
    | ImportSettles(attempt: nat, outcome: Status)
    | CoreHandler(attempt: nat)
    | Continue(attempt: nat)
    | ConnectSettles(attempt: nat, outcome: Status)
    | EngineHandler(attempt: nat)

  // ----- one memo -----

  /** The remembered attempt, or a new one. */
  function Remembered(m: Memo): Memo {
    if m.current.Some? then m else m.(attempts := m.attempts + [Pending], current := Some(|m.attempts|))
  }

  function Settled(m: Memo, i: nat, outcome: Status): Memo
    requires i < |m.attempts|
  {
    m.(attempts := m.attempts[i := outcome])
  }

  /** A rejected attempt is forgotten, if it is still the remembered one. */
  function Handled(m: Memo, i: nat): Memo {
    m.(handled := m.handled + {i}, current := if m.current == Some(i) then None else m.current)
  }

  predicate CanSettle(m: Memo, i: nat, outcome: Status) {
    i < |m.attempts| && m.attempts[i].Pending? && !outcome.Pending?
  }

  predicate CanHandle(m: Memo, i: nat) {
    i < |m.attempts| && m.attempts[i].Rejected? && i !in m.handled
  }

  /** Every attempt but the remembered one is over: rejected, and its handler has run. */
  predicate MemoOk(m: Memo) {
    && (m.current.Some? ==> m.current.value < |m.attempts| && m.current.value !in m.handled)
    && (forall i :: 0 <= i < |m.attempts| && m.current != Some(i) ==> m.attempts[i].Rejected? && i in m.handled)
    && (forall i :: i in m.handled ==> i < |m.attempts| && m.attempts[i].Rejected?)
  }

  /** Still pending, or successful. */
  predicate Live(m: Memo, i: nat) { i < |m.attempts| && !m.attempts[i].Rejected? }

  // ----- the steps -----

  predicate Enabled(s: State, step: Step) {
    match step
    case GetEngine => true
    case GetCore => true
    case ImportSettles(i, outcome) => CanSettle(s.core, i, outcome)
    case CoreHandler(i) => CanHandle(s.core, i)
    case Continue(e) =>
      && e < |s.engine.attempts| && e < |s.waits| && s.engine.attempts[e].Pending? && e !in s.connecting
      && (s.waits[e].Import? ==>
            s.waits[e].attempt < |s.core.attempts| && !s.core.attempts[s.waits[e].attempt].Pending?)
    case ConnectSettles(e, outcome) => e in s.connecting && CanSettle(s.engine, e, outcome)
    case EngineHandler(e) => CanHandle(s.engine, e)
  }

  function CoreAsked(s: State): State { if s.coreGiven then s else s.(core := Remembered(s.core)) }

  /** The engine attempt asks for the core before it is remembered. */
  function EngineAsked(s: State): State {
    if s.engineGiven || s.engine.current.Some? then s
    else
      var t := CoreAsked(s);
      t.(engine := Remembered(s.engine),
         waits := s.waits + [if s.coreGiven || t.core.current.None? then GivenCore else Import(t.core.current.value)])
  }

  function Continued(s: State, e: nat): State
    requires Enabled(s, Continue(e))
  {
    if s.waits[e].Import? && s.core.attempts[s.waits[e].attempt].Rejected?
    then s.(engine := Settled(s.engine, e, s.core.attempts[s.waits[e].attempt]))
    else s.(connecting := s.connecting + {e})
  }

  function Take(s: State, step: Step): State
    requires Enabled(s, step)
  {
    match step
    case GetEngine =>
      var t := EngineAsked(s);
      t.(callers := s.callers
         + [if s.engineGiven || t.engine.current.None? then GivenEngine else Awaits(t.engine.current.value)])
    case GetCore => CoreAsked(s)
    case ImportSettles(i, outcome) => s.(core := Settled(s.core, i, outcome))
    case CoreHandler(i) => s.(core := Handled(s.core, i))
    case Continue(e) => Continued(s, e)
    case ConnectSettles(e, outcome) => s.(engine := Settled(s.engine, e, outcome))
    case EngineHandler(e) => s.(engine := Handled(s.engine, e))
  }

  function Start(coreGiven: bool, engineGiven: bool): State {
    State(coreGiven, engineGiven, Memo([], None, {}), Memo([], None, {}), [], {}, [])
  }

  ghost predicate Inv(s: State) {
    && MemoOk(s.core) && MemoOk(s.engine)
    && |s.waits| == |s.engine.attempts|
    && (forall e :: 0 <= e < |s.waits| && s.waits[e].Import? ==> s.waits[e].attempt < |s.core.attempts|)
    && (forall e :: e in s.connecting ==> e < |s.engine.attempts|)
    && (forall e :: 0 <= e < |s.engine.attempts| && s.engine.attempts[e].Resolved? ==> e in s.connecting)
    && (s.engineGiven ==> s.engine.attempts == [])
    && (forall c :: 0 <= c < |s.callers| ==>
          if s.engineGiven then s.callers[c].GivenEngine?
          else s.callers[c].Awaits? && s.callers[c].attempt < |s.engine.attempts|)
  }

  // ----- lemmas about one memo -----

  lemma RememberedOk(m: Memo)
    requires MemoOk(m)
    ensures MemoOk(Remembered(m)) && Remembered(m).current.Some?
    ensures m.attempts <= Remembered(m).attempts && (m.current.Some? ==> Remembered(m) == m)
  {
  }

  lemma SettledOk(m: Memo, i: nat, outcome: Status)
    requires MemoOk(m) && CanSettle(m, i, outcome)
    ensures MemoOk(Settled(m, i, outcome))
  {
  }

  lemma HandledOk(m: Memo, i: nat)
    requires MemoOk(m) && CanHandle(m, i)
    ensures MemoOk(Handled(m, i)) && m.current == Some(i) && Handled(m, i).current == None
  {
  }

  /** Unfinished or successful attempts are remembered; so there is at most one of them. */
  lemma OneLiveAttempt(m: Memo, i: nat, j: nat)
    requires MemoOk(m) && Live(m, i) && Live(m, j)
    ensures i == j && m.current == Some(i)
  {
  }

  // ----- every run -----

  lemma StepKeeps(s: State, step: Step)
    requires Inv(s) && Enabled(s, step)
    ensures Inv(Take(s, step))
  {
    hide MemoOk, Remembered, Handled;
    RememberedOk(s.core);
    RememberedOk(s.engine);
    match step
    case GetEngine => EngineAskedKeeps(s);
    case GetCore =>
    case ImportSettles(i, outcome) => SettledOk(s.core, i, outcome);
    case CoreHandler(i) => HandledKeeps(s.core, i);
    case Continue(e) =>
      if s.waits[e].Import? && s.core.attempts[s.waits[e].attempt].Rejected? {
        SettledOk(s.engine, e, s.core.attempts[s.waits[e].attempt]);
      }
    case ConnectSettles(e, outcome) => SettledOk(s.engine, e, outcome);
    case EngineHandler(e) => HandledKeeps(s.engine, e);
  }

  lemma HandledKeeps(m: Memo, i: nat)
    requires MemoOk(m) && CanHandle(m, i)
    ensures MemoOk(Handled(m, i)) && Handled(m, i).attempts == m.attempts
  {
    HandledOk(m, i);
  }

  lemma EngineAskedKeeps(s: State)
    requires Inv(s)
    ensures var t := EngineAsked(s);
            Inv(t) && (!s.engineGiven ==> t.engine.current.Some? && t.engine.current.value < |t.engine.attempts|)
    ensures EngineAsked(s).callers == s.callers && s.engine.attempts <= EngineAsked(s).engine.attempts
  {
    RememberedOk(s.core);
    RememberedOk(s.engine);
  }

  predicate Runs(s: State, steps: seq<Step>, t: State)
    decreases |steps|
  {
    if steps == [] then t == s else Enabled(s, steps[0]) && Runs(Take(s, steps[0]), steps[1..], t)
  }

  /** In every interleaving at most one connect is pending and at most one has succeeded. */
  lemma {:induction false} EveryRun(s: State, steps: seq<Step>, t: State)
    requires Inv(s) && Runs(s, steps, t)
    ensures Inv(t)
    ensures forall i, j :: Live(t.engine, i) && Live(t.engine, j) ==> i == j
    decreases |steps|
  {
    if steps == [] {
      forall i, j | Live(t.engine, i) && Live(t.engine, j) ensures i == j { OneLiveAttempt(t.engine, i, j); }
    } else {
      hide Take, Inv;
      StepKeeps(s, steps[0]);
      EveryRun(Take(s, steps[0]), steps[1..], t);
    }
  }

  lemma StartOk(coreGiven: bool, engineGiven: bool)
    ensures Inv(Start(coreGiven, engineGiven))
  {
  }

  /**
   An outcome never changes, so all callers of an attempt see the same one; and a
   remembered attempt is forgotten only by its own rejection handler.
   */
  lemma StepStable(s: State, step: Step)
    requires Inv(s) && Enabled(s, step)
    ensures var t := Take(s, step);
            && |s.engine.attempts| <= |t.engine.attempts|
            && (forall i :: 0 <= i < |s.engine.attempts| && !s.engine.attempts[i].Pending? ==>
                  t.engine.attempts[i] == s.engine.attempts[i])
            && s.callers <= t.callers
            && (s.engine.current.Some? && t.engine.current != s.engine.current ==>
                  && step == EngineHandler(s.engine.current.value)
                  && s.engine.attempts[s.engine.current.value].Rejected?
                  && t.engine.current == None)
  {
  }

  /** While nothing is forgotten, later callers share the remembered attempt; success is remembered for good. */
  lemma {:induction false} SharedAttempt(s: State, steps: seq<Step>, t: State, e: nat)
    requires Inv(s) && Runs(s, steps, t) && s.engine.current == Some(e)
    requires s.engine.attempts[e].Resolved? || forall i :: 0 <= i < |steps| ==> steps[i] != EngineHandler(e)
    ensures t.engine.current == Some(e) && |s.callers| <= |t.callers| && |s.engine.attempts| <= |t.engine.attempts|
    ensures s.engine.attempts[e].Resolved? ==> e < |t.engine.attempts| && t.engine.attempts[e].Resolved?
    ensures forall c :: |s.callers| <= c < |t.callers| ==> t.callers[c] == Awaits(e)
    decreases |steps|
  {
    if steps != [] {
      var u := Take(s, steps[0]);
      StepKeeps(s, steps[0]);
      StepStable(s, steps[0]);
      assert u.engine.current == Some(e);
      assert forall c :: |s.callers| <= c < |u.callers| ==> u.callers[c] == Awaits(e);
      hide Take, Inv;
      assert u.engine.attempts[e].Resolved? || forall i :: 0 <= i < |steps[1..]| ==> steps[1..][i] != EngineHandler(e);
      SharedAttempt(u, steps[1..], t, e);
      CallersGrow(u, steps[1..], t);
    }
  }

  lemma {:induction false} CallersGrow(s: State, steps: seq<Step>, t: State)
    requires Inv(s) && Runs(s, steps, t)
    ensures s.callers <= t.callers
    decreases |steps|
  {
    if steps != [] {
      StepKeeps(s, steps[0]);
      StepStable(s, steps[0]);
      hide Take, Inv;
      CallersGrow(Take(s, steps[0]), steps[1..], t);
    }
  }

  /** After a rejection the handler can run, and then the next caller starts over. */
  lemma RetryAfterRejection(s: State, e: nat)
    requires Inv(s) && s.engine.current == Some(e) && s.engine.attempts[e].Rejected?
    ensures !s.engineGiven && Enabled(s, EngineHandler(e))
    ensures var t := Take(s, EngineHandler(e));
            Inv(t) && var u := Take(t, GetEngine);
            |u.engine.attempts| == |s.engine.attempts| + 1 && u.engine.attempts[|s.engine.attempts|].Pending?
            && u.engine.current == Some(|s.engine.attempts|)
  {
    HandledOk(s.engine, e);
    StepKeeps(s, EngineHandler(e));
  }

  // ----- the resolver as it runs -----

  /** The two captured promise variables, with the table of the promises started. */
  class Resolver {
    const coreGiven: bool
    const engineGiven: bool
    var corePromise: Option<nat>
    var enginePromise: Option<nat>
    var imports: seq<Status>
    var connects: seq<Status>
    var waits: seq<Wait>
    var coreHandled: set<nat>
    var engineHandled: set<nat>
    ghost var connecting: set<nat>
    ghost var callers: seq<Caller>

    ghost function View(): State
      reads this
    {
      State(coreGiven, engineGiven, Memo(imports, corePromise, coreHandled),
            Memo(connects, enginePromise, engineHandled), waits,
            connecting, callers)
    }

    constructor (coreGiven: bool, engineGiven: bool)
      ensures View() == Start(coreGiven, engineGiven) && Inv(View())
    {
      this.coreGiven, this.engineGiven := coreGiven, engineGiven;
      corePromise, enginePromise, imports, connects := None, None, [], [];
      waits, coreHandled, engineHandled := [], {}, {};
      connecting, callers := {}, [];
      new;
      StartOk(coreGiven, engineGiven);
    }

    method GetCorePromise() returns (wait: Wait)
      requires Inv(View())
      modifies this
      ensures View() == CoreAsked(old(View())) && Inv(View())
      ensures wait == if coreGiven || corePromise.None? then GivenCore else Import(corePromise.value)
    {
      StepKeeps(View(), GetCore);
      if coreGiven {
        return GivenCore;
      }
      if corePromise.None? {
        corePromise := Some(|imports|);
        imports := imports + [Pending];
      }
      return Import(corePromise.value);
    }

    method GetEnginePromise() returns (caller: Caller)
      requires Inv(View())
      modifies this
      ensures View() == Take(old(View()), GetEngine) && Inv(View())
      ensures caller == if engineGiven then GivenEngine else Awaits(enginePromise.value)
      ensures !engineGiven ==> enginePromise.Some?
    {
      StepKeeps(View(), GetEngine);
      EngineAskedKeeps(View());
      if engineGiven {
        callers := callers + [GivenEngine];
        return GivenEngine;
      }
      if enginePromise.None? {
        var wait := GetCorePromise();
        waits := waits + [wait];
        enginePromise := Some(|connects|);
        connects := connects + [Pending];
      }
      caller := Awaits(enginePromise.value);
      callers := callers + [caller];
    }

    /** The handler that forgets a rejected connection. */
    method OnConnectRejected(attempt: nat)
      requires Inv(View()) && CanHandle(View().engine, attempt)
      modifies this
      ensures View() == Take(old(View()), EngineHandler(attempt)) && Inv(View())
    {
      StepKeeps(View(), EngineHandler(attempt));
      engineHandled := engineHandled + {attempt};
      if enginePromise == Some(attempt) {
        enginePromise := None;
      }
    }

    /** The handler that forgets a rejected import. */
    method OnImportRejected(attempt: nat)
      requires Inv(View()) && CanHandle(View().core, attempt)
      modifies this
      ensures View() == Take(old(View()), CoreHandler(attempt)) && Inv(View())
    {
      StepKeeps(View(), CoreHandler(attempt));
      coreHandled := coreHandled + {attempt};
      if corePromise == Some(attempt) {
        corePromise := None;
      }
    }
  }
}
