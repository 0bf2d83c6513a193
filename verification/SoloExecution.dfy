/** One execution scheduled alone: the interleaved machine then yields what the plain loop yields. */
module SoloExecution {
  import opened Text
  import opened Evaluator
  import opened AuditStore
  import opened AuditProtocol
  import opened Executor
  import opened ExecutorRuns

  lemma {:induction false} SubstepAt(ctx: Context, steps: seq<TxStep>, startId: nat, id: nat, k: nat)
    requires k < |steps|
    ensures SubstepEvents(ctx, steps, startId, id)[k]
            == AuditEvent(id + k, SubstepEvent(ctx.user, ctx.version, steps[k], startId, ctx.clock(id + k)))
    decreases k
  {
    if k > 0 {
      SubstepAt(ctx, steps[1..], startId, id + 1, k - 1);
    }
  }

  /** The trail of the actions from the n-th on, the first of them starting at id `id`. */
  function From(run: RunState, chains: nat -> Chain, id: nat): Execution
    requires |run.attempts| <= |run.actions|
  {
    PlanExecution(run.ctx, run.actions, chains, |run.attempts|, id, run.hashes)
  }

  function DueResult(run: RunState, chains: nat -> Chain): Result<seq<TxStep>, string>
    requires |run.attempts| < |run.actions|
  {
    DispatchAction(run.actions[|run.attempts|], chains(|run.attempts|))
  }

  lemma FromFirst(run: RunState, chains: nat -> Chain, id: nat)
    requires |run.attempts| < |run.actions|
    ensures var a, ctx, e := run.actions[|run.attempts|], run.ctx, From(run, chains, id);
            && e.events != []
            && e.events[0] == AuditEvent(id, StartEvent(ctx.user, ctx.version, a, ctx.clock(id)))
            && match DueResult(run, chains)
               case Err(error) =>
                 && e.events[1..] == [AuditEvent(id + 1, FailedEvent(ctx.user, ctx.version, a, error, id, ctx.clock(id + 1)))]
                 && e.outcome == PartialFailure(run.hashes, error)
               case Ok(steps) =>
                 var end := id + 1 + |steps|;
                 var rest := PlanExecution(ctx, run.actions, chains, |run.attempts| + 1, end + 1, run.hashes + Hashes(steps));
                 && e.events[1..] == SubstepEvents(ctx, steps, id, id + 1)
                                     + [AuditEvent(end, DoneEvent(ctx.user, ctx.version, a, steps, id, ctx.clock(end)))]
                                     + rest.events
                 && e.outcome == rest.outcome
  {
    hide DispatchAction;
  }

  /** The id of the event the run pushes next. */
  function DueId(run: RunState, nextId: nat): nat {
    match run.pc
    case Starting(id) => id
    case Dispatching(id) => id + 1
    case Stepping(id, _, k) => id + 1 + k
    case Failing(id, _) => id + 1
    case _ => nextId
  }

  /** What the run has still to push, and how it will end. */
  function Rest(run: RunState, chains: nat -> Chain, nextId: nat): Execution
    requires Orderly(run)
  {
    match run.pc
    case Ready => From(run, chains, nextId)
    case Starting(id) => From(run, chains, id)
    case Dispatching(id) => Behind(From(run, chains, id), 1)
    case Stepping(id, _, k) => Behind(From(run, chains, id), k + 1)
    case Failing(id, _) => Behind(From(run, chains, id), 1)
    case Finished(outcome) => Execution([], outcome)
  }

  function Behind(e: Execution, n: nat): Execution {
    Execution(if n <= |e.events| then e.events[n..] else [], e.outcome)
  }

  /** Dispatch gave what the chain gives for the open action. */
  predicate Dispatches(run: RunState, chains: nat -> Chain)
    requires Orderly(run)
  {
    && (run.pc.Stepping? ==> DueResult(run, chains) == Ok(run.pc.steps))
    && (run.pc.Failing? ==> DueResult(run, chains) == Err(run.pc.error))
  }

  /** A log that only this run writes to, in step with its program counter. */
  ghost predicate InSync(run: RunState, w: Writer, log: Log, chains: nat -> Chain) {
    && Orderly(run) && Dispatches(run, chains)
    && log.nextId == DueId(run, log.nextId) + (if w in log.inFlight then 1 else 0)
    && (w in log.inFlight ==>
          && (run.pc.Starting? || run.pc.Stepping? || run.pc.Failing?)
          && Rest(run, chains, log.nextId).events != []
          && log.inFlight[w] == Rest(run, chains, log.nextId).events[0])
    && (run.pc.Starting? ==> w in log.inFlight)
  }

  /** The log so far, and what is still to come. */
  ghost function Projected(run: RunState, log: Log, chains: nat -> Chain): Execution
    requires Orderly(run)
  {
    var rest := Rest(run, chains, log.nextId);
    Execution(log.events + rest.events, rest.outcome)
  }

  /** The head of what is to come is the event the machine appends next. */
  lemma NextIsDue(run: RunState, chains: nat -> Chain, id: nat)
    requires Orderly(run) && Dispatches(run, chains) && DueId(run, id) == id && NextEvent(run, id).Some?
    ensures Rest(run, chains, id).events != []
    ensures Rest(run, chains, id).events[0] == AuditEvent(id, NextEvent(run, id).value)
  {
    hide DispatchAction, From, AllHashes, SubstepEvents;
    match run.pc
    case Ready => FromFirst(run, chains, id);
    case Stepping(start, steps, k) => SteppingIsDue(run, chains, id);
    case Failing(start, e) =>
      FromFirst(run, chains, start);
  }

  lemma SteppingIsDue(run: RunState, chains: nat -> Chain, id: nat)
    requires Orderly(run) && Dispatches(run, chains) && DueId(run, id) == id && run.pc.Stepping?
    ensures Rest(run, chains, id).events != []
    ensures Rest(run, chains, id).events[0] == AuditEvent(id, NextEvent(run, id).value)
  {
    hide DispatchAction, From, AllHashes, SubstepEvents;
    var start, steps, k := run.pc.id, run.pc.steps, run.pc.k;
    FromFirst(run, chains, start);
    var events := From(run, chains, start).events;
    assert events[k + 1..] == events[1..][k..];
    assert events[k + 1..][0] == events[1..][k];
    if k < |steps| {
      SubstepAt(run.ctx, steps, start, start + 1, k);
    }
  }

  lemma AllocateInSync(run: RunState, w: Writer, log: Log, chains: nat -> Chain)
    requires InSync(run, w, log, chains) && w !in log.inFlight && NextEvent(run, log.nextId).Some?
    ensures var next := Take(log, Allocate(w, NextEvent(run, log.nextId).value));
            && InSync(Began(run, log.nextId), w, next, chains)
            && Projected(Began(run, log.nextId), next, chains) == Projected(run, log, chains)
  {
    hide PlanExecution, AllHashes, DispatchAction;
    NextIsDue(run, chains, log.nextId);
  }

  lemma PushInSync(run: RunState, w: Writer, log: Log, chains: nat -> Chain)
    requires InSync(run, w, log, chains) && w in log.inFlight
    ensures InSync(Pushed(run), w, Take(log, Push(w)), chains)
    ensures Projected(Pushed(run), Take(log, Push(w)), chains) == Projected(run, log, chains)
  {
    hide PlanExecution, AllHashes, DispatchAction, Hashes, Orderly, Rest, Pushed;
    var rest, next := Rest(run, chains, log.nextId), Take(log, Push(w));
    PushedOrderly(run);
    PushedRest(run, chains, log.nextId);
    assert log.events + rest.events == (log.events + [rest.events[0]]) + rest.events[1..];
  }

  /** Pushing takes the head off what is to come. */
  ghost predicate TakesHead(run: RunState, after: RunState, chains: nat -> Chain, nextId: nat)
    requires Orderly(run) && Orderly(after)
  {
    var rest := Rest(run, chains, nextId);
    && Dispatches(after, chains)
    && rest.events != []
    && Rest(after, chains, nextId) == Execution(rest.events[1..], rest.outcome)
    && DueId(after, nextId) == nextId
    && !after.pc.Starting?
  }

  lemma PushedRest(run: RunState, chains: nat -> Chain, nextId: nat)
    requires Orderly(run) && Dispatches(run, chains) && nextId == DueId(run, nextId) + 1
    requires run.pc.Starting? || run.pc.Stepping? || run.pc.Failing?
    ensures Orderly(Pushed(run)) && TakesHead(run, Pushed(run), chains, nextId)
  {
    hide Orderly, TakesHead, Rest, Dispatches, Pushed;
    PushedOrderly(run);
    if run.pc.Stepping? {
      PushedStepping(run, chains, nextId);
    } else {
      PushedOnly(run, chains, nextId);
    }
  }

  lemma PushedOnly(run: RunState, chains: nat -> Chain, nextId: nat)
    requires Orderly(run) && Dispatches(run, chains) && nextId == DueId(run, nextId) + 1
    requires run.pc.Starting? || run.pc.Failing?
    requires Orderly(Pushed(run))
    ensures TakesHead(run, Pushed(run), chains, nextId)
  {
    hide DispatchAction, AllHashes, Hashes, PlanExecution;
    FromFirst(run, chains, run.pc.id);
  }

  lemma PushedStepping(run: RunState, chains: nat -> Chain, nextId: nat)
    requires Orderly(run) && Dispatches(run, chains) && nextId == DueId(run, nextId) + 1 && run.pc.Stepping?
    requires Orderly(Pushed(run))
    ensures TakesHead(run, Pushed(run), chains, nextId)
  {
    hide DispatchAction, AllHashes, Hashes, PlanExecution;
    var id, k := run.pc.id, run.pc.k;
    if k < |run.pc.steps| {
      FromFirst(run, chains, id);
      SteppedRest(From(run, chains, id).events, k);
    } else {
      CompletedRest(run, chains, id);
    }
  }

  lemma SteppedRest<T>(events: seq<T>, k: nat)
    requires k + 1 < |events|
    ensures events[k + 1..] != [] && events[k + 1..][1..] == events[k + 2..]
  {
  }

  lemma CompletedRest(run: RunState, chains: nat -> Chain, id: nat)
    requires Orderly(run) && run.pc.Stepping? && DueResult(run, chains) == Ok(run.pc.steps)
    requires run.pc.id == id && run.pc.k == |run.pc.steps|
    ensures var k, e := run.pc.k, From(run, chains, id);
            && k + 1 < |e.events|
            && Orderly(Pushed(run))
            && From(Pushed(run), chains, id + k + 2) == Execution(e.events[k + 1..][1..], e.outcome)
  {
    hide DispatchAction, AllHashes, Hashes, PlanExecution, SubstepEvents;
    PushedOrderly(run);
    FromFirst(run, chains, id);
    var steps, k, events := run.pc.steps, run.pc.k, From(run, chains, id).events;
    var rest := PlanExecution(run.ctx, run.actions, chains, |run.attempts| + 1, id + k + 2, run.hashes + Hashes(steps));
    assert |events[1..]| == k + 1 + |rest.events|;
    assert events[1..][k + 1..] == rest.events;
    assert events[k + 1..][1..] == events[1..][k + 1..];
  }

  lemma DispatchInSync(run: RunState, w: Writer, log: Log, chains: nat -> Chain)
    requires InSync(run, w, log, chains) && run.pc.Dispatching?
    ensures var next := Dispatched(run, DueResult(run, chains));
            && InSync(next, w, log, chains)
            && Projected(next, log, chains) == Projected(run, log, chains)
  {
    hide PlanExecution, AllHashes, DispatchAction;
  }

  lemma FinishInSync(run: RunState, w: Writer, log: Log, chains: nat -> Chain)
    requires InSync(run, w, log, chains) && run.pc.Ready? && |run.attempts| == |run.actions|
    ensures var next := run.(pc := Finished(Completed(run.hashes)));
            && InSync(next, w, log, chains)
            && Projected(next, log, chains) == Projected(run, log, chains)
  {
    hide AllHashes, DispatchAction;
  }

  // ----- a schedule of one run -----

  /** Every step is the run's own, and dispatch gives what the chain gives. */
  ghost predicate OwnStep(sys: System, step: SystemStep, w: Writer, chains: nat -> Chain) {
    && CanStep(sys, step)
    && w in sys.runs && Orderly(sys.runs[w])
    && match step
       case RunAllocate(v) => v == w
       case RunPush(v) => v == w
       case RunDispatch(v, result) =>
         v == w && |sys.runs[w].attempts| < |sys.runs[w].actions| && result == DueResult(sys.runs[w], chains)
       case RunFinish(v) => v == w
       case _ => false
  }

  /** The run begins on any log with no append under way. */
  ghost predicate SoloSchedule(states: seq<System>, steps: seq<SystemStep>, w: Writer, ctx: Context,
      actions: seq<Action>, chains: nat -> Chain, start: Log)
  {
    && |states| == |steps| + 1
    && start.inFlight == map[]
    && states[0].log == start && states[0].runs == map[w := RunState(ctx, actions, Ready, [], [])]
    && forall i :: 0 <= i < |steps| ==>
         OwnStep(states[i], steps[i], w, chains) && states[i + 1] == TakeStep(states[i], steps[i])
  }

  lemma OwnStepInSync(sys: System, step: SystemStep, w: Writer, chains: nat -> Chain)
    requires OwnStep(sys, step, w, chains) && InSync(sys.runs[w], w, sys.log, chains)
    ensures var next := TakeStep(sys, step);
            && w in next.runs
            && InSync(next.runs[w], w, next.log, chains)
            && Projected(next.runs[w], next.log, chains) == Projected(sys.runs[w], sys.log, chains)
  {
    hide InSync, Projected, Orderly, DispatchAction, Pushed, Began, NextEvent;
    match step
    case RunAllocate(_) => AllocateInSync(sys.runs[w], w, sys.log, chains);
    case RunPush(_) => PushInSync(sys.runs[w], w, sys.log, chains);
    case RunDispatch(_, _) => DispatchInSync(sys.runs[w], w, sys.log, chains);
    case RunFinish(_) => FinishInSync(sys.runs[w], w, sys.log, chains);
  }

  /**
   * Alone, the machine refines to the loop, whatever is in the log already: in every state the log
   * and what is still to come are the log it began with and the trail of the plan, and a finished
   * run has logged exactly that trail behind it and returns its outcome.
   */
  lemma {:induction false} SoloIsPlanExecution(states: seq<System>, steps: seq<SystemStep>, w: Writer, ctx: Context,
      actions: seq<Action>, chains: nat -> Chain, start: Log)
    requires SoloSchedule(states, steps, w, ctx, actions, chains, start)
    ensures var last, plan := states[|steps|], PlanExecution(ctx, actions, chains, 0, start.nextId, []);
            && w in last.runs && InSync(last.runs[w], w, last.log, chains)
            && Projected(last.runs[w], last.log, chains) == Execution(start.events + plan.events, plan.outcome)
            && last.log.events <= start.events + plan.events
            && (last.runs[w].pc.Finished? ==>
                  last.log.events == start.events + plan.events && last.runs[w].pc.outcome == plan.outcome)
    decreases |steps|
  {
    hide TakeStep, OwnStep, PlanExecution;
    var n := |steps|;
    if n > 0 {
      SoloIsPlanExecution(states[..n], steps[..n - 1], w, ctx, actions, chains, start);
      assert states[..n][n - 1] == states[n - 1];
      SoloStep(states, steps, w, ctx, actions, chains, start, n - 1);
    }
  }

  lemma SoloStep(states: seq<System>, steps: seq<SystemStep>, w: Writer, ctx: Context,
      actions: seq<Action>, chains: nat -> Chain, start: Log, i: nat)
    requires SoloSchedule(states, steps, w, ctx, actions, chains, start) && i < |steps|
    requires w in states[i].runs && InSync(states[i].runs[w], w, states[i].log, chains)
    ensures w in states[i + 1].runs && InSync(states[i + 1].runs[w], w, states[i + 1].log, chains)
    ensures Projected(states[i + 1].runs[w], states[i + 1].log, chains)
            == Projected(states[i].runs[w], states[i].log, chains)
  {
    hide TakeStep, OwnStep, InSync, Projected;
    OwnStepInSync(states[i], steps[i], w, chains);
  }
}
