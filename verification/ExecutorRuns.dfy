/**
 * Several executions at once on one audit log, each append in its two steps, among writers of
 * other events. What a run does next depends on its program counter; the scheduler may pick any
 * enabled step of any run.
 */
module ExecutorRuns {
  import opened Text
  import opened Evaluator
  import opened AuditStore
  import opened AuditProtocol
  import opened Executor

  // ----- grouping by start id -----

  /** What an executor event says, apart from ids and times. */
  datatype Mark =
    | StartMark(action: Action)
    | SubstepMark(stepLabel: string, hash: Option<string>)
    | DoneMark(action: Action, steps: seq<TxStep>)
    | FailMark(action: Action, error: string)

  /** The start event an event belongs to: itself, or the one its payload names. */
  function KeyOf(e: AuditEvent): Option<nat> {
    match e.event.payload
    case StartPayload(_) => Some(e.id)
    case SubstepPayload(_, startId) => Some(startId)
    case DonePayload(_, _, startId) => Some(startId)
    case FailedPayload(_, _, startId) => Some(startId)
    case _ => None
  }

  function MarkOf(e: AuditEvent): Option<Mark> {
    match e.event.payload
    case StartPayload(a) => Some(StartMark(a))
    case SubstepPayload(what, _) => Some(SubstepMark(what, e.event.txHash))
    case DonePayload(a, steps, _) => Some(DoneMark(a, steps))
    case FailedPayload(a, error, _) => Some(FailMark(a, error))
    case _ => None
  }

  /** The log entries that belong to one start event, in log order. */
  function Group(events: seq<AuditEvent>, startId: nat): seq<Mark> {
    if events == [] then []
    else
      var e := events[|events| - 1];
      Group(events[..|events| - 1], startId)
      + if KeyOf(e) == Some(startId) && MarkOf(e).Some? then [MarkOf(e).value] else []
  }

  lemma GroupPush(events: seq<AuditEvent>, e: AuditEvent, startId: nat)
    ensures Group(events + [e], startId)
            == Group(events, startId) + if KeyOf(e) == Some(startId) && MarkOf(e).Some? then [MarkOf(e).value] else []
  {
    assert (events + [e])[..|events|] == events;
  }

  lemma {:induction false} GroupUnknown(events: seq<AuditEvent>, startId: nat)
    requires forall i :: 0 <= i < |events| ==> KeyOf(events[i]) != Some(startId)
    ensures Group(events, startId) == []
  {
    if events != [] {
      GroupUnknown(events[..|events| - 1], startId);
    }
  }

  // ----- one run -----

  datatype Pc =
    | Ready
    | Starting(id: nat)
    | Dispatching(id: nat)
    | Stepping(id: nat, steps: seq<TxStep>, k: nat)
    | Failing(id: nat, error: string)
    | Finished(outcome: ExecutionOutcome)

  /** An action that has been attempted to its end. */
  datatype Attempt = Attempt(startId: nat, action: Action, steps: seq<TxStep>, error: Option<string>)

  datatype RunState = RunState(ctx: Context, actions: seq<Action>, pc: Pc, attempts: seq<Attempt>, hashes: seq<string>)

  function OpenId(run: RunState): Option<nat> {
    match run.pc
    case Starting(id) => Some(id)
    case Dispatching(id) => Some(id)
    case Stepping(id, _, _) => Some(id)
    case Failing(id, _) => Some(id)
    case _ => None
  }

  function SubstepMarks(steps: seq<TxStep>): (r: seq<Mark>)
    ensures |r| == |steps| && forall i :: 0 <= i < |r| ==> r[i] == SubstepMark(steps[i].stepLabel, Some(steps[i].txHash))
  {
    seq(|steps|, i requires 0 <= i < |steps| => SubstepMark(steps[i].stepLabel, Some(steps[i].txHash)))
  }

  /** One start, the substeps in order, one end. */
  function Bracket(a: Attempt): seq<Mark> {
    [StartMark(a.action)] + SubstepMarks(a.steps)
    + [match a.error case None => DoneMark(a.action, a.steps) case Some(e) => FailMark(a.action, e)]
  }

  /** What the open action has in the log so far. */
  function OpenMarks(run: RunState): seq<Mark>
    requires OpenId(run).Some? && |run.attempts| < |run.actions|
    requires run.pc.Stepping? ==> run.pc.k <= |run.pc.steps|
  {
    match run.pc
    case Starting(_) => []
    case Stepping(_, steps, k) => [StartMark(run.actions[|run.attempts|])] + SubstepMarks(steps[..k])
    case _ => [StartMark(run.actions[|run.attempts|])]
  }

  function AllHashes(attempts: seq<Attempt>): seq<string> {
    if attempts == [] then []
    else AllHashes(attempts[..|attempts| - 1]) + Hashes(attempts[|attempts| - 1].steps)
  }

  /** The run attempts its actions in order, and nothing follows a failed one. */
  ghost predicate Orderly(run: RunState) {
    && |run.attempts| <= |run.actions|
    && (OpenId(run).Some? ==> |run.attempts| < |run.actions|)
    && (run.pc.Stepping? ==> run.pc.k <= |run.pc.steps|)
    && (forall i :: 0 <= i < |run.attempts| ==> run.attempts[i].action == run.actions[i])
    && (forall i :: 0 <= i < |run.attempts| ==> run.attempts[i].error.Some? ==> run.attempts[i].steps == [])
    && (forall i :: 0 <= i < |run.attempts| && run.attempts[i].error.Some? ==>
          i == |run.attempts| - 1 && run.pc == Finished(PartialFailure(run.hashes, run.attempts[i].error.value)))
    && run.hashes == AllHashes(run.attempts)
    && (run.pc.Finished? && run.pc.outcome.Completed? ==>
          |run.attempts| == |run.actions| && run.pc.outcome.txHashes == run.hashes)
    && (run.pc.Finished? && run.pc.outcome.PartialFailure? ==>
          run.attempts != [] && run.attempts[|run.attempts| - 1].error == Some(run.pc.outcome.error)
          && run.pc.outcome.txHashes == run.hashes)
  }

  /** The event a run appends next, given the id it will get. */
  function NextEvent(run: RunState, id: nat): Option<NewAuditEvent>
    requires Orderly(run)
  {
    var ctx, n := run.ctx, |run.attempts|;
    match run.pc
    case Ready => if n < |run.actions| then Some(StartEvent(ctx.user, ctx.version, run.actions[n], ctx.clock(id))) else None
    case Stepping(start, steps, k) =>
      if k < |steps| then Some(SubstepEvent(ctx.user, ctx.version, steps[k], start, ctx.clock(id)))
      else Some(DoneEvent(ctx.user, ctx.version, run.actions[n], steps, start, ctx.clock(id)))
    case Failing(start, e) => Some(FailedEvent(ctx.user, ctx.version, run.actions[n], e, start, ctx.clock(id)))
    case _ => None
  }

  function Began(run: RunState, id: nat): RunState {
    if run.pc.Ready? then run.(pc := Starting(id)) else run
  }

  /** The run after its event has been pushed. */
  function Pushed(run: RunState): RunState
    requires Orderly(run)
  {
    match run.pc
    case Starting(id) => run.(pc := Dispatching(id))
    case Stepping(id, steps, k) =>
      if k < |steps| then run.(pc := Stepping(id, steps, k + 1))
      else run.(pc := Ready, attempts := run.attempts + [Attempt(id, run.actions[|run.attempts|], steps, None)],
                hashes := run.hashes + Hashes(steps))
    case Failing(id, e) =>
      run.(pc := Finished(PartialFailure(run.hashes, e)),
           attempts := run.attempts + [Attempt(id, run.actions[|run.attempts|], [], Some(e))])
    case _ => run
  }

  function Dispatched(run: RunState, result: Result<seq<TxStep>, string>): RunState
    requires run.pc.Dispatching?
  {
    match result
    case Ok(steps) => run.(pc := Stepping(run.pc.id, steps, 0))
    case Err(e) => run.(pc := Failing(run.pc.id, e))
  }

  lemma AllHashesLast(attempts: seq<Attempt>, a: Attempt)
    ensures AllHashes(attempts + [a]) == AllHashes(attempts) + Hashes(a.steps)
  {
    assert (attempts + [a])[..|attempts|] == attempts;
  }

  lemma PushedOrderly(run: RunState)
    requires Orderly(run)
    ensures Orderly(Pushed(run))
  {
    hide AllHashes, Hashes;
    match run.pc
    case Stepping(id, steps, k) =>
      if k == |steps| {
        CompletedOrderly(run);
      }
    case Failing(id, e) => FailedOrderly(run);
    case _ =>
  }

  lemma CompletedOrderly(run: RunState)
    requires Orderly(run) && run.pc.Stepping? && run.pc.k == |run.pc.steps|
    ensures Orderly(Pushed(run))
  {
    hide AllHashes, Hashes;
    AllHashesLast(run.attempts, Attempt(run.pc.id, run.actions[|run.attempts|], run.pc.steps, None));
  }

  lemma FailedOrderly(run: RunState)
    requires Orderly(run) && run.pc.Failing?
    ensures Orderly(Pushed(run))
  {
    hide AllHashes, Hashes;
    var a := Attempt(run.pc.id, run.actions[|run.attempts|], [], Some(run.pc.error));
    AllHashesLast(run.attempts, a);
    NoHashes(run.hashes);
  }

  lemma NoHashes(hashes: seq<string>)
    ensures hashes + Hashes([]) == hashes
  {
  }

  // ----- the system -----

  /** The shared log, the runs, and which writer drew each id. */
  datatype System = System(log: Log, runs: map<Writer, RunState>, owner: map<nat, Writer>)

  datatype SystemStep =
    | RunAllocate(w: Writer)
    | RunPush(w: Writer)
    | RunDispatch(w: Writer, result: Result<seq<TxStep>, string>)
    | RunFinish(w: Writer)
    | OtherAllocate(w: Writer, event: NewAuditEvent)
    | OtherPush(w: Writer)

  predicate Unrelated(event: NewAuditEvent) {
    !event.payload.StartPayload? && !event.payload.SubstepPayload? && !event.payload.DonePayload? && !event.payload.FailedPayload?
  }

  ghost predicate CanStep(sys: System, step: SystemStep) {
    match step
    case RunAllocate(w) =>
      && w in sys.runs && w !in sys.log.inFlight
      && Orderly(sys.runs[w]) && NextEvent(sys.runs[w], sys.log.nextId).Some?
    case RunPush(w) => w in sys.runs && w in sys.log.inFlight && Orderly(sys.runs[w])
    case RunDispatch(w, _) => w in sys.runs && sys.runs[w].pc.Dispatching?
    case RunFinish(w) => w in sys.runs && sys.runs[w].pc.Ready? && |sys.runs[w].attempts| == |sys.runs[w].actions|
    case OtherAllocate(w, event) => w !in sys.runs && w !in sys.log.inFlight && Unrelated(event)
    case OtherPush(w) => w !in sys.runs && w in sys.log.inFlight
  }

  ghost function TakeStep(sys: System, step: SystemStep): System
    requires CanStep(sys, step)
  {
    match step
    case RunAllocate(w) =>
      var run, id := sys.runs[w], sys.log.nextId;
      System(Take(sys.log, Allocate(w, NextEvent(run, id).value)), sys.runs[w := Began(run, id)], sys.owner[id := w])
    case RunPush(w) => System(Take(sys.log, Push(w)), sys.runs[w := Pushed(sys.runs[w])], sys.owner)
    case RunDispatch(w, result) => sys.(runs := sys.runs[w := Dispatched(sys.runs[w], result)])
    case RunFinish(w) => sys.(runs := sys.runs[w := sys.runs[w].(pc := Finished(Completed(sys.runs[w].hashes)))])
    case OtherAllocate(w, event) => System(Take(sys.log, Allocate(w, event)), sys.runs, sys.owner[sys.log.nextId := w])
    case OtherPush(w) => sys.(log := Take(sys.log, Push(w)))
  }

  // ----- the invariant -----

  /** A run's start ids were drawn by that run, in increasing order. */
  ghost predicate OwnsIds(run: RunState, w: Writer, owner: map<nat, Writer>) {
    && (forall i :: 0 <= i < |run.attempts| ==>
          run.attempts[i].startId in owner && owner[run.attempts[i].startId] == w)
    && (forall i, j :: 0 <= i < j < |run.attempts| ==> run.attempts[i].startId < run.attempts[j].startId)
    && (OpenId(run).Some? ==>
          && OpenId(run).value in owner && owner[OpenId(run).value] == w
          && forall i :: 0 <= i < |run.attempts| ==> run.attempts[i].startId < OpenId(run).value)
  }

  /** Grouping the log by start id gives back every attempt, and the open action so far. */
  ghost predicate Recovered(run: RunState, events: seq<AuditEvent>) {
    && Orderly(run)
    && (forall i :: 0 <= i < |run.attempts| ==> Group(events, run.attempts[i].startId) == Bracket(run.attempts[i]))
    && (OpenId(run).Some? ==> Group(events, OpenId(run).value) == OpenMarks(run))
  }

  /** What the run's push will add to its open action. */
  function NextMark(run: RunState): Mark
    requires Orderly(run) && OpenId(run).Some?
  {
    var a := run.actions[|run.attempts|];
    match run.pc
    case Stepping(_, steps, k) => if k < |steps| then SubstepMark(steps[k].stepLabel, Some(steps[k].txHash)) else DoneMark(a, steps)
    case Failing(_, e) => FailMark(a, e)
    case _ => StartMark(a)
  }

  /** The event in flight is the one the program counter calls for. */
  ghost predicate InStep(run: RunState, w: Writer, log: Log) {
    && Orderly(run)
    && (run.pc.Starting? ==> w in log.inFlight)
    && (w in log.inFlight ==>
          && (run.pc.Starting? || run.pc.Stepping? || run.pc.Failing?)
          && KeyOf(log.inFlight[w]) == OpenId(run)
          && MarkOf(log.inFlight[w]) == Some(NextMark(run)))
  }

  ghost predicate RunOk(run: RunState, w: Writer, log: Log, owner: map<nat, Writer>) {
    OwnsIds(run, w, owner) && Recovered(run, log.events) && InStep(run, w, log)
  }

  ghost predicate LogOk(sys: System) {
    && sys.log.nextId >= 1
    && (forall id :: id in sys.owner <==> 1 <= id < sys.log.nextId)
    && (forall i :: 0 <= i < |sys.log.events| && KeyOf(sys.log.events[i]).Some? ==> KeyOf(sys.log.events[i]).value in sys.owner)
    && (forall w :: w in sys.log.inFlight && w !in sys.runs ==> KeyOf(sys.log.inFlight[w]).None?)
    && Consistent(sys.log)
  }

  ghost predicate Inv(sys: System) {
    LogOk(sys) && forall w :: w in sys.runs ==> RunOk(sys.runs[w], w, sys.log, sys.owner)
  }

  /** Runs that have not begun, on an empty log. */
  ghost predicate Initial(sys: System) {
    && sys.log == EMPTY_LOG && sys.owner == map[]
    && forall w :: w in sys.runs ==> sys.runs[w].pc.Ready? && sys.runs[w].attempts == [] && sys.runs[w].hashes == []
  }

  lemma InitialInv(sys: System)
    requires Initial(sys)
    ensures Inv(sys)
  {
    StartConsistent();
  }

  /** A pushed event leaves a run alone when it does not belong to one of that run's start ids. */
  lemma OthersKept(run: RunState, v: Writer, log: Log, next: Log, owner: map<nat, Writer>,
        e: AuditEvent)
    requires RunOk(run, v, log, owner)
    requires next.events == log.events + [e]
    requires v in next.inFlight <==> v in log.inFlight
    requires v in log.inFlight ==> next.inFlight[v] == log.inFlight[v]
    requires KeyOf(e).Some? ==> KeyOf(e).value in owner && owner[KeyOf(e).value] != v
    ensures RunOk(run, v, next, owner)
  {
    hide Orderly, Bracket, OpenMarks, NextMark, Group, KeyOf, MarkOf;
    forall i | 0 <= i < |run.attempts|
      ensures Group(next.events, run.attempts[i].startId) == Bracket(run.attempts[i])
    {
      GroupPush(log.events, e, run.attempts[i].startId);
    }
    if OpenId(run).Some? {
      GroupPush(log.events, e, OpenId(run).value);
    }
  }

  /** Drawing a new id keeps every run whose own state does not change. */
  lemma OwnersGrow(run: RunState, v: Writer, log: Log, next: Log, owner: map<nat, Writer>,
        id: nat, w: Writer)
    requires RunOk(run, v, log, owner) && id !in owner
    requires next.events == log.events
    requires v in next.inFlight <==> v in log.inFlight
    requires v in log.inFlight ==> next.inFlight[v] == log.inFlight[v]
    ensures RunOk(run, v, next, owner[id := w])
  {
    hide Orderly, Recovered, NextMark, KeyOf, MarkOf;
  }

  lemma AllocateOwn(run: RunState, w: Writer, log: Log, next: Log, owner: map<nat, Writer>)
    requires RunOk(run, w, log, owner) && w !in log.inFlight
    requires NextEvent(run, log.nextId).Some?
    requires next == Take(log, Allocate(w, NextEvent(run, log.nextId).value))
    requires forall id :: id in owner <==> 1 <= id < log.nextId
    requires forall i :: 0 <= i < |log.events| && KeyOf(log.events[i]).Some? ==> KeyOf(log.events[i]).value in owner
    ensures RunOk(Began(run, log.nextId), w, next, owner[log.nextId := w])
  {
    hide Bracket, MarkOf, Group, KeyOf;
    var began, id := Began(run, log.nextId), log.nextId;
    assert Orderly(began);
    AllocatedKey(run, id);
    if run.pc.Ready? {
      GroupUnknown(log.events, id);
    }
  }

  lemma AllocatedKey(run: RunState, id: nat)
    requires Orderly(run) && NextEvent(run, id).Some?
    ensures var e, began := AuditEvent(id, NextEvent(run, id).value), Began(run, id);
            && Orderly(began)
            && (began.pc.Starting? || began.pc.Stepping? || began.pc.Failing?)
            && KeyOf(e) == OpenId(began) && MarkOf(e) == Some(NextMark(began))
  {
    hide AllHashes;
  }

  lemma PushOwn(run: RunState, w: Writer, log: Log, next: Log, owner: map<nat, Writer>)
    requires RunOk(run, w, log, owner) && w in log.inFlight
    requires next == Take(log, Push(w))
    ensures RunOk(Pushed(run), w, next, owner)
  {
    hide KeyOf, MarkOf, Group, Orderly, Bracket, OpenMarks, NextMark, AllHashes, Hashes;
    PushedMarks(run);
    PushRecovers(run, w, log, next);
    PushKeepsIds(run, w, owner);
  }

  lemma PushKeepsIds(run: RunState, w: Writer, owner: map<nat, Writer>)
    requires OwnsIds(run, w, owner) && Orderly(run)
    ensures OwnsIds(Pushed(run), w, owner)
  {
    hide AllHashes, Hashes;
  }

  lemma PushRecovers(run: RunState, w: Writer, log: Log, next: Log)
    requires Recovered(run, log.events) && InStep(run, w, log) && w in log.inFlight
    requires forall i :: 0 <= i < |run.attempts| ==> OpenId(run).Some? ==> run.attempts[i].startId < OpenId(run).value
    requires next == Take(log, Push(w))
    ensures Recovered(Pushed(run), next.events)
  {
    hide KeyOf, MarkOf, Group, Bracket, OpenMarks, NextMark, AllHashes, Hashes;
    var e := log.inFlight[w];
    PushedMarks(run);
    GroupPush(log.events, e, OpenId(run).value);
    forall i | 0 <= i < |run.attempts|
      ensures Group(next.events, run.attempts[i].startId) == Bracket(run.attempts[i])
    {
      GroupPush(log.events, e, run.attempts[i].startId);
    }
  }

  /** Pushing turns the open marks into the open marks, or the bracket, of the next state. */
  lemma PushedMarks(run: RunState)
    requires Orderly(run) && (run.pc.Starting? || run.pc.Stepping? || run.pc.Failing?)
    ensures Orderly(Pushed(run))
    ensures var after, marks := Pushed(run), OpenMarks(run) + [NextMark(run)];
            if OpenId(after).Some? then OpenId(after) == OpenId(run) && OpenMarks(after) == marks
            else |after.attempts| == |run.attempts| + 1
                 && after.attempts[|run.attempts|].startId == OpenId(run).value
                 && Bracket(after.attempts[|run.attempts|]) == marks
  {
    hide AllHashes, Hashes;
    PushedOrderly(run);
    match run.pc
    case Stepping(id, steps, k) =>
      if k < |steps| {
        assert SubstepMarks(steps[..k + 1]) == SubstepMarks(steps[..k]) + [SubstepMark(steps[k].stepLabel, Some(steps[k].txHash))];
      } else {
        assert steps[..k] == steps;
      }
    case _ =>
  }

  lemma DispatchOwn(run: RunState, w: Writer, log: Log, owner: map<nat, Writer>,
        result: Result<seq<TxStep>, string>)
    requires RunOk(run, w, log, owner) && run.pc.Dispatching?
    ensures RunOk(Dispatched(run, result), w, log, owner)
  {
    hide Group, KeyOf, MarkOf, Bracket;
    assert SubstepMarks([]) == [];
  }

  lemma FinishOwn(run: RunState, w: Writer, log: Log, owner: map<nat, Writer>)
    requires RunOk(run, w, log, owner) && run.pc.Ready? && |run.attempts| == |run.actions|
    ensures RunOk(run.(pc := Finished(Completed(run.hashes))), w, log, owner)
  {
    hide Group, KeyOf, MarkOf, Bracket;
  }

  lemma StepKeepsLog(sys: System, step: SystemStep)
    requires Inv(sys) && CanStep(sys, step)
    ensures LogOk(TakeStep(sys, step))
  {
    hide Consistent, Orderly, Recovered, NextMark, Pushed, MarkOf;
    match step
    case RunAllocate(w) => TakeKeepsConsistent(sys.log, Allocate(w, NextEvent(sys.runs[w], sys.log.nextId).value));
    case RunPush(w) =>
      TakeKeepsConsistent(sys.log, Push(w));
      assert RunOk(sys.runs[w], w, sys.log, sys.owner);
    case OtherAllocate(w, event) =>
      TakeKeepsConsistent(sys.log, Allocate(w, event));
      assert KeyOf(AuditEvent(sys.log.nextId, event)).None?;
    case OtherPush(w) => TakeKeepsConsistent(sys.log, Push(w));
    case _ =>
  }

  lemma StepKeepsRun(sys: System, step: SystemStep, v: Writer)
    requires Inv(sys) && CanStep(sys, step) && v in sys.runs
    ensures var next := TakeStep(sys, step);
            v in next.runs && RunOk(next.runs[v], v, next.log, next.owner)
  {
    hide RunOk, Consistent, Orderly;
    var next, run := TakeStep(sys, step), sys.runs[v];
    assert RunOk(run, v, sys.log, sys.owner);
    match step
    case RunAllocate(w) =>
      if v == w {
        AllocateOwn(run, w, sys.log, next.log, sys.owner);
      } else {
        OwnersGrow(run, v, sys.log, next.log, sys.owner, sys.log.nextId, w);
      }
    case RunPush(w) =>
      if v == w {
        PushOwn(run, w, sys.log, next.log, sys.owner);
      } else {
        assert RunOk(sys.runs[w], w, sys.log, sys.owner);
        FlyingKeyOwned(sys.runs[w], w, sys.log, sys.owner);
        OthersKept(run, v, sys.log, next.log, sys.owner, sys.log.inFlight[w]);
      }
    case RunDispatch(w, result) =>
      if v == w {
        DispatchOwn(run, w, sys.log, sys.owner, result);
      }
    case RunFinish(w) =>
      if v == w {
        FinishOwn(run, w, sys.log, sys.owner);
      }
    case OtherAllocate(w, event) => OwnersGrow(run, v, sys.log, next.log, sys.owner, sys.log.nextId, w);
    case OtherPush(w) => OthersKept(run, v, sys.log, next.log, sys.owner, sys.log.inFlight[w]);
  }

  lemma FlyingKeyOwned(run: RunState, w: Writer, log: Log, owner: map<nat, Writer>)
    requires RunOk(run, w, log, owner) && w in log.inFlight
    ensures KeyOf(log.inFlight[w]).Some? && KeyOf(log.inFlight[w]).value in owner && owner[KeyOf(log.inFlight[w]).value] == w
  {
    hide Orderly, Recovered, KeyOf, MarkOf, NextMark;
  }

  lemma StepKeepsInv(sys: System, step: SystemStep)
    requires Inv(sys) && CanStep(sys, step)
    ensures Inv(TakeStep(sys, step))
  {
    hide RunOk, LogOk, Orderly;
    StepKeepsLog(sys, step);
    forall v | v in TakeStep(sys, step).runs
      ensures RunOk(TakeStep(sys, step).runs[v], v, TakeStep(sys, step).log, TakeStep(sys, step).owner)
    {
      StepKeepsRun(sys, step, v);
    }
  }

  // ----- every schedule -----

  ghost predicate Schedule(states: seq<System>, steps: seq<SystemStep>) {
    && |states| == |steps| + 1
    && Initial(states[0])
    && forall i :: 0 <= i < |steps| ==> CanStep(states[i], steps[i]) && states[i + 1] == TakeStep(states[i], steps[i])
  }

  /** What grouping the log shows about one run. */
  ghost predicate Bracketed(run: RunState, log: Log) {
    && Orderly(run)
    && (forall i :: 0 <= i < |run.attempts| ==> Group(log.events, run.attempts[i].startId) == Bracket(run.attempts[i]))
    && (forall i, j :: 0 <= i < j < |run.attempts| ==> run.attempts[i].startId != run.attempts[j].startId)
  }

  /**
   * Bracketed log: in every state of every schedule of concurrent executions and other writers,
   * grouping the log by start id recovers each attempted action as one start, its substeps in
   * order and one end; nothing follows a failed action; the hashes a run returns are those of its
   * completed actions, in order; and the log keeps its ids.
   */
  lemma {:induction false} EveryScheduleBracketed(states: seq<System>, steps: seq<SystemStep>, w: Writer)
    requires Schedule(states, steps)
    ensures var last := states[|steps|];
            && Inv(last)
            && Consistent(last.log)
            && (w in last.runs ==> Bracketed(last.runs[w], last.log))
    decreases |steps|
  {
    hide TakeStep, CanStep, Consistent, Orderly, Initial, Bracket, RunOk;
    if steps == [] {
      InitialInv(states[0]);
    } else {
      var n := |steps| - 1;
      EveryScheduleBracketed(states[..n + 1], steps[..n], w);
      assert states[..n + 1][n] == states[n];
      StepKeepsInv(states[n], steps[n]);
    }
    InvShows(states[|steps|], w);
  }

  lemma InvShows(sys: System, w: Writer)
    requires Inv(sys)
    ensures Consistent(sys.log)
    ensures w in sys.runs ==> Bracketed(sys.runs[w], sys.log)
  {
    hide Consistent, Orderly, Bracket, InStep, Group;
    assert w in sys.runs ==> RunOk(sys.runs[w], w, sys.log, sys.owner);
  }

  function SubstepHashes(marks: seq<Mark>): seq<string> {
    if marks == [] then []
    else (if marks[0].SubstepMark? && marks[0].hash.Some? then [marks[0].hash.value] else []) + SubstepHashes(marks[1..])
  }

  /** The log's substeps, attempt by attempt. */
  function LoggedHashes(attempts: seq<Attempt>, events: seq<AuditEvent>): seq<string> {
    if attempts == [] then []
    else
      var last := |attempts| - 1;
      LoggedHashes(attempts[..last], events) + SubstepHashes(Group(events, attempts[last].startId))
  }

  lemma {:induction false} BracketHashes(steps: seq<TxStep>, end: Mark)
    requires !end.SubstepMark?
    ensures SubstepHashes(SubstepMarks(steps) + [end]) == Hashes(steps)
    decreases |steps|
  {
    var marks := SubstepMarks(steps) + [end];
    if steps == [] {
      assert marks[1..] == [];
    } else {
      assert marks[1..] == SubstepMarks(steps[1..]) + [end];
      BracketHashes(steps[1..], end);
      assert Hashes(steps) == [steps[0].txHash] + Hashes(steps[1..]);
    }
  }

  /** The hashes a run returns can be read off the log: they are its substeps' hashes, in order. */
  lemma {:induction false} ReturnedHashesAreLogged(attempts: seq<Attempt>, events: seq<AuditEvent>)
    requires forall i :: 0 <= i < |attempts| ==> Group(events, attempts[i].startId) == Bracket(attempts[i])
    ensures AllHashes(attempts) == LoggedHashes(attempts, events)
    decreases |attempts|
  {
    hide Group, Bracket, Hashes, SubstepHashes;
    if attempts != [] {
      ReturnedHashesAreLogged(attempts[..|attempts| - 1], events);
      BracketLogged(attempts[|attempts| - 1]);
    }
  }

  lemma BracketLogged(a: Attempt)
    ensures SubstepHashes(Bracket(a)) == Hashes(a.steps)
  {
    var end := match a.error case None => DoneMark(a.action, a.steps) case Some(e) => FailMark(a.action, e);
    BracketHashes(a.steps, end);
    assert Bracket(a)[1..] == SubstepMarks(a.steps) + [end];
  }

  /** In every schedule, what a finished run returns can be read off the log, attempt by attempt. */
  lemma EveryScheduleReturnsLoggedHashes(states: seq<System>, steps: seq<SystemStep>, w: Writer)
    requires Schedule(states, steps) && w in states[|steps|].runs && states[|steps|].runs[w].pc.Finished?
    ensures var last := states[|steps|];
            last.runs[w].pc.outcome.txHashes == LoggedHashes(last.runs[w].attempts, last.log.events)
  {
    hide TakeStep, CanStep, Consistent, Initial, Bracket, Group, AllHashes, LoggedHashes, Inv;
    EveryScheduleBracketed(states, steps, w);
    ReturnedHashesAreLogged(states[|steps|].runs[w].attempts, states[|steps|].log.events);
  }

  // ----- every logged event has one home -----

  /** The run attempted an action, or has one open, that began with this id. */
  ghost predicate Home(run: RunState, startId: nat) {
    OpenId(run) == Some(startId) || Attempted(run, startId)
  }

  ghost predicate Attempted(run: RunState, startId: nat) {
    exists j :: 0 <= j < |run.attempts| && run.attempts[j].startId == startId
  }

  ghost predicate HasHome(runs: map<Writer, RunState>, e: AuditEvent) {
    KeyOf(e).Some? ==> exists w :: w in runs && Home(runs[w], KeyOf(e).value)
  }

  ghost predicate AllHome(sys: System) {
    forall i :: 0 <= i < |sys.log.events| ==> HasHome(sys.runs, sys.log.events[i])
  }

  lemma PushKeepsHomes(run: RunState, startId: nat)
    requires Orderly(run) && Home(run, startId)
    ensures Home(Pushed(run), startId)
  {
    hide AllHashes, Hashes;
    if Attempted(run, startId) {
      var j :| 0 <= j < |run.attempts| && run.attempts[j].startId == startId;
      assert Pushed(run).attempts[j].startId == startId;
    } else if OpenId(Pushed(run)) != Some(startId) {
      assert Pushed(run).attempts[|run.attempts|].startId == startId;
    }
  }

  /** No step takes a run's ids away. */
  lemma StepKeepsHomes(sys: System, step: SystemStep, w: Writer, startId: nat)
    requires Inv(sys) && CanStep(sys, step) && w in sys.runs && Home(sys.runs[w], startId)
    ensures w in TakeStep(sys, step).runs && Home(TakeStep(sys, step).runs[w], startId)
  {
    hide Orderly, Consistent, Inv, Pushed, Take;
    match step
    case RunPush(v) =>
      if v == w {
        PushKeepsHomes(sys.runs[w], startId);
      }
    case _ =>
  }

  lemma StepKeepsAllHome(sys: System, step: SystemStep)
    requires Inv(sys) && AllHome(sys) && CanStep(sys, step)
    ensures AllHome(TakeStep(sys, step))
  {
    hide Orderly, Consistent, Home, Recovered, OwnsIds, KeyOf, MarkOf, Pushed;
    var next := TakeStep(sys, step);
    forall i | 0 <= i < |next.log.events|
      ensures HasHome(next.runs, next.log.events[i])
    {
      var e := next.log.events[i];
      if i < |sys.log.events| {
        assert e == sys.log.events[i] && HasHome(sys.runs, e);
        if KeyOf(e).Some? {
          var w :| w in sys.runs && Home(sys.runs[w], KeyOf(e).value);
          StepKeepsHomes(sys, step, w, KeyOf(e).value);
        }
      } else {
        PushedHasHome(sys, step);
      }
    }
  }

  lemma PushedHasHome(sys: System, step: SystemStep)
    requires Inv(sys) && CanStep(sys, step) && (step.RunPush? || step.OtherPush?)
    ensures HasHome(TakeStep(sys, step).runs, sys.log.inFlight[step.w])
  {
    hide Consistent, Recovered, OwnsIds, KeyOf, MarkOf, Orderly, Pushed;
    var w := step.w;
    if step.RunPush? {
      var run := sys.runs[w];
      assert RunOk(run, w, sys.log, sys.owner);
      PushKeepsHomes(run, OpenId(run).value);
      assert KeyOf(sys.log.inFlight[w]) == OpenId(run);
      assert TakeStep(sys, step).runs[w] == Pushed(run);
      assert Home(TakeStep(sys, step).runs[w], KeyOf(sys.log.inFlight[w]).value);
    }
  }

  /**
   * The grouping misses nothing: in every state of every schedule each executor event of the log
   * belongs to an attempt or to the open action of some run, and to one only.
   */
  lemma {:induction false} EveryScheduleAllHome(states: seq<System>, steps: seq<SystemStep>)
    requires Schedule(states, steps)
    ensures var last := states[|steps|];
            && AllHome(last)
            && forall v, w, id: nat :: v in last.runs && w in last.runs && Home(last.runs[v], id) && Home(last.runs[w], id) ==>
                 v == w && OneHome(last.runs[w], id)
    decreases |steps|
  {
    hide TakeStep, CanStep, Initial, RunOk, LogOk, Home, OneHome;
    var n := |steps|;
    if n == 0 {
      InitialInv(states[0]);
      assert AllHome(states[0]) by {
        NoEventsYet(states[0]);
      }
    } else {
      EveryScheduleAllHome(states[..n], steps[..n - 1]);
      EveryScheduleInv(states[..n], steps[..n - 1]);
      assert states[..n][n - 1] == states[n - 1];
      StepKeepsAllHome(states[n - 1], steps[n - 1]);
    }
    EveryScheduleInv(states, steps);
    forall v, w, id: nat | v in states[n].runs && w in states[n].runs && Home(states[n].runs[v], id) && Home(states[n].runs[w], id)
      ensures v == w && OneHome(states[n].runs[w], id)
    {
      HomesDiffer(states[n], v, w, id);
    }
  }

  lemma NoEventsYet(sys: System)
    requires Initial(sys)
    ensures AllHome(sys)
  {
  }

  lemma EveryScheduleInv(states: seq<System>, steps: seq<SystemStep>)
    requires Schedule(states, steps)
    ensures Inv(states[|steps|])
  {
    hide TakeStep, CanStep, Initial, Inv;
    EveryScheduleBracketed(states, steps, 0);
  }

  /** The id is that of one attempt, or of the open action, and not of both or of two attempts. */
  ghost predicate OneHome(run: RunState, id: nat) {
    && (Attempted(run, id) ==> OpenId(run) != Some(id))
    && forall i, j :: 0 <= i < j < |run.attempts| && run.attempts[i].startId == id ==> run.attempts[j].startId != id
  }

  lemma HomesDiffer(sys: System, v: Writer, w: Writer, id: nat)
    requires Inv(sys) && v in sys.runs && w in sys.runs && Home(sys.runs[v], id) && Home(sys.runs[w], id)
    ensures v == w && OneHome(sys.runs[w], id)
  {
    hide Recovered, InStep, LogOk;
    assert RunOk(sys.runs[v], v, sys.log, sys.owner) && RunOk(sys.runs[w], w, sys.log, sys.owner);
  }
}
