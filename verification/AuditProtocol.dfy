/**
 * Concurrent appends. `append` draws an id from an atomic counter and pushes the event under a
 * lock later, so another writer can come between the two steps. A log's state is the counter, the
 * pushed events, and the event each writer has an id for but has not pushed.
 */
module AuditProtocol {
  import opened AuditStore

  type Writer = nat

  datatype Log = Log(nextId: nat, events: seq<AuditEvent>, inFlight: map<Writer, AuditEvent>)

  const EMPTY_LOG := Log(1, [], map[])

  datatype Step = Allocate(writer: Writer, event: NewAuditEvent) | Push(writer: Writer)

  /** A writer has at most one append under way. */
  predicate Enabled(log: Log, step: Step) {
    match step
    case Allocate(w, _) => w !in log.inFlight
    case Push(w) => w in log.inFlight
  }

  function Take(log: Log, step: Step): Log
    requires Enabled(log, step)
  {
    match step
    case Allocate(w, event) => Log(log.nextId + 1, log.events, log.inFlight[w := AuditEvent(log.nextId, event)])
    case Push(w) => Log(log.nextId, log.events + [log.inFlight[w]], log.inFlight - {w})
  }

  predicate Runs(log: Log, steps: seq<Step>)
    decreases |steps|
  {
    steps == [] || (Enabled(log, steps[0]) && Runs(Take(log, steps[0]), steps[1..]))
  }

  function After(log: Log, steps: seq<Step>): Log
    requires Runs(log, steps)
    decreases |steps|
  {
    if steps == [] then log else After(Take(log, steps[0]), steps[1..])
  }

  ghost predicate HasId(events: seq<AuditEvent>, id: nat) {
    exists i :: 0 <= i < |events| && events[i].id == id
  }

  ghost predicate Flying(log: Log, id: nat) {
    exists w :: w in log.inFlight && log.inFlight[w].id == id
  }

  /** No id is used twice, be it stored or in flight. */
  ghost predicate NoneTwice(log: Log) {
    && UniqueIds(log.events)
    && (forall v, w :: v in log.inFlight && w in log.inFlight && v != w ==> log.inFlight[v].id != log.inFlight[w].id)
    && (forall w, i :: w in log.inFlight && 0 <= i < |log.events| ==> log.inFlight[w].id != log.events[i].id)
  }

  ghost predicate OnlyDrawn(log: Log) {
    && log.nextId >= 1
    && (forall i :: 0 <= i < |log.events| ==> 1 <= log.events[i].id < log.nextId)
    && (forall w :: w in log.inFlight ==> 1 <= log.inFlight[w].id < log.nextId)
  }

  /** Every id drawn is stored or in flight. */
  ghost predicate NoneLost(log: Log) {
    forall id: nat :: 1 <= id < log.nextId ==> HasId(log.events, id) || Flying(log, id)
  }

  ghost predicate Consistent(log: Log) {
    NoneTwice(log) && OnlyDrawn(log) && NoneLost(log)
  }

  lemma AllocateKeepsAll(log: Log, w: Writer, event: NewAuditEvent)
    requires OnlyDrawn(log) && NoneLost(log) && w !in log.inFlight
    ensures NoneLost(Take(log, Allocate(w, event)))
  {
    var next := Take(log, Allocate(w, event));
    forall id: nat | 1 <= id < next.nextId
      ensures HasId(next.events, id) || Flying(next, id)
    {
      if id == log.nextId {
        assert w in next.inFlight && next.inFlight[w].id == id;
      } else if Flying(log, id) {
        var v :| v in log.inFlight && log.inFlight[v].id == id;
        assert v in next.inFlight && next.inFlight[v].id == id;
      }
    }
  }

  lemma PushKeepsAll(log: Log, w: Writer)
    requires NoneLost(log) && w in log.inFlight
    ensures NoneLost(Take(log, Push(w)))
  {
    var next := Take(log, Push(w));
    forall id: nat | 1 <= id < next.nextId
      ensures HasId(next.events, id) || Flying(next, id)
    {
      if HasId(log.events, id) {
        var i :| 0 <= i < |log.events| && log.events[i].id == id;
        assert next.events[i].id == id;
      } else {
        var v :| v in log.inFlight && log.inFlight[v].id == id;
        if v == w {
          assert next.events[|log.events|].id == id;
        } else {
          assert v in next.inFlight && next.inFlight[v].id == id;
        }
      }
    }
  }

  lemma PushKeepsDrawn(log: Log, w: Writer)
    requires NoneTwice(log) && OnlyDrawn(log) && w in log.inFlight
    ensures NoneTwice(Take(log, Push(w))) && OnlyDrawn(Take(log, Push(w)))
  {
  }

  lemma TakeKeepsConsistent(log: Log, step: Step)
    requires Consistent(log) && Enabled(log, step)
    ensures Consistent(Take(log, step))
  {
    hide NoneLost;
    match step
    case Allocate(w, event) => AllocateKeepsAll(log, w, event);
    case Push(w) =>
      PushKeepsAll(log, w);
      PushKeepsDrawn(log, w);
  }

  /** Under any interleaving of any writers' two-step appends the log stays consistent. */
  lemma {:induction false} EveryRunConsistent(log: Log, steps: seq<Step>)
    requires Consistent(log) && Runs(log, steps)
    ensures Consistent(After(log, steps))
    decreases |steps|
  {
    hide Consistent, Take, Enabled;
    if steps != [] {
      TakeKeepsConsistent(log, steps[0]);
      EveryRunConsistent(Take(log, steps[0]), steps[1..]);
    }
  }

  lemma StartConsistent()
    ensures Consistent(EMPTY_LOG)
  {
  }

  /** When no append is under way, the stored ids are exactly 1 up to the last id drawn, each once. */
  lemma QuietLog(steps: seq<Step>)
    requires Runs(EMPTY_LOG, steps) && After(EMPTY_LOG, steps).inFlight == map[]
    ensures var log := After(EMPTY_LOG, steps);
            && UniqueIds(log.events)
            && (forall id: nat :: HasId(log.events, id) <==> 1 <= id < log.nextId)
            && |log.events| == log.nextId - 1
  {
    hide After, Runs;
    StartConsistent();
    EveryRunConsistent(EMPTY_LOG, steps);
    var log := After(EMPTY_LOG, steps);
    forall id: nat
      ensures HasId(log.events, id) <==> 1 <= id < log.nextId
    {
      if 1 <= id < log.nextId {
        assert !Flying(log, id);
      }
    }
    CountIds(log.events, log.nextId);
  }

  /** Distinct ids that fill 1..n-1 are n-1 in number. */
  lemma {:induction false} CountIds(events: seq<AuditEvent>, n: nat)
    requires n >= 1 && UniqueIds(events)
    requires forall i :: 0 <= i < |events| ==> 1 <= events[i].id < n
    requires forall id: nat :: 1 <= id < n ==> HasId(events, id)
    ensures |events| == n - 1
  {
    if n > 1 {
      assert HasId(events, n - 1);
      var i :| 0 <= i < |events| && events[i].id == n - 1;
      var rest := events[..i] + events[i + 1..];
      forall id: nat | 1 <= id < n - 1
        ensures HasId(rest, id)
      {
        assert HasId(events, id);
        var k :| 0 <= k < |events| && events[k].id == id;
        assert rest[if k < i then k else k - 1] == events[k];
      }
      CountIds(rest, n - 1);
    }
  }
}
