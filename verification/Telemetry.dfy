/** The counters and gauges of internal/application/telemetry.go, and the effects that move them.
    Counters are unbounded here. */
module Telemetry {

  /** The stages a claimed job goes through. */
  datatype Stage =
    | Received | Claimed | Duplicate | Retry | Queued | Released | Invalid | Running | Completed | CompletionFailed

  function StageName(s: Stage): string {
    match s
    case Received => "received" case Claimed => "claimed" case Duplicate => "duplicate" case Retry => "retry"
    case Queued => "queued" case Released => "released" case Invalid => "invalid" case Running => "running"
    case Completed => "completed" case CompletionFailed => "completion_failed"
  }

  const ARROW := "->"

  function TransitionKey(from: Stage, to: Stage): string {
    StageName(from) + ARROW + StageName(to)
  }

  /** One thing the handling of a job does: to the telemetry, to the execution slots, or to Core. */
  datatype Effect =
    // Telemetry
    | QueueJob
    | StartJob
    | DropQueuedJob(phase: string, outcome: string)
    | FinishJob(phase: string, outcome: string)
    | RecordJobTransition(from: Stage, to: Stage)
    | RecordLease(event: string)
    | RecordLeaseWait
    // The shared limiter, with the job whose check is bracketed
    | AcquireSlot(job: string)
    | ReleaseSlot(job: string)
    // Requests to Core. `key` and `header` are what is sent as the Idempotency-Key; `heldKeys` and `heldKey`
    // are what the payload objects hold, which is not serialised. One that is not `built` was never sent.
    | Complete(jobID: string, key: string, attempt: int, heldKeys: seq<string>, built: bool)
    | Release(releasedID: string, releasedAttempt: int, reason: string, releaseBuilt: bool)
    | Post(kind: string, header: string, heldKey: string)

  datatype Gauges = Gauges(queued: int, active: int, transitions: map<string, nat>, executors: map<string, nat>,
                           leases: map<string, nat>, durations: map<string, nat>, leaseWaits: nat)

  function Get(m: map<string, nat>, key: string): nat {
    if key in m then m[key] else 0
  }

  function Bump(m: map<string, nat>, key: string): map<string, nat> {
    m[key := Get(m, key) + 1]
  }

  function Lowered(gauge: int): int {
    if gauge > 0 then gauge - 1 else gauge
  }

  /** What one effect does to the telemetry. */
  function Record(t: Gauges, e: Effect): Gauges {
    match e
    case QueueJob => t.(queued := t.queued + 1)
    case StartJob => t.(queued := Lowered(t.queued), active := t.active + 1)
    case DropQueuedJob(phase, outcome) =>
      t.(queued := Lowered(t.queued), executors := Bump(t.executors, phase + "/" + outcome))
    case FinishJob(phase, outcome) =>
      t.(active := Lowered(t.active), executors := Bump(t.executors, phase + "/" + outcome),
         durations := Bump(t.durations, phase))
    case RecordJobTransition(from, to) => t.(transitions := Bump(t.transitions, TransitionKey(from, to)))
    case RecordLease(event) => t.(leases := Bump(t.leases, event))
    case RecordLeaseWait => t.(leaseWaits := t.leaseWaits + 1)
    case _ => t
  }

  function RecordAll(t: Gauges, effects: seq<Effect>): Gauges {
    if effects == [] then t else Record(RecordAll(t, effects[..|effects| - 1]), effects[|effects| - 1])
  }

  lemma {:induction false} RecordAllConcat(t: Gauges, a: seq<Effect>, b: seq<Effect>)
    ensures RecordAll(t, a + b) == RecordAll(RecordAll(t, a), b)
  {
    if b == [] {
      assert a + b == a;
    } else {
      assert (a + b)[..|a + b| - 1] == a + b[..|b| - 1];
      RecordAllConcat(t, a, b[..|b| - 1]);
    }
  }

  /** The counter object. A job is only ever counted through these methods. */
  class Telemetry {
    var jobsQueued: int
    var jobsActive: int
    var transitions: map<string, nat>
    var executors: map<string, nat>
    var leases: map<string, nat>
    var jobDuration: map<string, nat>
    var leaseWait: nat

    ghost function View(): Gauges
      reads this
    {
      Gauges(jobsQueued, jobsActive, transitions, executors, leases, jobDuration, leaseWait)
    }

    constructor ()
      ensures View() == Gauges(0, 0, map[], map[], map[], map[], 0)
    {
      jobsQueued, jobsActive := 0, 0;
      transitions, executors, leases, jobDuration, leaseWait := map[], map[], map[], map[], 0;
    }

    method QueueJob()
      modifies this
      ensures View() == Record(old(View()), Effect.QueueJob)
    {
      jobsQueued := jobsQueued + 1;
    }

    method StartJob()
      modifies this
      ensures View() == Record(old(View()), Effect.StartJob)
    {
      if jobsQueued > 0 {
        jobsQueued := jobsQueued - 1;
      }
      jobsActive := jobsActive + 1;
    }

    method FinishJobWithDuration(phase: string, outcome: string)
      modifies this
      ensures View() == Record(old(View()), FinishJob(phase, outcome))
    {
      if jobsActive > 0 {
        jobsActive := jobsActive - 1;
      }
      executors := Bump(executors, phase + "/" + outcome);
      jobDuration := Bump(jobDuration, phase);
    }

    method DropQueuedJob(phase: string, outcome: string)
      modifies this
      ensures View() == Record(old(View()), Effect.DropQueuedJob(phase, outcome))
    {
      if jobsQueued > 0 {
        jobsQueued := jobsQueued - 1;
      }
      executors := Bump(executors, phase + "/" + outcome);
    }

    /** An empty `from` counts as "received". */
    method RecordJobTransition(from: string, to: string)
      modifies this
      ensures View() == old(View()).(transitions :=
                Bump(old(transitions), (if from == "" then "received" else from) + ARROW + to))
      ensures forall a, b | StageName(a) == from && StageName(b) == to ::
                View() == Record(old(View()), Effect.RecordJobTransition(a, b))
    {
      var source := from;
      if source == "" {
        source := "received";
      }
      transitions := Bump(transitions, source + "->" + to);
    }

    method RecordLease(event: string)
      modifies this
      ensures View() == Record(old(View()), Effect.RecordLease(event))
    {
      leases := Bump(leases, event);
    }

    method RecordLeaseWait()
      modifies this
      ensures View() == Record(old(View()), Effect.RecordLeaseWait)
    {
      leaseWait := leaseWait + 1;
    }
  }

  // ---- Counting transitions ----

  function Count(t: Gauges, from: Stage, to: Stage): nat {
    Get(t.transitions, TransitionKey(from, to))
  }

  lemma StageNamesDiffer(a: Stage, b: Stage)
    ensures StageName(a) == StageName(b) ==> a == b
    ensures '-' !in StageName(a) && StageName(a) != ""
  {
    assert StageName(a)[0] == StageName(b)[0] && |StageName(a)| == |StageName(b)| && StageName(a) == StageName(b)
      ==> StageName(a)[2] == StageName(b)[2];
  }

  lemma ArrowSeparates(a: string, b: string, c: string, d: string)
    requires '-' !in a && '-' !in c && a + ARROW + b == c + ARROW + d
    ensures a == c && b == d
  {
    var key := a + ARROW + b;
    assert key[|a|] == '-' && key[|c|] == '-';
    assert key[..|a|] == a && key[..|c|] == c;
    assert key[|a| + 2..] == b && key[|c| + 2..] == d;
  }

  /** Joined by an arrow, two pairs of stage names are the same counter only if they are the same pair. */
  lemma TransitionKeysDiffer(a: Stage, b: Stage, c: Stage, d: Stage)
    ensures TransitionKey(a, b) == TransitionKey(c, d) <==> a == c && b == d
  {
    StageNamesDiffer(a, c);
    StageNamesDiffer(c, a);
    StageNamesDiffer(b, d);
    if TransitionKey(a, b) == TransitionKey(c, d) {
      ArrowSeparates(StageName(a), StageName(b), StageName(c), StageName(d));
    }
  }

  lemma CountAfter(t: Gauges, e: Effect, from: Stage, to: Stage)
    ensures Count(Record(t, e), from, to)
         == Count(t, from, to) + if e == RecordJobTransition(from, to) then 1 else 0
  {
    if e.RecordJobTransition? {
      TransitionKeysDiffer(e.from, e.to, from, to);
    }
  }

  // ---- What the counters tell of a run ----

  /** What a counter counts: ends of jobs, as its key says, durations of a phase, lease events, or waits. */
  datatype Event = Ended(key: string) | Timed(phase: string) | Leased(event: string) | Waited

  predicate Is(e: Effect, event: Event) {
    match event
    case Ended(key) =>
      || (e.FinishJob? && e.phase + "/" + e.outcome == key)
      || (e.DropQueuedJob? && e.phase + "/" + e.outcome == key)
    case Timed(phase) => e.FinishJob? && e.phase == phase
    case Leased(event) => e == RecordLease(event)
    case Waited => e == RecordLeaseWait
  }

  /** How often an event occurs among the effects. */
  function Occurrences(effects: seq<Effect>, event: Event): nat {
    if effects == [] then 0
    else Occurrences(effects[..|effects| - 1], event) + if Is(effects[|effects| - 1], event) then 1 else 0
  }

  /** What a counter stands at. */
  function Reading(t: Gauges, event: Event): nat {
    match event
    case Ended(key) => Get(t.executors, key)
    case Timed(phase) => Get(t.durations, phase)
    case Leased(event) => Get(t.leases, event)
    case Waited => t.leaseWaits
  }

  lemma OneTells(t: Gauges, e: Effect, event: Event)
    ensures Reading(Record(t, e), event) == Reading(t, event) + if Is(e, event) then 1 else 0
  {
  }

  /** Each counter goes up by the number of its events, whatever else happens. */
  lemma {:induction false} CountersTell(t: Gauges, effects: seq<Effect>, event: Event)
    ensures Reading(RecordAll(t, effects), event) == Reading(t, event) + Occurrences(effects, event)
  {
    if effects != [] {
      CountersTell(t, effects[..|effects| - 1], event);
      OneTells(RecordAll(t, effects[..|effects| - 1]), effects[|effects| - 1], event);
    }
  }

  /** The gauges: a job queued or started raises one, and a job started, dropped or finished lowers one that is
      not down already. */
  lemma GaugesMove(t: Gauges, e: Effect)
    ensures Record(t, e).queued
         == if e.QueueJob? then t.queued + 1
            else if (e.StartJob? || e.DropQueuedJob?) && 1 <= t.queued then t.queued - 1
            else t.queued
    ensures Record(t, e).active
         == if e.StartJob? then t.active + 1
            else if e.FinishJob? && 1 <= t.active then t.active - 1
            else t.active
  {
  }
}
