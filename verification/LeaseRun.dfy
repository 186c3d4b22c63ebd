/** One run over a claimed batch: runClaimedJobs in internal/adapters/runner/job_leases.go, from the
    intake to the worker pool. */
module LeaseRun {
  import opened Wrappers
  import opened Telemetry
  import opened ClaimedJobs
  import opened WorkerPool
  import opened Limits
  import Text

  // ---- Intake ----

  /** What the intake loop has built: the jobs it keeps, the IDs it has seen, the effects it had. */
  datatype Intake = Intake(unique: seq<ClaimedJob>, seen: set<string>, effects: seq<Effect>)

  predicate Repeated(i: Intake, job: ClaimedJob) {
    JobID(job) != "" && JobID(job) in i.seen
  }

  function QueueEffects(job: ClaimedJob): seq<Effect> {
    if 1 < job.attempt then
      [RecordLease("retry"), RecordJobTransition(Claimed, Retry), RecordJobTransition(Retry, Queued), QueueJob]
    else [RecordJobTransition(Claimed, Queued), QueueJob]
  }

  const DUPLICATE: seq<Effect> := [RecordLease("duplicate"), RecordJobTransition(Claimed, Duplicate)]

  function IntakeEffects(i: Intake, job: ClaimedJob): seq<Effect> {
    [RecordLease("claimed"), RecordJobTransition(Received, Claimed)]
    + if Repeated(i, job) then DUPLICATE else QueueEffects(job)
  }

  function TakeOne(i: Intake, job: ClaimedJob): Intake {
    Intake(if Repeated(i, job) then i.unique else i.unique + [job],
           if JobID(job) == "" then i.seen else i.seen + {JobID(job)},
           i.effects + IntakeEffects(i, job))
  }

  function TakeIn(jobs: seq<ClaimedJob>): Intake {
    if jobs == [] then Intake([], {}, []) else TakeOne(TakeIn(jobs[..|jobs| - 1]), jobs[|jobs| - 1])
  }

  lemma OneEffect(t: Gauges, effects: seq<Effect>, e: Effect)
    ensures RecordAll(t, effects + [e]) == Record(RecordAll(t, effects), e)
  {
    assert (effects + [e])[..|effects|] == effects;
  }

  /** The loop over the claimed jobs. */
  method TakeInJobs(jobs: seq<ClaimedJob>, telemetry: Telemetry) returns (uniqueJobs: seq<ClaimedJob>)
    modifies telemetry
    ensures uniqueJobs == TakeIn(jobs).unique
    ensures telemetry.View() == RecordAll(old(telemetry.View()), TakeIn(jobs).effects)
  {
    uniqueJobs := [];
    var seen: set<string> := {};
    ghost var before := telemetry.View();
    for n := 0 to |jobs|
      invariant Intake(uniqueJobs, seen, TakeIn(jobs[..n]).effects) == TakeIn(jobs[..n])
      invariant telemetry.View() == RecordAll(before, TakeIn(jobs[..n]).effects)
    {
      var job := jobs[n];
      assert jobs[..n + 1][..n] == jobs[..n];
      ghost var i := TakeIn(jobs[..n]);
      var jobID := Text.TrimSpace(job.id);
      var repeated := jobID != "" && jobID in seen;
      CountJob(job, repeated, telemetry);
      RecordAllConcat(before, i.effects, IntakeEffects(i, job));
      if jobID != "" {
        seen := seen + {jobID};
      }
      if repeated {
        continue;
      }
      uniqueJobs := uniqueJobs + [job];
    }
    assert jobs[..|jobs|] == jobs;
  }

  /** What one claimed job adds to the telemetry. */
  method CountJob(job: ClaimedJob, repeated: bool, telemetry: Telemetry)
    modifies telemetry
    ensures var counted := [RecordLease("claimed"), RecordJobTransition(Received, Claimed)]
              + if repeated then DUPLICATE else QueueEffects(job);
            telemetry.View() == RecordAll(old(telemetry.View()), counted)
  {
    ghost var before := telemetry.View();
    telemetry.RecordLease("claimed");
    OneEffect(before, [], RecordLease("claimed"));
    telemetry.RecordJobTransition("received", "claimed");
    ghost var head := [RecordLease("claimed"), RecordJobTransition(Received, Claimed)];
    OneEffect(before, [RecordLease("claimed")], RecordJobTransition(Received, Claimed));
    assert [RecordLease("claimed")] + [RecordJobTransition(Received, Claimed)] == head;
    assert telemetry.View() == RecordAll(before, head);
    if repeated {
      telemetry.RecordLease("duplicate");
      telemetry.RecordJobTransition("claimed", "duplicate");
      TwoEffects(before, head, RecordLease("duplicate"), RecordJobTransition(Claimed, Duplicate));
      return;
    }
    CountQueued(job, telemetry);
    RecordAllConcat(before, head, QueueEffects(job));
  }

  lemma TwoEffects(t: Gauges, effects: seq<Effect>, a: Effect, b: Effect)
    ensures RecordAll(t, effects + [a, b]) == Record(Record(RecordAll(t, effects), a), b)
  {
    var one := effects + [a];
    assert effects + [a, b] == one + [b];
    OneEffect(t, one, b);
    OneEffect(t, effects, a);
  }

  method CountQueued(job: ClaimedJob, telemetry: Telemetry)
    modifies telemetry
    ensures telemetry.View() == RecordAll(old(telemetry.View()), QueueEffects(job))
  {
    ghost var before := telemetry.View();
    var from := Claimed;
    if job.attempt > 1 {
      from := Retry;
      telemetry.RecordLease("retry");
      telemetry.RecordJobTransition("claimed", "retry");
      TwoEffects(before, [], RecordLease("retry"), RecordJobTransition(Claimed, Retry));
    }
    ghost var head := if job.attempt > 1 then [RecordLease("retry"), RecordJobTransition(Claimed, Retry)] else [];
    assert [] + head == head;
    assert telemetry.View() == RecordAll(before, head);
    telemetry.RecordJobTransition(StageName(from), "queued");
    telemetry.QueueJob();
    TwoEffects(before, head, RecordJobTransition(from, Queued), QueueJob);
    assert head + [RecordJobTransition(from, Queued), QueueJob] == QueueEffects(job);
  }

  predicate DistinctIDs(jobs: seq<ClaimedJob>) {
    forall i, j | 0 <= i < j < |jobs| && JobID(jobs[i]) != "" :: JobID(jobs[i]) != JobID(jobs[j])
  }

  /** The IDs of the jobs that have one. */
  function IDs(jobs: seq<ClaimedJob>): set<string> {
    if jobs == [] then {} else IDs(jobs[..|jobs| - 1]) + OwnID(JobID(jobs[|jobs| - 1]))
  }

  function OwnID(id: string): set<string> {
    if id == "" then {} else {id}
  }

  lemma {:induction false} IDsContain(jobs: seq<ClaimedJob>, id: string)
    ensures id in IDs(jobs) <==> id != "" && exists j :: 0 <= j < |jobs| && JobID(jobs[j]) == id
  {
    if jobs != [] {
      var before := jobs[..|jobs| - 1];
      IDsContain(before, id);
      if j :| 0 <= j < |jobs| && JobID(jobs[j]) == id {
        assert j < |before| ==> JobID(before[j]) == id;
      }
      if j :| 0 <= j < |before| && JobID(before[j]) == id {
        assert JobID(jobs[j]) == id;
      }
    }
  }

  lemma OneMoreDistinct(jobs: seq<ClaimedJob>, job: ClaimedJob)
    requires DistinctIDs(jobs) && JobID(job) !in IDs(jobs)
    ensures DistinctIDs(jobs + [job]) && IDs(jobs + [job]) == IDs(jobs) + OwnID(JobID(job))
  {
    assert (jobs + [job])[..|jobs|] == jobs;
    IDsContain(jobs, JobID(job));
  }

  lemma TakeOneKeepsIDs(i: Intake, job: ClaimedJob)
    requires DistinctIDs(i.unique) && i.seen == IDs(i.unique)
    ensures DistinctIDs(TakeOne(i, job).unique)
    ensures TakeOne(i, job).seen == IDs(TakeOne(i, job).unique) == i.seen + OwnID(JobID(job))
  {
    IDsContain(i.unique, JobID(job));
    if !Repeated(i, job) {
      OneMoreDistinct(i.unique, job);
    }
  }

  /** The intake keeps every ID exactly once: no kept ID repeats, and the kept IDs are the claimed ones. */
  lemma {:induction false} IntakeKeepsEachIDOnce(jobs: seq<ClaimedJob>)
    ensures DistinctIDs(TakeIn(jobs).unique) && |TakeIn(jobs).unique| <= |jobs|
    ensures TakeIn(jobs).seen == IDs(TakeIn(jobs).unique) == IDs(jobs)
  {
    if jobs != [] {
      var before, last := jobs[..|jobs| - 1], jobs[|jobs| - 1];
      IntakeKeepsEachIDOnce(before);
      var i := TakeIn(before);
      TakeOneKeepsIDs(i, last);
      assert TakeIn(jobs) == TakeOne(i, last);
    }
  }

  /** An earlier job of the batch has the same ID, and it is not blank. */
  predicate CameBefore(jobs: seq<ClaimedJob>, n: nat)
    requires n < |jobs|
  {
    Text.TrimSpace(jobs[n].id) != ""
    && exists k :: 0 <= k < n && Text.TrimSpace(jobs[k].id) == Text.TrimSpace(jobs[n].id)
  }

  /** The jobs that are the first of their ID, or have none, in the order they came. */
  function FirstOnes(jobs: seq<ClaimedJob>, n: nat): seq<ClaimedJob>
    requires n <= |jobs|
  {
    if n == 0 then [] else FirstOnes(jobs, n - 1) + if CameBefore(jobs, n - 1) then [] else [jobs[n - 1]]
  }

  /** What is counted of them: each one is claimed, and then a duplicate, or a retry, or queued at once. */
  function Counted(jobs: seq<ClaimedJob>, n: nat): seq<Effect>
    requires n <= |jobs|
  {
    if n == 0 then []
    else
      Counted(jobs, n - 1)
      + [RecordLease("claimed"), RecordJobTransition(Received, Claimed)]
      + if CameBefore(jobs, n - 1) then [RecordLease("duplicate"), RecordJobTransition(Claimed, Duplicate)]
        else if 2 <= jobs[n - 1].attempt then
          [RecordLease("retry"), RecordJobTransition(Claimed, Retry), RecordJobTransition(Retry, Queued), QueueJob]
        else [RecordJobTransition(Claimed, Queued), QueueJob]
  }

  lemma RepeatedIff(jobs: seq<ClaimedJob>, n: nat)
    requires n < |jobs|
    ensures Repeated(TakeIn(jobs[..n]), jobs[n]) <==> CameBefore(jobs, n)
  {
    IntakeKeepsEachIDOnce(jobs[..n]);
    IDsContain(jobs[..n], JobID(jobs[n]));
    assert forall k | 0 <= k < n :: jobs[..n][k] == jobs[k];
  }

  /** The intake in terms of the batch alone. */
  lemma {:induction false} IntakeIs(jobs: seq<ClaimedJob>, n: nat)
    requires n <= |jobs|
    ensures TakeIn(jobs[..n]).unique == FirstOnes(jobs, n) && TakeIn(jobs[..n]).effects == Counted(jobs, n)
  {
    if n > 0 {
      IntakeIs(jobs, n - 1);
      RepeatedIff(jobs, n - 1);
      assert jobs[..n][..n - 1] == jobs[..n - 1];
      var i := TakeIn(jobs[..n - 1]);
      Associative(i.effects, [RecordLease("claimed"), RecordJobTransition(Received, Claimed)],
                  if Repeated(i, jobs[n - 1]) then DUPLICATE else QueueEffects(jobs[n - 1]));
    }
  }

  /** What the intake adds to the gauges and to each stage: every claimed job leaves claimed again, every
      retry leaves retry again, and the jobs kept are the ones queued. */
  lemma {:induction false} IntakeFlows(jobs: seq<ClaimedJob>, stage: Stage)
    requires Passing(stage)
    ensures var i := TakeIn(jobs);
            && Sum(Enters(stage), i.effects) - Sum(Leaves(stage), i.effects)
              == (if stage.Queued? then |i.unique| else 0)
            && Sum(QueueGauge, i.effects) == |i.unique| && Sum(ActiveGauge, i.effects) == 0
              && Sum(Slots, i.effects) == 0
            && forall e | e in i.effects :: Known(e)
  {
    if jobs != [] {
      var before, last := jobs[..|jobs| - 1], jobs[|jobs| - 1];
      IntakeFlows(before, stage);
      var i := TakeIn(before);
      OneIntakeFlows(i, last, stage);
      OneIntakeGauges(i, last);
      OneIntakeKnown(i, last);
      SumConcat(Enters(stage), i.effects, IntakeEffects(i, last));
      SumConcat(Leaves(stage), i.effects, IntakeEffects(i, last));
      SumConcat(QueueGauge, i.effects, IntakeEffects(i, last));
      SumConcat(ActiveGauge, i.effects, IntakeEffects(i, last));
      SumConcat(Slots, i.effects, IntakeEffects(i, last));
    }
  }

  lemma SumOfTwo(m: Measure, a: Effect, b: Effect)
    ensures Sum(m, [a, b]) == Weight(m, a) + Weight(m, b)
  {
    assert [a, b][1..] == [b] && [b][1..] == [];
    assert Sum(m, [b]) == Weight(m, b) + Sum(m, []);
  }

  lemma SumOfIntake(i: Intake, job: ClaimedJob, m: Measure)
    ensures Sum(m, IntakeEffects(i, job))
         == Weight(m, RecordLease("claimed")) + Weight(m, RecordJobTransition(Received, Claimed))
            + if Repeated(i, job) then
                Weight(m, RecordLease("duplicate")) + Weight(m, RecordJobTransition(Claimed, Duplicate))
              else if 1 < job.attempt then
                Weight(m, RecordLease("retry")) + Weight(m, RecordJobTransition(Claimed, Retry))
                + Weight(m, RecordJobTransition(Retry, Queued)) + Weight(m, QueueJob)
              else Weight(m, RecordJobTransition(Claimed, Queued)) + Weight(m, QueueJob)
  {
    var head := [RecordLease("claimed"), RecordJobTransition(Received, Claimed)];
    var tail := if Repeated(i, job) then DUPLICATE else QueueEffects(job);
    SumConcat(m, head, tail);
    SumOfTwo(m, head[0], head[1]);
    if Repeated(i, job) {
      SumOfTwo(m, tail[0], tail[1]);
    } else if 1 < job.attempt {
      var first, second := [tail[0], tail[1]], [tail[2], tail[3]];
      assert tail == first + second;
      SumConcat(m, first, second);
      SumOfTwo(m, tail[0], tail[1]);
      SumOfTwo(m, tail[2], tail[3]);
    } else {
      SumOfTwo(m, tail[0], tail[1]);
    }
  }

  lemma OneIntakeFlows(i: Intake, job: ClaimedJob, stage: Stage)
    requires Passing(stage)
    ensures Sum(Enters(stage), IntakeEffects(i, job)) - Sum(Leaves(stage), IntakeEffects(i, job))
         == if stage.Queued? then One(!Repeated(i, job)) else 0
  {
    SumOfIntake(i, job, Enters(stage));
    SumOfIntake(i, job, Leaves(stage));
  }

  lemma OneIntakeGauges(i: Intake, job: ClaimedJob)
    ensures Sum(QueueGauge, IntakeEffects(i, job)) == One(!Repeated(i, job))
    ensures Sum(ActiveGauge, IntakeEffects(i, job)) == 0 && Sum(Slots, IntakeEffects(i, job)) == 0
  {
    SumOfIntake(i, job, QueueGauge);
    SumOfIntake(i, job, ActiveGauge);
    SumOfIntake(i, job, Slots);
  }

  lemma OneIntakeKnown(i: Intake, job: ClaimedJob)
    ensures forall e | e in IntakeEffects(i, job) :: Known(e)
  {
  }

  // ---- Every script is fit for the pool ----

  /** A transition and a gauge in front of quiet effects: how a handling begins or ends. */
  lemma MoveAndFinish(to: Stage, phase: string, outcome: string, quiet: seq<Effect>, job: string)
    requires to.Completed? || to.CompletionFailed? || to.Released?
    requires forall e | e in quiet :: Silent(e)
    ensures Facts([RecordJobTransition(Running, to), FinishJob(phase, outcome)] + quiet, job, 0, -1, 0, 0,
                  Some(Running))
  {
    FinishFacts(phase, outcome, quiet, job);
    var finish := [FinishJob(phase, outcome)] + quiet;
    var all := [RecordJobTransition(Running, to), FinishJob(phase, outcome)] + quiet;
    assert all[1..] == finish;
  }

  lemma ReportedFacts(j: ClaimedJob, phase: string, shape: Shape, outcome: string, w: World, job: string)
    ensures Facts(Reported(j, phase, shape, outcome, w), job, 0, -1, 0, 0, Some(Running))
  {
    var effects := CompleteEffects(j, shape, w);
    var to := if CompletesClaim(j, w) then Completed else CompletionFailed;
    var result := if CompletesClaim(j, w) then outcome else "completion_failed";
    var tail := [RecordJobTransition(Running, to), FinishJob(phase, result)];
    MoveAndFinish(to, phase, result, [], job);
    assert tail + [] == tail;
    forall e | e in effects ensures Silent(e) {
      if e in DualWrites(shape, ClaimKey(j), w) {
        DualWritesArePosts(shape, ClaimKey(j), w);
      }
    }
    SilentPrefix(effects, tail, job, 0, -1, 0, 0, Some(Running));
  }

  lemma GivenUpFacts(j: ClaimedJob, phase: string, reason: string, w: World, quiet: seq<Effect>, job: string)
    requires forall e | e in quiet :: Silent(e)
    ensures Facts(GivenUp(j, phase, reason, w) + quiet, job, 0, -1, 0, 0, Some(Running))
  {
    var tail := [RecordJobTransition(Running, Released), FinishJob(phase, "canceled")];
    MoveAndFinish(Released, phase, "canceled", quiet, job);
    SilentPrefix(ReleaseEffects(j, reason, w), tail + quiet, job, 0, -1, 0, 0, Some(Running));
    assert GivenUp(j, phase, reason, w) + quiet == ReleaseEffects(j, reason, w) + (tail + quiet);
  }

  lemma StartFacts(rest: seq<Effect>, job: string, checks: int)
    requires Facts(rest, job, 0, -1, 0, checks, Some(Running))
    ensures Facts(STARTED + rest, job, -1, 0, 0, checks, Some(Queued))
  {
    var moved := [RecordJobTransition(Queued, Running)] + rest;
    assert moved[1..] == rest;
    assert Facts(moved, job, 0, -1, 0, checks, Some(Queued));
    var started := [StartJob] + moved;
    assert started[1..] == moved;
    assert Facts(started, job, -1, 0, 0, checks, Some(Queued));
    SilentPrefix([RecordLeaseWait], started, job, -1, 0, 0, checks, Some(Queued));
    assert STARTED + rest == [RecordLeaseWait] + started;
  }

  lemma DiscardedFacts(j: ClaimedJob, phase: string, outcome: string, to: Stage, reason: string, w: World, job: string)
    requires to.Released? || to.Invalid?
    ensures Facts(Discarded(j, phase, outcome, to, reason, w), job, -1, 0, 0, 0, Some(Queued))
  {
    var quiet := ReleaseEffects(j, reason, w);
    NoFacts(job);
    SilentPrefix(quiet, [], job, 0, 0, 0, 0, None);
    assert quiet + [] == quiet;
    var moved := [RecordJobTransition(Queued, to)] + quiet;
    assert moved[1..] == quiet;
    assert Facts(moved, job, 0, 0, 0, 0, Some(Queued));
    assert Discarded(j, phase, outcome, to, reason, w)[1..] == moved;
  }

  /** The handling of a claimed job always starts in the queue, takes its job out of the queue gauge
      once, brackets at most one check, of its own ID, and is a chain of transitions to a final stage. */
  lemma JobScriptFacts(j: ClaimedJob, w: World, job: string)
    ensures Script(JobScript(j, w)) && Chain(JobScript(j, w)) && CurrentStage(JobScript(j, w)) == Some(Queued)
    ensures 0 <= Sum(Checks(job), JobScript(j, w)) <= One(JobID(j) == job && job != "")
  {
    var gate := Guard(j, w.now);
    if gate.TurnedAway? {
      DiscardedFacts(j, gate.metricPhase, gate.outcome, gate.to, gate.reason, w, job);
    } else {
      LetThroughIsValid(j, w.now);
      RestOfRunFacts(j, gate.phase, w, job);
    }
  }

  lemma RestOfRunFacts(j: ClaimedJob, phase: string, w: World, job: string)
    ensures Script(RunScript(j, phase, w)) && Chain(RunScript(j, phase, w))
    ensures CurrentStage(RunScript(j, phase, w)) == Some(Queued)
    ensures 0 <= Sum(Checks(job), RunScript(j, phase, w)) <= One(JobID(j) == job)
  {
    if j.monitoring.maintenanceActive {
      ReportedFacts(j, phase, MaintenanceShape(phase), "maintenance", w, job);
      StartFacts(RestOfRun(j, phase, w), job, 0);
    } else if w.slotDenied {
      GivenUpFacts(j, phase, "execution canceled before start", w, Noted(w.leaseLost, "expired"), job);
      StartFacts(RestOfRun(j, phase, w), job, 0);
    } else {
      if w.parentCanceled || w.leaseLost {
        var reason := if w.leaseLost then "lease renewal failed" else "execution canceled";
        GivenUpFacts(j, phase, reason, w, [], job);
        assert GivenUp(j, phase, reason, w) + [] == GivenUp(j, phase, reason, w);
      } else {
        ReportedFacts(j, phase, w.shape, w.shape.Outcome(), w, job);
      }
      SlotFacts(JobID(j), AfterCheck(j, phase, w), job, Some(Running));
      StartFacts(RestOfRun(j, phase, w), job, One(JobID(j) == job));
    }
  }

  // ---- The run ----

  /** The job at a place of the claim answer is not a repetition of an earlier one. */
  predicate Kept(jobs: seq<ClaimedJob>, k: nat)
    requires k < |jobs|
  {
    !Repeated(TakeIn(jobs[..k]), jobs[k])
  }

  function ItemOf(jobs: seq<ClaimedJob>, worlds: nat -> World, k: nat): Item
    requires k < |jobs|
  {
    Item(0, k, JobScript(jobs[k], worlds(k)))
  }

  /** The intake, effect by effect. */
  function IntakeSteps(jobs: seq<ClaimedJob>): seq<Instruction> {
    if jobs == [] then []
    else
      var before, last := jobs[..|jobs| - 1], jobs[|jobs| - 1];
      IntakeSteps(before) + DoAll(|before|, IntakeEffects(TakeIn(before), last))
  }

  /** The sends, one for each job kept. */
  function Sends(jobs: seq<ClaimedJob>, worlds: nat -> World): seq<Instruction> {
    if jobs == [] then [] else Sends(jobs[..|jobs| - 1], worlds) + SendOf(jobs, worlds, |jobs| - 1)
  }

  function SendOf(jobs: seq<ClaimedJob>, worlds: nat -> World, k: nat): seq<Instruction>
    requires k < |jobs|
  {
    if Kept(jobs, k) then [Send(ItemOf(jobs, worlds, k))] else []
  }

  /** The producer of a lease run: the whole intake, then the sends. */
  function LeaseProgram(jobs: seq<ClaimedJob>, worlds: nat -> World): seq<Instruction> {
    IntakeSteps(jobs) + Sends(jobs, worlds)
  }

  /** A lease run from the claim answer on. The workers start after the intake; until the first send they
      could do nothing, so here they are there from the beginning. */
  function LeasePool(jobs: seq<ClaimedJob>, worlds: nat -> World, before: Gauges, cfg: Config): Pool {
    var workers := Min(WorkerLimit(cfg), |TakeIn(jobs).unique|);
    Pool([LeaseProgram(jobs, worlds)], seq(Max(0, workers), _ => Worker(0, Idle)), before, 0, LimiterCapacity(cfg),
         [], [])
  }

  /** Step by step the intake does what the loop does. */
  lemma {:induction false} IntakeStepsAreTheLoop(jobs: seq<ClaimedJob>)
    ensures |IntakeSteps(jobs)| == |TakeIn(jobs).effects|
    ensures forall k | 0 <= k < |IntakeSteps(jobs)| ::
              IntakeSteps(jobs)[k].Do? && IntakeSteps(jobs)[k].effect == TakeIn(jobs).effects[k]
  {
    if jobs != [] {
      IntakeStepsAreTheLoop(jobs[..|jobs| - 1]);
    }
  }

  lemma {:induction false} IntakeStepsSum(jobs: seq<ClaimedJob>, m: Measure)
    ensures ProgramSum(m, IntakeSteps(jobs)) == Sum(m, TakeIn(jobs).effects)
  {
    if jobs != [] {
      var before, last := jobs[..|jobs| - 1], jobs[|jobs| - 1];
      var steps := IntakeEffects(TakeIn(before), last);
      IntakeStepsSum(before, m);
      ProgramSumOfDoAll(m, |before|, steps);
      ProgramSumConcat(m, IntakeSteps(before), DoAll(|before|, steps));
      SumConcat(m, TakeIn(before).effects, steps);
    }
  }

  lemma {:induction false} IntakeIsProduced(jobs: seq<ClaimedJob>)
    ensures Producer(IntakeSteps(jobs))
  {
    if jobs != [] {
      IntakeIsProduced(jobs[..|jobs| - 1]);
    }
  }

  lemma {:induction false} SendsAreScripts(jobs: seq<ClaimedJob>, worlds: nat -> World)
    ensures |Sends(jobs, worlds)| == |TakeIn(jobs).unique|
    ensures AllScripts(Sends(jobs, worlds), |jobs|)
  {
    if jobs != [] {
      var k := |jobs| - 1;
      SendsAreScripts(jobs[..k], worlds);
      SendOfIsScript(jobs, worlds, k);
      MoreScripts(Sends(jobs[..k], worlds), SendOf(jobs, worlds, k), k);
    }
  }

  lemma SendOfIsScript(jobs: seq<ClaimedJob>, worlds: nat -> World, k: nat)
    requires k < |jobs|
    ensures |SendOf(jobs, worlds, k)| == One(Kept(jobs, k)) && AllScripts(SendOf(jobs, worlds, k), k + 1)
  {
    JobScriptFacts(jobs[k], worlds(k), "");
  }

  predicate AllScripts(sends: seq<Instruction>, n: nat) {
    forall k | 0 <= k < |sends| :: SendsScript(sends[k], n)
  }

  lemma MoreScripts(a: seq<Instruction>, b: seq<Instruction>, n: nat)
    requires AllScripts(a, n) && AllScripts(b, n + 1)
    ensures AllScripts(a + b, n + 1)
  {
    forall k | 0 <= k < |a + b| ensures SendsScript((a + b)[k], n + 1) {
      assert k < |a| ==> SendsScript(a[k], n);
    }
  }

  predicate SendsScript(instruction: Instruction, n: nat) {
    instruction.Send? && instruction.item.index < n && Script(instruction.item.script)
  }

  lemma LeaseProgramIsProgram(jobs: seq<ClaimedJob>, worlds: nat -> World)
    ensures Program(LeaseProgram(jobs, worlds)) && ProgramSum(QueueGauge, LeaseProgram(jobs, worlds)) == 0
  {
    IntakeFlows(jobs, Queued);
    IntakeStepsSum(jobs, QueueGauge);
    IntakeIsProduced(jobs);
    SendsAreScripts(jobs, worlds);
    forall k | 0 <= k < |Sends(jobs, worlds)|
      ensures Sends(jobs, worlds)[k].Send? && Script(Sends(jobs, worlds)[k].item.script)
    {
      assert SendsScript(Sends(jobs, worlds)[k], |jobs|);
    }
    ProgramOfSends(Sends(jobs, worlds));
    ProgramBehind(IntakeSteps(jobs), Sends(jobs, worlds));
    ProgramSumConcat(QueueGauge, IntakeSteps(jobs), Sends(jobs, worlds));
  }

  // ---- What is left for each job ----

  lemma {:induction false} RestOfIntake(jobs: seq<ClaimedJob>, k: nat)
    ensures RestOf(IntakeSteps(jobs), k) == if k < |jobs| then IntakeEffects(TakeIn(jobs[..k]), jobs[k]) else []
  {
    if jobs != [] {
      var before, last := jobs[..|jobs| - 1], jobs[|jobs| - 1];
      var steps := IntakeEffects(TakeIn(before), last);
      RestOfIntake(before, k);
      RestOfDoAll(|before|, steps, k);
      RestOfConcat(IntakeSteps(before), DoAll(|before|, steps), k);
      assert k <= |before| ==> before[..k] == jobs[..k];
    }
  }

  lemma {:induction false} RestOfSends(jobs: seq<ClaimedJob>, worlds: nat -> World, k: nat)
    ensures RestOf(Sends(jobs, worlds), k)
         == if k < |jobs| && Kept(jobs, k) then JobScript(jobs[k], worlds(k)) else []
  {
    if jobs != [] {
      var last := |jobs| - 1;
      RestOfSends(jobs[..last], worlds, k);
      assert k <= last ==> jobs[..last][..k] == jobs[..k];
      RestOfConcat(Sends(jobs[..last], worlds), SendOf(jobs, worlds, last), k);
      RestOfSend(ItemOf(jobs, worlds, last), k);
    }
  }

  lemma RestOfSend(item: Item, k: nat)
    ensures RestOf([Send(item)], k) == if item.index == k then item.script else []
  {
    assert [Send(item)][1..] == [];
    assert item.script + [] == item.script;
  }

  lemma {:induction false} SendsAreLast(jobs: seq<ClaimedJob>, worlds: nat -> World)
    ensures SentLast(Sends(jobs, worlds))
  {
    if jobs != [] {
      var last := |jobs| - 1;
      var earlier, send := Sends(jobs[..last], worlds), SendOf(jobs, worlds, last);
      SendsAreLast(jobs[..last], worlds);
      SendsAreScripts(jobs[..last], worlds);
      assert Kept(jobs, last) ==> send[1..] == [];
      forall k | 0 <= k < |earlier| ensures RestOf(send, earlier[k].item.index) == [] {
        assert SendsScript(earlier[k], last);
        RestOfSend(ItemOf(jobs, worlds, last), earlier[k].item.index);
      }
      SentLastConcat(earlier, send);
    }
  }

  /** A claimed job goes through the intake and, if it is kept, through its handling. */
  lemma ClaimIsChain(i: Intake, job: ClaimedJob, script: seq<Effect>)
    requires if Repeated(i, job) then script == [] else Chain(script) && CurrentStage(script) == Some(Queued)
    ensures Chain(IntakeEffects(i, job) + script) && CurrentStage(IntakeEffects(i, job) + script) == Some(Received)
  {
    if Repeated(i, job) {
      var duplicate := [RecordJobTransition(Claimed, Duplicate)];
      assert duplicate[1..] == [];
      ClaimedIsChain([RecordLease("duplicate")] + duplicate);
      assert IntakeEffects(i, job) + script == IntakeEffects(i, job);
      assert IntakeEffects(i, job)
          == [RecordLease("claimed"), RecordJobTransition(Received, Claimed)]
             + ([RecordLease("duplicate")] + duplicate);
    } else {
      QueuedIsChain(job, script);
      ClaimedIsChain(QueueEffects(job) + script);
      assert IntakeEffects(i, job) + script
          == [RecordLease("claimed"), RecordJobTransition(Received, Claimed)] + (QueueEffects(job) + script);
    }
  }

  lemma ClaimedIsChain(rest: seq<Effect>)
    requires Chain(rest) && CurrentStage(rest) == Some(Claimed)
    ensures var all := [RecordLease("claimed"), RecordJobTransition(Received, Claimed)] + rest;
            Chain(all) && CurrentStage(all) == Some(Received)
  {
    var moved := [RecordJobTransition(Received, Claimed)] + rest;
    assert moved[1..] == rest;
    assert ([RecordLease("claimed"), RecordJobTransition(Received, Claimed)] + rest)[1..] == moved;
  }

  lemma QueuedIsChain(job: ClaimedJob, script: seq<Effect>)
    requires Chain(script) && CurrentStage(script) == Some(Queued)
    ensures Chain(QueueEffects(job) + script) && CurrentStage(QueueEffects(job) + script) == Some(Claimed)
  {
    var from := if 1 < job.attempt then Retry else Claimed;
    var counted := [QueueJob] + script;
    assert counted[1..] == script;
    var queued := [RecordJobTransition(from, Queued)] + counted;
    assert queued[1..] == counted;
    if 1 < job.attempt {
      var retried := [RecordJobTransition(Claimed, Retry)] + queued;
      assert retried[1..] == queued;
      assert Chain(retried);
      var all := [RecordLease("retry")] + retried;
      assert all[1..] == retried;
      assert QueueEffects(job) + script == all;
    } else {
      assert QueueEffects(job) + script == queued;
    }
  }

  lemma RestOfClaim(jobs: seq<ClaimedJob>, worlds: nat -> World, k: nat)
    ensures var rest := RestOf(LeaseProgram(jobs, worlds), k);
            if k < |jobs| then Chain(rest) && CurrentStage(rest) == Some(Received) else rest == []
  {
    RestOfIntake(jobs, k);
    RestOfSends(jobs, worlds, k);
    RestOfConcat(IntakeSteps(jobs), Sends(jobs, worlds), k);
    if k < |jobs| {
      var script := if Kept(jobs, k) then JobScript(jobs[k], worlds(k)) else [];
      JobScriptFacts(jobs[k], worlds(k), "");
      ClaimIsChain(TakeIn(jobs[..k]), jobs[k], script);
    }
  }

  lemma LeaseProgramIsChained(jobs: seq<ClaimedJob>, worlds: nat -> World)
    ensures ChainedProgram(LeaseProgram(jobs, worlds))
  {
    forall k: nat ensures Chain(RestOf(LeaseProgram(jobs, worlds), k)) {
      RestOfClaim(jobs, worlds, k);
    }
    SendsAreLast(jobs, worlds);
    IntakeIsProduced(jobs);
    SentLastConcat(IntakeSteps(jobs), Sends(jobs, worlds));
  }

  /** At the start no job is in a stage: all are still to be received. */
  lemma LeasePoolStages(jobs: seq<ClaimedJob>, worlds: nat -> World, before: Gauges, cfg: Config, stage: Stage)
    requires Passing(stage)
    ensures JobsInStage(LeasePool(jobs, worlds, before, cfg), stage) == 0
  {
    var start, program := LeasePool(jobs, worlds, before, cfg), LeaseProgram(jobs, worlds);
    forall k: nat ensures CurrentStage(RestOf(program, k)) != Some(stage) {
      RestOfClaim(jobs, worlds, k);
    }
    NobodyBelow(program, Bound(program), stage);
    OnePendingInStage(program, stage);
    NobodyInStage(start.workers, stage);
  }

  lemma OnePendingInStage(program: seq<Instruction>, stage: Stage)
    ensures PendingInStage([program], stage) == ProgramInStage(program, stage)
  {
    assert [program][..0] == [];
  }

  // ---- The run is ready ----

  lemma OnePhaseIsWellFormed(s: Pool)
    requires |s.programs| == 1 && Program(s.programs[0]) && ChainedProgram(s.programs[0]) && s.log == []
    requires s.workers != [] && forall w | 0 <= w < |s.workers| :: s.workers[w] == Worker(0, Idle)
    ensures WellFormed(s) && Chained(s)
  {
    assert s.workers[0].phase == 0;
    assert Served(s.workers, 0);
  }

  lemma {:induction false} FirstJobIsKept(jobs: seq<ClaimedJob>)
    requires jobs != []
    ensures TakeIn(jobs).unique != []
  {
    if |jobs| > 1 {
      FirstJobIsKept(jobs[..|jobs| - 1]);
    }
  }

  lemma LeasePoolIsWellFormed(jobs: seq<ClaimedJob>, worlds: nat -> World, before: Gauges, cfg: Config)
    requires jobs != []
    ensures WellFormed(LeasePool(jobs, worlds, before, cfg)) && Chained(LeasePool(jobs, worlds, before, cfg))
  {
    FirstJobIsKept(jobs);
    LeaseProgramIsProgram(jobs, worlds);
    LeaseProgramIsChained(jobs, worlds);
    OnePhaseIsWellFormed(LeasePool(jobs, worlds, before, cfg));
  }

  lemma LeasePoolAhead(m: Measure, jobs: seq<ClaimedJob>, worlds: nat -> World, before: Gauges, cfg: Config)
    ensures Ahead(m, LeasePool(jobs, worlds, before, cfg)) == ProgramSum(m, LeaseProgram(jobs, worlds))
  {
    IdleWorkersOweNothing(m, |LeasePool(jobs, worlds, before, cfg).workers|);
    OneProgram(m, LeaseProgram(jobs, worlds));
  }

  /** The pool starts with its gauges equal to the work ahead of it. */
  lemma LeasePoolIsBalanced(jobs: seq<ClaimedJob>, worlds: nat -> World, before: Gauges, cfg: Config)
    requires Settled(before)
    ensures Balanced(LeasePool(jobs, worlds, before, cfg))
  {
    LeaseProgramIsProgram(jobs, worlds);
    ProgramSumsAreOwed(LeaseProgram(jobs, worlds));
    LeasePoolAhead(QueueGauge, jobs, worlds, before, cfg);
    LeasePoolAhead(ActiveGauge, jobs, worlds, before, cfg);
    LeasePoolAhead(Slots, jobs, worlds, before, cfg);
  }

  lemma ItemChecks(jobs: seq<ClaimedJob>, worlds: nat -> World, k: nat, job: string)
    requires k < |jobs|
    ensures 0 <= Sum(Checks(job), ItemOf(jobs, worlds, k).script) <= One(JobID(jobs[k]) == job && job != "")
  {
    JobScriptFacts(jobs[k], worlds(k), job);
  }

  /** At most one check is planned for an ID, and none for an ID that was not claimed. */
  lemma {:induction false} SendsPlanOneCheck(jobs: seq<ClaimedJob>, worlds: nat -> World, job: string)
    ensures 0 <= ProgramSum(Checks(job), Sends(jobs, worlds)) <= One(job in TakeIn(jobs).seen)
  {
    if jobs != [] {
      var last := |jobs| - 1;
      SendsPlanOneCheck(jobs[..last], worlds, job);
      SeenAfter(TakeIn(jobs[..last]), jobs[last], job);
      SendOfChecks(jobs, worlds, last, job);
      ProgramSumConcat(Checks(job), Sends(jobs[..last], worlds), SendOf(jobs, worlds, last));
    }
  }

  lemma SendOfChecks(jobs: seq<ClaimedJob>, worlds: nat -> World, k: nat, job: string)
    requires k < |jobs|
    ensures 0 <= ProgramSum(Checks(job), SendOf(jobs, worlds, k))
           <= One(Kept(jobs, k) && JobID(jobs[k]) == job && job != "")
  {
    ItemChecks(jobs, worlds, k, job);
    assert [Send(ItemOf(jobs, worlds, k))][1..] == [];
  }

  lemma SeenAfter(i: Intake, last: ClaimedJob, job: string)
    ensures One(job in i.seen) <= One(job in TakeOne(i, last).seen)
    ensures !Repeated(i, last) ==>
              One(job in i.seen) + One(JobID(last) == job && job != "") <= One(job in TakeOne(i, last).seen)
  {
  }

  lemma LeasePoolPlansOneCheck(jobs: seq<ClaimedJob>, worlds: nat -> World, before: Gauges, cfg: Config, job: string)
    ensures Ahead(Checks(job), LeasePool(jobs, worlds, before, cfg)) <= 1
    ensures Ahead(InCheck(job), LeasePool(jobs, worlds, before, cfg)) == 0
  {
    LeasePoolAhead(Checks(job), jobs, worlds, before, cfg);
    LeasePoolAhead(InCheck(job), jobs, worlds, before, cfg);
    IntakeIsProduced(jobs);
    ProducerSums(IntakeSteps(jobs), job);
    SendsPlanOneCheck(jobs, worlds, job);
    ProgramSumConcat(Checks(job), IntakeSteps(jobs), Sends(jobs, worlds));
    LeaseProgramIsProgram(jobs, worlds);
    NoCheckInProgram(LeaseProgram(jobs, worlds), job);
  }

  /** A lease run starts with no job in any stage, its gauges equal to the work ahead, and at most one
      check planned for an ID, however often Core repeated it. */
  lemma LeaseRunIsReady(jobs: seq<ClaimedJob>, worlds: nat -> World, before: Gauges, cfg: Config)
    requires Settled(before) && jobs != []
    ensures Ready(LeasePool(jobs, worlds, before, cfg))
  {
    LeasePoolIsWellFormed(jobs, worlds, before, cfg);
    LeasePoolIsBalanced(jobs, worlds, before, cfg);
    forall stage | Passing(stage) ensures JobsInStage(LeasePool(jobs, worlds, before, cfg), stage) == 0 {
      LeasePoolStages(jobs, worlds, before, cfg, stage);
    }
    forall job
      ensures Ahead(Checks(job), LeasePool(jobs, worlds, before, cfg)) <= 1
      ensures Ahead(InCheck(job), LeasePool(jobs, worlds, before, cfg)) == 0
    {
      LeasePoolPlansOneCheck(jobs, worlds, before, cfg, job);
    }
  }

  // ---- What holds in every lease run ----

  /** In every reachable state of every lease run, from the first job counted in, under every
      interleaving: the flow into each stage exceeds the flow out of it by the jobs in it, the gauges are
      what was counted up less what was counted down, and at the end everything is settled again. */
  lemma LeaseRunAccounts(jobs: seq<ClaimedJob>, worlds: nat -> World, before: Gauges, cfg: Config, steps: seq<Step>)
    requires Settled(before) && jobs != []
    ensures var s := After(LeasePool(jobs, worlds, before, cfg), steps);
            s.Some? ==> Accounted(s.value) && (Final(s.value) ==> Settled(s.value.gauges))
  {
    LeaseRunIsReady(jobs, worlds, before, cfg);
    if After(LeasePool(jobs, worlds, before, cfg), steps).Some? {
      RunAccounts(LeasePool(jobs, worlds, before, cfg), steps);
    }
  }

  predicate Planned(jobs: seq<ClaimedJob>, worlds: nat -> World, item: Item) {
    item.index < |jobs| && PlannedAt(jobs, worlds, item.index, item)
  }

  /** The item is the one of the job kept at place k. */
  predicate PlannedAt(jobs: seq<ClaimedJob>, worlds: nat -> World, k: nat, item: Item)
    requires k < |jobs|
  {
    Kept(jobs, k) && item == ItemOf(jobs, worlds, k)
  }

  lemma {:induction false} SendsCount(jobs: seq<ClaimedJob>, worlds: nat -> World, item: Item)
    ensures ProgramCount(Sends(jobs, worlds), item) == One(Planned(jobs, worlds, item))
  {
    if jobs != [] {
      var last := |jobs| - 1;
      SendsCount(jobs[..last], worlds, item);
      SendOfCount(jobs, worlds, last, item);
      ProgramCountConcat(Sends(jobs[..last], worlds), SendOf(jobs, worlds, last), item);
      PlannedBefore(jobs, worlds, item);
    }
  }

  lemma SendOfCount(jobs: seq<ClaimedJob>, worlds: nat -> World, k: nat, item: Item)
    requires k < |jobs|
    ensures ProgramCount(SendOf(jobs, worlds, k), item) == One(PlannedAt(jobs, worlds, k, item))
  {
    assert [Send(ItemOf(jobs, worlds, k))][1..] == [];
  }

  lemma PlannedAtIndex(jobs: seq<ClaimedJob>, worlds: nat -> World, k: nat, item: Item)
    requires k < |jobs| && PlannedAt(jobs, worlds, k, item)
    ensures item.index == k
  {
  }

  lemma PlannedAtBefore(jobs: seq<ClaimedJob>, worlds: nat -> World, k: nat, item: Item)
    requires k < |jobs| - 1
    ensures PlannedAt(jobs[..|jobs| - 1], worlds, k, item) <==> PlannedAt(jobs, worlds, k, item)
  {
    assert jobs[..|jobs| - 1][..k] == jobs[..k];
  }

  lemma PlannedBefore(jobs: seq<ClaimedJob>, worlds: nat -> World, item: Item)
    requires jobs != []
    ensures One(Planned(jobs, worlds, item))
         == One(Planned(jobs[..|jobs| - 1], worlds, item)) + One(PlannedAt(jobs, worlds, |jobs| - 1, item))
  {
    var last := |jobs| - 1;
    if item.index < last {
      PlannedAtBefore(jobs, worlds, item.index, item);
    }
    if PlannedAt(jobs, worlds, last, item) {
      PlannedAtIndex(jobs, worlds, last, item);
    }
  }

  lemma LeasePoolCopies(jobs: seq<ClaimedJob>, worlds: nat -> World, before: Gauges, cfg: Config, item: Item)
    ensures Copies(LeasePool(jobs, worlds, before, cfg), item) == One(Planned(jobs, worlds, item))
  {
    var start := LeasePool(jobs, worlds, before, cfg);
    IntakeIsProduced(jobs);
    NothingSent(IntakeSteps(jobs), item);
    SendsCount(jobs, worlds, item);
    ProgramCountConcat(IntakeSteps(jobs), Sends(jobs, worlds), item);
    NobodyBusy(start.workers, item);
    OnePendingProgram(LeaseProgram(jobs, worlds), item);
  }

  /** When a lease run returns, each job kept was handled by one worker, one time, and nothing else was. */
  lemma LeaseRunHandlesEachJobOnce(jobs: seq<ClaimedJob>, worlds: nat -> World, before: Gauges, cfg: Config,
                                   steps: seq<Step>, item: Item)
    ensures var s := After(LeasePool(jobs, worlds, before, cfg), steps);
            s.Some? && Final(s.value) ==>
              var handled := s.value.handled;
              && (Planned(jobs, worlds, item) <==> exists i :: 0 <= i < |handled| && handled[i].1 == item)
              && forall i, j | 0 <= i < j < |handled| && handled[i].1 == item :: handled[j].1 != item
  {
    var start := LeasePool(jobs, worlds, before, cfg);
    LeasePoolCopies(jobs, worlds, before, cfg, item);
    if After(start, steps).Some? && Final(After(start, steps).value) {
      HandledAsOftenAsPlanned(start, steps, item);
    }
  }

  /** No lease run ever has two checks of one job ID in progress. */
  lemma LeaseRunExcludes(jobs: seq<ClaimedJob>, worlds: nat -> World, before: Gauges, cfg: Config, steps: seq<Step>,
                         job: string, v: nat, w: nat)
    requires Settled(before) && jobs != [] && v != w
    ensures var s := After(LeasePool(jobs, worlds, before, cfg), steps);
            s.Some? ==> !(CheckInProgress(s.value, v, job) && CheckInProgress(s.value, w, job))
  {
    LeaseRunIsReady(jobs, worlds, before, cfg);
    if After(LeasePool(jobs, worlds, before, cfg), steps).Some? {
      RunExcludes(LeasePool(jobs, worlds, before, cfg), steps, job, v, w);
    }
  }

  /** Under the configured clamps no lease run ever waits for a slot, and it always ends. The client
      refuses an answer with more jobs than the batch it asked for. */
  lemma LeaseRunNeverWaits(jobs: seq<ClaimedJob>, worlds: nat -> World, before: Gauges, steps: seq<Step>, w: nat,
                           workers: int, concurrency: Option<int>, batch: Option<int>)
    requires Settled(before) && jobs != []
    requires |jobs| <= BatchSize(FromEnv(workers, concurrency, batch))
    requires After(LeasePool(jobs, worlds, before, FromEnv(workers, concurrency, batch)), steps).Some?
    ensures var start := LeasePool(jobs, worlds, before, FromEnv(workers, concurrency, batch));
            var s := After(start, steps).value;
            && |start.workers| == |TakeIn(jobs).unique|
            && (BusyWorker(s, w) && s.workers[w].state.rest != [] ==> Enabled(s, Doing(w)))
            && |steps| <= Work(start)
            && (!Final(s) ==> exists step :: After(start, steps + [step]).Some?)
  {
    var cfg := FromEnv(workers, concurrency, batch);
    ConfiguredLimits(workers, concurrency, batch);
    IntakeKeepsEachIDOnce(jobs);
    LeaseRunIsReady(jobs, worlds, before, cfg);
    var start := LeasePool(jobs, worlds, before, cfg);
    EveryRunEnds(start, steps);
    if BusyWorker(After(start, steps).value, w) && After(start, steps).value.workers[w].state.rest != [] {
      NobodyWaitsForASlot(start, steps, w);
    }
  }
}
