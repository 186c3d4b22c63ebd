/** What Core has recorded of a lease run, when it takes everything that arrives under one idempotency key
    for one result (JOB_LEASE_PROTOCOL.md, "Core contract"). */
module LeaseRecords {
  import opened Wrappers
  import opened Telemetry
  import opened ClaimedJobs
  import opened WorkerPool
  import opened Limits
  import opened LeaseRun

  // ---- Where an effect in the history comes from ----

  lemma {:induction false} CountedIn(effects: seq<Effect>, e: Effect)
    ensures 0 <= Sum(Is(e), effects)
    ensures 0 < Sum(Is(e), effects) <==> e in effects
  {
    if effects != [] {
      CountedIn(effects[1..], e);
      assert effects == [effects[0]] + effects[1..];
    }
  }

  lemma {:induction false} CountedInProgram(program: seq<Instruction>, e: Effect) returns (job: nat)
    ensures 0 <= ProgramSum(Is(e), program)
    ensures 0 < ProgramSum(Is(e), program) ==> e in RestOf(program, job)
  {
    job := 0;
    if program != [] {
      var mine := if program[0].Do? then program[0].job else program[0].item.index;
      var later := CountedInProgram(program[1..], e);
      if program[0].Send? {
        CountedIn(program[0].item.script, e);
      }
      job := if 0 < ProgramSum(Is(e), program[1..]) then later else mine;
    }
  }

  lemma ProgramsAreCounted(programs: seq<seq<Instruction>>, e: Effect)
    ensures 0 <= ProgramsSum(Is(e), programs)
  {
    if programs != [] {
      ProgramsAreCounted(programs[..|programs| - 1], e);
      var _ := CountedInProgram(programs[|programs| - 1], e);
    }
  }

  lemma WorkersAreCounted(ws: seq<Worker>, e: Effect)
    ensures 0 <= WorkersSum(Is(e), ws)
  {
    if ws != [] {
      WorkersAreCounted(ws[..|ws| - 1], e);
      if ws[|ws| - 1].state.Busy? {
        CountedIn(ws[|ws| - 1].state.rest, e);
      }
    }
  }

  /** Whatever was done in a run had been planned for some job. */
  lemma DoneWasPlanned(start: Pool, steps: seq<Step>, e: Effect)
    requires start.log == [] && After(start, steps).Some? && e in After(start, steps).value.log
    ensures 0 < Ahead(Is(e), start)
  {
    var s := After(start, steps).value;
    LedgerHolds(Is(e), start, steps);
    CountedIn(s.log, e);
    WorkersAreCounted(s.workers, e);
    ProgramsAreCounted(s.programs, e);
  }

  /** The claim at place k was kept, and its handling does this. */
  predicate Does(jobs: seq<ClaimedJob>, worlds: nat -> World, k: nat, e: Effect) {
    k < |jobs| && Kept(jobs, k) && e in JobScript(jobs[k], worlds(k))
  }

  lemma IntakeSendsNothing(i: Intake, job: ClaimedJob, e: Effect)
    requires ResultKey(e).Some?
    ensures e !in IntakeEffects(i, job)
  {
  }

  /** The steps can be taken from the start, and do this. */
  predicate Did(start: Pool, steps: seq<Step>, e: Effect) {
    After(start, steps).Some? && e in After(start, steps).value.log
  }

  lemma ResultComesFromClaim(jobs: seq<ClaimedJob>, worlds: nat -> World, before: Gauges, cfg: Config,
                             steps: seq<Step>, e: Effect) returns (k: nat)
    requires ResultKey(e).Some?
    ensures Did(LeasePool(jobs, worlds, before, cfg), steps, e) ==> Does(jobs, worlds, k, e)
  {
    if Did(LeasePool(jobs, worlds, before, cfg), steps, e) {
      DoneWasPlanned(LeasePool(jobs, worlds, before, cfg), steps, e);
    }
    LeasePoolAhead(Is(e), jobs, worlds, before, cfg);
    k := CountedInProgram(LeaseProgram(jobs, worlds), e);
    RestOfIntake(jobs, k);
    RestOfSends(jobs, worlds, k);
    RestOfConcat(IntakeSteps(jobs), Sends(jobs, worlds), k);
    if k < |jobs| {
      IntakeSendsNothing(TakeIn(jobs[..k]), jobs[k], e);
    }
  }

  // ---- What arrives ----

  /** What arrives at Core is some of what was sent: requests may be lost, arrive more than once, or out of
      order. */
  predicate Arrived(arrived: seq<Effect>, start: Pool, steps: seq<Step>) {
    After(start, steps).Some? && forall e | e in arrived :: e in After(start, steps).value.log
  }

  /** A key has a record exactly if a result sent under it arrived. */
  lemma RecordedIffArrived(arrived: seq<Effect>, key: string)
    ensures key in Records(arrived) <==> exists e :: e in arrived && ResultKey(e) == Some(key)
  {
    RecordsAreSent(arrived);
  }

  /** The record under this key is a result of the claim at place k, and the claim is one that reports. */
  predicate RecordsClaim(records: map<string, Effect>, jobs: seq<ClaimedJob>, worlds: nat -> World, key: string,
                         k: nat) {
    && key in records && Reporting(jobs, worlds, k)
    && key == ClaimKey(jobs[k]) && CarriesClaim(jobs[k], records[key])
  }

  /** The claim at place k was kept, and reports a result. */
  predicate Reporting(jobs: seq<ClaimedJob>, worlds: nat -> World, k: nat) {
    k < |jobs| && Kept(jobs, k) && Reports(jobs[k], worlds(k))
  }

  /** In every reachable state of a lease run of any number of claims, whatever has arrived of it: every
      record of Core is a result of a claim that reports one, under that claim's key. */
  lemma EveryRecordIsOfAClaim(jobs: seq<ClaimedJob>, worlds: nat -> World, before: Gauges, cfg: Config,
                              steps: seq<Step>, arrived: seq<Effect>, key: string) returns (k: nat)
    requires key in Records(arrived)
    ensures Arrived(arrived, LeasePool(jobs, worlds, before, cfg), steps) ==>
              RecordsClaim(Records(arrived), jobs, worlds, key, k)
  {
    RecordsAreSent(arrived);
    var e := Records(arrived)[key];
    k := ResultComesFromClaim(jobs, worlds, before, cfg, steps, e);
    if Does(jobs, worlds, k, e) {
      EverythingCarriesTheClaim(jobs[k], worlds(k), e);
    }
  }

  /** The claims that report, and their keys. */
  function ReportingClaims(jobs: seq<ClaimedJob>, worlds: nat -> World): set<nat> {
    set k: nat | k < |jobs| && Reporting(jobs, worlds, k)
  }

  function ReportingKeys(jobs: seq<ClaimedJob>, worlds: nat -> World): set<string> {
    set k | k in ReportingClaims(jobs, worlds) :: ClaimKey(jobs[k])
  }

  lemma {:induction false} NoMoreKeys(jobs: seq<ClaimedJob>, claims: set<nat>, keys: set<string>)
    requires forall k | k in claims :: k < |jobs|
    requires forall key | key in keys :: exists k :: k in claims && ClaimKey(jobs[k]) == key
    ensures |keys| <= |claims|
    decreases |claims|
  {
    if k :| k in claims {
      var rest := keys - {ClaimKey(jobs[k])};
      forall key | key in rest ensures exists j :: j in claims - {k} && ClaimKey(jobs[j]) == key {
        var j :| j in claims && ClaimKey(jobs[j]) == key;
        assert j in claims - {k};
      }
      NoMoreKeys(jobs, claims - {k}, rest);
      assert keys <= rest + {ClaimKey(jobs[k])};
    } else {
      assert keys == {};
    }
  }

  /** However often and in whatever order the requests of all the claims arrive, Core has at most one record
      for each claim that reports, and no other. */
  lemma OneRecordForEachClaim(jobs: seq<ClaimedJob>, worlds: nat -> World, before: Gauges, cfg: Config,
                              steps: seq<Step>, arrived: seq<Effect>)
    ensures Arrived(arrived, LeasePool(jobs, worlds, before, cfg), steps) ==>
              && Records(arrived).Keys <= ReportingKeys(jobs, worlds)
              && |Records(arrived)| <= |ReportingClaims(jobs, worlds)|
  {
    if Arrived(arrived, LeasePool(jobs, worlds, before, cfg), steps) {
      var keys := Records(arrived).Keys;
      forall key | key in keys ensures exists k :: k in ReportingClaims(jobs, worlds) && ClaimKey(jobs[k]) == key {
        var k := EveryRecordIsOfAClaim(jobs, worlds, before, cfg, steps, arrived, key);
        assert k in ReportingClaims(jobs, worlds);
      }
      NoMoreKeys(jobs, ReportingClaims(jobs, worlds), keys);
      assert |keys| == |Records(arrived)|;
    }
  }

  // ---- Which claims get their record ----

  /** Core gives each claim a key of its own. */
  predicate OwnKeys(jobs: seq<ClaimedJob>) {
    forall j, k | 0 <= j < k < |jobs| && Kept(jobs, j) && Kept(jobs, k) :: ClaimKey(jobs[j]) != ClaimKey(jobs[k])
  }

  /** What arrived includes something the claim at place k sent as its result. */
  predicate ArrivedOf(jobs: seq<ClaimedJob>, worlds: nat -> World, k: nat, arrived: seq<Effect>) {
    exists e :: e in arrived && Does(jobs, worlds, k, e) && ResultKey(e).Some?
  }

  /** A claim has its record exactly if something of its result arrived: a result of its own, under its key. */
  lemma ClaimIsRecordedIff(jobs: seq<ClaimedJob>, worlds: nat -> World, before: Gauges, cfg: Config,
                           steps: seq<Step>, arrived: seq<Effect>, k: nat)
    requires OwnKeys(jobs) && k < |jobs| && Kept(jobs, k)
    ensures Arrived(arrived, LeasePool(jobs, worlds, before, cfg), steps) ==>
              && (ClaimKey(jobs[k]) in Records(arrived) <==> ArrivedOf(jobs, worlds, k, arrived))
              && (ClaimKey(jobs[k]) in Records(arrived) ==>
                    RecordsClaim(Records(arrived), jobs, worlds, ClaimKey(jobs[k]), k))
  {
    RecordsAreSent(arrived);
    if e :| e in arrived && Does(jobs, worlds, k, e) && ResultKey(e).Some? {
      EverythingCarriesTheClaim(jobs[k], worlds(k), e);
    }
    if Arrived(arrived, LeasePool(jobs, worlds, before, cfg), steps) && ClaimKey(jobs[k]) in Records(arrived) {
      var e := Records(arrived)[ClaimKey(jobs[k])];
      var j := ResultComesFromClaim(jobs, worlds, before, cfg, steps, e);
      EverythingCarriesTheClaim(jobs[j], worlds(j), e);
      assert j == k;
    }
  }

  /** A claim whose completion could not be built, and which writes nothing to the old endpoints, sends no
      result at all; so it has no record, whatever happens. */
  lemma UnbuiltLeavesNothing(jobs: seq<ClaimedJob>, worlds: nat -> World, k: nat, arrived: seq<Effect>)
    requires k < |jobs| && worlds(k).completion.Unbuilt? && !worlds(k).dualWrite
    ensures !ArrivedOf(jobs, worlds, k, arrived)
  {
    forall e | Does(jobs, worlds, k, e) ensures ResultKey(e).None? {
      UnbuiltSendsNothing(jobs[k], worlds(k), e);
    }
  }

  lemma UnbuiltSendsNothing(job: ClaimedJob, w: World, e: Effect)
    requires w.completion.Unbuilt? && !w.dualWrite
    ensures e in JobScript(job, w) ==> ResultKey(e).None?
  {
    var gate := Guard(job, w.now);
    if gate.LetThrough? && e in RestOfRun(job, gate.phase, w) {
      UnbuiltRest(job, gate.phase, w, e);
    }
  }

  lemma UnbuiltRest(job: ClaimedJob, phase: string, w: World, e: Effect)
    requires w.completion.Unbuilt? && !w.dualWrite && e in RestOfRun(job, phase, w)
    ensures ResultKey(e).None?
  {
    if job.monitoring.maintenanceActive {
      UnbuiltReport(job, phase, MaintenanceShape(phase), "maintenance", w, e);
    } else if !w.slotDenied && e !in Slot(JobID(job)) && !w.parentCanceled && !w.leaseLost {
      UnbuiltReport(job, phase, w.shape, w.shape.Outcome(), w, e);
    }
  }

  lemma UnbuiltReport(job: ClaimedJob, phase: string, shape: Shape, outcome: string, w: World, e: Effect)
    requires w.completion.Unbuilt? && !w.dualWrite && e in Reported(job, phase, shape, outcome, w)
    ensures ResultKey(e).None?
  {
  }

  // ---- Every report is sent ----

  lemma EverythingIsDone(start: Pool, steps: seq<Step>, e: Effect)
    requires start.log == [] && After(start, steps).Some? && Final(After(start, steps).value) && 0 < Ahead(Is(e), start)
    ensures e in After(start, steps).value.log
  {
    EveryEffectDoneOnce(start, steps, e);
    CountedIn(After(start, steps).value.log, e);
  }

  lemma {:induction false} PlannedIsCounted(program: seq<Instruction>, job: nat, e: Effect)
    requires e in RestOf(program, job)
    ensures 0 < ProgramSum(Is(e), program)
  {
    var _ := CountedInProgram(program[1..], e);
    if program[0].Send? {
      CountedIn(program[0].item.script, e);
    }
    if e in RestOf(program[1..], job) {
      PlannedIsCounted(program[1..], job, e);
    }
  }

  lemma PlannedInRun(jobs: seq<ClaimedJob>, worlds: nat -> World, k: nat, e: Effect)
    ensures Does(jobs, worlds, k, e) ==> 0 < ProgramSum(Is(e), LeaseProgram(jobs, worlds))
  {
    RestOfSends(jobs, worlds, k);
    RestOfConcat(IntakeSteps(jobs), Sends(jobs, worlds), k);
    if e in RestOf(LeaseProgram(jobs, worlds), k) {
      PlannedIsCounted(LeaseProgram(jobs, worlds), k, e);
    }
  }

  /** The completion of a claim that reports. */
  function CompletionOf(jobs: seq<ClaimedJob>, worlds: nat -> World, k: nat): Effect
    requires k < |jobs|
  {
    Completion(jobs[k], ReportedShape(jobs[k], worlds(k)), ClaimKey(jobs[k]), worlds(k))
  }

  /** When the run returns, the completion of every claim that reports was attempted. */
  lemma ReportedIsSent(jobs: seq<ClaimedJob>, worlds: nat -> World, before: Gauges, cfg: Config,
                       steps: seq<Step>, k: nat)
    requires k < |jobs|
    ensures var s := After(LeasePool(jobs, worlds, before, cfg), steps);
            s.Some? && Final(s.value) && Reporting(jobs, worlds, k) ==> CompletionOf(jobs, worlds, k) in s.value.log
  {
    var start, e := LeasePool(jobs, worlds, before, cfg), CompletionOf(jobs, worlds, k);
    ReportsCompletes(jobs[k], worlds(k));
    PlannedInRun(jobs, worlds, k, e);
    LeasePoolAhead(Is(e), jobs, worlds, before, cfg);
    if After(start, steps).Some? && Final(After(start, steps).value) && 0 < Ahead(Is(e), start) {
      EverythingIsDone(start, steps, e);
    }
  }

  /** If it could be built and has arrived, the claim's key has a record. */
  lemma ArrivedIsRecorded(jobs: seq<ClaimedJob>, worlds: nat -> World, arrived: seq<Effect>, k: nat)
    requires k < |jobs|
    ensures worlds(k).completion.Sent? && CompletionOf(jobs, worlds, k) in arrived ==>
              ClaimKey(jobs[k]) in Records(arrived)
  {
    RecordsAreSent(arrived);
  }
}
