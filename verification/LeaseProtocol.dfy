/** Workers, Core and one clock as a step system: internal/adapters/runner/job_leases.go against the
    written contract in JOB_LEASE_PROTOCOL.md.

    A run is one call of runClaimedJob that got past its expiry check. Its check and its renewal loop
    step independently and share `expiresAt`, `leaseLost` and the job context. Core may extend, reissue,
    answer or stay silent whenever its contract lets it. Only the passing of time is restricted: a step
    of a worker that has fallen due is taken at most `lateness` after. */
module LeaseProtocol {
  import opened Wrappers
  import opened LeaseTiming

  type JobId = nat

  /** `lateness` bounds how late a due step of a worker is; `grace` is how long Core waits after an
      expiry before it reissues; `workersFirst` makes steps due at the same instant go first. */
  datatype Timing = Timing(start: int, lateness: nat, grace: nat, workersFirst: bool)

  /** Core's record of one job: the attempt last issued, and whether it is still out on lease. */
  datatype Lease = Lease(attempt: nat, expiry: int, held: bool)

  /** One job of a claim answer that no worker has looked at yet. */
  datatype Claim = Claim(job: JobId, attempt: nat, expiry: int)

  /** The goroutine that runs the check. */
  datatype CheckState =
    | Admitted(due: int)
    | Checking
    | Joining(mustRelease: bool)
    | Completing
    | Releasing
    | Ended

  /** The goroutine that renews the lease. */
  datatype RenewalState =
    | Deciding(due: int)
    | Sleeping(half: nat, wakeAt: int)
    | Requesting(until: int, reply: Reply)
    | Exited

  datatype Reply = NoReply | Extended(deadline: int)

  datatype Run = Run(job: JobId, attempt: nat, expiresAt: int, leaseLost: bool,
                     cancelled: bool, parentCancelled: bool,
                     check: CheckState, renewal: RenewalState)
  {
    /** The job context exists and is not cancelled. */
    predicate Live() {
      check.Checking? && !cancelled
    }

    /** The context exists or is about to. */
    predicate Active() {
      check.Admitted? || Live()
    }

    /** The last instant at which the next step of an active run may still be waiting. */
    function Latest(lateness: nat): int {
      if check.Admitted? then check.due
      else match renewal
        case Deciding(due) => due
        case Sleeping(_, wakeAt) => wakeAt + lateness
        case Requesting(until, _) => until + lateness
        case Exited => expiresAt
    }

    function Lost(): Run {
      this.(leaseLost := true, cancelled := true, renewal := Exited)
    }
  }

  datatype State = State(now: int, core: map<JobId, Lease>, inbox: set<Claim>, runs: seq<Run>)

  datatype Step =
    // Time and Core
    | Advance(to: int)
    | Grant(job: JobId, expiry: int)
    | Extend(job: JobId, expiry: int)
    | Answer(i: nat)
    // The check
    | Decline(claim: Claim, delivered: bool)
    | Admit(claim: Claim)
    | Start(i: nat)
    | CancelParent(i: nat)
    | Stop(i: nat, slotDenied: bool)
    | Join(i: nat)
    | Report(i: nat, delivered: bool)
    // The renewal loop
    | Decide(i: nat)
    | Wake(i: nat)
    | Notice(i: nat)
    | Receive(i: nat, ok: bool)

  predicate Holds(core: map<JobId, Lease>, job: JobId, attempt: nat) {
    job in core && core[job].held && core[job].attempt == attempt
  }

  /** Core may lease out a job nobody holds, or one whose lease has expired. */
  predicate MayGrant(tm: Timing, s: State, job: JobId) {
    job in s.core && s.core[job].held ==>
      && s.core[job].expiry + tm.grace <= s.now
      && (tm.workersFirst ==>
            forall i | 0 <= i < |s.runs| && s.runs[i].job == job && s.runs[i].Active() ::
              s.now < s.runs[i].Latest(tm.lateness))
  }

  predicate Enabled(tm: Timing, s: State, step: Step) {
    match step
    case Advance(to) =>
      s.now <= to && forall i | 0 <= i < |s.runs| && s.runs[i].Active() :: to <= s.runs[i].Latest(tm.lateness)
    case Grant(job, _) => MayGrant(tm, s, job)
    case Extend(job, expiry) => job in s.core && s.core[job].held && s.core[job].expiry <= expiry
    case Decline(claim, _) => claim in s.inbox
    case Admit(claim) => claim in s.inbox && s.now < claim.expiry
    case Answer(i) =>
      i < |s.runs| && s.runs[i].renewal.Requesting? && Holds(s.core, s.runs[i].job, s.runs[i].attempt)
    case Start(i) => i < |s.runs| && s.runs[i].check.Admitted?
    case CancelParent(i) => i < |s.runs|
    case Stop(i, slotDenied) => i < |s.runs| && s.runs[i].check.Checking? && (slotDenied ==> s.runs[i].cancelled)
    case Join(i) => i < |s.runs| && s.runs[i].check.Joining? && s.runs[i].renewal.Exited?
    case Report(i, _) => i < |s.runs| && (s.runs[i].check.Completing? || s.runs[i].check.Releasing?)
    case Decide(i) => i < |s.runs| && !s.runs[i].check.Admitted? && s.runs[i].renewal.Deciding?
    case Wake(i) => i < |s.runs| && s.runs[i].renewal.Sleeping? && s.runs[i].renewal.wakeAt <= s.now
    case Notice(i) => i < |s.runs| && s.runs[i].renewal.Sleeping? && s.runs[i].cancelled
    case Receive(i, ok) => i < |s.runs| && s.runs[i].renewal.Requesting? && (ok ==> s.runs[i].renewal.reply.Extended?)
  }

  /** What a stop, a completion or a release of an attempt does to Core's record: nothing, unless
      that attempt still holds the lease. */
  function Free(core: map<JobId, Lease>, job: JobId, attempt: nat, delivered: bool): map<JobId, Lease> {
    if delivered && Holds(core, job, attempt) then core[job := core[job].(held := false)] else core
  }

  /** The run after the step of its own that `step` names. */
  function StepRun(tm: Timing, s: State, run: Run, step: Step): Run {
    match step
    case Start(_) => run.(check := Checking, cancelled := run.parentCancelled, renewal := Deciding(s.now + tm.lateness))
    case CancelParent(_) => run.(parentCancelled := true, cancelled := true)
    case Stop(_, slotDenied) => run.(check := Joining(slotDenied || run.parentCancelled), cancelled := true)
    case Join(_) =>
      if run.check.Joining? && !run.check.mustRelease && !run.leaseLost && s.now < run.expiresAt
      then run.(check := Completing) else run.(check := Releasing)
    case Report(_, _) => run.(check := Ended)
    case Answer(_) =>
      if run.renewal.Requesting? && run.job in s.core
      then run.(renewal := run.renewal.(reply := Extended(s.core[run.job].expiry))) else run
    case Decide(_) =>
      if run.expiresAt <= s.now then run.Lost()
      else
        var half := HalfOf(run.expiresAt - s.now);
        run.(renewal := Sleeping(half, s.now + half))
    case Wake(_) =>
      if !run.renewal.Sleeping? then run
      else if RequestBudget(run.renewal.half) == 0 then run.Lost()
      else run.(renewal := Requesting(s.now + RequestBudget(run.renewal.half), NoReply))
    case Notice(_) => run.(renewal := Exited)
    case Receive(_, ok) =>
      if run.cancelled then run.(renewal := Exited)
      else if ok && run.renewal.Requesting? && run.renewal.reply.Extended? && s.now < run.renewal.reply.deadline
      then run.(expiresAt := run.renewal.reply.deadline, renewal := Deciding(s.now + tm.lateness))
      else run.Lost()
    case _ => run
  }

  function Apply(tm: Timing, s: State, step: Step): State
    requires Enabled(tm, s, step)
  {
    match step
    case Advance(to) => s.(now := to)
    case Grant(job, expiry) =>
      var attempt := if job in s.core then s.core[job].attempt + 1 else 1;
      s.(core := s.core[job := Lease(attempt, expiry, true)], inbox := s.inbox + {Claim(job, attempt, expiry)})
    case Extend(job, expiry) => s.(core := s.core[job := s.core[job].(expiry := expiry)])
    case Decline(claim, delivered) =>
      s.(inbox := s.inbox - {claim}, core := Free(s.core, claim.job, claim.attempt, delivered))
    case Admit(claim) =>
      s.(inbox := s.inbox - {claim},
         runs := s.runs + [Run(claim.job, claim.attempt, claim.expiry, false, false, false,
                               Admitted(s.now + tm.lateness), Deciding(s.now))])
    case Report(i, delivered) =>
      s.(core := Free(s.core, s.runs[i].job, s.runs[i].attempt, delivered),
         runs := s.runs[i := StepRun(tm, s, s.runs[i], step)])
    case _ => s.(runs := s.runs[step.i := StepRun(tm, s, s.runs[step.i], step)])
  }

  function Initial(tm: Timing): State {
    State(tm.start, map[], {}, [])
  }

  /** The state a sequence of steps leads to, if each of them is enabled in its turn. */
  function After(tm: Timing, steps: seq<Step>): Option<State> {
    if steps == [] then Some(Initial(tm))
    else
      var before := After(tm, steps[..|steps| - 1]);
      var last := steps[|steps| - 1];
      if before.Some? && Enabled(tm, before.value, last) then Some(Apply(tm, before.value, last)) else None
  }

  // ---- Uniqueness and what Core records about an attempt ----

  /** A deadline a worker was told for an attempt is no later than Core's own, as long as that
      attempt holds the lease; once it was reissued, that deadline has passed. */
  predicate Backed(tm: Timing, s: State, job: JobId, attempt: nat, deadline: int) {
    && job in s.core
    && attempt <= s.core[job].attempt
    && if Holds(s.core, job, attempt) then deadline <= s.core[job].expiry
       else attempt < s.core[job].attempt && deadline + tm.grace <= s.now
  }

  predicate RunBacked(tm: Timing, s: State, run: Run) {
    && run.job in s.core
    && run.attempt <= s.core[run.job].attempt
    && (!run.check.Ended? ==> Backed(tm, s, run.job, run.attempt, run.expiresAt))
    && (run.check.Checking? || run.check.Joining? ==>
          run.renewal.Requesting? && run.renewal.reply.Extended? ==>
            Backed(tm, s, run.job, run.attempt, run.renewal.reply.deadline))
    && (run.check.Completing? || run.check.Releasing? || run.check.Ended? ==> run.renewal.Exited?)
    && (run.check.Admitted? ==> run.renewal.Deciding?)
  }

  /** Each issued attempt is in one place: one claim, or one run. */
  predicate Unique(s: State) {
    && (forall i, j | 0 <= i < j < |s.runs| :: s.runs[i].job != s.runs[j].job || s.runs[i].attempt != s.runs[j].attempt)
    && (forall c, i | c in s.inbox && 0 <= i < |s.runs| :: c.job != s.runs[i].job || c.attempt != s.runs[i].attempt)
    && (forall c, d | c in s.inbox && d in s.inbox && c != d :: c.job != d.job || c.attempt != d.attempt)
  }

  predicate Consistent(tm: Timing, s: State) {
    && Unique(s)
    && (forall c | c in s.inbox :: Backed(tm, s, c.job, c.attempt, c.expiry))
    && (forall i | 0 <= i < |s.runs| :: RunBacked(tm, s, s.runs[i]))
  }

  /** The steps that change nothing but one run. */
  predicate Local(step: Step) {
    !step.Advance? && !step.Grant? && !step.Extend? && !step.Decline? && !step.Admit? && !step.Report?
  }

  lemma LocalStepKeepsRunBacked(tm: Timing, s: State, step: Step)
    requires Enabled(tm, s, step) && Local(step)
    requires RunBacked(tm, s, s.runs[step.i])
    ensures RunBacked(tm, s, StepRun(tm, s, s.runs[step.i], step))
  {
  }

  lemma LocalStepKeepsConsistent(tm: Timing, s: State, step: Step)
    requires Consistent(tm, s) && Enabled(tm, s, step) && Local(step)
    ensures Consistent(tm, Apply(tm, s, step))
  {
    LocalStepKeepsRunBacked(tm, s, step);
    SteppedRunIsTheSame(tm, s, s.runs[step.i], step);
    OneRunMoves(tm, s, step.i, StepRun(tm, s, s.runs[step.i], step));
    assert Apply(tm, s, step) == s.(runs := s.runs[step.i := StepRun(tm, s, s.runs[step.i], step)]);
  }

  lemma SteppedRunIsTheSame(tm: Timing, s: State, run: Run, step: Step)
    ensures StepRun(tm, s, run, step).job == run.job && StepRun(tm, s, run, step).attempt == run.attempt
  {
  }

  lemma OneRunMoves(tm: Timing, s: State, i: nat, run: Run)
    requires Consistent(tm, s) && i < |s.runs| && run.job == s.runs[i].job && run.attempt == s.runs[i].attempt
    requires RunBacked(tm, s, run)
    ensures Consistent(tm, s.(runs := s.runs[i := run]))
  {
    var t := s.(runs := s.runs[i := run]);
    assert Unique(t) by {
      assert forall j | 0 <= j < |t.runs| :: t.runs[j].job == s.runs[j].job && t.runs[j].attempt == s.runs[j].attempt;
    }
    forall j | 0 <= j < |t.runs| ensures RunBacked(tm, t, t.runs[j]) {
      assert RunBacked(tm, s, t.runs[j]);
    }
  }

  /** Time passing, a grant and an extension leave what is backed backed. */
  lemma CoreStepKeepsBacked(tm: Timing, s: State, step: Step, job: JobId, attempt: nat, deadline: int)
    requires Enabled(tm, s, step) && (step.Advance? || step.Grant? || step.Extend?)
    requires Backed(tm, s, job, attempt, deadline)
    ensures Backed(tm, Apply(tm, s, step), job, attempt, deadline)
  {
  }

  lemma CoreStepKeepsConsistent(tm: Timing, s: State, step: Step)
    requires Consistent(tm, s) && Enabled(tm, s, step) && (step.Advance? || step.Grant? || step.Extend?)
    ensures Consistent(tm, Apply(tm, s, step))
  {
    var t := Apply(tm, s, step);
    forall c | c in s.inbox ensures Backed(tm, t, c.job, c.attempt, c.expiry) {
      CoreStepKeepsBacked(tm, s, step, c.job, c.attempt, c.expiry);
    }
    forall i | 0 <= i < |t.runs| ensures RunBacked(tm, t, t.runs[i]) {
      var run := t.runs[i];
      assert RunBacked(tm, s, run);
      if !run.check.Ended? {
        CoreStepKeepsBacked(tm, s, step, run.job, run.attempt, run.expiresAt);
      }
      if (run.check.Checking? || run.check.Joining?) && run.renewal.Requesting? && run.renewal.reply.Extended? {
        CoreStepKeepsBacked(tm, s, step, run.job, run.attempt, run.renewal.reply.deadline);
      }
    }
    if step.Grant? {
      var granted := Claim(step.job, t.core[step.job].attempt, step.expiry);
      assert t.inbox == s.inbox + {granted};
      assert forall c | c in s.inbox :: c.job in s.core && c.attempt <= s.core[c.job].attempt;
      assert forall i | 0 <= i < |s.runs| ::
          RunBacked(tm, s, s.runs[i]) ==> s.runs[i].job != granted.job || s.runs[i].attempt < granted.attempt;
    }
  }

  /** Freeing one attempt leaves every other attempt's backing alone. */
  lemma FreeKeepsBacked(tm: Timing, s: State, t: State, freed: JobId, freedAttempt: nat, delivered: bool,
                        job: JobId, attempt: nat, deadline: int)
    requires t.now == s.now && t.core == Free(s.core, freed, freedAttempt, delivered)
    requires job != freed || attempt != freedAttempt
    requires Backed(tm, s, job, attempt, deadline)
    ensures Backed(tm, t, job, attempt, deadline)
  {
  }

  lemma FreeKeepsRunBacked(tm: Timing, s: State, t: State, freed: JobId, freedAttempt: nat, delivered: bool, run: Run)
    requires t.now == s.now && t.core == Free(s.core, freed, freedAttempt, delivered)
    requires run.check.Ended? || run.job != freed || run.attempt != freedAttempt
    requires RunBacked(tm, s, run)
    ensures RunBacked(tm, t, run)
  {
  }

  lemma FreeStepKeepsConsistent(tm: Timing, s: State, step: Step)
    requires Consistent(tm, s) && Enabled(tm, s, step) && (step.Decline? || step.Report?)
    ensures Consistent(tm, Apply(tm, s, step))
  {
    var t := Apply(tm, s, step);
    var freed := if step.Decline? then step.claim.job else s.runs[step.i].job;
    var attempt := if step.Decline? then step.claim.attempt else s.runs[step.i].attempt;
    forall c | c in t.inbox ensures Backed(tm, t, c.job, c.attempt, c.expiry) {
      FreeKeepsBacked(tm, s, t, freed, attempt, step.delivered, c.job, c.attempt, c.expiry);
    }
    forall i | 0 <= i < |t.runs| ensures RunBacked(tm, t, t.runs[i]) {
      assert RunBacked(tm, s, s.runs[i]);
      FreeKeepsRunBacked(tm, s, t, freed, attempt, step.delivered, t.runs[i]);
    }
  }

  lemma AdmitKeepsConsistent(tm: Timing, s: State, step: Step)
    requires Consistent(tm, s) && Enabled(tm, s, step) && step.Admit?
    ensures Consistent(tm, Apply(tm, s, step))
  {
    var t := Apply(tm, s, step);
    assert Backed(tm, s, step.claim.job, step.claim.attempt, step.claim.expiry);
    forall i | 0 <= i < |t.runs| ensures RunBacked(tm, t, t.runs[i]) {
      assert i < |s.runs| ==> RunBacked(tm, s, s.runs[i]);
    }
  }

  lemma StepKeepsConsistent(tm: Timing, s: State, step: Step)
    requires Consistent(tm, s) && Enabled(tm, s, step)
    ensures Consistent(tm, Apply(tm, s, step))
  {
    if Local(step) {
      LocalStepKeepsConsistent(tm, s, step);
    } else if step.Decline? || step.Report? {
      FreeStepKeepsConsistent(tm, s, step);
    } else if step.Admit? {
      AdmitKeepsConsistent(tm, s, step);
    } else {
      CoreStepKeepsConsistent(tm, s, step);
    }
  }

  lemma {:induction false} AlwaysConsistent(tm: Timing, steps: seq<Step>)
    requires After(tm, steps).Some?
    ensures Consistent(tm, After(tm, steps).value)
  {
    if steps != [] {
      AlwaysConsistent(tm, steps[..|steps| - 1]);
      StepKeepsConsistent(tm, After(tm, steps[..|steps| - 1]).value, steps[|steps| - 1]);
    }
  }

  /** A check is only ever completed while Core still records an unexpired lease for that very
      attempt, however late the worker's steps are and however soon Core reissues. */
  lemma CompletionIsUnderTheLease(tm: Timing, steps: seq<Step>, s: State, i: nat)
    requires After(tm, steps) == Some(s) && i < |s.runs|
    ensures s.runs[i].check.Joining? && StepRun(tm, s, s.runs[i], Join(i)).check.Completing? ==>
              && Holds(s.core, s.runs[i].job, s.runs[i].attempt)
              && s.now < s.runs[i].expiresAt <= s.core[s.runs[i].job].expiry
  {
    AlwaysConsistent(tm, steps);
    assert RunBacked(tm, s, s.runs[i]);
  }

  // ---- The clock ----

  /** How far an active run may be past the deadline it holds. */
  predicate RunTimely(tm: Timing, s: State, run: Run) {
    run.Active() ==>
      && s.now <= run.Latest(tm.lateness)
      && (run.check.Admitted? ==> run.renewal.Deciding? && run.check.due < run.expiresAt + tm.lateness)
      && (run.check.Checking? ==>
            match run.renewal
            case Deciding(due) => due < run.expiresAt + 2 * tm.lateness
            case Sleeping(half, wakeAt) => wakeAt + half <= run.expiresAt
            case Requesting(until, _) => until <= run.expiresAt + tm.lateness
            case Exited => false)
  }

  predicate Timely(tm: Timing, s: State) {
    forall i | 0 <= i < |s.runs| :: RunTimely(tm, s, s.runs[i])
  }

  lemma LocalStepKeepsRunTimely(tm: Timing, s: State, step: Step)
    requires Enabled(tm, s, step) && (Local(step) || step.Report?)
    requires RunTimely(tm, s, s.runs[step.i])
    ensures RunTimely(tm, Apply(tm, s, step), StepRun(tm, s, s.runs[step.i], step))
  {
  }

  lemma StepKeepsTimely(tm: Timing, s: State, step: Step)
    requires Timely(tm, s) && Enabled(tm, s, step)
    ensures Timely(tm, Apply(tm, s, step))
  {
    var t := Apply(tm, s, step);
    if Local(step) || step.Report? {
      LocalStepKeepsRunTimely(tm, s, step);
    }
    forall i | 0 <= i < |t.runs| ensures RunTimely(tm, t, t.runs[i]) {
      assert i < |s.runs| ==> RunTimely(tm, s, s.runs[i]);
    }
  }

  lemma {:induction false} AlwaysTimely(tm: Timing, steps: seq<Step>)
    requires After(tm, steps).Some?
    ensures Timely(tm, After(tm, steps).value)
  {
    if steps != [] {
      AlwaysTimely(tm, steps[..|steps| - 1]);
      StepKeepsTimely(tm, After(tm, steps[..|steps| - 1]).value, steps[|steps| - 1]);
    }
  }

  /** A live context is never more than two latenesses past the deadline its worker holds. */
  lemma LiveIsTimely(tm: Timing, steps: seq<Step>, s: State, i: nat)
    requires After(tm, steps) == Some(s) && i < |s.runs|
    ensures s.runs[i].Live() ==> s.now <= s.runs[i].expiresAt + 2 * tm.lateness
  {
    AlwaysTimely(tm, steps);
    assert RunTimely(tm, s, s.runs[i]);
  }

  // ---- Exclusion ----

  /** No two live contexts for one job. */
  predicate Exclusive(s: State) {
    forall i, j | 0 <= i < j < |s.runs| && s.runs[i].Live() && s.runs[j].Live() :: s.runs[i].job != s.runs[j].job
  }

  /** Core leaves the worker the time it needs. */
  predicate Safe(tm: Timing) {
    2 * tm.lateness < tm.grace || (tm.grace == 2 * tm.lateness && tm.workersFirst)
  }

  /** Every active run holds the lease of its attempt. */
  predicate Held(s: State) {
    forall i | 0 <= i < |s.runs| && s.runs[i].Active() :: Holds(s.core, s.runs[i].job, s.runs[i].attempt)
  }

  lemma GrantKeepsHeld(tm: Timing, s: State, step: Step)
    requires Safe(tm) && Consistent(tm, s) && Timely(tm, s) && Held(s)
    requires Enabled(tm, s, step) && step.Grant?
    ensures Held(Apply(tm, s, step))
  {
    forall i | 0 <= i < |s.runs| && s.runs[i].Active() ensures s.runs[i].job != step.job {
      var run := s.runs[i];
      assert RunBacked(tm, s, run) && RunTimely(tm, s, run);
    }
  }

  lemma StepKeepsHeld(tm: Timing, s: State, step: Step)
    requires Safe(tm) && Consistent(tm, s) && Timely(tm, s) && Held(s) && Enabled(tm, s, step)
    ensures Held(Apply(tm, s, step))
  {
    var t := Apply(tm, s, step);
    if step.Grant? {
      GrantKeepsHeld(tm, s, step);
    } else if step.Admit? {
      assert Backed(tm, s, step.claim.job, step.claim.attempt, step.claim.expiry);
    } else if Local(step) {
      assert t.runs[step.i].Active() ==> s.runs[step.i].Active();
    } else {
      forall i | 0 <= i < |t.runs| && t.runs[i].Active() ensures Holds(t.core, t.runs[i].job, t.runs[i].attempt) {
        assert s.runs[i].Active();
      }
    }
  }

  lemma {:induction false} AlwaysHeld(tm: Timing, steps: seq<Step>)
    requires Safe(tm) && After(tm, steps).Some?
    ensures Held(After(tm, steps).value)
  {
    if steps != [] {
      var before := steps[..|steps| - 1];
      AlwaysHeld(tm, before);
      AlwaysConsistent(tm, before);
      AlwaysTimely(tm, before);
      StepKeepsHeld(tm, After(tm, before).value, steps[|steps| - 1]);
    }
  }

  // ---- Every timing that is not safe has a run with two live contexts ----

  /** A lease of two nanoseconds whose only extend request is still out when Core reissues the job. */
  function Overlap(tm: Timing): seq<Step> {
    var end := tm.start + 2;
    var wait := if tm.grace <= tm.lateness then tm.grace else tm.lateness;
    [ Grant(0, end), Admit(Claim(0, 1, end)), Start(0), Decide(0), Advance(tm.start + 1 + wait), Wake(0),
      Advance(end + tm.grace), Grant(0, end + tm.grace + 1), Admit(Claim(0, 2, end + tm.grace + 1)), Start(1) ]
  }

  /** The states those steps pass through. */
  function OverlapStates(tm: Timing): seq<State> {
    var end, woken := tm.start + 2, tm.start + 1 + if tm.grace <= tm.lateness then tm.grace else tm.lateness;
    var late := end + tm.grace;
    var first, second := map[0 := Lease(1, end, true)], map[0 := Lease(2, late + 1, true)];
    var one := (check, renewal) => Run(0, 1, end, false, false, false, check, renewal);
    var two := (check, renewal) => Run(0, 2, late + 1, false, false, false, check, renewal);
    var asleep, asking := one(Checking, Sleeping(1, tm.start + 1)), one(Checking, Requesting(woken + 1, NoReply));
    [ Initial(tm),
      State(tm.start, first, {Claim(0, 1, end)}, []),
      State(tm.start, first, {}, [one(Admitted(tm.start + tm.lateness), Deciding(tm.start))]),
      State(tm.start, first, {}, [one(Checking, Deciding(tm.start + tm.lateness))]),
      State(tm.start, first, {}, [asleep]),
      State(woken, first, {}, [asleep]),
      State(woken, first, {}, [asking]),
      State(late, first, {}, [asking]),
      State(late, second, {Claim(0, 2, late + 1)}, [asking]),
      State(late, second, {}, [asking, two(Admitted(late + tm.lateness), Deciding(late))]),
      State(late, second, {}, [asking, two(Checking, Deciding(late + tm.lateness))]) ]
  }

  predicate OverlapGoesOn(tm: Timing, n: nat)
    requires n < 10
  {
    && Enabled(tm, OverlapStates(tm)[n], Overlap(tm)[n])
    && Apply(tm, OverlapStates(tm)[n], Overlap(tm)[n]) == OverlapStates(tm)[n + 1]
  }

  lemma OverlapGrants(tm: Timing)
    ensures OverlapGoesOn(tm, 0) && OverlapGoesOn(tm, 1)
  {
    assert Apply(tm, OverlapStates(tm)[1], Overlap(tm)[1]).inbox == {};
  }

  lemma OverlapSleeps(tm: Timing)
    ensures OverlapGoesOn(tm, 2) && OverlapGoesOn(tm, 3)
  {
    assert HalfOf(2) == 1;
  }

  lemma OverlapAsks(tm: Timing)
    ensures OverlapGoesOn(tm, 4) && OverlapGoesOn(tm, 5)
  {
  }

  lemma OverlapWaits(tm: Timing)
    requires !Safe(tm)
    ensures OverlapGoesOn(tm, 6) && OverlapGoesOn(tm, 7)
  {
    assert Apply(tm, OverlapStates(tm)[7], Overlap(tm)[7]).inbox == OverlapStates(tm)[8].inbox;
  }

  lemma OverlapReissues(tm: Timing)
    ensures OverlapGoesOn(tm, 8) && OverlapGoesOn(tm, 9)
  {
    assert Apply(tm, OverlapStates(tm)[8], Overlap(tm)[8]).inbox == {};
  }

  lemma OverlapStep(tm: Timing, n: nat)
    requires !Safe(tm) && n < 10
    ensures OverlapGoesOn(tm, n)
  {
    assert n in [0, 1, 2, 3, 4, 5, 6, 7, 8, 9];
    OverlapGrants(tm);
    OverlapSleeps(tm);
    OverlapAsks(tm);
    OverlapWaits(tm);
    OverlapReissues(tm);
  }

  lemma {:induction false} OverlapReaches(tm: Timing, n: nat)
    requires !Safe(tm) && n <= 10
    ensures After(tm, Overlap(tm)[..n]) == Some(OverlapStates(tm)[n])
  {
    if n > 0 {
      OverlapReaches(tm, n - 1);
      OverlapStep(tm, n - 1);
      assert Overlap(tm)[..n][..n - 1] == Overlap(tm)[..n - 1];
    }
  }

  lemma OverlapHappens(tm: Timing)
    requires !Safe(tm)
    ensures After(tm, Overlap(tm)).Some? && !Exclusive(After(tm, Overlap(tm)).value)
  {
    OverlapReaches(tm, 10);
    assert Overlap(tm)[..10] == Overlap(tm);
    var last := OverlapStates(tm)[10];
    assert last.runs[0].Live() && last.runs[1].Live();
  }

  /** The main result: over all runs of any number of workers, no job ever has two live contexts,
      if and only if Core waits long enough after an expiry before it reissues. With punctual workers
      and no wait this is the written contract, with steps due at one instant going first. */
  lemma ExclusionIffSafe(tm: Timing)
    ensures Safe(tm) <==> forall steps | After(tm, steps).Some? :: Exclusive(After(tm, steps).value)
  {
    if Safe(tm) {
      forall steps | After(tm, steps).Some? ensures Exclusive(After(tm, steps).value) {
        AlwaysHeld(tm, steps);
        AlwaysConsistent(tm, steps);
      }
    } else {
      OverlapHappens(tm);
    }
  }
}
