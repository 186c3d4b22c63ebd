/** A whole instance: the threads of the execution controller, and under each run in progress its worker
    pool, from the start of the process on. */
module InstanceProcess {
  import opened Wrappers
  import C = ExecutionController
  import P = WorkerPool
  import opened Telemetry
  import opened Limits
  import ClaimedJobs
  import LeaseRun
  import LegacyRun

  /** What a run finds to do: a claimed batch, or what the three phases fetched. */
  datatype Plan =
    | Leased(jobs: seq<ClaimedJobs.ClaimedJob>, worlds: nat -> ClaimedJobs.World)
    | Legacy(runs: seq<LegacyRun.PhaseRun>)

  predicate Possible(plan: Plan) {
    plan.Legacy? ==> LegacyRun.OfCoordinator(plan.runs)
  }

  /** The worker pool of a run that finds the telemetry as given. Without a job there are no workers. */
  function StartingPool(plan: Plan, t: Gauges, cfg: Config): P.Pool {
    match plan
    case Legacy(runs) => LegacyRun.LegacyPool(runs, t, cfg)
    case Leased(jobs, worlds) =>
      if LeaseRun.TakeIn(jobs).unique == [] then P.Pool([], [], t, 0, LimiterCapacity(cfg), [], [])
      else LeaseRun.LeasePool(jobs, worlds, t, cfg)
  }

  /** `pools` holds the pool of each thread whose run is in progress, and the telemetry with it;
      `gauges` is the telemetry as the last run left it. */
  datatype Instance = Instance(control: C.Controller, pools: map<nat, P.Pool>, gauges: Gauges)

  datatype Step =
    | Control(step: C.Step)
    | Begin(t: nat, plan: Plan)
    | Work(t: nat, work: P.Step)
    | End(t: nat)

  predicate Enabled(s: Instance, step: Step) {
    match step
    case Control(c) =>
      C.Enabled(s.control, c) && !(c.Next? && (s.control.threads[c.t].Opened? || s.control.threads[c.t].Running?))
    case Begin(t, plan) => C.AtPC(s.control, t, C.Opened) && Possible(plan)
    case Work(t, work) => t in s.pools && P.Enabled(s.pools[t], work)
    // The run returns when its workers have.
    case End(t) => C.AtPC(s.control, t, C.Running) && t in s.pools && P.Final(s.pools[t])
  }

  function Apply(s: Instance, cfg: Config, step: Step): Instance
    requires Enabled(s, step)
  {
    match step
    case Control(c) => s.(control := C.Apply(s.control, c))
    case Begin(t, plan) =>
      s.(control := C.Apply(s.control, C.Next(t)), pools := s.pools[t := StartingPool(plan, s.gauges, cfg)])
    case Work(t, work) => s.(pools := s.pools[t := P.Apply(s.pools[t], work)])
    case End(t) => Instance(C.Apply(s.control, C.Next(t)), s.pools - {t}, s.pools[t].gauges)
  }

  const NOTHING := Gauges(0, 0, map[], map[], map[], map[], 0)
  const BOOTED := Instance(C.START, map[], NOTHING)

  function After(cfg: Config, steps: seq<Step>): Option<Instance> {
    if steps == [] then Some(BOOTED)
    else
      var before := After(cfg, steps[..|steps| - 1]);
      var last := steps[|steps| - 1];
      if before.Some? && Enabled(before.value, last) then Some(Apply(before.value, cfg, last)) else None
  }

  // ---- The control part is an execution of the controller ----

  function ControlStep(step: Step): seq<C.Step> {
    match step
    case Control(c) => [c]
    case Begin(t, _) => [C.Next(t)]
    case Work(_, _) => []
    case End(t) => [C.Next(t)]
  }

  function ControlSteps(steps: seq<Step>): seq<C.Step> {
    if steps == [] then [] else ControlSteps(steps[..|steps| - 1]) + ControlStep(steps[|steps| - 1])
  }

  /** Whatever the pools do, the threads of the controller only do what they do without them. */
  lemma {:induction false} ControlFollowsController(cfg: Config, steps: seq<Step>)
    requires After(cfg, steps).Some?
    ensures C.After(C.START, ControlSteps(steps)) == Some(After(cfg, steps).value.control)
  {
    if steps != [] {
      var init, last := steps[..|steps| - 1], steps[|steps| - 1];
      ControlFollowsController(cfg, init);
      if last.Work? {
        assert ControlSteps(init) + [] == ControlSteps(init);
      } else {
        OneControlStep(ControlSteps(init), After(cfg, init).value.control, ControlStep(last)[0]);
      }
    }
  }

  lemma OneControlStep(before: seq<C.Step>, c: C.Controller, step: C.Step)
    requires C.After(C.START, before) == Some(c) && C.Enabled(c, step)
    ensures C.After(C.START, before + [step]) == Some(C.Apply(c, step))
  {
    assert (before + [step])[..|before|] == before;
  }

  // ---- The invariant ----

  /** The threads that have a pool are those whose run is in progress. */
  ghost predicate PoolsMatch(c: C.Controller, pools: map<nat, P.Pool>) {
    forall t: nat :: t in pools <==> C.AtPC(c, t, C.Running)
  }

  ghost predicate AllReached(pools: map<nat, P.Pool>) {
    forall t | t in pools :: P.Reached(pools[t])
  }

  ghost predicate Inv(s: Instance) {
    PoolsMatch(s.control, s.pools) && AllReached(s.pools) && P.Settled(s.gauges)
  }

  lemma StartIsReached(plan: Plan, t: Gauges, cfg: Config)
    requires P.Settled(t) && Possible(plan)
    ensures P.Reached(StartingPool(plan, t, cfg))
  {
    var pool := StartingPool(plan, t, cfg);
    if plan.Legacy? {
      LegacyRun.LegacyRunIsReady(plan.runs, t, cfg);
    } else if LeaseRun.TakeIn(plan.jobs).unique != [] {
      assert plan.jobs != [];
      LeaseRun.LeaseRunIsReady(plan.jobs, plan.worlds, t, cfg);
    } else {
      P.EmptyIsReady(pool);
    }
    assert P.After(pool, []) == Some(pool);
  }

  lemma BeginOrEndMatches(c: C.Controller, t: nat, pools: map<nat, P.Pool>, after: map<nat, P.Pool>)
    requires t < |c.threads| && (c.threads[t].Opened? || c.threads[t].Running?) && PoolsMatch(c, pools)
    requires after.Keys == if c.threads[t].Opened? then pools.Keys + {t} else pools.Keys - {t}
    ensures C.Enabled(c, C.Next(t)) && PoolsMatch(C.Apply(c, C.Next(t)), after)
  {
    forall u: nat ensures u in after <==> C.AtPC(C.Apply(c, C.Next(t)), u, C.Running) {
      C.BeginOrEndMovesOne(c, t, u);
    }
  }

  lemma ControlKeepsInv(s: Instance, cfg: Config, step: Step)
    requires Inv(s) && Enabled(s, step) && step.Control?
    ensures Inv(Apply(s, cfg, step))
  {
    forall t: nat ensures C.AtPC(Apply(s, cfg, step).control, t, C.Running) <==> C.AtPC(s.control, t, C.Running) {
      C.ControlKeepsRunning(s.control, step.step, t);
    }
  }

  lemma OneMoreReached(pools: map<nat, P.Pool>, t: nat, pool: P.Pool)
    requires AllReached(pools) && P.Reached(pool)
    ensures AllReached(pools[t := pool])
  {
  }

  lemma SamePoolsMatch(c: C.Controller, pools: map<nat, P.Pool>, t: nat, pool: P.Pool)
    requires PoolsMatch(c, pools) && t in pools
    ensures PoolsMatch(c, pools[t := pool])
  {
  }

  lemma BeginKeepsInv(s: Instance, cfg: Config, t: nat, plan: Plan)
    requires Inv(s) && Enabled(s, Begin(t, plan))
    ensures Inv(Apply(s, cfg, Begin(t, plan)))
  {
    StartIsReached(plan, s.gauges, cfg);
    var pool := StartingPool(plan, s.gauges, cfg);
    OneMoreReached(s.pools, t, pool);
    BeginOrEndMatches(s.control, t, s.pools, s.pools[t := pool]);
  }

  lemma EndKeepsInv(s: Instance, cfg: Config, t: nat)
    requires Inv(s) && Enabled(s, End(t))
    ensures Inv(Apply(s, cfg, End(t)))
  {
    P.ReachedIsAccounted(s.pools[t]);
    BeginOrEndMatches(s.control, t, s.pools, s.pools - {t});
  }

  lemma WorkKeepsInv(s: Instance, cfg: Config, t: nat, work: P.Step)
    requires Inv(s) && Enabled(s, Work(t, work))
    ensures Inv(Apply(s, cfg, Work(t, work)))
  {
    P.WorkIsReached(s.pools[t], work);
    var pool := P.Apply(s.pools[t], work);
    OneMoreReached(s.pools, t, pool);
    SamePoolsMatch(s.control, s.pools, t, pool);
  }

  lemma StepKeepsInv(s: Instance, cfg: Config, step: Step)
    requires Inv(s) && Enabled(s, step)
    ensures Inv(Apply(s, cfg, step))
  {
    match step
    case Control(c) => ControlKeepsInv(s, cfg, step);
    case Begin(t, plan) => BeginKeepsInv(s, cfg, t, plan);
    case Work(t, work) => WorkKeepsInv(s, cfg, t, work);
    case End(t) => EndKeepsInv(s, cfg, t);
  }

  lemma {:induction false} AlwaysInv(cfg: Config, steps: seq<Step>)
    requires After(cfg, steps).Some?
    ensures Inv(After(cfg, steps).value)
  {
    if steps != [] {
      AlwaysInv(cfg, steps[..|steps| - 1]);
      StepKeepsInv(After(cfg, steps[..|steps| - 1]).value, cfg, steps[|steps| - 1]);
    }
  }

  // ---- What holds for the life of the process ----

  /** At most one run has a pool, and none begins beside it. */
  lemma OnePool(cfg: Config, steps: seq<Step>, t: nat, u: nat)
    ensures After(cfg, steps).Some? && t in After(cfg, steps).value.pools ==>
              && (u in After(cfg, steps).value.pools ==> t == u)
              && !C.AtPC(After(cfg, steps).value.control, u, C.Opened)
  {
    if After(cfg, steps).Some? {
      AlwaysInv(cfg, steps);
      ControlFollowsController(cfg, steps);
      C.RunningExcludes(ControlSteps(steps), t, u);
    }
  }

  ghost predicate Checks(s: Instance, t: nat, w: nat, job: string) {
    t in s.pools && P.CheckInProgress(s.pools[t], w, job)
  }

  /** Within one process, over all runs and interleavings, no job's check is in progress twice. */
  lemma NoJobIsCheckedTwiceAtOnce(cfg: Config, steps: seq<Step>, job: string, t: nat, v: nat, u: nat, w: nat)
    ensures After(cfg, steps).Some? ==>
              Checks(After(cfg, steps).value, t, v, job) && Checks(After(cfg, steps).value, u, w, job) ==>
                t == u && v == w
  {
    OnePool(cfg, steps, t, u);
    if After(cfg, steps).Some? && t in After(cfg, steps).value.pools {
      AlwaysInv(cfg, steps);
      if v != w {
        P.ReachedExcludes(After(cfg, steps).value.pools[t], job, v, w);
      }
    }
  }

  /** Between runs the telemetry is settled, whatever the runs before did; and at every moment of a run
      its gauges, flows and slots are what the accounts say. */
  lemma TelemetryStaysExact(cfg: Config, steps: seq<Step>)
    requires After(cfg, steps).Some?
    ensures P.Settled(After(cfg, steps).value.gauges)
    ensures forall t | t in After(cfg, steps).value.pools :: P.Accounted(After(cfg, steps).value.pools[t])
  {
    AlwaysInv(cfg, steps);
    var s := After(cfg, steps).value;
    forall t | t in s.pools ensures P.Accounted(s.pools[t]) {
      P.ReachedIsAccounted(s.pools[t]);
    }
  }

  lemma {:induction false} ControlStepsConcat(a: seq<Step>, b: seq<Step>)
    ensures ControlSteps(a + b) == ControlSteps(a) + ControlSteps(b)
  {
    if b == [] {
      assert a + b == a;
    } else {
      assert (a + b)[..|a + b| - 1] == a + b[..|b| - 1];
      ControlStepsConcat(a, b[..|b| - 1]);
    }
  }

  /** A drained process does no work: once the wait behind a drain has said idle, no pool is at work in
      any continuation, so no check is in progress and no slot is held, and the telemetry is settled. */
  lemma DrainEndsAllWork(cfg: Config, steps: seq<Step>, more: seq<Step>, t: nat)
    requires After(cfg, steps).Some? && C.DrainSeen(After(cfg, steps).value.control, t)
    requires After(cfg, steps + more).Some?
    ensures After(cfg, steps + more).value.pools == map[] && P.Settled(After(cfg, steps + more).value.gauges)
  {
    ControlFollowsController(cfg, steps);
    ControlFollowsController(cfg, steps + more);
    ControlStepsConcat(steps, more);
    C.DrainIsFinal(ControlSteps(steps), ControlSteps(more), t);
    AlwaysInv(cfg, steps + more);
    var s := After(cfg, steps + more).value;
    assert C.Quiet(s.control);
    forall u: nat ensures u !in s.pools && !C.AtPC(s.control, u, C.Running) {
    }
  }

  /** A run in progress is never stuck: its pool can move until it is done. With RunIsBounded it gets to
      its end. */
  lemma RunsInProgressCanEnd(cfg: Config, steps: seq<Step>, t: nat)
    ensures After(cfg, steps).Some? && t in After(cfg, steps).value.pools ==>
              var s := After(cfg, steps).value;
              Enabled(s, End(t)) || exists work :: Enabled(s, Work(t, work))
  {
    if After(cfg, steps).Some? && t in After(cfg, steps).value.pools {
      AlwaysInv(cfg, steps);
      PoolCanMove(After(cfg, steps).value, t);
    }
  }

  lemma PoolCanMove(s: Instance, t: nat)
    requires Inv(s) && t in s.pools
    ensures Enabled(s, End(t)) || exists work :: Enabled(s, Work(t, work))
  {
    assert C.AtPC(s.control, t, C.Running);
    P.ReachedCanMove(s.pools[t]);
    if next :| P.Enabled(s.pools[t], next) {
      assert Enabled(s, Work(t, next));
    }
  }

  /** How many steps the pool of a thread takes. */
  function WorkSteps(steps: seq<Step>, t: nat): nat {
    if steps == [] then 0
    else (if steps[0].Work? && steps[0].t == t then 1 else 0) + WorkSteps(steps[1..], t)
  }

  /** While a run does not end, no step but its own work changes its pool. */
  lemma PoolStays(s: Instance, cfg: Config, step: Step, t: nat)
    requires PoolsMatch(s.control, s.pools) && Enabled(s, step) && t in s.pools
    requires step != End(t) && !(step.Work? && step.t == t)
    ensures t in Apply(s, cfg, step).pools && Apply(s, cfg, step).pools[t] == s.pools[t]
  {
    assert C.AtPC(s.control, t, C.Running);
  }

  /** And each step of its work uses some of it up. */
  lemma StepUsesWork(s: Instance, cfg: Config, step: Step, t: nat)
    requires Inv(s) && Enabled(s, step) && t in s.pools && step != End(t)
    ensures t in Apply(s, cfg, step).pools
    ensures P.Work(Apply(s, cfg, step).pools[t]) + (if step.Work? && step.t == t then 1 else 0) <= P.Work(s.pools[t])
  {
    if step.Work? && step.t == t {
      P.StepDoesWork(s.pools[t], step.work);
    } else {
      PoolStays(s, cfg, step, t);
    }
  }

  /** Where steps lead from a state. */
  function Onward(s: Instance, cfg: Config, steps: seq<Step>): Option<Instance>
    decreases |steps|
  {
    if steps == [] then Some(s)
    else if Enabled(s, steps[0]) then Onward(Apply(s, cfg, steps[0]), cfg, steps[1..]) else None
  }

  lemma {:induction false} WorkGoesDown(s: Instance, cfg: Config, steps: seq<Step>, t: nat)
    requires Inv(s) && t in s.pools && Onward(s, cfg, steps).Some? && End(t) !in steps
    ensures t in Onward(s, cfg, steps).value.pools
    ensures WorkSteps(steps, t) + P.Work(Onward(s, cfg, steps).value.pools[t]) <= P.Work(s.pools[t])
    decreases |steps|
  {
    if steps != [] {
      StepKeepsInv(s, cfg, steps[0]);
      StepUsesWork(s, cfg, steps[0], t);
      WorkGoesDown(Apply(s, cfg, steps[0]), cfg, steps[1..], t);
    }
  }

  /** From its beginning on, until it ends, the pool of a run takes no more steps than its work at the
      start, whatever the other threads do meanwhile; and what it has left goes down with each. */
  lemma RunIsBounded(cfg: Config, before: seq<Step>, t: nat, plan: Plan, since: seq<Step>)
    requires After(cfg, before).Some? && Enabled(After(cfg, before).value, Begin(t, plan)) && End(t) !in since
    ensures var s := After(cfg, before).value;
            var end := Onward(Apply(s, cfg, Begin(t, plan)), cfg, since);
            end.Some? ==>
              && t in end.value.pools
              && WorkSteps(since, t) + P.Work(end.value.pools[t]) <= P.Work(StartingPool(plan, s.gauges, cfg))
  {
    var s := After(cfg, before).value;
    AlwaysInv(cfg, before);
    BeginKeepsInv(s, cfg, t, plan);
    if Onward(Apply(s, cfg, Begin(t, plan)), cfg, since).Some? {
      WorkGoesDown(Apply(s, cfg, Begin(t, plan)), cfg, since, t);
    }
  }
}
