/** Producers, unbuffered channels, worker loops and the shared limiter as a step system: the pools of
    internal/adapters/runner/job_leases.go and internal/adapters/runner/runner.go.

    A phase is one producer with its own channel and workers. What a worker does with an item is a
    script of effects, one step each, so the effects of different workers interleave freely. */
module WorkerPool {
  import opened Wrappers
  import opened Telemetry

  /** One dispatched job: its place in its phase's list, and what its handling does. */
  datatype Item = Item(phase: nat, index: nat, script: seq<Effect>)

  /** What a producer does next: something for one of the jobs of its list, or hand one to a worker. */
  datatype Instruction = Do(job: nat, effect: Effect) | Send(item: Item)

  datatype WorkerState = Idle | Busy(item: Item, rest: seq<Effect>) | Exited

  datatype Worker = Worker(phase: nat, state: WorkerState)

  /** `log` and `handled` are history: the effects done so far, and which worker finished which item. */
  datatype Pool = Pool(programs: seq<seq<Instruction>>, workers: seq<Worker>, gauges: Gauges,
                       held: nat, capacity: nat, log: seq<Effect>, handled: seq<(nat, Item)>)

  datatype Step =
    | Producing(p: nat)
    | Handing(p: nat, w: nat)
    | Doing(w: nat)
    | Finishing(w: nat)
    | Exiting(w: nat)

  predicate BusyWorker(s: Pool, w: nat) {
    w < |s.workers| && s.workers[w].state.Busy?
  }

  predicate Enabled(s: Pool, step: Step) {
    match step
    case Producing(p) => p < |s.programs| && s.programs[p] != [] && s.programs[p][0].Do?
    // An unbuffered channel: the producer and an idle worker meet.
    case Handing(p, w) =>
      && p < |s.programs| && s.programs[p] != [] && s.programs[p][0].Send?
      && w < |s.workers| && s.workers[w] == Worker(p, Idle)
    case Doing(w) =>
      && BusyWorker(s, w) && s.workers[w].state.rest != []
      && (s.workers[w].state.rest[0].AcquireSlot? ==> s.held < s.capacity)
      && (s.workers[w].state.rest[0].ReleaseSlot? ==> 0 < s.held)
    case Finishing(w) => BusyWorker(s, w) && s.workers[w].state.rest == []
    // The channel is closed once the producer has nothing left.
    case Exiting(w) =>
      && w < |s.workers| && s.workers[w].state.Idle?
      && s.workers[w].phase < |s.programs| && s.programs[s.workers[w].phase] == []
  }

  function HeldAfter(held: nat, e: Effect): nat {
    if e.AcquireSlot? then held + 1 else if e.ReleaseSlot? && 0 < held then held - 1 else held
  }

  function Apply(s: Pool, step: Step): Pool
    requires Enabled(s, step)
  {
    match step
    case Producing(p) =>
      var e := s.programs[p][0].effect;
      s.(programs := s.programs[p := s.programs[p][1..]], gauges := Record(s.gauges, e), log := s.log + [e])
    case Handing(p, w) =>
      var item := s.programs[p][0].item;
      s.(programs := s.programs[p := s.programs[p][1..]], workers := s.workers[w := Worker(p, Busy(item, item.script))])
    case Doing(w) =>
      var worker := s.workers[w];
      var e := worker.state.rest[0];
      s.(workers := s.workers[w := worker.(state := Busy(worker.state.item, worker.state.rest[1..]))],
         gauges := Record(s.gauges, e), held := HeldAfter(s.held, e), log := s.log + [e])
    case Finishing(w) =>
      s.(workers := s.workers[w := s.workers[w].(state := Idle)], handled := s.handled + [(w, s.workers[w].state.item)])
    case Exiting(w) => s.(workers := s.workers[w := s.workers[w].(state := Exited)])
  }

  function After(start: Pool, steps: seq<Step>): Option<Pool> {
    if steps == [] then Some(start)
    else
      var before := After(start, steps[..|steps| - 1]);
      var last := steps[|steps| - 1];
      if before.Some? && Enabled(before.value, last) then Some(Apply(before.value, last)) else None
  }

  /** Everything was sent and every worker has left: the wait group lets the phase return. */
  predicate Final(s: Pool) {
    && (forall p | 0 <= p < |s.programs| :: s.programs[p] == [])
    && (forall w | 0 <= w < |s.workers| :: s.workers[w].state.Exited?)
  }

  // ---- The ledger ----

  /** What an effect is counted as. */
  datatype Measure =
    | QueueGauge | ActiveGauge | Slots
    | Checks(job: string) | InCheck(job: string)
    | Enters(stage: Stage) | Leaves(stage: Stage)
    | Is(effect: Effect)

  function Weight(m: Measure, e: Effect): int {
    match m
    case QueueGauge => if e.QueueJob? then 1 else if e.StartJob? || e.DropQueuedJob? then -1 else 0
    case ActiveGauge => if e.StartJob? then 1 else if e.FinishJob? then -1 else 0
    case Slots => if e.AcquireSlot? then 1 else if e.ReleaseSlot? then -1 else 0
    case Checks(job) => if e == AcquireSlot(job) then 1 else 0
    case InCheck(job) => if e == AcquireSlot(job) then 1 else if e == ReleaseSlot(job) then -1 else 0
    case Enters(stage) => if e.RecordJobTransition? && e.to == stage then 1 else 0
    case Leaves(stage) => if e.RecordJobTransition? && e.from == stage then 1 else 0
    case Is(effect) => if e == effect then 1 else 0
  }

  function Sum(m: Measure, effects: seq<Effect>): int {
    if effects == [] then 0 else Weight(m, effects[0]) + Sum(m, effects[1..])
  }

  lemma {:induction false} SumConcat(m: Measure, a: seq<Effect>, b: seq<Effect>)
    ensures Sum(m, a + b) == Sum(m, a) + Sum(m, b)
  {
    if a == [] {
      assert a + b == b;
    } else {
      assert (a + b)[1..] == a[1..] + b;
      SumConcat(m, a[1..], b);
    }
  }

  function WorkerWeight(m: Measure, w: Worker): int {
    if w.state.Busy? then Sum(m, w.state.rest) else 0
  }

  function WorkersSum(m: Measure, ws: seq<Worker>): int {
    if ws == [] then 0 else WorkersSum(m, ws[..|ws| - 1]) + WorkerWeight(m, ws[|ws| - 1])
  }

  function ProgramSum(m: Measure, program: seq<Instruction>): int {
    if program == [] then 0
    else
      (if program[0].Do? then Weight(m, program[0].effect) else Sum(m, program[0].item.script))
      + ProgramSum(m, program[1..])
  }

  function ProgramsSum(m: Measure, programs: seq<seq<Instruction>>): int {
    if programs == [] then 0
    else ProgramsSum(m, programs[..|programs| - 1]) + ProgramSum(m, programs[|programs| - 1])
  }

  /** What is still to be done. */
  function Ahead(m: Measure, s: Pool): int {
    WorkersSum(m, s.workers) + ProgramsSum(m, s.programs)
  }

  lemma {:induction false} WorkersSumUpdate(m: Measure, ws: seq<Worker>, i: nat, w: Worker)
    requires i < |ws|
    ensures WorkersSum(m, ws[i := w]) == WorkersSum(m, ws) - WorkerWeight(m, ws[i]) + WorkerWeight(m, w)
  {
    var last := |ws| - 1;
    if i == last {
      assert ws[i := w][..last] == ws[..last];
    } else {
      assert ws[i := w][..last] == ws[..last][i := w];
      WorkersSumUpdate(m, ws[..last], i, w);
    }
  }

  lemma {:induction false} ProgramsSumUpdate(m: Measure, programs: seq<seq<Instruction>>, i: nat,
                                             program: seq<Instruction>)
    requires i < |programs|
    ensures ProgramsSum(m, programs[i := program])
         == ProgramsSum(m, programs) - ProgramSum(m, programs[i]) + ProgramSum(m, program)
  {
    var last := |programs| - 1;
    if i == last {
      assert programs[i := program][..last] == programs[..last];
    } else {
      assert programs[i := program][..last] == programs[..last][i := program];
      ProgramsSumUpdate(m, programs[..last], i, program);
    }
  }

  /** No step loses or repeats an effect: what was done and what is ahead add up to a constant. */
  lemma LedgerStep(m: Measure, s: Pool, step: Step)
    requires Enabled(s, step)
    ensures Sum(m, Apply(s, step).log) + Ahead(m, Apply(s, step)) == Sum(m, s.log) + Ahead(m, s)
  {
    var t := Apply(s, step);
    match step
    case Producing(p) =>
      ProgramsSumUpdate(m, s.programs, p, t.programs[p]);
      SumConcat(m, s.log, [s.programs[p][0].effect]);
    case Handing(p, w) =>
      ProgramsSumUpdate(m, s.programs, p, t.programs[p]);
      WorkersSumUpdate(m, s.workers, w, t.workers[w]);
    case Doing(w) =>
      WorkersSumUpdate(m, s.workers, w, t.workers[w]);
      SumConcat(m, s.log, [s.workers[w].state.rest[0]]);
    case Finishing(w) =>
      WorkersSumUpdate(m, s.workers, w, t.workers[w]);
    case Exiting(w) =>
      WorkersSumUpdate(m, s.workers, w, t.workers[w]);
  }

  lemma {:induction false} LedgerHolds(m: Measure, start: Pool, steps: seq<Step>)
    requires After(start, steps).Some?
    ensures var s := After(start, steps).value; Sum(m, s.log) + Ahead(m, s) == Sum(m, start.log) + Ahead(m, start)
  {
    if steps != [] {
      LedgerHolds(m, start, steps[..|steps| - 1]);
      LedgerStep(m, After(start, steps[..|steps| - 1]).value, steps[|steps| - 1]);
    }
  }

  lemma {:induction false} NothingAhead(m: Measure, s: Pool)
    requires Final(s)
    ensures Ahead(m, s) == 0
  {
    NoWorkers(m, s.workers);
    NoPrograms(m, s.programs);
  }

  lemma NoWorkers(m: Measure, ws: seq<Worker>)
    requires forall w | 0 <= w < |ws| :: WorkerWeight(m, ws[w]) == 0
    ensures WorkersSum(m, ws) == 0
  {
  }

  lemma NoPrograms(m: Measure, programs: seq<seq<Instruction>>)
    requires forall p | 0 <= p < |programs| :: ProgramSum(m, programs[p]) == 0
    ensures ProgramsSum(m, programs) == 0
  {
  }

  /** At the end of a run every effect of every script, and every queueing, was done exactly as often
      as it was planned. */
  lemma EveryEffectDoneOnce(start: Pool, steps: seq<Step>, e: Effect)
    requires After(start, steps).Some? && Final(After(start, steps).value)
    ensures Sum(Is(e), After(start, steps).value.log) == Sum(Is(e), start.log) + Ahead(Is(e), start)
  {
    LedgerHolds(Is(e), start, steps);
    NothingAhead(Is(e), After(start, steps).value);
  }

  // ---- Scripts and programs ----

  /** A gauge measure never has more to come down than what is up. */
  predicate Owed(m: Measure, effects: seq<Effect>) {
    -1 <= Sum(m, effects) <= 0
  }

  /** The next thing done to the limiter is to give back the slot taken for this job: its check is in
      progress. */
  predicate Checking(effects: seq<Effect>, job: string) {
    effects != [] && if effects[0].AcquireSlot? || effects[0].ReleaseSlot? then effects[0] == ReleaseSlot(job)
                     else Checking(effects[1..], job)
  }

  /** The rest of a script at any point of its handling. */
  predicate Tail(effects: seq<Effect>) {
    && Owed(QueueGauge, effects) && Owed(ActiveGauge, effects) && Owed(Slots, effects)
    && (effects != [] ==>
          && !effects[0].QueueJob? && Tail(effects[1..])
          && (effects[0].AcquireSlot? ==> Checking(effects[1..], effects[0].job)))
  }

  /** A whole script takes its job out of the queue once and leaves the other gauges as it found them. */
  predicate Script(effects: seq<Effect>) {
    && Tail(effects)
    && Sum(QueueGauge, effects) == -1 && Sum(ActiveGauge, effects) == 0 && Sum(Slots, effects) == 0
  }

  /** What producers do themselves: they count jobs in, and publish for those they do not hand out. */
  predicate Produced(e: Effect) {
    e.QueueJob? || e.RecordJobTransition? || e.RecordLease? || e.Post?
  }

  /** Whatever was queued is still to be sent. */
  predicate Program(program: seq<Instruction>) {
    && ProgramSum(QueueGauge, program) <= 0
    && (program != [] ==>
          && (if program[0].Do? then Produced(program[0].effect) else Script(program[0].item.script))
          && Program(program[1..]))
  }

  /** The phase has a worker. */
  predicate Served(ws: seq<Worker>, p: nat) {
    exists w :: 0 <= w < |ws| && ws[w].phase == p
  }

  predicate WellFormed(s: Pool) {
    && (forall p | 0 <= p < |s.programs| :: Program(s.programs[p]))
    && (forall w | 0 <= w < |s.workers| ::
          && s.workers[w].phase < |s.programs|
          && (s.workers[w].state.Busy? ==> Tail(s.workers[w].state.rest))
          && (s.workers[w].state.Exited? ==> s.programs[s.workers[w].phase] == []))
    && (forall p | 0 <= p < |s.programs| :: Served(s.workers, p))
  }

  /** The gauges and the slots are what the work ahead will take down. */
  predicate Balanced(s: Pool) {
    && s.gauges.queued + Ahead(QueueGauge, s) == 0
    && s.gauges.active + Ahead(ActiveGauge, s) == 0
    && s.held + Ahead(Slots, s) == 0
    && s.held <= s.capacity
  }

  predicate Inv(s: Pool) {
    WellFormed(s) && Balanced(s)
  }

  lemma {:induction false} ProgramSumsAreOwed(program: seq<Instruction>)
    requires Program(program)
    ensures ProgramSum(QueueGauge, program) <= 0
    ensures ProgramSum(ActiveGauge, program) == 0 && ProgramSum(Slots, program) == 0
  {
    if program != [] {
      ProgramSumsAreOwed(program[1..]);
    }
  }

  lemma {:induction false} ProgramsSumsAreOwed(programs: seq<seq<Instruction>>)
    requires forall p | 0 <= p < |programs| :: Program(programs[p])
    ensures ProgramsSum(QueueGauge, programs) <= 0
    ensures ProgramsSum(ActiveGauge, programs) == 0 && ProgramsSum(Slots, programs) == 0
  {
    if programs != [] {
      ProgramsSumsAreOwed(programs[..|programs| - 1]);
      ProgramSumsAreOwed(programs[|programs| - 1]);
    }
  }

  predicate GaugeMeasure(m: Measure) {
    m.QueueGauge? || m.ActiveGauge? || m.Slots?
  }

  /** The workers owe at least what one of them owes, and at most one each. */
  lemma {:induction false} WorkersOwe(m: Measure, ws: seq<Worker>, i: nat)
    requires GaugeMeasure(m) && forall w | 0 <= w < |ws| :: ws[w].state.Busy? ==> Tail(ws[w].state.rest)
    ensures -|ws| <= WorkersSum(m, ws) <= 0
    ensures i < |ws| ==> WorkerWeight(m, ws[i]) - (|ws| - 1) <= WorkersSum(m, ws) <= WorkerWeight(m, ws[i])
  {
    if ws != [] {
      var before := ws[..|ws| - 1];
      WorkersOwe(m, before, i);
      assert Owed(m, if ws[|ws| - 1].state.Busy? then ws[|ws| - 1].state.rest else []);
    }
  }

  /** What is ahead is at most what one worker has ahead. */
  lemma AheadIsOwed(m: Measure, s: Pool, w: nat)
    requires WellFormed(s) && GaugeMeasure(m) && w < |s.workers|
    ensures Ahead(m, s) <= WorkerWeight(m, s.workers[w])
  {
    WorkersOwe(m, s.workers, w);
    ProgramsSumsAreOwed(s.programs);
  }

  /** When a worker is about to lower a gauge, the gauge is up: the clamps at zero never fire, and the
      limiter is never drained below zero. */
  lemma ClampsNeverFire(s: Pool, w: nat)
    requires Inv(s) && BusyWorker(s, w) && s.workers[w].state.rest != []
    ensures var e := s.workers[w].state.rest[0];
            && (e.StartJob? || e.DropQueuedJob? ==> 0 < s.gauges.queued)
            && (e.FinishJob? ==> 0 < s.gauges.active)
            && (e.ReleaseSlot? ==> 0 < s.held)
  {
    AheadIsOwed(QueueGauge, s, w);
    AheadIsOwed(ActiveGauge, s, w);
    AheadIsOwed(Slots, s, w);
    assert Tail(s.workers[w].state.rest) && Tail(s.workers[w].state.rest[1..]);
  }

  lemma StepKeepsWellFormed(s: Pool, step: Step)
    requires WellFormed(s) && Enabled(s, step)
    ensures WellFormed(Apply(s, step))
  {
    var t := Apply(s, step);
    forall p | 0 <= p < |t.programs| ensures Served(t.workers, p) {
      assert Served(s.workers, p);
      var w :| 0 <= w < |s.workers| && s.workers[w].phase == p;
      assert t.workers[w].phase == p;
    }
    if step.Producing? || step.Handing? {
      assert Program(s.programs[step.p]);
    }
  }

  lemma StepKeepsInv(s: Pool, step: Step)
    requires Inv(s) && Enabled(s, step)
    ensures Inv(Apply(s, step))
  {
    StepKeepsWellFormed(s, step);
    var t := Apply(s, step);
    LedgerStep(QueueGauge, s, step);
    LedgerStep(ActiveGauge, s, step);
    LedgerStep(Slots, s, step);
    if step.Doing? {
      var e := s.workers[step.w].state.rest[0];
      ClampsNeverFire(s, step.w);
      SumConcat(QueueGauge, s.log, [e]);
      SumConcat(ActiveGauge, s.log, [e]);
      SumConcat(Slots, s.log, [e]);
      assert !e.QueueJob? by { assert Tail(s.workers[step.w].state.rest); }
    } else if step.Producing? {
      assert Program(s.programs[step.p]);
      var e := s.programs[step.p][0].effect;
      SumConcat(QueueGauge, s.log, [e]);
      SumConcat(ActiveGauge, s.log, [e]);
      SumConcat(Slots, s.log, [e]);
    }
  }

  lemma {:induction false} AlwaysInv(start: Pool, steps: seq<Step>)
    requires Inv(start) && After(start, steps).Some?
    ensures Inv(After(start, steps).value)
  {
    if steps != [] {
      AlwaysInv(start, steps[..|steps| - 1]);
      StepKeepsInv(After(start, steps[..|steps| - 1]).value, steps[|steps| - 1]);
    }
  }

  /** The gauges are exact in every reachable state: the queue gauge is what was queued less what was
      started or dropped, the active gauge is what was started less what was finished, the slots held
      are those acquired less those released and never more than the capacity; and after the run all
      three are zero. */
  lemma GaugesAreExact(start: Pool, steps: seq<Step>)
    requires Inv(start) && start.log == [] && After(start, steps).Some?
    ensures var s := After(start, steps).value;
            && s.gauges.queued == start.gauges.queued + Sum(QueueGauge, s.log) >= 0
            && s.gauges.active == start.gauges.active + Sum(ActiveGauge, s.log) >= 0
            && s.held == start.held + Sum(Slots, s.log) <= s.capacity
            && (Final(s) ==> s.gauges.queued == s.gauges.active == s.held == 0)
  {
    var s := After(start, steps).value;
    AlwaysInv(start, steps);
    LedgerHolds(QueueGauge, start, steps);
    LedgerHolds(ActiveGauge, start, steps);
    LedgerHolds(Slots, start, steps);
    WorkersOwe(QueueGauge, s.workers, 0);
    WorkersOwe(ActiveGauge, s.workers, 0);
    ProgramsSumsAreOwed(s.programs);
    if Final(s) {
      NothingAhead(QueueGauge, s);
      NothingAhead(ActiveGauge, s);
      NothingAhead(Slots, s);
    }
  }

  // ---- Progress ----

  lemma {:induction false} AcquirersHoldNothing(ws: seq<Worker>)
    requires forall w | 0 <= w < |ws| && ws[w].state.Busy? ::
               Tail(ws[w].state.rest) && ws[w].state.rest != [] && ws[w].state.rest[0].AcquireSlot?
    ensures WorkersSum(Slots, ws) == 0
  {
    forall w | 0 <= w < |ws| ensures WorkerWeight(Slots, ws[w]) == 0 {
      if ws[w].state.Busy? {
        assert Tail(ws[w].state.rest[1..]);
      }
    }
    NoWorkers(Slots, ws);
  }

  /** The step a worker can take by itself, if the limiter is not in its way. */
  predicate Movable(s: Pool, w: nat) {
    && BusyWorker(s, w)
    && (s.workers[w].state.rest != [] && s.workers[w].state.rest[0].AcquireSlot? ==> s.held < s.capacity)
  }

  lemma MovableMoves(s: Pool, w: nat)
    requires Inv(s) && Movable(s, w)
    ensures exists step :: Enabled(s, step)
  {
    if s.workers[w].state.rest == [] {
      assert Enabled(s, Finishing(w));
    } else {
      ClampsNeverFire(s, w);
      assert Enabled(s, Doing(w));
    }
  }

  /** No reachable state short of the end is stuck. */
  lemma SomeStepIsEnabled(s: Pool)
    requires Inv(s) && 1 <= s.capacity && !Final(s)
    ensures exists step :: Enabled(s, step)
  {
    if w :| Movable(s, w) {
      MovableMoves(s, w);
    } else if w :| BusyWorker(s, w) {
      AcquirersHoldNothing(s.workers) by {
        forall v | 0 <= v < |s.workers| && s.workers[v].state.Busy?
          ensures Tail(s.workers[v].state.rest) && s.workers[v].state.rest != []
                 && s.workers[v].state.rest[0].AcquireSlot?
        {
          assert !Movable(s, v);
        }
      }
      ProgramsSumsAreOwed(s.programs);
      assert s.held == 0;
      assert Movable(s, w);
    } else if p :| 0 <= p < |s.programs| && s.programs[p] != [] {
      assert Served(s.workers, p);
      var w :| 0 <= w < |s.workers| && s.workers[w].phase == p;
      assert !BusyWorker(s, w);
      assert Enabled(s, Producing(p)) || Enabled(s, Handing(p, w));
    } else {
      var w :| 0 <= w < |s.workers| && !s.workers[w].state.Exited?;
      assert !BusyWorker(s, w);
      assert Enabled(s, Exiting(w));
    }
  }

  function WorkerWork(w: Worker): nat {
    match w.state case Idle => 1 case Busy(_, rest) => 2 + |rest| case Exited => 0
  }

  function WorkersWork(ws: seq<Worker>): nat {
    if ws == [] then 0 else WorkersWork(ws[..|ws| - 1]) + WorkerWork(ws[|ws| - 1])
  }

  function ProgramWork(program: seq<Instruction>): nat {
    if program == [] then 0
    else (if program[0].Do? then 1 else 2 + |program[0].item.script|) + ProgramWork(program[1..])
  }

  function ProgramsWork(programs: seq<seq<Instruction>>): nat {
    if programs == [] then 0
    else ProgramsWork(programs[..|programs| - 1]) + ProgramWork(programs[|programs| - 1])
  }

  /** An upper bound on the steps left. */
  function Work(s: Pool): nat {
    WorkersWork(s.workers) + ProgramsWork(s.programs)
  }

  lemma {:induction false} WorkersWorkUpdate(ws: seq<Worker>, i: nat, w: Worker)
    requires i < |ws|
    ensures WorkersWork(ws[i := w]) == WorkersWork(ws) - WorkerWork(ws[i]) + WorkerWork(w)
  {
    var last := |ws| - 1;
    if i == last {
      assert ws[i := w][..last] == ws[..last];
    } else {
      assert ws[i := w][..last] == ws[..last][i := w];
      WorkersWorkUpdate(ws[..last], i, w);
    }
  }

  lemma {:induction false} ProgramsWorkUpdate(programs: seq<seq<Instruction>>, i: nat, program: seq<Instruction>)
    requires i < |programs|
    ensures ProgramsWork(programs[i := program])
           == ProgramsWork(programs) - ProgramWork(programs[i]) + ProgramWork(program)
  {
    var last := |programs| - 1;
    if i == last {
      assert programs[i := program][..last] == programs[..last];
    } else {
      assert programs[i := program][..last] == programs[..last][i := program];
      ProgramsWorkUpdate(programs[..last], i, program);
    }
  }

  lemma StepDoesWork(s: Pool, step: Step)
    requires Enabled(s, step)
    ensures Work(Apply(s, step)) < Work(s)
  {
    var t := Apply(s, step);
    match step
    case Producing(p) => ProgramsWorkUpdate(s.programs, p, t.programs[p]);
    case Handing(p, w) =>
      ProgramsWorkUpdate(s.programs, p, t.programs[p]);
      WorkersWorkUpdate(s.workers, w, t.workers[w]);
    case Doing(w) => WorkersWorkUpdate(s.workers, w, t.workers[w]);
    case Finishing(w) => WorkersWorkUpdate(s.workers, w, t.workers[w]);
    case Exiting(w) => WorkersWorkUpdate(s.workers, w, t.workers[w]);
  }

  lemma {:induction false} RunsAreBounded(start: Pool, steps: seq<Step>)
    requires After(start, steps).Some?
    ensures |steps| + Work(After(start, steps).value) <= Work(start)
  {
    if steps != [] {
      RunsAreBounded(start, steps[..|steps| - 1]);
      StepDoesWork(After(start, steps[..|steps| - 1]).value, steps[|steps| - 1]);
    }
  }

  /** Every run ends: it takes at most Work(start) steps, and it can only stop when every item was
      sent and every worker has left. */
  lemma EveryRunEnds(start: Pool, steps: seq<Step>)
    requires Inv(start) && 1 <= start.capacity && After(start, steps).Some?
    ensures |steps| <= Work(start)
    ensures !Final(After(start, steps).value) ==> exists step :: After(start, steps + [step]).Some?
  {
    RunsAreBounded(start, steps);
    AlwaysInv(start, steps);
    CapacityIsConstant(start, steps);
    var s := After(start, steps).value;
    if !Final(s) {
      SomeStepIsEnabled(s);
      var step :| Enabled(s, step);
      assert (steps + [step])[..|steps|] == steps;
      assert After(start, steps + [step]).Some?;
    }
  }

  lemma {:induction false} CapacityIsConstant(start: Pool, steps: seq<Step>)
    requires After(start, steps).Some?
    ensures After(start, steps).value.capacity == start.capacity
    ensures |After(start, steps).value.workers| == |start.workers|
  {
    if steps != [] {
      CapacityIsConstant(start, steps[..|steps| - 1]);
    }
  }

  /** With no more workers than slots, no worker ever waits for one. */
  lemma NobodyWaitsForASlot(start: Pool, steps: seq<Step>, w: nat)
    requires Inv(start) && |start.workers| <= start.capacity && After(start, steps).Some?
    requires BusyWorker(After(start, steps).value, w) && After(start, steps).value.workers[w].state.rest != []
    ensures Enabled(After(start, steps).value, Doing(w))
  {
    var s := After(start, steps).value;
    AlwaysInv(start, steps);
    CapacityIsConstant(start, steps);
    ClampsNeverFire(s, w);
    WorkersOwe(Slots, s.workers, w);
    ProgramsSumsAreOwed(s.programs);
    assert Tail(s.workers[w].state.rest[1..]);
  }

  // ---- Items ----

  function One(condition: bool): nat {
    if condition then 1 else 0
  }

  predicate HasItem(w: Worker, item: Item) {
    w.state.Busy? && w.state.item == item
  }

  function BusyCount(ws: seq<Worker>, item: Item): nat {
    if ws == [] then 0 else BusyCount(ws[..|ws| - 1], item) + One(HasItem(ws[|ws| - 1], item))
  }

  function ProgramCount(program: seq<Instruction>, item: Item): nat {
    if program == [] then 0 else One(program[0] == Send(item)) + ProgramCount(program[1..], item)
  }

  function PendingCount(programs: seq<seq<Instruction>>, item: Item): nat {
    if programs == [] then 0
    else PendingCount(programs[..|programs| - 1], item) + ProgramCount(programs[|programs| - 1], item)
  }

  function HandledCount(handled: seq<(nat, Item)>, item: Item): nat {
    if handled == [] then 0
    else HandledCount(handled[..|handled| - 1], item) + One(handled[|handled| - 1].1 == item)
  }

  /** How many copies of an item there are, wherever they are. */
  function Copies(s: Pool, item: Item): nat {
    HandledCount(s.handled, item) + BusyCount(s.workers, item) + PendingCount(s.programs, item)
  }

  lemma {:induction false} BusyCountUpdate(ws: seq<Worker>, i: nat, w: Worker, item: Item)
    requires i < |ws|
    ensures BusyCount(ws[i := w], item) == BusyCount(ws, item) - One(HasItem(ws[i], item)) + One(HasItem(w, item))
  {
    var last := |ws| - 1;
    if i == last {
      assert ws[i := w][..last] == ws[..last];
    } else {
      assert ws[i := w][..last] == ws[..last][i := w];
      BusyCountUpdate(ws[..last], i, w, item);
    }
  }

  lemma {:induction false} PendingCountUpdate(programs: seq<seq<Instruction>>, i: nat, program: seq<Instruction>,
                                              item: Item)
    requires i < |programs|
    ensures PendingCount(programs[i := program], item)
         == PendingCount(programs, item) - ProgramCount(programs[i], item) + ProgramCount(program, item)
  {
    var last := |programs| - 1;
    if i == last {
      assert programs[i := program][..last] == programs[..last];
    } else {
      assert programs[i := program][..last] == programs[..last][i := program];
      PendingCountUpdate(programs[..last], i, program, item);
    }
  }

  lemma StepKeepsCopies(s: Pool, step: Step, item: Item)
    requires Enabled(s, step)
    ensures Copies(Apply(s, step), item) == Copies(s, item)
  {
    var t := Apply(s, step);
    match step
    case Producing(p) => PendingCountUpdate(s.programs, p, t.programs[p], item);
    case Handing(p, w) =>
      PendingCountUpdate(s.programs, p, t.programs[p], item);
      BusyCountUpdate(s.workers, w, t.workers[w], item);
    case Doing(w) => BusyCountUpdate(s.workers, w, t.workers[w], item);
    case Finishing(w) =>
      BusyCountUpdate(s.workers, w, t.workers[w], item);
      assert t.handled[..|t.handled| - 1] == s.handled;
    case Exiting(w) => BusyCountUpdate(s.workers, w, t.workers[w], item);
  }

  lemma {:induction false} CopiesAreConserved(start: Pool, steps: seq<Step>, item: Item)
    requires After(start, steps).Some?
    ensures Copies(After(start, steps).value, item) == Copies(start, item)
  {
    if steps != [] {
      CopiesAreConserved(start, steps[..|steps| - 1], item);
      StepKeepsCopies(After(start, steps[..|steps| - 1]).value, steps[|steps| - 1], item);
    }
  }

  lemma NobodyBusy(ws: seq<Worker>, item: Item)
    requires forall w | 0 <= w < |ws| :: !ws[w].state.Busy?
    ensures BusyCount(ws, item) == 0
  {
  }

  lemma NothingPending(programs: seq<seq<Instruction>>, item: Item)
    requires forall p | 0 <= p < |programs| :: programs[p] == []
    ensures PendingCount(programs, item) == 0
  {
  }

  lemma {:induction false} HandledAt(handled: seq<(nat, Item)>, i: nat, j: nat)
    requires i <= j < |handled| && handled[i].1 == handled[j].1
    ensures (if i < j then 2 else 1) <= HandledCount(handled, handled[i].1)
  {
    var before := handled[..|handled| - 1];
    if j < |before| {
      HandledAt(before, i, j);
    } else if i < j {
      HandledAt(before, i, i);
    }
  }

  lemma {:induction false} HandledSomewhere(handled: seq<(nat, Item)>, item: Item)
    requires 0 < HandledCount(handled, item)
    ensures exists i :: 0 <= i < |handled| && handled[i].1 == item
  {
    var before := handled[..|handled| - 1];
    if 0 < HandledCount(before, item) {
      HandledSomewhere(before, item);
      var i :| 0 <= i < |before| && before[i].1 == item;
      assert handled[i].1 == item;
    } else {
      assert handled[|handled| - 1].1 == item;
    }
  }

  /** Exactly once: when the phases return, each item dispatched once was handled by one worker, one
      time, and an item never dispatched was not handled at all. */
  lemma HandledAsOftenAsPlanned(start: Pool, steps: seq<Step>, item: Item)
    requires After(start, steps).Some? && Final(After(start, steps).value)
    requires Copies(start, item) <= 1 && start.handled == []
    ensures var handled := After(start, steps).value.handled;
            && (Copies(start, item) == 1 <==> exists i :: 0 <= i < |handled| && handled[i].1 == item)
            && forall i, j | 0 <= i < j < |handled| && handled[i].1 == item :: handled[j].1 != item
  {
    var s := After(start, steps).value;
    CopiesAreConserved(start, steps, item);
    NobodyBusy(s.workers, item);
    NothingPending(s.programs, item);
    if Copies(start, item) == 1 {
      HandledSomewhere(s.handled, item);
    }
    forall i, j | 0 <= i <= j < |s.handled| && s.handled[i].1 == item
      ensures 1 <= HandledCount(s.handled, item) && (i < j ==> s.handled[j].1 != item)
    {
      HandledAt(s.handled, i, i);
      if s.handled[j].1 == item {
        HandledAt(s.handled, i, j);
      }
    }
  }

  // ---- Checks in progress ----

  /** In a script, the check of a job is in progress exactly when its slot is still to be given back. */
  lemma {:induction false} InCheckIff(rest: seq<Effect>, job: string)
    requires Tail(rest)
    ensures Sum(InCheck(job), rest) == (if Checking(rest, job) then -1 else 0)
    ensures Checking(rest, job) ==> Sum(Slots, rest) == -1
  {
    if rest != [] {
      InCheckIff(rest[1..], job);
      if rest[0].AcquireSlot? && rest[0].job != job {
        OneCheckAtATime(rest[1..], rest[0].job, job);
      }
    }
  }

  lemma {:induction false} OneCheckAtATime(effects: seq<Effect>, a: string, b: string)
    requires Checking(effects, a) && a != b
    ensures !Checking(effects, b)
  {
    if !effects[0].AcquireSlot? && !effects[0].ReleaseSlot? {
      OneCheckAtATime(effects[1..], a, b);
    }
  }

  lemma {:induction false} NoCheckOutsideScripts(programs: seq<seq<Instruction>>, job: string)
    requires forall p | 0 <= p < |programs| :: Program(programs[p])
    ensures ProgramsSum(InCheck(job), programs) == 0
  {
    forall p | 0 <= p < |programs| ensures ProgramSum(InCheck(job), programs[p]) == 0 {
      NoCheckInProgram(programs[p], job);
    }
    NoPrograms(InCheck(job), programs);
  }

  lemma {:induction false} NoCheckInProgram(program: seq<Instruction>, job: string)
    requires Program(program)
    ensures ProgramSum(InCheck(job), program) == 0
  {
    if program != [] {
      NoCheckInProgram(program[1..], job);
      if program[0].Send? {
        InCheckIff(program[0].item.script, job);
      }
    }
  }

  /** Each worker with a check of the job in progress takes one off the sum. */
  lemma {:induction false} CheckersCount(ws: seq<Worker>, job: string, i: nat, j: nat)
    requires forall w | 0 <= w < |ws| && ws[w].state.Busy? :: Tail(ws[w].state.rest)
    ensures WorkersSum(InCheck(job), ws) <= 0
    ensures i < |ws| ==> WorkersSum(InCheck(job), ws) <= WorkerWeight(InCheck(job), ws[i]) <= 0
    ensures i < j < |ws| ==>
              WorkersSum(InCheck(job), ws) <= WorkerWeight(InCheck(job), ws[i]) + WorkerWeight(InCheck(job), ws[j])
  {
    if ws != [] {
      CheckersCount(ws[..|ws| - 1], job, i, j);
      if ws[|ws| - 1].state.Busy? {
        InCheckIff(ws[|ws| - 1].state.rest, job);
      }
    }
  }

  lemma {:induction false} StartsBoundChecks(effects: seq<Effect>, job: string)
    ensures Sum(InCheck(job), effects) <= Sum(Checks(job), effects)
    ensures 0 <= Sum(Checks(job), effects)
  {
    if effects != [] {
      StartsBoundChecks(effects[1..], job);
    }
  }

  lemma {:induction false} PlannedChecksAreNatural(s: Pool, job: string)
    ensures 0 <= Ahead(Checks(job), s)
  {
    WorkersChecksAreNatural(s.workers, job);
    ProgramsChecksAreNatural(s.programs, job);
  }

  lemma WorkersChecksAreNatural(ws: seq<Worker>, job: string)
    ensures 0 <= WorkersSum(Checks(job), ws)
  {
    if ws != [] && ws[|ws| - 1].state.Busy? {
      StartsBoundChecks(ws[|ws| - 1].state.rest, job);
    }
  }

  lemma ProgramChecksAreNatural(program: seq<Instruction>, job: string)
    ensures 0 <= ProgramSum(Checks(job), program)
  {
    if program != [] && program[0].Send? {
      StartsBoundChecks(program[0].item.script, job);
    }
  }

  lemma ProgramsChecksAreNatural(programs: seq<seq<Instruction>>, job: string)
    ensures 0 <= ProgramsSum(Checks(job), programs)
  {
    if programs != [] {
      ProgramChecksAreNatural(programs[|programs| - 1], job);
    }
  }

  predicate CheckInProgress(s: Pool, w: nat, job: string) {
    BusyWorker(s, w) && Checking(s.workers[w].state.rest, job)
  }

  /** If a run plans at most one check of a job, no two workers ever have that check in progress. */
  lemma NoTwoChecksOfOneJob(start: Pool, steps: seq<Step>, job: string, v: nat, w: nat)
    requires Inv(start) && start.log == [] && After(start, steps).Some?
    requires Ahead(Checks(job), start) <= 1 && Ahead(InCheck(job), start) == 0
    requires v < w
    ensures !(CheckInProgress(After(start, steps).value, v, job) && CheckInProgress(After(start, steps).value, w, job))
  {
    var s := After(start, steps).value;
    AlwaysInv(start, steps);
    LedgerHolds(Checks(job), start, steps);
    LedgerHolds(InCheck(job), start, steps);
    PlannedChecksAreNatural(s, job);
    StartsBoundChecks(s.log, job);
    NoCheckOutsideScripts(s.programs, job);
    CheckersCount(s.workers, job, v, w);
    if CheckInProgress(s, v, job) && CheckInProgress(s, w, job) {
      InCheckIff(s.workers[v].state.rest, job);
      InCheckIff(s.workers[w].state.rest, job);
    }
  }

  // ---- Stages ----

  /** The stage a job is in, given what is left of its handling: the one its next transition leaves. */
  function CurrentStage(rest: seq<Effect>): Option<Stage> {
    if rest == [] then None
    else if rest[0].RecordJobTransition? then Some(rest[0].from)
    else CurrentStage(rest[1..])
  }

  predicate Passing(stage: Stage) {
    stage.Claimed? || stage.Retry? || stage.Queued? || stage.Running?
  }

  /** The transitions the code records. */
  predicate Known(e: Effect) {
    e.RecordJobTransition? ==>
      match e.from
      case Received => e.to.Claimed?
      case Claimed => e.to.Duplicate? || e.to.Retry? || e.to.Queued?
      case Retry => e.to.Queued?
      case Queued => e.to.Released? || e.to.Invalid? || e.to.Running?
      case Running => e.to.Completed? || e.to.CompletionFailed? || e.to.Released?
      case _ => false
  }

  /** Each transition leaves the stage the one before entered, and the last one enters a final stage. */
  predicate Chain(rest: seq<Effect>) {
    rest != [] ==>
      && Chain(rest[1..]) && Known(rest[0])
      && (rest[0].RecordJobTransition? ==>
            CurrentStage(rest[1..]) == if Passing(rest[0].to) then Some(rest[0].to) else None)
  }

  lemma {:induction false} ChainBalance(rest: seq<Effect>, stage: Stage)
    requires Chain(rest) && Passing(stage)
    ensures Sum(Leaves(stage), rest) - Sum(Enters(stage), rest) == One(CurrentStage(rest) == Some(stage))
  {
    if rest != [] {
      ChainBalance(rest[1..], stage);
    }
  }

  /** What a program still does for one job: what its producer does, then its handling. */
  function RestOf(program: seq<Instruction>, job: nat): seq<Effect> {
    if program == [] then []
    else
      var later := RestOf(program[1..], job);
      match program[0]
      case Do(j, e) => if j == job then [e] + later else later
      case Send(item) => if item.index == job then item.script + later else later
  }

  /** A number no job of the program reaches. */
  function Bound(program: seq<Instruction>): nat {
    if program == [] then 0
    else
      var job, later := if program[0].Do? then program[0].job else program[0].item.index, Bound(program[1..]);
      if later <= job then job + 1 else later
  }

  /** How many of the first n jobs of a program are in a stage. */
  function JobsBelow(program: seq<Instruction>, n: nat, stage: Stage): nat {
    if n == 0 then 0 else JobsBelow(program, n - 1, stage) + One(CurrentStage(RestOf(program, n - 1)) == Some(stage))
  }

  function ProgramInStage(program: seq<Instruction>, stage: Stage): nat {
    JobsBelow(program, Bound(program), stage)
  }

  function PendingInStage(programs: seq<seq<Instruction>>, stage: Stage): nat {
    if programs == [] then 0
    else PendingInStage(programs[..|programs| - 1], stage) + ProgramInStage(programs[|programs| - 1], stage)
  }

  function WorkersInStage(ws: seq<Worker>, stage: Stage): nat {
    if ws == [] then 0
    else WorkersInStage(ws[..|ws| - 1], stage)
         + One(ws[|ws| - 1].state.Busy? && CurrentStage(ws[|ws| - 1].state.rest) == Some(stage))
  }

  /** The jobs in a stage: with their producer, or with a worker. */
  function JobsInStage(s: Pool, stage: Stage): nat {
    PendingInStage(s.programs, stage) + WorkersInStage(s.workers, stage)
  }

  /** Once a job is handed out, its producer does nothing more for it. */
  predicate SentLast(program: seq<Instruction>) {
    forall k | 0 <= k < |program| && program[k].Send? :: RestOf(program[k + 1..], program[k].item.index) == []
  }

  /** What is left for each job is a chain. */
  ghost predicate ChainedProgram(program: seq<Instruction>) {
    (forall job: nat :: Chain(RestOf(program, job))) && SentLast(program)
  }

  /** Everything still to be handled is a chain. */
  ghost predicate Chained(s: Pool) {
    && (forall p | 0 <= p < |s.programs| :: ChainedProgram(s.programs[p]))
    && (forall w | 0 <= w < |s.workers| && s.workers[w].state.Busy? :: Chain(s.workers[w].state.rest))
    && (forall e | e in s.log :: Known(e))
  }

  /** Taking the first instruction off leaves chains, and what is taken off is fit to be done. */
  lemma FirstInstruction(program: seq<Instruction>)
    requires ChainedProgram(program) && program != []
    ensures ChainedProgram(program[1..])
    ensures if program[0].Do? then Known(program[0].effect) else Chain(program[0].item.script)
  {
    var later := program[1..];
    var mine := if program[0].Do? then program[0].job else program[0].item.index;
    assert Chain(RestOf(program, mine));
    if program[0].Do? {
      assert RestOf(program, mine)[1..] == RestOf(later, mine);
    } else {
      assert program[0 + 1..] == later;
      assert RestOf(later, mine) == [];
      assert program[0].item.script + [] == program[0].item.script;
    }
    forall job: nat ensures Chain(RestOf(later, job)) {
      assert Chain(RestOf(program, job));
    }
    forall k | 0 <= k < |later| && later[k].Send? ensures RestOf(later[k + 1..], later[k].item.index) == [] {
      assert program[k + 1].Send? && program[k + 1 + 1..] == later[k + 1..];
    }
  }

  lemma StepKeepsChained(s: Pool, step: Step)
    requires Chained(s) && Enabled(s, step)
    ensures Chained(Apply(s, step))
  {
    if step.Producing? || step.Handing? {
      FirstInstruction(s.programs[step.p]);
    }
  }

  lemma {:induction false} AlwaysChained(start: Pool, steps: seq<Step>)
    requires Chained(start) && After(start, steps).Some?
    ensures Chained(After(start, steps).value)
  {
    if steps != [] {
      AlwaysChained(start, steps[..|steps| - 1]);
      StepKeepsChained(After(start, steps[..|steps| - 1]).value, steps[|steps| - 1]);
    }
  }

  /** What a program does, added up job by job. */
  function SumBelow(m: Measure, program: seq<Instruction>, n: nat): int {
    if n == 0 then 0 else SumBelow(m, program, n - 1) + Sum(m, RestOf(program, n - 1))
  }

  lemma {:induction false} SumBelowFirst(m: Measure, program: seq<Instruction>, n: nat)
    requires program != []
    ensures var mine := if program[0].Do? then program[0].job else program[0].item.index;
            var first := if program[0].Do? then Weight(m, program[0].effect) else Sum(m, program[0].item.script);
            SumBelow(m, program, n) == SumBelow(m, program[1..], n) + if mine < n then first else 0
  {
    if n > 0 {
      SumBelowFirst(m, program, n - 1);
      var later := RestOf(program[1..], n - 1);
      match program[0]
      case Do(job, e) =>
        assert job == n - 1 ==> RestOf(program, n - 1)[1..] == later;
      case Send(item) =>
        SumConcat(m, item.script, later);
    }
  }

  lemma {:induction false} SumBelowIsAll(m: Measure, program: seq<Instruction>, n: nat)
    requires Bound(program) <= n
    ensures SumBelow(m, program, n) == ProgramSum(m, program)
  {
    if program == [] {
      NothingBelow(m, n);
    } else {
      SumBelowIsAll(m, program[1..], n);
      SumBelowFirst(m, program, n);
    }
  }

  lemma NothingBelow(m: Measure, n: nat)
    ensures SumBelow(m, [], n) == 0
  {
  }

  lemma {:induction false} BalanceBelow(program: seq<Instruction>, n: nat, stage: Stage)
    requires ChainedProgram(program) && Passing(stage)
    ensures SumBelow(Leaves(stage), program, n) - SumBelow(Enters(stage), program, n) == JobsBelow(program, n, stage)
  {
    if n > 0 {
      BalanceBelow(program, n - 1, stage);
      assert Chain(RestOf(program, n - 1));
      ChainBalance(RestOf(program, n - 1), stage);
    }
  }

  lemma ProgramBalance(program: seq<Instruction>, stage: Stage)
    requires ChainedProgram(program) && Passing(stage)
    ensures ProgramSum(Leaves(stage), program) - ProgramSum(Enters(stage), program) == ProgramInStage(program, stage)
  {
    SumBelowIsAll(Leaves(stage), program, Bound(program));
    SumBelowIsAll(Enters(stage), program, Bound(program));
    BalanceBelow(program, Bound(program), stage);
  }

  lemma {:induction false} ProgramsBalance(programs: seq<seq<Instruction>>, stage: Stage)
    requires (forall p | 0 <= p < |programs| :: ChainedProgram(programs[p])) && Passing(stage)
    ensures ProgramsSum(Leaves(stage), programs) - ProgramsSum(Enters(stage), programs)
           == PendingInStage(programs, stage)
  {
    if programs != [] {
      ProgramsBalance(programs[..|programs| - 1], stage);
      ProgramBalance(programs[|programs| - 1], stage);
    }
  }

  lemma {:induction false} WorkersBalance(ws: seq<Worker>, stage: Stage)
    requires (forall w | 0 <= w < |ws| && ws[w].state.Busy? :: Chain(ws[w].state.rest)) && Passing(stage)
    ensures WorkersSum(Leaves(stage), ws) - WorkersSum(Enters(stage), ws) == WorkersInStage(ws, stage)
  {
    if ws != [] {
      WorkersBalance(ws[..|ws| - 1], stage);
      if ws[|ws| - 1].state.Busy? {
        ChainBalance(ws[|ws| - 1].state.rest, stage);
      }
    }
  }

  /** What is ahead leaves a stage as often as it enters it, and once more for each job that is in it. */
  lemma StageBalance(s: Pool, stage: Stage)
    requires Chained(s) && Passing(stage)
    ensures Ahead(Leaves(stage), s) - Ahead(Enters(stage), s) == JobsInStage(s, stage)
  {
    ProgramsBalance(s.programs, stage);
    WorkersBalance(s.workers, stage);
  }

  // ---- Flows in the transition counters ----

  /** The counters out of a stage a job can be in, added up. */
  function OutOf(t: Gauges, stage: Stage): nat
    requires Passing(stage)
  {
    match stage
    case Claimed => Count(t, Claimed, Duplicate) + Count(t, Claimed, Retry) + Count(t, Claimed, Queued)
    case Retry => Count(t, Retry, Queued)
    case Queued => Count(t, Queued, Released) + Count(t, Queued, Invalid) + Count(t, Queued, Running)
    case Running => Count(t, Running, Completed) + Count(t, Running, CompletionFailed) + Count(t, Running, Released)
  }

  /** The counters into it. */
  function Into(t: Gauges, stage: Stage): nat
    requires Passing(stage)
  {
    match stage
    case Claimed => Count(t, Received, Claimed)
    case Retry => Count(t, Claimed, Retry)
    case Queued => Count(t, Claimed, Queued) + Count(t, Retry, Queued)
    case Running => Count(t, Queued, Running)
  }

  lemma OneMoreOutOf(t: Gauges, e: Effect, stage: Stage)
    requires Passing(stage) && Known(e)
    ensures OutOf(Record(t, e), stage) == OutOf(t, stage) + Weight(Leaves(stage), e)
  {
    match stage
    case Claimed =>
      CountAfter(t, e, Claimed, Duplicate); CountAfter(t, e, Claimed, Retry); CountAfter(t, e, Claimed, Queued);
    case Retry =>
      CountAfter(t, e, Retry, Queued);
    case Queued =>
      CountAfter(t, e, Queued, Released); CountAfter(t, e, Queued, Invalid); CountAfter(t, e, Queued, Running);
    case Running =>
      CountAfter(t, e, Running, Completed);
      CountAfter(t, e, Running, CompletionFailed);
      CountAfter(t, e, Running, Released);
  }

  lemma OneMoreInto(t: Gauges, e: Effect, stage: Stage)
    requires Passing(stage) && Known(e)
    ensures Into(Record(t, e), stage) == Into(t, stage) + Weight(Enters(stage), e)
  {
    match stage
    case Claimed => CountAfter(t, e, Received, Claimed);
    case Retry => CountAfter(t, e, Claimed, Retry);
    case Queued => CountAfter(t, e, Claimed, Queued); CountAfter(t, e, Retry, Queued);
    case Running => CountAfter(t, e, Queued, Running);
  }

  lemma {:induction false} FlowsOfRecordAll(t: Gauges, effects: seq<Effect>, stage: Stage)
    requires Passing(stage) && forall e | e in effects :: Known(e)
    ensures OutOf(RecordAll(t, effects), stage) == OutOf(t, stage) + Sum(Leaves(stage), effects)
    ensures Into(RecordAll(t, effects), stage) == Into(t, stage) + Sum(Enters(stage), effects)
  {
    if effects != [] {
      var before, last := effects[..|effects| - 1], effects[|effects| - 1];
      FlowsOfRecordAll(t, before, stage);
      OneMoreOutOf(RecordAll(t, before), last, stage);
      OneMoreInto(RecordAll(t, before), last, stage);
      assert effects == before + [last];
      SumConcat(Leaves(stage), before, [last]);
      SumConcat(Enters(stage), before, [last]);
    }
  }

  /** The counters hold exactly the effects in the history. */
  lemma {:induction false} GaugesFollowLog(start: Pool, steps: seq<Step>)
    requires start.log == [] && After(start, steps).Some?
    ensures var s := After(start, steps).value; s.gauges == RecordAll(start.gauges, s.log)
  {
    if steps != [] {
      GaugesFollowLog(start, steps[..|steps| - 1]);
      var before, s := After(start, steps[..|steps| - 1]).value, After(start, steps).value;
      assert s.log != before.log ==> s.log[..|s.log| - 1] == before.log;
    }
  }

  /** Flow conservation: if at the start each stage's inflow exceeded its outflow by the jobs in it,
      that stays true in every reachable state, so after the run the two are equal. */
  lemma FlowIsConserved(start: Pool, steps: seq<Step>, stage: Stage)
    requires start.log == [] && Chained(start) && Passing(stage) && After(start, steps).Some?
    requires Into(start.gauges, stage) == OutOf(start.gauges, stage) + JobsInStage(start, stage)
    ensures var s := After(start, steps).value;
            && Into(s.gauges, stage) == OutOf(s.gauges, stage) + JobsInStage(s, stage)
            && (Final(s) ==> Into(s.gauges, stage) == OutOf(s.gauges, stage))
  {
    var s := After(start, steps).value;
    AlwaysChained(start, steps);
    StageBalance(start, stage);
    StageBalance(s, stage);
    LedgerHolds(Leaves(stage), start, steps);
    LedgerHolds(Enters(stage), start, steps);
    GaugesFollowLog(start, steps);
    FlowsOfRecordAll(start.gauges, s.log, stage);
    if Final(s) {
      NothingAhead(Leaves(stage), s);
      NothingAhead(Enters(stage), s);
    }
  }

  // ---- Adding up a script ----

  /** What is left of a script, added up: gauges `q` and `a`, slots `s`, checks of `job`, and the stage. */
  predicate Facts(rest: seq<Effect>, job: string, q: int, a: int, s: int, checks: int, stage: Option<Stage>) {
    && Tail(rest) && Chain(rest)
    && Sum(QueueGauge, rest) == q && Sum(ActiveGauge, rest) == a && Sum(Slots, rest) == s
    && Sum(Checks(job), rest) == checks && CurrentStage(rest) == stage
  }

  /** Effects the pool does not measure. */
  predicate Silent(e: Effect) {
    e.RecordLease? || e.RecordLeaseWait? || e.Complete? || e.Release? || e.Post?
  }

  lemma {:induction false} SilentPrefix(quiet: seq<Effect>, rest: seq<Effect>,
                                        job: string, q: int, a: int, s: int, checks: int, stage: Option<Stage>)
    requires (forall e | e in quiet :: Silent(e)) && Facts(rest, job, q, a, s, checks, stage)
    ensures Facts(quiet + rest, job, q, a, s, checks, stage)
  {
    if quiet == [] {
      assert quiet + rest == rest;
    } else {
      SilentPrefix(quiet[1..], rest, job, q, a, s, checks, stage);
      assert (quiet + rest)[1..] == quiet[1..] + rest;
      assert Silent(quiet[0]) && (quiet + rest)[0] == quiet[0];
    }
  }

  lemma NoFacts(job: string)
    ensures Facts([], job, 0, 0, 0, 0, None)
  {
  }

  lemma FinishFacts(phase: string, outcome: string, quiet: seq<Effect>, job: string)
    requires forall e | e in quiet :: Silent(e)
    ensures Facts([FinishJob(phase, outcome)] + quiet, job, 0, -1, 0, 0, None)
  {
    NoFacts(job);
    SilentPrefix(quiet, [], job, 0, 0, 0, 0, None);
    assert quiet + [] == quiet;
    assert ([FinishJob(phase, outcome)] + quiet)[1..] == quiet;
  }

  lemma SlotFacts(check: string, rest: seq<Effect>, job: string, stage: Option<Stage>)
    requires Facts(rest, job, 0, -1, 0, 0, stage)
    ensures Facts([AcquireSlot(check), ReleaseSlot(check)] + rest, job, 0, -1, 0, One(check == job), stage)
  {
    var release := [ReleaseSlot(check)] + rest;
    assert release[1..] == rest;
    assert Facts(release, job, 0, -1, -1, 0, stage);
    assert ([AcquireSlot(check), ReleaseSlot(check)] + rest)[1..] == release;
  }

  // ---- Building programs ----

  function DoAll(job: nat, effects: seq<Effect>): seq<Instruction> {
    seq(|effects|, i requires 0 <= i < |effects| => Do(job, effects[i]))
  }

  lemma {:induction false} RestOfConcat(a: seq<Instruction>, b: seq<Instruction>, job: nat)
    ensures RestOf(a + b, job) == RestOf(a, job) + RestOf(b, job)
  {
    if a == [] {
      assert a + b == b;
    } else {
      RestOfConcat(a[1..], b, job);
      assert (a + b)[1..] == a[1..] + b && (a + b)[0] == a[0];
      RestOfFirst(a, job);
      RestOfFirst(a + b, job);
      assert RestOf(a + b, job) == RestOf([a[0]], job) + (RestOf(a[1..], job) + RestOf(b, job));
    }
  }

  lemma RestOfFirst(a: seq<Instruction>, job: nat)
    requires a != []
    ensures RestOf(a, job) == RestOf([a[0]], job) + RestOf(a[1..], job)
  {
    assert [a[0]][1..] == [];
  }

  lemma {:induction false} RestOfDoAll(job: nat, effects: seq<Effect>, other: nat)
    ensures RestOf(DoAll(job, effects), other) == if other == job then effects else []
  {
    if effects != [] {
      RestOfDoAll(job, effects[1..], other);
      assert DoAll(job, effects)[1..] == DoAll(job, effects[1..]);
      assert effects == [effects[0]] + effects[1..];
    }
  }

  lemma {:induction false} ProgramSumConcat(m: Measure, a: seq<Instruction>, b: seq<Instruction>)
    ensures ProgramSum(m, a + b) == ProgramSum(m, a) + ProgramSum(m, b)
  {
    if a == [] {
      assert a + b == b;
    } else {
      ProgramSumConcat(m, a[1..], b);
      assert (a + b)[1..] == a[1..] + b;
    }
  }

  lemma {:induction false} ProgramSumOfDoAll(m: Measure, job: nat, effects: seq<Effect>)
    ensures ProgramSum(m, DoAll(job, effects)) == Sum(m, effects)
  {
    if effects != [] {
      ProgramSumOfDoAll(m, job, effects[1..]);
      assert DoAll(job, effects)[1..] == DoAll(job, effects[1..]);
    }
  }

  lemma {:induction false} ProgramCountConcat(a: seq<Instruction>, b: seq<Instruction>, item: Item)
    ensures ProgramCount(a + b, item) == ProgramCount(a, item) + ProgramCount(b, item)
  {
    if a == [] {
      assert a + b == b;
    } else {
      ProgramCountConcat(a[1..], b, item);
      assert (a + b)[1..] == a[1..] + b;
    }
  }

  /** When only one program has copies of an item, those are all. */
  lemma {:induction false} PendingInOne(programs: seq<seq<Instruction>>, item: Item, p: nat)
    requires forall q | 0 <= q < |programs| && q != p :: ProgramCount(programs[q], item) == 0
    ensures PendingCount(programs, item) == if p < |programs| then ProgramCount(programs[p], item) else 0
  {
    if programs != [] {
      var last := |programs| - 1;
      assert forall q | 0 <= q < last :: programs[..last][q] == programs[q];
      PendingInOne(programs[..last], item, p);
    }
  }

  lemma NothingSent(program: seq<Instruction>, item: Item)
    requires forall k | 0 <= k < |program| :: program[k].Do?
    ensures ProgramCount(program, item) == 0
  {
  }

  /** When at most one program plans something, and that once, so do all together. */
  lemma {:induction false} AtMostOneProgram(m: Measure, programs: seq<seq<Instruction>>)
    requires forall p | 0 <= p < |programs| :: 0 <= ProgramSum(m, programs[p]) <= 1
    requires forall p, q | 0 <= p < q < |programs| :: ProgramSum(m, programs[p]) == 0 || ProgramSum(m, programs[q]) == 0
    ensures 0 <= ProgramsSum(m, programs) <= 1
    ensures (forall p | 0 <= p < |programs| :: ProgramSum(m, programs[p]) == 0) ==> ProgramsSum(m, programs) == 0
  {
    if programs != [] {
      var last := |programs| - 1;
      AtMostOneProgram(m, programs[..last]);
      assert forall p | 0 <= p < last :: programs[..last][p] == programs[p];
    }
  }

  predicate Producer(program: seq<Instruction>) {
    forall k | 0 <= k < |program| :: program[k].Do? && Produced(program[k].effect)
  }

  /** What a producer does itself only ever counts the queue gauge up, and no other. */
  lemma ProducerSums(program: seq<Instruction>, job: string)
    requires Producer(program)
    ensures 0 <= ProgramSum(QueueGauge, program)
    ensures ProgramSum(Checks(job), program) == 0
  {
  }

  lemma {:induction false} ProgramBehind(head: seq<Instruction>, rest: seq<Instruction>)
    requires Producer(head) && Program(rest) && ProgramSum(QueueGauge, head) + ProgramSum(QueueGauge, rest) <= 0
    ensures Program(head + rest)
  {
    ProgramSumConcat(QueueGauge, head, rest);
    if head == [] {
      assert head + rest == rest;
    } else {
      assert (head + rest)[1..] == head[1..] + rest;
      ProgramBehind(head[1..], rest);
    }
  }

  lemma {:induction false} ProgramOfSends(sends: seq<Instruction>)
    requires forall k | 0 <= k < |sends| :: sends[k].Send? && Script(sends[k].item.script)
    ensures Program(sends) && ProgramSum(QueueGauge, sends) == -|sends|
  {
    if sends != [] {
      ProgramOfSends(sends[1..]);
    }
  }

  lemma SentLastConcat(a: seq<Instruction>, b: seq<Instruction>)
    requires SentLast(a) && SentLast(b)
    requires forall k | 0 <= k < |a| && a[k].Send? :: RestOf(b, a[k].item.index) == []
    ensures SentLast(a + b)
  {
    forall k | 0 <= k < |a + b| && (a + b)[k].Send? ensures RestOf((a + b)[k + 1..], (a + b)[k].item.index) == [] {
      if k < |a| {
        RestOfConcat(a[k + 1..], b, a[k].item.index);
        assert (a + b)[k + 1..] == a[k + 1..] + b;
      } else {
        assert (a + b)[k + 1..] == b[k - |a| + 1..];
      }
    }
  }

  lemma {:induction false} NobodyBelow(program: seq<Instruction>, n: nat, stage: Stage)
    requires forall job: nat :: CurrentStage(RestOf(program, job)) != Some(stage)
    ensures JobsBelow(program, n, stage) == 0
  {
    if n > 0 {
      NobodyBelow(program, n - 1, stage);
    }
  }

  // ---- Pools about to start ----

  lemma IdleWorkersOweNothing(m: Measure, n: nat)
    ensures WorkersSum(m, seq(n, _ => Worker(0, Idle))) == 0
  {
    NoWorkers(m, seq(n, _ => Worker(0, Idle)));
  }

  lemma OneProgram(m: Measure, program: seq<Instruction>)
    ensures ProgramsSum(m, [program]) == ProgramSum(m, program)
  {
    assert [program][..0] == [];
  }

  lemma OnePendingProgram(program: seq<Instruction>, item: Item)
    ensures PendingCount([program], item) == ProgramCount(program, item)
  {
    assert [program][..0] == [];
  }

  lemma NobodyInStage(ws: seq<Worker>, stage: Stage)
    requires forall w | 0 <= w < |ws| :: ws[w].state.Idle?
    ensures WorkersInStage(ws, stage) == 0
  {
  }

  /** Between runs: no job queued or active, and every stage left as often as it was entered. */
  predicate Settled(t: Gauges) {
    t.queued == 0 && t.active == 0
    && Into(t, Claimed) == OutOf(t, Claimed) && Into(t, Retry) == OutOf(t, Retry)
    && Into(t, Queued) == OutOf(t, Queued) && Into(t, Running) == OutOf(t, Running)
  }

  /** A pool about to start a run: the telemetry settled, nothing done yet, no job in any stage, and at
      most one check planned for any job. */
  ghost predicate Ready(start: Pool) {
    && Inv(start) && Chained(start) && Settled(start.gauges) && start.held == 0 && 1 <= start.capacity
    && start.log == [] && start.handled == []
    && (forall stage | Passing(stage) :: JobsInStage(start, stage) == 0)
    && forall job :: Ahead(Checks(job), start) <= 1 && Ahead(InCheck(job), start) == 0
  }

  /** The accounts of a run in progress: the flow into each stage exceeds the flow out of it by the jobs
      in it, and the gauges and the slots are what was counted up less what was counted down. */
  predicate Accounted(s: Pool) {
    && (forall stage | Passing(stage) :: Into(s.gauges, stage) == OutOf(s.gauges, stage) + JobsInStage(s, stage))
    && s.gauges.queued == Sum(QueueGauge, s.log) >= 0
    && s.gauges.active == Sum(ActiveGauge, s.log) >= 0
    && s.held == Sum(Slots, s.log) <= s.capacity
  }

  /** In every reachable state of a run, under every interleaving, the accounts are right, and at the end
      everything is settled again. */
  lemma RunAccounts(start: Pool, steps: seq<Step>)
    requires Ready(start) && After(start, steps).Some?
    ensures Accounted(After(start, steps).value)
    ensures Final(After(start, steps).value) ==> Settled(After(start, steps).value.gauges)
  {
    var s := After(start, steps).value;
    GaugesAreExact(start, steps);
    forall stage | Passing(stage)
      ensures Into(s.gauges, stage) == OutOf(s.gauges, stage) + JobsInStage(s, stage)
      ensures Final(s) ==> Into(s.gauges, stage) == OutOf(s.gauges, stage)
    {
      FlowIsConserved(start, steps, stage);
    }
  }

  /** No two workers ever have the check of one job in progress. */
  lemma RunExcludes(start: Pool, steps: seq<Step>, job: string, v: nat, w: nat)
    requires Ready(start) && After(start, steps).Some? && v != w
    ensures !(CheckInProgress(After(start, steps).value, v, job) && CheckInProgress(After(start, steps).value, w, job))
  {
    NoTwoChecksOfOneJob(start, steps, job, if v < w then v else w, if v < w then w else v);
  }

  // ---- States a run gets to ----

  /** A state some run gets to. */
  ghost predicate Reached(pool: Pool) {
    exists start, steps :: Ready(start) && After(start, steps) == Some(pool)
  }

  lemma EmptyIsReady(pool: Pool)
    requires pool.programs == [] && pool.workers == [] && pool.log == [] && pool.handled == []
    requires Settled(pool.gauges) && pool.held == 0 && 1 <= pool.capacity
    ensures Ready(pool)
  {
  }

  lemma WorkIsReached(pool: Pool, work: Step)
    requires Reached(pool) && Enabled(pool, work)
    ensures Reached(Apply(pool, work))
  {
    var start, steps :| Ready(start) && After(start, steps) == Some(pool);
    assert (steps + [work])[..|steps|] == steps;
    assert After(start, steps + [work]) == Some(Apply(pool, work));
  }

  lemma ReachedIsAccounted(pool: Pool)
    requires Reached(pool)
    ensures Accounted(pool) && (Final(pool) ==> Settled(pool.gauges))
  {
    var start, steps :| Ready(start) && After(start, steps) == Some(pool);
    RunAccounts(start, steps);
  }

  lemma ReachedCanMove(pool: Pool)
    requires Reached(pool)
    ensures Final(pool) || exists next :: Enabled(pool, next)
  {
    var start, work :| Ready(start) && After(start, work) == Some(pool);
    AlwaysInv(start, work);
    CapacityIsConstant(start, work);
    if !Final(pool) {
      SomeStepIsEnabled(pool);
    }
  }

  lemma ReachedExcludes(pool: Pool, job: string, v: nat, w: nat)
    requires Reached(pool) && v != w
    ensures !(CheckInProgress(pool, v, job) && CheckInProgress(pool, w, job))
  {
    var start, steps :| Ready(start) && After(start, steps) == Some(pool);
    RunExcludes(start, steps, job, v, w);
  }
}
