/** Run exclusion and drain: internal/application/execution_controller.go, as the object its methods
    update and as a step system of the threads that call them. */
module ExecutionController {
  import opened Wrappers

  /** What stateMu protects. Channels are numbered as they are made; `idle` is the current one. */
  datatype Shared = Shared(draining: bool, active: bool, idle: nat, closed: set<nat>)

  const FRESH := Shared(false, false, 0, {0})

  /** What holds whenever nobody is inside the state lock: the current channel is closed exactly when no
      run is active, and every earlier one is closed. */
  predicate Consistent(s: Shared) {
    && (s.idle in s.closed <==> !s.active)
    && (forall c | 0 <= c < s.idle :: c in s.closed)
    && (forall c | c in s.closed :: c <= s.idle)
  }

  function Entered(s: Shared): Shared {
    s.(active := true, idle := s.idle + 1)
  }

  function Left(s: Shared): Shared {
    s.(active := false, closed := s.closed + {s.idle})
  }

  datatype RunSummary = RunSummary(skipped: bool, failed: bool)

  /** The object, one caller at a time; the threads are below. */
  class ExecutionController {
    var draining: bool
    var active: bool
    var idle: nat
    var closed: set<nat>
    var locked: bool
    var lastSummary: RunSummary

    ghost function View(): Shared
      reads this
    {
      Shared(draining, active, idle, closed)
    }

    ghost predicate Valid()
      reads this
    {
      Consistent(View()) && (active ==> locked)
    }

    constructor ()
      ensures Valid() && View() == FRESH && !locked
    {
      draining, active, idle, closed, locked := false, false, 0, {0}, false;
      lastSummary := RunSummary(false, false);
    }

    method BeginDrain()
      requires Valid()
      modifies this`draining
      ensures Valid() && View() == old(View()).(draining := true)
    {
      draining := true;
    }

    /** The first half of RunMonitoring: both looks at the drain flag, the run lock, and a new channel. */
    method Enter() returns (entered: bool)
      requires Valid()
      modifies this
      ensures Valid() && entered == !(old(draining) || old(locked))
      ensures if entered then View() == Entered(old(View())) && locked && lastSummary == old(lastSummary)
              else View() == old(View()) && locked == old(locked) && lastSummary == RunSummary(true, false)
    {
      if draining || locked {
        lastSummary := RunSummary(true, false);
        return false;
      }
      locked := true;
      active := true;
      idle := idle + 1;
      return true;
    }

    /** The second half. The channel is still open, so closing it is safe. */
    method Leave(failed: bool)
      requires Valid() && active
      modifies this
      ensures Valid() && View() == Left(old(View())) && !locked && old(idle) !in old(closed)
      ensures lastSummary == RunSummary(false, failed)
    {
      lastSummary := RunSummary(false, failed);
      active := false;
      assert idle !in closed;
      closed := closed + {idle};
      locked := false;
    }

    /** A whole call. The runner's part is what is left out: whether it fails, and whether a drain begins
        while it is at work. */
    method RunMonitoring(fails: bool, drainBegins: bool)
      requires Valid()
      modifies this
      ensures Valid() && locked == old(locked)
      ensures var skipped := old(draining) || old(locked);
              && lastSummary == (if skipped then RunSummary(true, false) else RunSummary(false, fails))
              && View() == if skipped then old(View()) else Left(Entered(old(View()))).(draining := drainBegins)
    {
      var entered := Enter();
      if !entered {
        return;
      }
      if drainBegins {
        BeginDrain();
      }
      Leave(fails);
    }
  }

  // ---- The threads ----

  /** Where a caller is: in RunMonitoring, BeginDrain or WaitForIdle. `late` is history: the wait was
      called when some BeginDrain had returned. */
  datatype PC =
    | RunCalled | RunReading | RunRead(draining: bool) | TryingLock
    | Locking | Checking | Activating | Making | Opened
    | Running
    | Ending | Deactivating | Closing | Closed
    | Backing | Releasing(ran: bool) | RunReturned(ran: bool)
    | DrainCalled | DrainWriting | DrainWritten | DrainReturned
    | WaitCalled(late: bool) | WaitReading(late: bool) | WaitRead(late: bool, channel: nat)
    | Waiting(late: bool, channel: nat) | WaitReturned(late: bool, wasIdle: bool)

  /** `mu` is held across a run; `writer` and `readers` hold stateMu. */
  datatype Controller = Controller(shared: Shared, mu: Option<nat>, writer: Option<nat>, readers: set<nat>,
                                   panicked: bool, threads: seq<PC>)

  datatype Step = CallRun | CallDrain | CallWait | Next(t: nat) | TimeOut(t: nat)

  const START := Controller(FRESH, None, None, {}, false, [])

  predicate Returned(pc: PC) {
    pc.RunReturned? || pc.DrainReturned? || pc.WaitReturned?
  }

  predicate WantsToRead(pc: PC) {
    pc.RunCalled? || pc.WaitCalled?
  }

  predicate WantsToWrite(pc: PC) {
    pc.Locking? || pc.Ending? || pc.DrainCalled?
  }

  predicate Enabled(c: Controller, step: Step) {
    match step
    case CallRun => true
    case CallDrain => true
    case CallWait => true
    case TimeOut(t) => t < |c.threads| && c.threads[t].Waiting?
    case Next(t) => t < |c.threads| && MayGo(c, c.threads[t])
  }

  /** Whether a thread at `pc` can take its next step. */
  predicate MayGo(c: Controller, pc: PC) {
    && !Returned(pc)
    && (WantsToRead(pc) ==> c.writer.None?)
    && (WantsToWrite(pc) ==> c.writer.None? && c.readers == {})
    && (pc.Waiting? ==> pc.channel in c.shared.closed)
  }

  predicate DrainHasReturned(c: Controller) {
    exists t :: 0 <= t < |c.threads| && c.threads[t].DrainReturned?
  }

  function Going(c: Controller, t: nat, pc: PC): Controller
    requires t < |c.threads|
  {
    c.(threads := c.threads[t := pc])
  }

  function Apply(c: Controller, step: Step): Controller
    requires Enabled(c, step)
  {
    match step
    case CallRun => c.(threads := c.threads + [RunCalled])
    case CallDrain => c.(threads := c.threads + [DrainCalled])
    case CallWait => c.(threads := c.threads + [WaitCalled(DrainHasReturned(c))])
    case TimeOut(t) => Going(c, t, WaitReturned(c.threads[t].late, false))
    case Next(t) => Advanced(c, t)
  }

  function Advanced(c: Controller, t: nat): Controller
    requires Enabled(c, Next(t))
  {
    Going(Touched(c, t, c.threads[t]), t, Destination(c, c.threads[t]))
  }

  /** Where a thread goes from where it is. */
  function Destination(c: Controller, pc: PC): PC
    requires !Returned(pc)
  {
    match pc
    // The first look at the drain flag
    case RunCalled => RunReading
    case RunReading => RunRead(c.shared.draining)
    case RunRead(draining) => if draining then RunReturned(false) else TryingLock
    case TryingLock => if c.mu.None? then Locking else RunReturned(false)
    // The second look, under both locks
    case Locking => Checking
    case Checking => if c.shared.draining then Backing else Activating
    case Backing => Releasing(false)
    case Activating => Making
    case Making => Opened
    case Opened => Running
    // The deferred end
    case Running => Ending
    case Ending => Deactivating
    case Deactivating => Closing
    case Closing => Closed
    case Closed => Releasing(true)
    case Releasing(ran) => RunReturned(ran)
    // BeginDrain
    case DrainCalled => DrainWriting
    case DrainWriting => DrainWritten
    case DrainWritten => DrainReturned
    // WaitForIdle
    case WaitCalled(late) => WaitReading(late)
    case WaitReading(late) => WaitRead(late, c.shared.idle)
    case WaitRead(late, channel) => Waiting(late, channel)
    case Waiting(late, channel) => WaitReturned(late, true)
  }

  /** What it does to the locks and to what they protect. */
  function Touched(c: Controller, t: nat, pc: PC): Controller {
    if WantsToRead(pc) then c.(readers := c.readers + {t})
    else if pc.RunRead? || pc.WaitRead? then c.(readers := c.readers - {t})
    else if WantsToWrite(pc) then c.(writer := Some(t))
    else if pc.Opened? || pc.Closed? || pc.Backing? || pc.DrainWritten? then c.(writer := None)
    else match pc
      case TryingLock => if c.mu.None? then c.(mu := Some(t)) else c
      case Activating => c.(shared := c.shared.(active := true))
      case Making => c.(shared := c.shared.(idle := c.shared.idle + 1))
      case Deactivating => c.(shared := c.shared.(active := false))
      case Closing =>
        c.(shared := c.shared.(closed := c.shared.closed + {c.shared.idle}),
           panicked := c.panicked || c.shared.idle in c.shared.closed)
      case Releasing(_) => c.(mu := None)
      case DrainWriting => c.(shared := c.shared.(draining := true))
      case _ => c
  }

  function After(start: Controller, steps: seq<Step>): Option<Controller> {
    if steps == [] then Some(start)
    else
      var before := After(start, steps[..|steps| - 1]);
      var last := steps[|steps| - 1];
      if before.Some? && Enabled(before.value, last) then Some(Apply(before.value, last)) else None
  }

  // ---- The invariant ----

  predicate HoldsMu(pc: PC) {
    pc.Locking? || pc.Checking? || pc.Activating? || pc.Making? || pc.Opened? || pc.Running? || pc.Ending?
    || pc.Deactivating? || pc.Closing? || pc.Closed? || pc.Backing? || pc.Releasing?
  }

  predicate Writes(pc: PC) {
    pc.Checking? || pc.Activating? || pc.Making? || pc.Opened? || pc.Deactivating? || pc.Closing? || pc.Closed?
    || pc.Backing? || pc.DrainWriting? || pc.DrainWritten?
  }

  predicate Reads(pc: PC) {
    pc.RunReading? || pc.RunRead? || pc.WaitReading? || pc.WaitRead?
  }

  /** Where the flag is up. */
  predicate FlagUp(pc: PC) {
    pc.Making? || pc.Opened? || pc.Running? || pc.Ending? || pc.Deactivating?
  }

  /** Where the current channel is open. */
  predicate ChannelOpen(pc: PC) {
    pc.Opened? || pc.Running? || pc.Ending? || pc.Deactivating? || pc.Closing?
  }

  predicate LocksKept(c: Controller) {
    && (c.mu.Some? ==> c.mu.value < |c.threads|)
    && (c.writer.Some? ==> c.writer.value < |c.threads| && c.readers == {})
    && (forall t | t in c.readers :: t < |c.threads|)
    && (forall t | 0 <= t < |c.threads| :: LocksKeptBy(c, t, c.threads[t]))
  }

  /** A thread holds just the locks its place in the code says. */
  predicate LocksKeptBy(c: Controller, t: nat, pc: PC) {
    && (HoldsMu(pc) <==> c.mu == Some(t))
    && (Writes(pc) <==> c.writer == Some(t))
    && (Reads(pc) <==> t in c.readers)
  }

  predicate Owner(c: Controller, p: PC -> bool) {
    c.mu.Some? && c.mu.value < |c.threads| && p(c.threads[c.mu.value])
  }

  predicate ChannelsKept(c: Controller) {
    && !c.panicked
    && (c.shared.active <==> Owner(c, FlagUp))
    && (c.shared.idle in c.shared.closed <==> !Owner(c, ChannelOpen))
    && (forall ch | 0 <= ch < c.shared.idle :: ch in c.shared.closed)
    && (forall ch | ch in c.shared.closed :: ch <= c.shared.idle)
  }

  /** What is settled for one thread: by a drain, and about the channel it waits for. */
  predicate DrainKeptBy(s: Shared, pc: PC) {
    match pc
    case Activating => !s.draining
    case Making => !s.draining
    case Backing => s.draining
    case DrainWritten => s.draining
    case DrainReturned => s.draining
    case WaitCalled(late) => late ==> s.draining
    case WaitReading(late) => late ==> s.draining
    case WaitRead(late, channel) => channel <= s.idle && (late ==> s.draining && channel == s.idle)
    case Waiting(late, channel) => channel <= s.idle && (late ==> s.draining && channel == s.idle)
    case WaitReturned(late, wasIdle) => late && wasIdle ==> s.draining && s.idle in s.closed
    case _ => true
  }

  predicate DrainKept(c: Controller) {
    forall t | 0 <= t < |c.threads| :: DrainKeptBy(c.shared, c.threads[t])
  }

  predicate Inv(c: Controller) {
    LocksKept(c) && ChannelsKept(c) && DrainKept(c)
  }

  /** The mover's locks follow its move. */
  lemma MoverKeepsLocks(c: Controller, t: nat)
    requires LocksKept(c) && Enabled(c, Next(t))
    ensures LocksKeptBy(Advanced(c, t), t, Advanced(c, t).threads[t])
  {
    assert LocksKeptBy(c, t, c.threads[t]);
  }

  /** Nobody else's locks change hands. */
  lemma OthersKeepLocks(c: Controller, t: nat, u: nat)
    requires LocksKept(c) && Enabled(c, Next(t)) && u != t && u < |c.threads|
    ensures LocksKeptBy(Advanced(c, t), u, c.threads[u])
  {
    assert LocksKeptBy(c, t, c.threads[t]) && LocksKeptBy(c, u, c.threads[u]);
  }

  lemma StepKeepsLocks(c: Controller, step: Step)
    requires LocksKept(c) && Enabled(c, step)
    ensures LocksKept(Apply(c, step))
  {
    if step.Next? {
      NextKeepsLocks(c, step.t);
    } else {
      OtherStepsKeepLocks(c, step);
    }
  }

  lemma OtherStepsKeepLocks(c: Controller, step: Step)
    requires LocksKept(c) && Enabled(c, step) && !step.Next?
    ensures LocksKept(Apply(c, step))
  {
    var d := Apply(c, step);
    forall u | 0 <= u < |d.threads| ensures LocksKeptBy(d, u, d.threads[u]) {
      if u < |c.threads| {
        assert LocksKeptBy(c, u, c.threads[u]);
      }
    }
  }

  lemma NextKeepsLocks(c: Controller, t: nat)
    requires LocksKept(c) && Enabled(c, Next(t))
    ensures LocksKept(Advanced(c, t))
  {
    var d := Advanced(c, t);
    assert LocksKeptBy(c, t, c.threads[t]);
    forall u | 0 <= u < |d.threads| ensures LocksKeptBy(d, u, d.threads[u]) {
      if u == t {
        MoverKeepsLocks(c, t);
      } else {
        OthersKeepLocks(c, t, u);
      }
    }
  }

  lemma NextKeepsChannels(c: Controller, t: nat)
    requires LocksKept(c) && ChannelsKept(c) && Enabled(c, Next(t))
    ensures ChannelsKept(Advanced(c, t))
  {
    assert LocksKeptBy(c, t, c.threads[t]);
    if c.mu.Some? {
      assert LocksKeptBy(c, c.mu.value, c.threads[c.mu.value]);
    }
  }

  lemma StepKeepsChannels(c: Controller, step: Step)
    requires LocksKept(c) && ChannelsKept(c) && Enabled(c, step)
    ensures ChannelsKept(Apply(c, step))
  {
    if step.Next? {
      NextKeepsChannels(c, step.t);
    } else {
      if c.mu.Some? {
        assert LocksKeptBy(c, c.mu.value, c.threads[c.mu.value]);
      }
    }
  }

  lemma StepKeepsDrain(c: Controller, step: Step)
    requires Inv(c) && Enabled(c, step)
    ensures DrainKept(Apply(c, step))
  {
    var d := Apply(c, step);
    forall u | 0 <= u < |d.threads| ensures DrainKeptBy(d.shared, d.threads[u]) {
      if u < |c.threads| {
        assert DrainKeptBy(c.shared, c.threads[u]);
        if step.Next? {
          if u == step.t {
            MoverKeepsDrain(c, u);
          } else {
            OthersKeepDrain(c, step.t, u);
          }
        }
      } else if t :| 0 <= t < |c.threads| && c.threads[t].DrainReturned? {
        assert DrainKeptBy(c.shared, c.threads[t]);
      }
    }
  }

  lemma MoverKeepsDrain(c: Controller, t: nat)
    requires Inv(c) && Enabled(c, Next(t))
    ensures DrainKeptBy(Advanced(c, t).shared, Advanced(c, t).threads[t])
  {
    assert DrainKeptBy(c.shared, c.threads[t]) && LocksKeptBy(c, t, c.threads[t]);
  }

  lemma OthersKeepDrain(c: Controller, t: nat, u: nat)
    requires Inv(c) && Enabled(c, Next(t)) && u != t && u < |c.threads|
    ensures DrainKeptBy(Advanced(c, t).shared, c.threads[u])
  {
    assert DrainKeptBy(c.shared, c.threads[t]) && LocksKeptBy(c, t, c.threads[t]);
    assert DrainKeptBy(c.shared, c.threads[u]) && LocksKeptBy(c, u, c.threads[u]);
  }

  lemma StepKeepsInv(c: Controller, step: Step)
    requires Inv(c) && Enabled(c, step)
    ensures Inv(Apply(c, step))
  {
    StepKeepsLocks(c, step);
    StepKeepsChannels(c, step);
    StepKeepsDrain(c, step);
  }

  lemma {:induction false} AlwaysInv(steps: seq<Step>)
    requires After(START, steps).Some?
    ensures Inv(After(START, steps).value)
  {
    if steps != [] {
      AlwaysInv(steps[..|steps| - 1]);
      StepKeepsInv(After(START, steps[..|steps| - 1]).value, steps[|steps| - 1]);
    }
  }

  // ---- What every interleaving keeps ----

  /** Whenever the state lock is free for reading, the current channel is closed exactly when no run is
      active, all earlier ones are closed, and none was ever closed twice. */
  lemma AlwaysConsistent(steps: seq<Step>)
    requires After(START, steps).Some?
    ensures var c := After(START, steps).value;
            !c.panicked && (c.writer.None? ==> Consistent(c.shared))
  {
    AlwaysInv(steps);
    var c := After(START, steps).value;
    if c.mu.Some? {
      assert LocksKeptBy(c, c.mu.value, c.threads[c.mu.value]);
    }
  }

  /** Two runs are never in progress together, and the flag is up during each. */
  lemma RunsExclude(steps: seq<Step>, t: nat, u: nat)
    requires After(START, steps).Some?
    requires t < |After(START, steps).value.threads| && u < |After(START, steps).value.threads|
    requires After(START, steps).value.threads[t].Running?
    ensures After(START, steps).value.shared.active
    ensures After(START, steps).value.threads[u].Running? ==> t == u
  {
    AlwaysInv(steps);
    var c := After(START, steps).value;
    assert LocksKeptBy(c, t, c.threads[t]) && LocksKeptBy(c, u, c.threads[u]);
  }

  predicate Quiet(c: Controller) {
    !c.shared.active && forall t | 0 <= t < |c.threads| :: !c.threads[t].Running?
  }

  /** A late wait that saw the channel closed. */
  predicate DrainSeen(c: Controller, t: nat) {
    t < |c.threads| && c.threads[t] == WaitReturned(true, true)
  }

  lemma {:induction false} AfterConcat(start: Controller, a: seq<Step>, b: seq<Step>)
    requires After(start, a).Some?
    ensures After(start, a + b) == After(After(start, a).value, b)
  {
    if b == [] {
      assert a + b == a;
    } else {
      var init := b[..|b| - 1];
      AfterConcat(start, a, init);
      assert (a + b)[..|a + b| - 1] == a + init;
    }
  }

  /** Once a drain has begun, no call of RunMonitoring gets as far as its run any more. */
  lemma NoRunStartsInDrain(steps: seq<Step>, step: Step, t: nat)
    requires After(START, steps).Some? && Enabled(After(START, steps).value, step)
    requires After(START, steps).value.shared.draining && t < |After(START, steps).value.threads|
    requires !FlagUp(After(START, steps).value.threads[t])
    ensures !FlagUp(Apply(After(START, steps).value, step).threads[t])
  {
    AlwaysInv(steps);
    var c := After(START, steps).value;
    assert DrainKeptBy(c.shared, c.threads[t]);
  }

  // ---- What one thread reaches alone ----

  function Turns(t: nat, n: nat): seq<Step> {
    if n == 0 then [] else Turns(t, n - 1) + [Next(t)]
  }

  /** By some number of steps of one thread alone. */
  ghost predicate Alone(t: nat, c: Controller, d: Controller) {
    exists n: nat :: After(c, Turns(t, n)) == Some(d)
  }

  ghost predicate Reachable(c: Controller, d: Controller) {
    exists steps :: After(c, steps) == Some(d)
  }

  /** What a thread's own steps keep. */
  ghost predicate KeptBy(t: nat, p: Controller -> bool) {
    forall d :: p(d) && Enabled(d, Next(t)) ==> p(Advanced(d, t))
  }

  /** One step of a thread at `pc`, with everything else as in `base`. */
  lemma Turn(t: nat, p: Controller -> bool, base: Controller, pc: PC)
    requires KeptBy(t, p) && t < |base.threads| && p(Going(base, t, pc)) && MayGo(base, pc)
    ensures p(Going(Touched(base, t, pc), t, Destination(base, pc)))
  {
    var to := Destination(base, pc);
    assert base.threads[t := pc][t := to] == base.threads[t := to];
    assert Advanced(Going(base, t, pc), t) == Going(Touched(base, t, pc), t, to);
  }

  lemma TurnsLength(t: nat, n: nat)
    ensures |Turns(t, n)| == n
  {
  }

  lemma AloneIsKept(t: nat, c: Controller)
    ensures Alone(t, c, c) && KeptBy(t, d => Alone(t, c, d))
  {
    assert After(c, Turns(t, 0)) == Some(c);
    forall d | Alone(t, c, d) && Enabled(d, Next(t)) ensures Alone(t, c, Advanced(d, t)) {
      var n: nat :| After(c, Turns(t, n)) == Some(d);
      TurnsLength(t, n);
      assert Turns(t, n + 1)[..n] == Turns(t, n);
      assert After(c, Turns(t, n + 1)) == Some(Advanced(d, t));
    }
  }

  /** Nobody holds or has asked for anything. */
  predicate Free(c: Controller) {
    c.mu.None? && c.writer.None? && c.readers == {}
  }

  lemma CallGetsLock(t: nat, p: Controller -> bool, c: Controller)
    requires KeptBy(t, p) && t < |c.threads| && p(Going(c, t, RunCalled)) && Free(c) && !c.shared.draining
    ensures p(Going(c.(mu := Some(t)), t, Locking))
  {
    var reading := c.(readers := c.readers + {t});
    Turn(t, p, c, RunCalled);
    Turn(t, p, reading, RunReading);
    Turn(t, p, reading, RunRead(false));
    assert reading.readers - {t} == c.readers;
    Turn(t, p, c, TryingLock);
  }

  lemma LockGetsRun(t: nat, p: Controller -> bool, c: Controller)
    requires KeptBy(t, p) && t < |c.threads| && p(Going(c, t, Locking))
    requires c.writer.None? && c.readers == {} && !c.shared.draining
    ensures p(Going(c.(shared := Entered(c.shared)), t, Running))
  {
    var writing := c.(writer := Some(t));
    Turn(t, p, c, Locking);
    Turn(t, p, writing, Checking);
    Turn(t, p, writing, Activating);
    Turn(t, p, writing.(shared := c.shared.(active := true)), Making);
    Turn(t, p, writing.(shared := Entered(c.shared)), Opened);
  }

  lemma RunGetsDown(t: nat, p: Controller -> bool, c: Controller)
    requires KeptBy(t, p) && t < |c.threads| && p(Going(c, t, Running))
    requires c.writer.None? && c.readers == {} && c.shared.idle !in c.shared.closed && !c.panicked
    ensures p(Going(c.(mu := None, shared := Left(c.shared)), t, RunReturned(true)))
  {
    var writing := c.(writer := Some(t));
    Turn(t, p, c, Running);
    Turn(t, p, c, Ending);
    Turn(t, p, writing, Deactivating);
    Turn(t, p, writing.(shared := c.shared.(active := false)), Closing);
    Turn(t, p, writing.(shared := Left(c.shared)), Closed);
    Turn(t, p, c.(shared := Left(c.shared)), Releasing(true));
  }

  lemma WaitGetsAnswer(t: nat, p: Controller -> bool, c: Controller, late: bool)
    requires KeptBy(t, p) && t < |c.threads| && p(Going(c, t, WaitCalled(late)))
    requires Free(c) && c.shared.idle in c.shared.closed
    ensures p(Going(c, t, WaitReturned(late, true)))
  {
    var reading := c.(readers := c.readers + {t});
    Turn(t, p, c, WaitCalled(late));
    Turn(t, p, reading, WaitReading(late));
    Turn(t, p, reading, WaitRead(late, c.shared.idle));
    assert reading.readers - {t} == c.readers;
    Turn(t, p, c, Waiting(late, c.shared.idle));
  }

  /** An undisturbed call gets to its run, and what it did on the way is what the object's Enter does. */
  lemma UndisturbedCallRuns(t: nat, c: Controller)
    requires Free(c) && !c.shared.draining && t < |c.threads| && c.threads[t].RunCalled?
    ensures Alone(t, c, Going(c.(mu := Some(t), shared := Entered(c.shared)), t, Running))
  {
    AloneIsKept(t, c);
    assert Going(c, t, RunCalled) == c;
    CallGetsLock(t, d => Alone(t, c, d), c);
    LockGetsRun(t, d => Alone(t, c, d), c.(mu := Some(t)));
  }

  /** The end of an undisturbed run, which is what the object's Leave does. */
  lemma UndisturbedRunEnds(t: nat, c: Controller)
    requires c.mu == Some(t) && c.writer.None? && c.readers == {} && c.shared.idle !in c.shared.closed && !c.panicked
    requires t < |c.threads| && c.threads[t].Running?
    ensures Alone(t, c, Going(c.(mu := None, shared := Left(c.shared)), t, RunReturned(true)))
  {
    AloneIsKept(t, c);
    assert Going(c, t, Running) == c;
    RunGetsDown(t, d => Alone(t, c, d), c);
  }

  lemma UndisturbedWaitReturns(t: nat, c: Controller, late: bool)
    requires Free(c) && c.shared.idle in c.shared.closed
    requires t < |c.threads| && c.threads[t] == WaitCalled(late)
    ensures Alone(t, c, Going(c, t, WaitReturned(late, true)))
  {
    AloneIsKept(t, c);
    assert Going(c, t, WaitCalled(late)) == c;
    WaitGetsAnswer(t, d => Alone(t, c, d), c, late);
  }

  lemma ReachableStep(c: Controller, step: Step)
    requires Enabled(c, step)
    ensures Reachable(c, Apply(c, step))
  {
    assert [step][..0] == [];
    assert After(c, [step]) == Some(Apply(c, step));
  }

  lemma ReachableOn(c: Controller, d: Controller, e: Controller)
    requires Reachable(c, d) && Reachable(d, e)
    ensures Reachable(c, e)
  {
    var a :| After(c, a) == Some(d);
    var b :| After(d, b) == Some(e);
    AfterConcat(c, a, b);
  }

  lemma AloneIsReachable(t: nat, c: Controller, d: Controller)
    requires Alone(t, c, d)
    ensures Reachable(c, d)
  {
    var n: nat :| After(c, Turns(t, n)) == Some(d);
  }

  lemma ReachableAlone(c: Controller, t: nat, d: Controller, e: Controller)
    requires Reachable(c, d) && Alone(t, d, e)
    ensures Reachable(c, e)
  {
    AloneIsReachable(t, d, e);
    ReachableOn(c, d, e);
  }

  // ---- When no run will ever be active again ----

  /** No run is active in any continuation. */
  ghost predicate QuietForGood(steps: seq<Step>)
    requires After(START, steps).Some?
  {
    forall more | After(START, steps + more).Some? :: Quiet(After(START, steps + more).value)
  }

  /** Where a call has made up its mind to run, or is not done running. */
  predicate Committed(pc: PC) {
    pc.Activating? || pc.Making? || pc.Opened? || pc.Running? || pc.Ending? || pc.Deactivating?
  }

  /** The drain flag is up, or nobody can look at it before it is. */
  predicate Draining(c: Controller) {
    c.shared.draining || (c.writer.Some? && c.writer.value < |c.threads| && c.threads[c.writer.value].DrainWriting?)
  }

  predicate Stopped(c: Controller) {
    Draining(c) && !Owner(c, Committed)
  }

  lemma StoppedIsQuiet(c: Controller)
    requires Inv(c) && Stopped(c)
    ensures Quiet(c)
  {
    forall t | 0 <= t < |c.threads| ensures !c.threads[t].Running? {
      assert LocksKeptBy(c, t, c.threads[t]) && DrainKeptBy(c.shared, c.threads[t]);
    }
  }

  lemma StepKeepsStopped(c: Controller, step: Step)
    requires Inv(c) && Stopped(c) && Enabled(c, step)
    ensures Stopped(Apply(c, step))
  {
    if step.Next? {
      assert LocksKeptBy(c, step.t, c.threads[step.t]) && DrainKeptBy(c.shared, c.threads[step.t]);
    }
    if c.mu.Some? {
      assert LocksKeptBy(c, c.mu.value, c.threads[c.mu.value]);
    }
  }

  lemma {:induction false} StoppedForGood(steps: seq<Step>, more: seq<Step>)
    requires After(START, steps).Some? && Stopped(After(START, steps).value) && After(START, steps + more).Some?
    ensures Stopped(After(START, steps + more).value)
  {
    if more == [] {
      assert steps + more == steps;
    } else {
      var init := more[..|more| - 1];
      assert (steps + more)[..|steps + more| - 1] == steps + init;
      StoppedForGood(steps, init);
      AlwaysInv(steps + init);
      StepKeepsStopped(After(START, steps + init).value, more[|more| - 1]);
    }
  }

  /** Some continuation has an active run. */
  ghost predicate CanRun(c: Controller) {
    exists d :: Reachable(c, d) && !Quiet(d)
  }

  lemma CanRunNow(c: Controller)
    requires !Quiet(c)
    ensures CanRun(c)
  {
    assert After(c, []) == Some(c);
  }

  lemma CanRunLater(c: Controller, d: Controller)
    requires Reachable(c, d) && CanRun(d)
    ensures CanRun(c)
  {
    var e :| Reachable(d, e) && !Quiet(e);
    ReachableOn(c, d, e);
  }

  lemma CanRunAfter(c: Controller, step: Step)
    requires Enabled(c, step) && CanRun(Apply(c, step))
    ensures CanRun(c)
  {
    ReachableStep(c, step);
    CanRunLater(c, Apply(c, step));
  }

  lemma RunnerIsActive(c: Controller, t: nat)
    requires t < |c.threads| && c.threads[t].Running?
    ensures CanRun(c)
  {
    CanRunNow(c);
  }

  /** With all locks free a new call gets to its run. */
  lemma FreeCanRun(c: Controller)
    requires Free(c) && !c.shared.draining
    ensures CanRun(c)
  {
    var called, t := Apply(c, CallRun), |c.threads|;
    UndisturbedCallRuns(t, called);
    var d := Going(called.(mu := Some(t), shared := Entered(called.shared)), t, Running);
    RunnerIsActive(d, t);
    AloneIsReachable(t, called, d);
    CanRunLater(called, d);
    CanRunAfter(c, CallRun);
  }

  /** Whoever holds the run lock: it is running, will run, or lets the next one run. */
  lemma HolderCanRun(c: Controller)
    requires Inv(c) && !c.shared.draining && c.writer.None? && c.readers == {} && c.mu.Some?
    ensures CanRun(c)
  {
    var t := c.mu.value;
    assert LocksKeptBy(c, t, c.threads[t]);
    match c.threads[t]
    case Locking =>
      AloneIsKept(t, c);
      assert Going(c, t, Locking) == c;
      LockGetsRun(t, d => Alone(t, c, d), c);
      var d := Going(c.(shared := Entered(c.shared)), t, Running);
      RunnerIsActive(d, t);
      AloneIsReachable(t, c, d);
      CanRunLater(c, d);
    case Releasing(_) =>
      FreeCanRun(Apply(c, Next(t)));
      CanRunAfter(c, Next(t));
    case Running => RunnerIsActive(c, t);
    case Ending => CanRunNow(c);
  }

  /** A reader leaves without touching anything else. */
  lemma ReaderLeaves(c: Controller, u: nat) returns (d: Controller)
    requires Inv(c) && u in c.readers
    ensures Reachable(c, d) && Inv(d)
    ensures d.shared == c.shared && d.writer == c.writer && d.readers == c.readers - {u}
  {
    assert LocksKeptBy(c, u, c.threads[u]);
    d := c;
    assert After(c, []) == Some(c);
    if c.threads[u].RunReading? || c.threads[u].WaitReading? {
      ReachableStep(c, Next(u));
      StepKeepsInv(c, Next(u));
      d := Apply(c, Next(u));
    }
    var e := Apply(d, Next(u));
    ReachableStep(d, Next(u));
    StepKeepsInv(d, Next(u));
    ReachableOn(c, d, e);
    d := e;
  }

  lemma {:induction false} UndrainedCanRun(c: Controller)
    requires Inv(c) && !c.shared.draining && c.writer.None?
    ensures CanRun(c)
    decreases |c.readers|
  {
    if u :| u in c.readers {
      var d := ReaderLeaves(c, u);
      assert |d.readers| < |c.readers|;
      UndrainedCanRun(d);
      CanRunLater(c, d);
    } else if c.mu.Some? {
      HolderCanRun(c);
    } else {
      FreeCanRun(c);
    }
  }

  /** Whoever holds the state lock: it is about to run, or it lets go. */
  lemma {:induction false} WriterCanRun(c: Controller)
    requires Inv(c) && !Draining(c) && c.writer.Some?
    ensures CanRun(c)
    decreases StepsLeft(c.threads[c.writer.value])
  {
    var t := c.writer.value;
    assert LocksKeptBy(c, t, c.threads[t]) && DrainKeptBy(c.shared, c.threads[t]);
    StepKeepsInv(c, Next(t));
    if FlagUp(c.threads[t]) {
      CanRunNow(c);
    } else if c.threads[t].Closed? {
      UndrainedCanRun(Apply(c, Next(t)));
      CanRunAfter(c, Next(t));
    } else {
      WriterCanRun(Apply(c, Next(t)));
      CanRunAfter(c, Next(t));
    }
  }

  lemma UnstoppedCanRun(c: Controller)
    requires Inv(c) && !Stopped(c)
    ensures CanRun(c)
  {
    if !Draining(c) {
      if c.writer.Some? {
        WriterCanRun(c);
      } else {
        UndrainedCanRun(c);
      }
    } else {
      CommittedIsActive(c);
    }
  }

  lemma CommittedIsActive(c: Controller)
    requires Inv(c) && Draining(c) && Owner(c, Committed)
    ensures CanRun(c)
  {
    var t := c.mu.value;
    assert LocksKeptBy(c, t, c.threads[t]) && DrainKeptBy(c.shared, c.threads[t]);
    CanRunNow(c);
  }

  /** The main result: in every reachable state, no run is active then or ever after if and only if the
      drain flag is up, or is being put up under the state lock, and no call is committed to a run. */
  lemma QuietForGoodIffStopped(steps: seq<Step>)
    requires After(START, steps).Some?
    ensures QuietForGood(steps) <==> Stopped(After(START, steps).value)
  {
    var c := After(START, steps).value;
    AlwaysInv(steps);
    if Stopped(c) {
      forall more | After(START, steps + more).Some? ensures Quiet(After(START, steps + more).value) {
        StoppedForGood(steps, more);
        AlwaysInv(steps + more);
        StoppedIsQuiet(After(START, steps + more).value);
      }
    } else {
      UnstoppedCanRun(c);
      var d :| Reachable(c, d) && !Quiet(d);
      var more :| After(c, more) == Some(d);
      AfterConcat(START, steps, more);
      assert After(START, steps + more).Some?;
    }
  }

  /** What a caller of WaitForIdle can check: when the current channel is closed and nobody is inside the
      state lock, that is final exactly if the drain flag is up. */
  lemma IdleIsFinalIffDraining(steps: seq<Step>)
    requires After(START, steps).Some?
    requires After(START, steps).value.writer.None?
    requires After(START, steps).value.shared.idle in After(START, steps).value.shared.closed
    ensures QuietForGood(steps) <==> After(START, steps).value.shared.draining
  {
    QuietForGoodIffStopped(steps);
    AlwaysInv(steps);
    var c := After(START, steps).value;
    if c.mu.Some? {
      assert LocksKeptBy(c, c.mu.value, c.threads[c.mu.value]);
    }
  }

  /** Drain is final: once a WaitForIdle that was called after a BeginDrain had returned gives true, no
      run is active then, and none is in any continuation. */
  lemma DrainIsFinal(steps: seq<Step>, more: seq<Step>, t: nat)
    requires After(START, steps).Some? && DrainSeen(After(START, steps).value, t)
    requires After(START, steps + more).Some?
    ensures Quiet(After(START, steps + more).value)
  {
    AlwaysInv(steps);
    var c := After(START, steps).value;
    assert DrainKeptBy(c.shared, c.threads[t]);
    if c.mu.Some? {
      assert DrainKeptBy(c.shared, c.threads[c.mu.value]);
    }
    QuietForGoodIffStopped(steps);
  }

  const WAITED := Controller(FRESH, None, None, {}, false, [WaitReturned(false, true)])

  lemma WaitAtStart()
    ensures Reachable(START, WAITED)
  {
    ReachableStep(START, CallWait);
    var called := START.(threads := [WaitCalled(false)]);
    assert Apply(START, CallWait) == called;
    UndisturbedWaitReturns(0, called, false);
    assert Going(called, 0, WaitReturned(false, true)) == WAITED;
    ReachableAlone(START, 0, called, WAITED);
  }

  /** An answer that is not final: without a drain a wait gives true, and then a run begins. */
  lemma WaitWithoutDrainIsNotFinal()
    ensures exists c, d :: && Reachable(START, c) && Reachable(c, d)
                           && c.threads == [WaitReturned(false, true)] && !Quiet(d)
  {
    WaitAtStart();
    ReachableStep(WAITED, CallRun);
    var called := Apply(WAITED, CallRun);
    UndisturbedCallRuns(1, called);
    var running := Going(called.(mu := Some(1), shared := Entered(called.shared)), 1, Running);
    ReachableAlone(WAITED, 1, called, running);
    assert running.threads[1].Running?;
  }

  // ---- No call is stuck ----

  /** As long as some call has not returned, some thread can take its next step, without any wait having
      to time out: the lock holder if there is one, the reader if there is one, and else either the call
      itself or the run its channel waits for. So no lock is held for ever and no wake-up is lost. */
  lemma SomeCallCanMove(steps: seq<Step>, t: nat)
    requires After(START, steps).Some? && t < |After(START, steps).value.threads|
    requires !Returned(After(START, steps).value.threads[t])
    ensures exists u :: Enabled(After(START, steps).value, Next(u))
  {
    AlwaysInv(steps);
    var c := After(START, steps).value;
    if c.writer.Some? {
      assert LocksKeptBy(c, c.writer.value, c.threads[c.writer.value]);
      assert Enabled(c, Next(c.writer.value));
    } else if u :| u in c.readers {
      assert LocksKeptBy(c, u, c.threads[u]);
      assert Enabled(c, Next(u));
    } else if c.threads[t].Waiting? && c.threads[t].channel !in c.shared.closed {
      assert DrainKeptBy(c.shared, c.threads[t]);
      assert LocksKeptBy(c, c.mu.value, c.threads[c.mu.value]);
      assert Enabled(c, Next(c.mu.value));
    } else {
      assert Enabled(c, Next(t));
    }
  }

  function StepsLeft(pc: PC): nat {
    match pc
    case RunCalled => 16 case RunReading => 15 case RunRead(_) => 14 case TryingLock => 13 case Locking => 12
    case Checking => 11 case Activating => 10 case Making => 9 case Opened => 8 case Running => 7 case Ending => 6
    case Deactivating => 5 case Closing => 4 case Closed => 3 case Backing => 3 case Releasing(_) => 2
    case DrainCalled => 3 case DrainWriting => 2 case DrainWritten => 1
    case WaitCalled(_) => 4 case WaitReading(_) => 3 case WaitRead(_, _) => 2 case Waiting(_, _) => 1
    case _ => 0
  }

  function Total(threads: seq<PC>): nat {
    if threads == [] then 0 else Total(threads[..|threads| - 1]) + StepsLeft(threads[|threads| - 1])
  }

  lemma {:induction false} TotalUpdate(threads: seq<PC>, t: nat, pc: PC)
    requires t < |threads|
    ensures Total(threads[t := pc]) == Total(threads) - StepsLeft(threads[t]) + StepsLeft(pc)
  {
    var last := |threads| - 1;
    if t == last {
      assert threads[t := pc][..last] == threads[..last];
    } else {
      assert threads[t := pc][..last] == threads[..last][t := pc];
      TotalUpdate(threads[..last], t, pc);
    }
  }

  predicate IsCall(step: Step) {
    step.CallRun? || step.CallDrain? || step.CallWait?
  }

  lemma MoveIsForward(c: Controller, step: Step)
    requires Enabled(c, step) && !IsCall(step)
    ensures |Apply(c, step).threads| == |c.threads|
    ensures Apply(c, step).threads == c.threads[step.t := Apply(c, step).threads[step.t]]
    ensures StepsLeft(Apply(c, step).threads[step.t]) < StepsLeft(c.threads[step.t])
  {
  }

  lemma MoveTakesOne(c: Controller, step: Step)
    requires Enabled(c, step) && !IsCall(step)
    ensures Total(Apply(c, step).threads) < Total(c.threads)
  {
    MoveIsForward(c, step);
    TotalUpdate(c.threads, step.t, Apply(c, step).threads[step.t]);
  }

  /** Without new calls every execution ends, so with SomeCallCanMove every call returns. */
  lemma {:induction false} CallsEnd(start: Controller, steps: seq<Step>)
    requires After(start, steps).Some? && forall step | step in steps :: !IsCall(step)
    ensures |steps| + Total(After(start, steps).value.threads) <= Total(start.threads)
  {
    if steps != [] {
      CallsEnd(start, steps[..|steps| - 1]);
      MoveTakesOne(After(start, steps[..|steps| - 1]).value, steps[|steps| - 1]);
    }
  }

  // ---- Threads in their run ----

  predicate AtPC(c: Controller, t: nat, pc: PC) {
    t < |c.threads| && c.threads[t] == pc
  }

  /** A controller step that begins or ends no run leaves every thread in or out of its run. */
  lemma ControlKeepsRunning(c: Controller, step: Step, t: nat)
    requires Enabled(c, step) && !(step.Next? && (c.threads[step.t].Opened? || c.threads[step.t].Running?))
    ensures AtPC(Apply(c, step), t, Running) <==> AtPC(c, t, Running)
  {
  }

  lemma BeginOrEndMovesOne(c: Controller, t: nat, u: nat)
    requires t < |c.threads| && (c.threads[t].Opened? || c.threads[t].Running?)
    ensures Enabled(c, Next(t))
    ensures AtPC(Apply(c, Next(t)), u, Running)
           <==> if u == t then c.threads[t].Opened? else AtPC(c, u, Running)
  {
  }

  /** Beside a run in progress there is no other, and none is about to begin. */
  lemma RunningExcludes(steps: seq<Step>, t: nat, u: nat)
    requires After(START, steps).Some?
    ensures AtPC(After(START, steps).value, t, Running) ==>
              && (AtPC(After(START, steps).value, u, Running) ==> t == u)
              && !AtPC(After(START, steps).value, u, Opened)
  {
    AlwaysInv(steps);
    var c := After(START, steps).value;
    if t < |c.threads| && u < |c.threads| {
      assert LocksKeptBy(c, t, c.threads[t]) && LocksKeptBy(c, u, c.threads[u]);
    }
  }
}
