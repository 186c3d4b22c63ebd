/** More about the runs of the lease protocol: that time can always go on, when a check ends in a
    completion, and that the renewal loop of the protocol is the loop of LeaseTiming. */
module LeaseCases {
  import opened Wrappers
  import opened LeaseTiming
  import opened LeaseProtocol

  // ---- Time goes on ----

  /** A step of an active run that may be due. */
  predicate Due(tm: Timing, s: State, step: Step) {
    (step.Start? || step.Decide? || step.Wake? || step.Receive?) && Enabled(tm, s, step) && s.runs[step.i].Active()
  }

  /** The clock is never held up: in every reachable state either a unit of time can pass, or a step of an
      active run that is due can be taken. */
  lemma ClockGoesOn(tm: Timing, steps: seq<Step>)
    requires After(tm, steps).Some?
    ensures var s := After(tm, steps).value;
            Enabled(tm, s, Advance(s.now + 1)) || exists step :: Due(tm, s, step)
  {
    AlwaysTimely(tm, steps);
    var s := After(tm, steps).value;
    if !Enabled(tm, s, Advance(s.now + 1)) {
      var i :| 0 <= i < |s.runs| && s.runs[i].Active() && s.runs[i].Latest(tm.lateness) < s.now + 1;
      OverdueIsDue(tm, s, i);
    }
  }

  lemma OverdueIsDue(tm: Timing, s: State, i: nat)
    requires i < |s.runs| && s.runs[i].Active() && s.runs[i].Latest(tm.lateness) <= s.now && RunTimely(tm, s, s.runs[i])
    ensures exists step :: Due(tm, s, step)
  {
    var step := if s.runs[i].check.Admitted? then Start(i)
                else if s.runs[i].renewal.Deciding? then Decide(i)
                else if s.runs[i].renewal.Sleeping? then Wake(i)
                else Receive(i, false);
    assert Due(tm, s, step);
  }

  // ---- When a check ends in a completion ----

  lemma {:induction false} AfterPrefix(tm: Timing, a: seq<Step>, b: seq<Step>)
    requires After(tm, a + b).Some?
    ensures After(tm, a).Some?
  {
    if b == [] {
      assert a + b == a;
    } else {
      assert (a + b)[..|a + b| - 1] == a + b[..|b| - 1];
      AfterPrefix(tm, a, b[..|b| - 1]);
    }
  }

  lemma OneMore(tm: Timing, steps: seq<Step>, step: Step)
    ensures After(tm, steps + [step]).Some? <==> After(tm, steps).Some? && Enabled(tm, After(tm, steps).value, step)
    ensures After(tm, steps + [step]).Some? ==>
              After(tm, steps + [step]).value == Apply(tm, After(tm, steps).value, step)
  {
    assert (steps + [step])[..|steps|] == steps;
  }

  /** The check has stopped with this decision, or is past its join. */
  predicate StoppedWith(s: State, i: nat, mustRelease: bool) {
    && i < |s.runs|
    && var check := s.runs[i].check;
       check == Joining(mustRelease) || check.Completing? || check.Releasing? || check.Ended?
  }

  lemma StepKeepsStopped(tm: Timing, s: State, step: Step, i: nat, mustRelease: bool)
    requires StoppedWith(s, i, mustRelease) && Enabled(tm, s, step)
    ensures StoppedWith(Apply(tm, s, step), i, mustRelease)
  {
  }

  lemma {:induction false} StoppedStays(tm: Timing, a: seq<Step>, b: seq<Step>, i: nat, mustRelease: bool)
    requires After(tm, a + b).Some? && After(tm, a).Some? && StoppedWith(After(tm, a).value, i, mustRelease)
    ensures StoppedWith(After(tm, a + b).value, i, mustRelease)
  {
    if b == [] {
      assert a + b == a;
    } else {
      var init := b[..|b| - 1];
      assert (a + b)[..|a + b| - 1] == a + init;
      StoppedStays(tm, a, init, i, mustRelease);
      StepKeepsStopped(tm, After(tm, a + init).value, b[|b| - 1], i, mustRelease);
    }
  }

  /** What decides between completion and release: the check had its slot, the surrounding run was not
      canceled when the check stopped, the lease was not lost, and at the join it has time left. A run
      canceled after the check stopped is still completed. */
  lemma CompletedIff(tm: Timing, before: seq<Step>, i: nat, slotDenied: bool, between: seq<Step>)
    requires After(tm, before + [Stop(i, slotDenied)] + between + [Join(i)]).Some?
    ensures After(tm, before).Some? && i < |After(tm, before).value.runs|
    ensures var steps := before + [Stop(i, slotDenied)] + between;
            && After(tm, steps).Some? && i < |After(tm, steps).value.runs|
            && var s := After(tm, steps).value;
               After(tm, steps + [Join(i)]).value.runs[i].check.Completing?
               <==> && !slotDenied && !After(tm, before).value.runs[i].parentCancelled
                    && !s.runs[i].leaseLost && s.now < s.runs[i].expiresAt
  {
    var stopped := before + [Stop(i, slotDenied)];
    var steps := stopped + between;
    OneMore(tm, steps, Join(i));
    AfterPrefix(tm, stopped, between);
    OneMore(tm, before, Stop(i, slotDenied));
    StoppedStays(tm, stopped, between, i, slotDenied || After(tm, before).value.runs[i].parentCancelled);
  }

  /** A run whose check stops just before the run is canceled. */
  function LateCancel(tm: Timing): seq<Step> {
    var end := tm.start + 2;
    [Grant(0, end), Admit(Claim(0, 1, end)), Start(0), Stop(0, false), CancelParent(0), Decide(0), Notice(0), Join(0)]
  }

  function LateCancelStates(tm: Timing): seq<State> {
    var end := tm.start + 2;
    var core := map[0 := Lease(1, end, true)];
    var run := (cancelled, parentCancelled, check, renewal) =>
      State(tm.start, core, {}, [Run(0, 1, end, false, cancelled, parentCancelled, check, renewal)]);
    var deciding := Deciding(tm.start + tm.lateness);
    [ Initial(tm),
      State(tm.start, core, {Claim(0, 1, end)}, []),
      run(false, false, Admitted(tm.start + tm.lateness), Deciding(tm.start)),
      run(false, false, Checking, deciding),
      run(true, false, Joining(false), deciding),
      run(true, true, Joining(false), deciding),
      run(true, true, Joining(false), Sleeping(1, tm.start + 1)),
      run(true, true, Joining(false), Exited),
      run(true, true, Completing, Exited) ]
  }

  predicate LateCancelGoesOn(tm: Timing, n: nat)
    requires n < 8
  {
    && Enabled(tm, LateCancelStates(tm)[n], LateCancel(tm)[n])
    && Apply(tm, LateCancelStates(tm)[n], LateCancel(tm)[n]) == LateCancelStates(tm)[n + 1]
  }

  lemma LateCancelStarts(tm: Timing)
    ensures LateCancelGoesOn(tm, 0) && LateCancelGoesOn(tm, 1) && LateCancelGoesOn(tm, 2)
  {
    assert Apply(tm, LateCancelStates(tm)[1], LateCancel(tm)[1]).inbox == {};
  }

  lemma LateCancelCancels(tm: Timing)
    ensures LateCancelGoesOn(tm, 3) && LateCancelGoesOn(tm, 4)
  {
  }

  lemma LateCancelJoins(tm: Timing)
    ensures LateCancelGoesOn(tm, 5) && LateCancelGoesOn(tm, 6) && LateCancelGoesOn(tm, 7)
  {
    assert HalfOf(2) == 1;
  }

  lemma {:induction false} LateCancelReaches(tm: Timing, n: nat)
    requires n <= 8
    ensures After(tm, LateCancel(tm)[..n]) == Some(LateCancelStates(tm)[n])
  {
    if n > 0 {
      LateCancelReaches(tm, n - 1);
      LateCancelStarts(tm);
      LateCancelCancels(tm);
      LateCancelJoins(tm);
      assert LateCancelGoesOn(tm, n - 1) by { assert n - 1 in [0, 1, 2, 3, 4, 5, 6, 7]; }
      assert LateCancel(tm)[..n][..n - 1] == LateCancel(tm)[..n - 1];
    }
  }

  /** A canceled run is not always released. */
  lemma CanceledRunCanComplete(tm: Timing)
    ensures After(tm, LateCancel(tm)).Some?
    ensures var run := After(tm, LateCancel(tm)).value.runs[0]; run.parentCancelled && run.check.Completing?
  {
    LateCancelReaches(tm, 8);
    assert LateCancel(tm)[..8] == LateCancel(tm);
  }

  // ---- The two renewal loops are one ----

  /** Core's record when it answers with this deadline. */
  function Alone(now: int, run: Run, deadline: int): State {
    State(now, map[run.job := Lease(run.attempt, deadline, true)], {}, [run])
  }

  /** The end of a request, when its time limit began at `woken`. */
  function PlayRequest(tm: Timing, awake: Run, woken: int, round: Round): (Run, int)
    requires awake.renewal.Requesting?
  {
    var budget: int := awake.renewal.until - woken;
    if round.latency <= budget && round.answer.Deadline? then
      var ended := woken + round.latency + round.endLate;
      var answered := StepRun(tm, Alone(ended, awake, round.answer.at), awake, Step.Answer(0));
      (StepRun(tm, Alone(ended, awake, 0), answered, Receive(0, true)), ended)
    else
      var ended := woken + (if round.latency <= budget then round.latency else budget) + round.endLate;
      (StepRun(tm, Alone(ended, awake, 0), awake, Receive(0, false)), ended)
  }

  /** One turn of the protocol's renewal loop, taken by one run while nothing else happens: the run after
      it, and when it ended. */
  function PlayRound(tm: Timing, run: Run, from: int, round: Round): (Run, int) {
    var readAt := from + round.readLate;
    var decided := StepRun(tm, Alone(readAt, run, 0), run, Decide(0));
    if !decided.renewal.Sleeping? then (decided, readAt)
    else
      var woken := decided.renewal.wakeAt + round.timerLate;
      var awake := StepRun(tm, Alone(woken, run, 0), decided, Wake(0));
      if awake.renewal.Requesting? then PlayRequest(tm, awake, woken, round) else (awake, woken)
  }

  function PlayRounds(tm: Timing, run: Run, from: int, rounds: seq<Round>): (Run, int)
    decreases |rounds|
  {
    if rounds == [] || run.leaseLost then (run, from)
    else
      var (next, at) := PlayRound(tm, run, from, rounds[0]);
      PlayRounds(tm, next, at, rounds[1..])
  }

  /** A run whose loop is at its top. */
  predicate AtTop(run: Run) {
    run.renewal.Deciding? && !run.cancelled && !run.leaseLost
  }

  /** A round in which a request is sent. */
  predicate Asks(run: Run, from: int, round: Round) {
    from + round.readLate < run.expiresAt && 0 < RequestBudget(HalfOf(run.expiresAt - from - round.readLate))
  }

  lemma LostBeforeAsking(tm: Timing, run: Run, from: int, round: Round)
    requires AtTop(run) && !Asks(run, from, round)
    ensures var (next, at) := PlayRound(tm, run, from, round);
            var one := Renew(run.expiresAt, from, [round]);
            next.leaseLost && one.lost && at == one.at && next.expiresAt == one.expiresAt
  {
  }

  lemma RoundsAgree(tm: Timing, run: Run, from: int, round: Round)
    requires AtTop(run)
    ensures var (next, at) := PlayRound(tm, run, from, round);
            Agree(next, at, Renew(run.expiresAt, from, [round]))
  {
    if Asks(run, from, round) {
      AskedAgrees(tm, run, from, round);
    } else {
      LostBeforeAsking(tm, run, from, round);
    }
  }

  /** When the timer has fired, and the request is out. */
  function Woken(run: Run, from: int, round: Round): int
    requires Asks(run, from, round)
  {
    from + round.readLate + HalfOf(run.expiresAt - from - round.readLate) + round.timerLate
  }

  function Asking(run: Run, from: int, round: Round): Run
    requires Asks(run, from, round)
  {
    var budget := RequestBudget(HalfOf(run.expiresAt - from - round.readLate));
    run.(renewal := Requesting(Woken(run, from, round) + budget, NoReply))
  }

  lemma PlayRoundAsks(tm: Timing, run: Run, from: int, round: Round)
    requires AtTop(run) && Asks(run, from, round)
    ensures PlayRound(tm, run, from, round) == PlayRequest(tm, Asking(run, from, round), Woken(run, from, round), round)
  {
  }

  /** How the loop of LeaseTiming ends a request. */
  function Requested(expiresAt: int, woken: int, budget: nat, round: Round): Ending {
    var answer := if round.latency <= budget then round.answer else Failure;
    var ended := woken + (if round.latency <= budget then round.latency else budget) + round.endLate;
    if answer.Failure? || answer.at <= ended then Ending(true, ended, expiresAt, 1)
    else Ending(false, ended, answer.at, 1)
  }

  lemma RenewAsks(run: Run, from: int, round: Round)
    requires Asks(run, from, round)
    ensures Renew(run.expiresAt, from, [round])
         == Requested(run.expiresAt, Woken(run, from, round),
                      RequestBudget(HalfOf(run.expiresAt - from - round.readLate)), round)
  {
    assert [round][1..] == [];
  }

  predicate Agree(run: Run, at: int, ending: Ending) {
    run.leaseLost == ending.lost && at == ending.at && run.expiresAt == ending.expiresAt
      && (!ending.lost ==> AtTop(run))
  }

  lemma RequestAgrees(tm: Timing, awake: Run, woken: int, budget: nat, round: Round)
    requires awake.renewal == Requesting(woken + budget, NoReply) && !awake.cancelled && !awake.leaseLost
    ensures var (next, at) := PlayRequest(tm, awake, woken, round);
            Agree(next, at, Requested(awake.expiresAt, woken, budget, round))
  {
  }

  lemma AskedAgrees(tm: Timing, run: Run, from: int, round: Round)
    requires AtTop(run) && Asks(run, from, round)
    ensures var (next, at) := PlayRound(tm, run, from, round);
            Agree(next, at, Renew(run.expiresAt, from, [round]))
  {
    var budget := RequestBudget(HalfOf(run.expiresAt - from - round.readLate));
    PlayRoundAsks(tm, run, from, round);
    RenewAsks(run, from, round);
    RequestAgrees(tm, Asking(run, from, round), Woken(run, from, round), budget, round);
  }

  /** Renewing over several rounds is renewing over the first, and then over the rest. */
  lemma RenewFirst(expiresAt: int, from: int, rounds: seq<Round>)
    requires rounds != []
    ensures var one, all := Renew(expiresAt, from, [rounds[0]]), Renew(expiresAt, from, rounds);
            if one.lost then all == one
            else all == Renew(one.expiresAt, one.at, rounds[1..]).(requests := all.requests)
  {
    assert [rounds[0]][1..] == [];
  }

  /** The renewal loop of the protocol, left to itself, is the loop of LeaseTiming: the same loss, the
      same last look at the clock, the same last deadline. */
  lemma {:induction false} ProtocolRenewsAsTheLoop(tm: Timing, run: Run, from: int, rounds: seq<Round>)
    requires AtTop(run)
    ensures var (last, at) := PlayRounds(tm, run, from, rounds);
            var ending := Renew(run.expiresAt, from, rounds);
            last.leaseLost == ending.lost && at == ending.at && last.expiresAt == ending.expiresAt
    decreases |rounds|
  {
    if rounds != [] {
      var (next, at) := PlayRound(tm, run, from, rounds[0]);
      RoundsAgree(tm, run, from, rounds[0]);
      RenewFirst(run.expiresAt, from, rounds);
      if !next.leaseLost {
        ProtocolRenewsAsTheLoop(tm, next, at, rounds[1..]);
      }
    }
  }

  // ---- The rounds are an execution of the protocol ----

  /** What no step of the protocol leaves. */
  ghost predicate ClosedUnder(tm: Timing, p: State -> bool) {
    forall s, step :: p(s) && Enabled(tm, s, step) ==> p(Apply(tm, s, step))
  }

  lemma TimePasses(tm: Timing, p: State -> bool, now: int, to: int, run: Run, expiry: int)
    requires ClosedUnder(tm, p) && p(Alone(now, run, expiry))
    requires now <= to && (run.Active() ==> to <= run.Latest(tm.lateness))
    ensures p(Alone(to, run, expiry))
  {
    assert Enabled(tm, Alone(now, run, expiry), Advance(to));
    assert Apply(tm, Alone(now, run, expiry), Advance(to)) == Alone(to, run, expiry);
  }

  lemma RunSteps(tm: Timing, p: State -> bool, now: int, run: Run, expiry: int, step: Step)
    requires ClosedUnder(tm, p) && p(Alone(now, run, expiry)) && Local(step)
    requires Enabled(tm, Alone(now, run, expiry), step)
    ensures p(Alone(now, StepRun(tm, Alone(now, run, expiry), run, step), expiry))
  {
    var s := Alone(now, run, expiry);
    SteppedRunIsTheSame(tm, s, run, step);
    assert Apply(tm, s, step).runs == [StepRun(tm, s, run, step)];
    assert Apply(tm, s, step) == Alone(now, StepRun(tm, s, run, step), expiry);
  }

  lemma CoreExtends(tm: Timing, p: State -> bool, now: int, run: Run, expiry: int, later: int)
    requires ClosedUnder(tm, p) && p(Alone(now, run, expiry)) && expiry <= later
    ensures p(Alone(now, run, later))
  {
    var s := Alone(now, run, expiry);
    assert Enabled(tm, s, Extend(run.job, later));
    assert Apply(tm, s, Extend(run.job, later)).core == Alone(now, run, later).core;
  }

  /** A live run whose loop came to its top at this instant. */
  predicate JustAtTop(tm: Timing, run: Run, at: int) {
    AtTop(run) && run.Live() && run.renewal == Deciding(at + tm.lateness)
  }

  /** Core's record after a round: what it answered, if the answer was in time. */
  function ExpiryAfter(run: Run, from: int, round: Round, expiry: int): int {
    if Asks(run, from, round) && round.answer.Deadline?
       && round.latency <= RequestBudget(HalfOf(run.expiresAt - from - round.readLate))
    then round.answer.at else expiry
  }

  predicate PunctualRound(round: Round, lateness: nat) {
    round.readLate <= lateness && round.timerLate <= lateness && round.endLate <= lateness
  }

  lemma LostIsExecution(tm: Timing, p: State -> bool, run: Run, from: int, round: Round, expiry: int)
    requires ClosedUnder(tm, p) && JustAtTop(tm, run, from) && p(Alone(from, run, expiry))
    requires PunctualRound(round, tm.lateness) && !Asks(run, from, round)
    ensures var (next, at) := PlayRound(tm, run, from, round); p(Alone(at, next, expiry))
  {
    var readAt := from + round.readLate;
    TimePasses(tm, p, from, readAt, run, expiry);
    RunSteps(tm, p, readAt, run, expiry, Decide(0));
    if readAt < run.expiresAt {
      var half := HalfOf(run.expiresAt - readAt);
      var decided := run.(renewal := Sleeping(half, readAt + half));
      TimePasses(tm, p, readAt, readAt + half + round.timerLate, decided, expiry);
      RunSteps(tm, p, readAt + half + round.timerLate, decided, expiry, Wake(0));
    }
  }

  lemma AskingIsExecution(tm: Timing, p: State -> bool, run: Run, from: int, round: Round, expiry: int)
    requires ClosedUnder(tm, p) && JustAtTop(tm, run, from) && p(Alone(from, run, expiry))
    requires PunctualRound(round, tm.lateness) && Asks(run, from, round)
    ensures p(Alone(Woken(run, from, round), Asking(run, from, round), expiry))
  {
    var readAt := from + round.readLate;
    var half := HalfOf(run.expiresAt - readAt);
    var decided := run.(renewal := Sleeping(half, readAt + half));
    TimePasses(tm, p, from, readAt, run, expiry);
    RunSteps(tm, p, readAt, run, expiry, Decide(0));
    TimePasses(tm, p, readAt, readAt + half + round.timerLate, decided, expiry);
    RunSteps(tm, p, readAt + half + round.timerLate, decided, expiry, Wake(0));
  }

  lemma RequestIsExecution(tm: Timing, p: State -> bool, awake: Run, woken: int, budget: nat, round: Round, expiry: int)
    requires ClosedUnder(tm, p) && p(Alone(woken, awake, expiry))
    requires awake.renewal == Requesting(woken + budget, NoReply) && awake.Live()
    requires round.endLate <= tm.lateness && (round.answer.Deadline? ==> expiry <= round.answer.at)
    ensures var (next, at) := PlayRequest(tm, awake, woken, round);
            p(Alone(at, next, if round.latency <= budget && round.answer.Deadline? then round.answer.at else expiry))
  {
    var ended := woken + (if round.latency <= budget then round.latency else budget) + round.endLate;
    TimePasses(tm, p, woken, ended, awake, expiry);
    if round.latency <= budget && round.answer.Deadline? {
      CoreExtends(tm, p, ended, awake, expiry, round.answer.at);
      RunSteps(tm, p, ended, awake, round.answer.at, Step.Answer(0));
      var answered := awake.(renewal := awake.renewal.(reply := Extended(round.answer.at)));
      RunSteps(tm, p, ended, answered, round.answer.at, Receive(0, true));
    } else {
      RunSteps(tm, p, ended, awake, expiry, Receive(0, false));
    }
  }

  lemma RequestEndsAtTop(tm: Timing, awake: Run, woken: int, round: Round)
    requires awake.renewal.Requesting? && awake.Live() && !awake.leaseLost
    ensures var (next, at) := PlayRequest(tm, awake, woken, round); !next.leaseLost ==> JustAtTop(tm, next, at)
  {
  }

  lemma RoundIsExecution(tm: Timing, p: State -> bool, run: Run, from: int, round: Round, expiry: int)
    requires ClosedUnder(tm, p) && JustAtTop(tm, run, from) && p(Alone(from, run, expiry))
    requires PunctualRound(round, tm.lateness) && (round.answer.Deadline? ==> expiry <= round.answer.at)
    ensures var (next, at) := PlayRound(tm, run, from, round);
            p(Alone(at, next, ExpiryAfter(run, from, round, expiry))) && (!next.leaseLost ==> JustAtTop(tm, next, at))
  {
    if Asks(run, from, round) {
      var budget := RequestBudget(HalfOf(run.expiresAt - from - round.readLate));
      PlayRoundAsks(tm, run, from, round);
      AskingIsExecution(tm, p, run, from, round, expiry);
      RequestIsExecution(tm, p, Asking(run, from, round), Woken(run, from, round), budget, round, expiry);
      RequestEndsAtTop(tm, Asking(run, from, round), Woken(run, from, round), round);
    } else {
      LostIsExecution(tm, p, run, from, round, expiry);
      LostBeforeAsking(tm, run, from, round);
    }
  }

  /** Core never answers with an earlier deadline than it has on record. */
  predicate NeverShortens(rounds: seq<Round>, expiry: int) {
    rounds != [] ==>
      && (rounds[0].answer.Deadline? ==> expiry <= rounds[0].answer.at)
      && NeverShortens(rounds[1..], if rounds[0].answer.Deadline? then rounds[0].answer.at else expiry)
  }

  lemma {:induction false} RoundsAreExecution(tm: Timing, p: State -> bool, run: Run, from: int, rounds: seq<Round>,
                                              expiry: int)
    returns (last: int)
    requires ClosedUnder(tm, p) && JustAtTop(tm, run, from) && p(Alone(from, run, expiry))
    requires Punctual(rounds, tm.lateness) && NeverShortens(rounds, expiry)
    ensures var (end, at) := PlayRounds(tm, run, from, rounds); p(Alone(at, end, last))
    decreases |rounds|
  {
    last := expiry;
    if rounds != [] {
      var (next, at) := PlayRound(tm, run, from, rounds[0]);
      RoundIsExecution(tm, p, run, from, rounds[0], expiry);
      last := ExpiryAfter(run, from, rounds[0], expiry);
      if !next.leaseLost {
        ExtendedWasAnswered(tm, run, from, rounds[0], expiry);
        last := RoundsAreExecution(tm, p, next, at, rounds[1..], last);
      }
    }
  }

  /** The lease is only kept by an answer in time. */
  lemma ExtendedWasAnswered(tm: Timing, run: Run, from: int, round: Round, expiry: int)
    requires AtTop(run) && !PlayRound(tm, run, from, round).0.leaseLost
    ensures round.answer.Deadline? && ExpiryAfter(run, from, round, expiry) == round.answer.at
  {
    RoundsAgree(tm, run, from, round);
    if Asks(run, from, round) {
      RenewAsks(run, from, round);
    } else {
      LostBeforeAsking(tm, run, from, round);
    }
  }

  ghost predicate Reached(tm: Timing, s: State) {
    exists steps :: After(tm, steps) == Some(s)
  }

  lemma ReachedIsClosed(tm: Timing)
    ensures Reached(tm, Initial(tm)) && ClosedUnder(tm, s => Reached(tm, s))
  {
    assert After(tm, []) == Some(Initial(tm));
    forall s, step | Reached(tm, s) && Enabled(tm, s, step) ensures Reached(tm, Apply(tm, s, step)) {
      var steps :| After(tm, steps) == Some(s);
      OneMore(tm, steps, step);
      assert After(tm, steps + [step]) == Some(Apply(tm, s, step));
    }
  }

  /** The first run, when its check has just started. */
  function FirstRun(tm: Timing, expiry: int): Run {
    Run(0, 1, expiry, false, false, false, Checking, Deciding(tm.start + tm.lateness))
  }

  lemma FirstRunStarts(tm: Timing, p: State -> bool, expiry: int)
    requires ClosedUnder(tm, p) && p(Initial(tm)) && tm.start < expiry
    ensures p(Alone(tm.start, FirstRun(tm, expiry), expiry))
  {
    var core := map[0 := Lease(1, expiry, true)];
    var granted := State(tm.start, core, {Claim(0, 1, expiry)}, []);
    assert Apply(tm, Initial(tm), Grant(0, expiry)) == granted;
    assert p(granted);
    var admitted := FirstRun(tm, expiry).(check := Admitted(tm.start + tm.lateness), renewal := Deciding(tm.start));
    assert Apply(tm, granted, Admit(Claim(0, 1, expiry))).inbox == {};
    assert Apply(tm, granted, Admit(Claim(0, 1, expiry))) == Alone(tm.start, admitted, expiry);
    RunSteps(tm, p, tm.start, admitted, expiry, Start(0));
  }

  /** For any punctual rounds, with a Core that never shortens a lease, the protocol has an execution in
      which the first run renews as the loop of LeaseTiming does over these rounds: with the same loss, at
      the same instant, and with the same last deadline. */
  lemma LoopIsAnExecution(tm: Timing, expiry: int, rounds: seq<Round>)
    requires tm.start < expiry && Punctual(rounds, tm.lateness) && NeverShortens(rounds, expiry)
    ensures var ending := Renew(expiry, tm.start, rounds);
            exists s :: && Reached(tm, s) && |s.runs| == 1 && s.now == ending.at
                        && s.runs[0].leaseLost == ending.lost && s.runs[0].expiresAt == ending.expiresAt
  {
    ReachedIsClosed(tm);
    var p, run := s => Reached(tm, s), FirstRun(tm, expiry);
    FirstRunStarts(tm, p, expiry);
    var last := RoundsAreExecution(tm, p, run, tm.start, rounds, expiry);
    var (end, at) := PlayRounds(tm, run, tm.start, rounds);
    ProtocolRenewsAsTheLoop(tm, run, tm.start, rounds);
    assert Reached(tm, Alone(at, end, last));
  }

  // ---- When a lease survives in the protocol ----

  /** A request may take as long as was waited before it, and no longer than five seconds; without any time
      to wait there is none, and the lease is lost. */
  lemma WakeAsksFor(tm: Timing, s: State, run: Run, half: nat, wakeAt: int)
    requires run.renewal == Sleeping(half, wakeAt)
    ensures var woken := StepRun(tm, s, run, Wake(0));
            && woken.expiresAt == run.expiresAt
            && (half == 0 ==> woken.leaseLost && woken.cancelled && woken.renewal.Exited?)
            && (0 < half && half <= 5_000_000_000 ==>
                  woken == run.(renewal := Requesting(s.now + half, NoReply)))
            && (5_000_000_000 < half ==> woken == run.(renewal := Requesting(s.now + 5_000_000_000, NoReply)))
  {
  }

  /** At the end of a request the lease is kept exactly if Core answered a deadline that has not passed. */
  lemma ReceiveKeepsIff(tm: Timing, s: State, run: Run, ok: bool)
    requires run.renewal.Requesting? && !run.cancelled && !run.leaseLost
    ensures var next := StepRun(tm, s, run, Receive(0, ok));
            var kept := ok && run.renewal.reply.Extended? && s.now < run.renewal.reply.deadline;
            && (!next.leaseLost <==> kept)
            && (kept ==> next.expiresAt == run.renewal.reply.deadline && next.renewal.Deciding? && !next.cancelled)
            && (!kept ==> next.expiresAt == run.expiresAt && next.cancelled && next.renewal.Exited?)
  {
  }

  /** Played in the protocol, rounds leave a run its lease exactly if it survives each of them. */
  lemma RunSurvivesIff(tm: Timing, run: Run, from: int, rounds: seq<Round>)
    requires AtTop(run)
    ensures !PlayRounds(tm, run, from, rounds).0.leaseLost <==> SurvivesAll(run.expiresAt, from, rounds)
  {
    ProtocolRenewsAsTheLoop(tm, run, from, rounds);
    LeaseSurvivesIff(run.expiresAt, from, rounds);
  }
}
