/** The arithmetic of the renewal loop in internal/adapters/runner/job_leases.go: how long it
    waits, how long it lets a request run, and how late it can notice that a lease is gone. */
module LeaseTiming {

  /** Durations and instants are counted in nanoseconds. */
  const RENEWAL_REQUEST_TIMEOUT := 5_000_000_000

  /** Half of what is left. Go truncates, but `remaining` is positive here. */
  function HalfOf(remaining: nat): nat {
    remaining / 2
  }

  /** The time limit given to one extend request. */
  function RequestBudget(half: nat): nat {
    if half < RENEWAL_REQUEST_TIMEOUT then half else RENEWAL_REQUEST_TIMEOUT
  }

  /** What Core answers to one extend request. */
  datatype Answer = Deadline(at: int) | Failure

  /** What the environment does during one turn of the loop: how late the clock is read, how late
      the timer fires, how long the request takes, how late its end is noticed, and the answer. */
  datatype Round = Round(readLate: nat, timerLate: nat, latency: nat, endLate: nat, answer: Answer)

  /** How the loop ended: `lost` is the flag the check reads, `at` the last instant it looked at
      the clock, `expiresAt` the last deadline it held. */
  datatype Ending = Ending(lost: bool, at: int, expiresAt: int, requests: nat)

  /** The loop as a recursion over the rounds; running out of rounds is the job context ending. */
  function Renew(expiresAt: int, from: int, rounds: seq<Round>): Ending
    decreases |rounds|
  {
    if rounds == [] then Ending(false, from, expiresAt, 0)
    else
      var round := rounds[0];
      var readAt := from + round.readLate;
      if expiresAt <= readAt then Ending(true, readAt, expiresAt, 0)
      else
        var half := HalfOf(expiresAt - readAt);
        var woken := readAt + half + round.timerLate;
        var budget := RequestBudget(half);
        if budget == 0 then Ending(true, woken, expiresAt, 0)
        else
          var answer := if round.latency <= budget then round.answer else Failure;
          var ended := woken + (if round.latency <= budget then round.latency else budget) + round.endLate;
          if answer.Failure? || answer.at <= ended then Ending(true, ended, expiresAt, 1)
          else
            var rest := Renew(answer.at, ended, rounds[1..]);
            rest.(requests := rest.requests + 1)
  }

  /** The loop itself, with the local variables of the goroutine. */
  method RenewalLoop(leaseExpiresAt: int, startedAt: int, rounds: seq<Round>) returns (ending: Ending)
    ensures ending == Renew(leaseExpiresAt, startedAt, rounds)
  {
    var expiresAt, clock, requests, i := leaseExpiresAt, startedAt, 0, 0;
    while i < |rounds|
      invariant 0 <= i <= |rounds|
      invariant Renew(leaseExpiresAt, startedAt, rounds)
             == var rest := Renew(expiresAt, clock, rounds[i..]); rest.(requests := requests + rest.requests)
    {
      var round := rounds[i];
      assert rounds[i..][1..] == rounds[i + 1..];
      clock := clock + round.readLate;
      var remaining := expiresAt - clock;
      if remaining <= 0 {
        return Ending(true, clock, expiresAt, requests);
      }
      var half := remaining / 2;
      clock := clock + half + round.timerLate;
      var budget := if half < RENEWAL_REQUEST_TIMEOUT then half else RENEWAL_REQUEST_TIMEOUT;
      if budget <= 0 {
        return Ending(true, clock, expiresAt, requests);
      }
      requests := requests + 1;
      if budget < round.latency {
        return Ending(true, clock + budget + round.endLate, expiresAt, requests);
      }
      clock := clock + round.latency + round.endLate;
      if round.answer.Failure? || round.answer.at <= clock {
        return Ending(true, clock, expiresAt, requests);
      }
      expiresAt := round.answer.at;
      i := i + 1;
    }
    ending := Ending(false, clock, expiresAt, requests);
  }

  /** No single delay in the rounds exceeds `lateness`. */
  predicate Punctual(rounds: seq<Round>, lateness: nat) {
    forall i | 0 <= i < |rounds| ::
      rounds[i].readLate <= lateness && rounds[i].timerLate <= lateness && rounds[i].endLate <= lateness
  }

  /** Waiting half of what is left and then asking for at most the other half ends by the deadline
      held, plus one lateness for the timer and one for the request. With a punctual clock the loop
      never looks at the clock after the deadline it holds. */
  lemma {:induction false} LossIsNoticedInTime(expiresAt: int, from: int, rounds: seq<Round>, lateness: nat)
    requires from < expiresAt
    requires Punctual(rounds, lateness)
    ensures var ending := Renew(expiresAt, from, rounds);
            ending.at <= ending.expiresAt + 2 * lateness
    decreases |rounds|
  {
    if rounds != [] {
      var round := rounds[0];
      var readAt := from + round.readLate;
      if readAt < expiresAt {
        var half := HalfOf(expiresAt - readAt);
        var woken := readAt + half + round.timerLate;
        var ended := woken + round.latency + round.endLate;
        if 0 < RequestBudget(half) && round.latency <= RequestBudget(half)
           && round.answer.Deadline? && ended < round.answer.at {
          LossIsNoticedInTime(round.answer.at, ended, rounds[1..], lateness);
        }
      }
    }
  }

  /** The bound is reached: two nanoseconds of lease and a request that uses up its budget. */
  lemma LatenessBoundIsTight(lateness: nat)
    ensures var rounds := [Round(0, lateness, 1, lateness, Failure)];
            && Punctual(rounds, lateness)
            && Renew(2, 0, rounds).lost
            && Renew(2, 0, rounds).at == 2 + 2 * lateness
  {
    assert HalfOf(2) == 1;
  }

  function Pow2(k: nat): nat {
    if k == 0 then 1 else 2 * Pow2(k - 1)
  }

  /** The logarithm rounded up; CeilLog2IsLeast says what that means. */
  function CeilLog2(n: nat): nat {
    if n <= 1 then 0 else 1 + CeilLog2((n + 1) / 2)
  }

  lemma {:induction false} CeilLog2IsLeast(n: nat, k: nat)
    ensures n <= Pow2(k) <==> CeilLog2(n) <= k
    decreases k
  {
    if 1 < n && k > 0 {
      CeilLog2IsLeast((n + 1) / 2, k - 1);
    } else {
      PowerIsPositive(k);
    }
  }

  lemma PowerIsPositive(k: nat)
    ensures 1 <= Pow2(k)
  {
  }

  lemma CeilLog2Monotone(m: nat, n: nat)
    requires m <= n
    ensures CeilLog2(m) <= CeilLog2(n)
  {
  }

  /** Core never moves the deadline. */
  predicate AlwaysAnswers(rounds: seq<Round>, deadline: int) {
    forall i | 0 <= i < |rounds| :: rounds[i].answer == Deadline(deadline)
  }

  /** Against a Core that keeps returning the deadline already held, the lease is lost after at
      most log2 of the remaining time, however slow the requests are. */
  lemma {:induction false} FixedDeadlineTerminates(expiresAt: int, from: int, rounds: seq<Round>)
    requires from < expiresAt
    requires AlwaysAnswers(rounds, expiresAt)
    ensures Renew(expiresAt, from, rounds).requests <= CeilLog2(expiresAt - from)
    ensures CeilLog2(expiresAt - from) < |rounds| ==> Renew(expiresAt, from, rounds).lost
    decreases |rounds|
  {
    if rounds != [] {
      var round := rounds[0];
      var readAt := from + round.readLate;
      if readAt < expiresAt {
        var half := HalfOf(expiresAt - readAt);
        var ended := readAt + half + round.timerLate + round.latency + round.endLate;
        CeilLog2Monotone(expiresAt - readAt, expiresAt - from);
        if 0 < RequestBudget(half) && round.latency <= RequestBudget(half) && ended < expiresAt {
          CeilLog2Monotone(expiresAt - ended, (expiresAt - readAt + 1) / 2);
          FixedDeadlineTerminates(expiresAt, ended, rounds[1..]);
        }
      }
    }
  }

  /** A Core that answers at once. */
  predicate Instant(rounds: seq<Round>) {
    forall i | 0 <= i < |rounds| ::
      rounds[i].readLate == rounds[i].timerLate == rounds[i].latency == rounds[i].endLate == 0
  }

  /** The bound of FixedDeadlineTerminates is exact: an instant Core is asked exactly that often. */
  lemma {:induction false} FixedDeadlineIsExact(expiresAt: int, from: int, rounds: seq<Round>)
    requires from < expiresAt
    requires AlwaysAnswers(rounds, expiresAt) && Instant(rounds)
    requires CeilLog2(expiresAt - from) < |rounds|
    ensures Renew(expiresAt, from, rounds).lost
    ensures Renew(expiresAt, from, rounds).requests == CeilLog2(expiresAt - from)
    decreases |rounds|
  {
    var remaining := expiresAt - from;
    var half := HalfOf(remaining);
    if 1 < remaining {
      assert expiresAt - (from + half) == (remaining + 1) / 2;
      FixedDeadlineIsExact(expiresAt, from + half, rounds[1..]);
    }
  }

  // ---- When the lease survives ----

  /** When the request of a round has ended, if it took no longer than it may: the clock is read, half of
      what is left passes, the request takes its time. */
  function AnsweredAt(expiresAt: int, from: int, round: Round): int {
    var readAt := from + round.readLate;
    readAt + (expiresAt - readAt) / 2 + round.timerLate + round.latency + round.endLate
  }

  /** What the lease needs to survive a round: time left to wait half of it, an answer within the other half
      and within five seconds, and in it a deadline that has not passed by then. */
  predicate Survives(expiresAt: int, from: int, round: Round) {
    var remaining := expiresAt - (from + round.readLate);
    && 0 < remaining / 2
    && round.latency <= remaining / 2 && round.latency <= 5_000_000_000
    && round.answer.Deadline? && AnsweredAt(expiresAt, from, round) < round.answer.at
  }

  /** The same for every round, each from where the one before left off. */
  predicate SurvivesAll(expiresAt: int, from: int, rounds: seq<Round>)
    decreases |rounds|
  {
    rounds != [] ==>
      && Survives(expiresAt, from, rounds[0])
      && SurvivesAll(rounds[0].answer.at, AnsweredAt(expiresAt, from, rounds[0]), rounds[1..])
  }

  /** A round ends without a loss exactly if the lease survives it; then the deadline held is Core's. */
  lemma RoundSurvivesIff(expiresAt: int, from: int, round: Round)
    ensures var ending := Renew(expiresAt, from, [round]);
            && (!ending.lost <==> Survives(expiresAt, from, round))
            && (!ending.lost ==> ending == Ending(false, AnsweredAt(expiresAt, from, round), round.answer.at, 1))
            && (ending.lost ==> ending.expiresAt == expiresAt)
  {
    assert [round][1..] == [];
  }

  /** The loop keeps the lease over any rounds exactly if it survives each of them; then it has asked once a
      round, and holds the last deadline Core answered. */
  lemma {:induction false} LeaseSurvivesIff(expiresAt: int, from: int, rounds: seq<Round>)
    ensures var ending := Renew(expiresAt, from, rounds);
            && (!ending.lost <==> SurvivesAll(expiresAt, from, rounds))
            && (!ending.lost ==>
                  && ending.requests == |rounds|
                  && if rounds == [] then ending.expiresAt == expiresAt
                     else rounds[|rounds| - 1].answer == Deadline(ending.expiresAt))
    decreases |rounds|
  {
    if rounds != [] && Survives(expiresAt, from, rounds[0]) {
      LeaseSurvivesIff(rounds[0].answer.at, AnsweredAt(expiresAt, from, rounds[0]), rounds[1..]);
    }
  }
}
