/** The interval gates of internal/adapters/runner: response_cadence.go, and the same gate in front of
    the two auxiliary phases of runner.go. */
module ResponseCadence {
  import opened Wrappers

  /** Instants and durations are counted in nanoseconds. */
  const SECOND: int := 1_000_000_000
  const LEGACY_RESPONSE_CHECK_INTERVAL: int := 300 * SECOND
  const MINIMUM_RESPONSE_CHECK_INTERVAL: int := 60 * SECOND
  const AUXILIARY_INTERVAL: int := 300 * SECOND

  datatype Monitoring = Monitoring(id: string, checkIntervalSeconds: int, lastResponseAt: Option<int>)

  function ResponseCheckInterval(m: Monitoring): (interval: int)
    ensures MINIMUM_RESPONSE_CHECK_INTERVAL <= interval
  {
    if m.checkIntervalSeconds < 60 then LEGACY_RESPONSE_CHECK_INTERVAL else m.checkIntervalSeconds * SECOND
  }

  predicate ResponseDue(m: Monitoring, now: int) {
    m.lastResponseAt.Some? ==> m.lastResponseAt.value + ResponseCheckInterval(m) <= now
  }

  function CadenceKey(id: string, location: string): string {
    id + ":" + location
  }

  // ---- The gate ----

  /** One call of a gate. `due` is what the caller checked before it looked at the recorded start. */
  datatype Attempt<K> = Attempt(key: K, interval: int, due: bool, now: int)

  predicate Opens<K>(last: map<K, int>, a: Attempt<K>) {
    a.due && (a.key in last ==> a.interval <= a.now - last[a.key])
  }

  function Pass<K>(last: map<K, int>, a: Attempt<K>): map<K, int> {
    if Opens(last, a) then last[a.key := a.now] else last
  }

  /** The recorded starts after a sequence of calls. */
  function PassAll<K>(last: map<K, int>, calls: seq<Attempt<K>>): map<K, int> {
    if calls == [] then last
    else Pass(PassAll(last, calls[..|calls| - 1]), calls[|calls| - 1])
  }

  predicate Accepted<K>(last: map<K, int>, calls: seq<Attempt<K>>, i: nat)
    requires i < |calls|
  {
    Opens(PassAll(last, calls[..i]), calls[i])
  }

  class ResponseCadence {
    var starts: map<string, int>

    constructor ()
      ensures starts == map[]
    {
      starts := map[];
    }

    method TryStart(m: Monitoring, location: string, now: int) returns (started: bool)
      modifies this
      ensures var call := CadenceCall(m, location, now);
              started == Opens(old(starts), call) && starts == Pass(old(starts), call)
      ensures started <==> && Passed(m.lastResponseAt, Seconds(m), now)
                           && Passed(LastOf(old(starts), m.id + ":" + location), Seconds(m), now)
    {
      var interval := ResponseCheckInterval(m);
      if !ResponseDue(m, now) {
        return false;
      }
      var key := m.id + ":" + location;
      if key in starts && now - starts[key] < interval {
        return false;
      }
      starts := starts[key := now];
      return true;
    }
  }

  function CadenceCall(m: Monitoring, location: string, now: int): Attempt<string> {
    Attempt(CadenceKey(m.id, location), ResponseCheckInterval(m), ResponseDue(m, now), now)
  }

  datatype Phase = Response | SSL | DomainExpiration

  class AuxiliarySchedule {
    var phaseLastRuns: map<Phase, int>

    constructor ()
      ensures phaseLastRuns == map[]
    {
      phaseLastRuns := map[];
    }

    method AllowAuxiliaryPhase(phase: Phase, now: int) returns (allowed: bool)
      modifies this
      ensures var call := Attempt(phase, AUXILIARY_INTERVAL, true, now);
              allowed == Opens(old(phaseLastRuns), call) && phaseLastRuns == Pass(old(phaseLastRuns), call)
      ensures allowed <==> Passed(LastOf(old(phaseLastRuns), phase), 300, now)
    {
      if phase in phaseLastRuns && now - phaseLastRuns[phase] < AUXILIARY_INTERVAL {
        return false;
      }
      phaseLastRuns := phaseLastRuns[phase := now];
      return true;
    }
  }

  // ---- The gates in seconds ----

  /** So many seconds after an instant, if there is one. */
  predicate Passed(since: Option<int>, seconds: int, now: int) {
    since.Some? ==> since.value + 1_000_000_000 * seconds <= now
  }

  /** The interval of a monitoring: what it asks for from one minute on, and five minutes if it asks for less. */
  function Seconds(m: Monitoring): int {
    if 60 <= m.checkIntervalSeconds then m.checkIntervalSeconds else 300
  }

  function LastOf<K>(last: map<K, int>, key: K): Option<int> {
    if key in last then Some(last[key]) else None
  }

  /** A response check starts exactly if its interval has passed both since the last response Core knows of and
      since the start recorded for this monitoring and location; then this start is recorded. */
  lemma StartsIff(starts: map<string, int>, m: Monitoring, location: string, now: int)
    ensures var opens := && Passed(m.lastResponseAt, Seconds(m), now)
                         && Passed(LastOf(starts, m.id + ":" + location), Seconds(m), now);
            && (Opens(starts, CadenceCall(m, location, now)) <==> opens)
            && Pass(starts, CadenceCall(m, location, now))
               == if opens then starts[m.id + ":" + location := now] else starts
  {
  }

  lemma DueIff(m: Monitoring, now: int)
    ensures ResponseDue(m, now) <==> Passed(m.lastResponseAt, Seconds(m), now)
  {
  }

  /** An auxiliary phase starts exactly if five minutes have passed since its last start. */
  lemma AuxiliaryStartsIff(starts: map<Phase, int>, phase: Phase, now: int)
    ensures var opens := Passed(LastOf(starts, phase), 300, now);
            var call := Attempt(phase, AUXILIARY_INTERVAL, true, now);
            (Opens(starts, call) <==> opens) && Pass(starts, call) == if opens then starts[phase := now] else starts
  {
  }

  // ---- Lower bound: accepted starts are spaced ----

  predicate PositiveIntervals<K>(calls: seq<Attempt<K>>) {
    forall i | 0 <= i < |calls| :: 0 < calls[i].interval
  }

  /** The recorded start never falls behind a start accepted before, whatever order `now` comes in. */
  lemma {:induction false} RecordedStartGrows<K>(last: map<K, int>, calls: seq<Attempt<K>>, i: nat)
    requires i < |calls| && PositiveIntervals(calls) && Accepted(last, calls, i)
    ensures calls[i].key in PassAll(last, calls) && calls[i].now <= PassAll(last, calls)[calls[i].key]
  {
    var before := calls[..|calls| - 1];
    if i < |before| {
      assert before[..i] == calls[..i];
      RecordedStartGrows(last, before, i);
    }
  }

  /** Over every sequence of calls, out of order or not, two accepted starts for one key are at least
      the later call's own interval apart, so they strictly increase. */
  lemma AcceptedStartsAreSpaced<K>(last: map<K, int>, calls: seq<Attempt<K>>, i: nat, j: nat)
    requires i < j < |calls| && PositiveIntervals(calls)
    requires Accepted(last, calls, i) && Accepted(last, calls, j) && calls[i].key == calls[j].key
    ensures calls[i].now + calls[j].interval <= calls[j].now
  {
    assert calls[..j][..i] == calls[..i];
    RecordedStartGrows(last, calls[..j], i);
  }

  /** How many starts for a key the calls had accepted in a window. */
  function StartsInWindow<K(==)>(last: map<K, int>, calls: seq<Attempt<K>>, key: K, from: int, width: nat): nat {
    if calls == [] then 0
    else
      var before, call := calls[..|calls| - 1], calls[|calls| - 1];
      StartsInWindow(last, before, key, from, width)
      + if call.key == key && from <= call.now <= from + width && Opens(PassAll(last, before), call) then 1 else 0
  }

  lemma {:induction false} StartsInWindowSpread<K>(
      last: map<K, int>, calls: seq<Attempt<K>>, key: K, interval: nat, from: int, width: nat)
    requires 0 < interval
    requires forall i | 0 <= i < |calls| && calls[i].key == key :: calls[i].interval == interval
    ensures var n := StartsInWindow(last, calls, key, from, width);
            n > 0 ==> && (n - 1) * interval <= width
                      && key in PassAll(last, calls)
                      && from + (n - 1) * interval <= PassAll(last, calls)[key]
  {
    if calls != [] {
      var before, call := calls[..|calls| - 1], calls[|calls| - 1];
      StartsInWindowSpread(last, before, key, interval, from, width);
      var n := StartsInWindow(last, before, key, from, width);
      assert (n - 1) * interval + interval == n * interval;
    }
  }

  /** A constant interval lets at most width / interval + 1 starts of one key into any window. */
  lemma AtMostOnePerInterval<K>(
      last: map<K, int>, calls: seq<Attempt<K>>, key: K, interval: nat, from: int, width: nat)
    requires 0 < interval
    requires forall i | 0 <= i < |calls| && calls[i].key == key :: calls[i].interval == interval
    ensures StartsInWindow(last, calls, key, from, width) <= width / interval + 1
  {
    StartsInWindowSpread(last, calls, key, interval, from, width);
    var n := StartsInWindow(last, calls, key, from, width);
    if n > 0 {
      QuotientIsLargest(width, interval, n - 1);
    }
  }

  lemma QuotientIsLargest(width: nat, interval: nat, n: nat)
    requires 0 < interval && n * interval <= width
    ensures n <= width / interval
  {
    var q := width / interval;
    assert width < (q + 1) * interval;
    if q + 1 <= n {
      TimesIsMonotone(q + 1, n, interval);
      assert false;
    }
  }

  lemma TimesIsMonotone(a: nat, b: nat, c: nat)
    requires a <= b
    ensures a * c <= b * c
  {
  }

  // ---- Different keys never interfere ----

  function Only<K(==)>(calls: seq<Attempt<K>>, key: K): seq<Attempt<K>> {
    if calls == [] then []
    else
      var before, call := Only(calls[..|calls| - 1], key), calls[|calls| - 1];
      if call.key == key then before + [call] else before
  }

  function Recorded<K>(last: map<K, int>, key: K): Option<int> {
    if key in last then Some(last[key]) else None
  }

  /** What is recorded for a key is what its own calls alone would have left. */
  lemma {:induction false} KeysDoNotInterfere<K>(last: map<K, int>, calls: seq<Attempt<K>>, key: K)
    ensures Recorded(PassAll(last, calls), key) == Recorded(PassAll(last, Only(calls, key)), key)
  {
    if calls != [] {
      var before, call := calls[..|calls| - 1], calls[|calls| - 1];
      KeysDoNotInterfere(last, before, key);
      if call.key == key {
        assert (Only(before, key) + [call])[..|Only(before, key)|] == Only(before, key);
      }
    }
  }

  /** At one location, two monitorings share a key only if they are the same monitoring. */
  lemma OneLocationSeparatesMonitorings(a: string, b: string, location: string)
    ensures CadenceKey(a, location) == CadenceKey(b, location) <==> a == b
  {
    if CadenceKey(a, location) == CadenceKey(b, location) {
      var key, suffix := CadenceKey(a, location), ":" + location;
      assert key == a + suffix == b + suffix;
      assert key[..|key| - |suffix|] == a && key[..|key| - |suffix|] == b;
    }
  }

  /** Across locations the keys can collide: the separator is not escaped. */
  lemma TwoLocationsCanCollide(a: string, b: string, c: string)
    ensures CadenceKey(a, b + ":" + c) == CadenceKey(a + ":" + b, c)
  {
    assert a + ":" + (b + ":" + c) == a + ":" + b + ":" + c;
  }

  // ---- Upper bound: the two gates together never starve a monitoring ----

  /** One dispatch of a monitoring: the producer's gate, then the worker's, on one snapshot. */
  datatype Poll = Poll(monitoring: Monitoring, producerNow: int, workerNow: int)

  predicate Starts(starts: map<string, int>, location: string, poll: Poll) {
    && ResponseDue(poll.monitoring, poll.producerNow)
    && Opens(starts, CadenceCall(poll.monitoring, location, poll.workerNow))
  }

  function AfterPoll(starts: map<string, int>, location: string, poll: Poll): map<string, int> {
    if ResponseDue(poll.monitoring, poll.producerNow)
    then Pass(starts, CadenceCall(poll.monitoring, location, poll.workerNow)) else starts
  }

  function AfterPolls(starts: map<string, int>, location: string, polls: seq<Poll>): map<string, int> {
    if polls == [] then starts
    else AfterPoll(AfterPolls(starts, location, polls[..|polls| - 1]), location, polls[|polls| - 1])
  }

  predicate PollStarts(starts: map<string, int>, location: string, polls: seq<Poll>, k: nat)
    requires k < |polls|
  {
    Starts(AfterPolls(starts, location, polls[..k]), location, polls[k])
  }

  /** The polls of one monitoring after a start at `start`: constant interval, the worker never looks
      at its clock before the producer did, and the snapshot's last response is at most `delay` after
      the start. */
  predicate PollsAfter(polls: seq<Poll>, id: string, interval: int, start: int, delay: nat) {
    forall k | 0 <= k < |polls| ::
      var m := polls[k].monitoring;
      && m.id == id && ResponseCheckInterval(m) == interval
      && polls[k].producerNow <= polls[k].workerNow
      && (m.lastResponseAt.Some? ==> m.lastResponseAt.value <= start + delay)
  }

  /** As long as polls are refused, the producer's clock has not passed start + interval + delay. */
  lemma {:induction false} RefusedPollsAreEarly(starts: map<string, int>, location: string, polls: seq<Poll>,
                                                id: string, interval: int, start: int, delay: nat)
    requires PollsAfter(polls, id, interval, start, delay)
    requires Recorded(starts, CadenceKey(id, location)) == Some(start)
    requires forall k | 0 <= k < |polls| :: !PollStarts(starts, location, polls, k)
    ensures Recorded(AfterPolls(starts, location, polls), CadenceKey(id, location)) == Some(start)
    ensures forall k | 0 <= k < |polls| :: polls[k].producerNow < start + interval + delay
  {
    if polls != [] {
      var before := polls[..|polls| - 1];
      forall k | 0 <= k < |before| ensures !PollStarts(starts, location, before, k) {
        assert before[..k] == polls[..k];
        assert !PollStarts(starts, location, polls, k);
      }
      RefusedPollsAreEarly(starts, location, before, id, interval, start, delay);
      assert !PollStarts(starts, location, polls, |polls| - 1);
      forall k | 0 <= k < |polls| ensures polls[k].producerNow < start + interval + delay {
        if k < |before| {
          assert before[k] == polls[k];
        }
      }
    }
  }

  function ProducerBefore(first: Poll, polls: seq<Poll>, k: nat): int
    requires k < |polls|
  {
    if k == 0 then first.producerNow else polls[k - 1].producerNow
  }

  /** If each worker's gate comes at most `period` after the producer's gate of the poll before, the
      next accepted start comes at least an interval after the last one and before
      start + interval + delay + period. `first` is the poll that started; `polls` follow it. */
  lemma NextStartIsSoon(starts: map<string, int>, location: string, first: Poll, polls: seq<Poll>,
                        id: string, interval: int, delay: nat, period: nat)
    requires polls != [] && first.monitoring.id == id && first.producerNow <= first.workerNow
    requires Starts(starts, location, first)
    requires var after := AfterPoll(starts, location, first);
             && (forall k | 0 <= k < |polls| - 1 :: !PollStarts(after, location, polls, k))
             && PollStarts(after, location, polls, |polls| - 1)
    requires PollsAfter(polls, id, interval, first.workerNow, delay)
    requires forall k | 0 <= k < |polls| :: polls[k].workerNow <= ProducerBefore(first, polls, k) + period
    ensures first.workerNow + interval <= polls[|polls| - 1].workerNow
    ensures polls[|polls| - 1].workerNow < first.workerNow + interval + delay + period
  {
    var start, after, before := first.workerNow, AfterPoll(starts, location, first), polls[..|polls| - 1];
    forall k | 0 <= k < |before| ensures !PollStarts(after, location, before, k) {
      assert before[..k] == polls[..k];
      assert !PollStarts(after, location, polls, k);
    }
    RefusedPollsAreEarly(after, location, before, id, interval, start, delay);
    var last := |polls| - 1;
    assert ResponseCheckInterval(polls[last].monitoring) == interval;
    if last > 0 {
      assert before[last - 1] == polls[last - 1];
    }
  }
}
