/** One run without leases: the response, certificate and domain phases of
    internal/adapters/runner/runner.go, side by side, over the lists internal/adapters/coreapi/client.go
    fetches. */
module LegacyRun {
  import opened Wrappers
  import opened Telemetry
  import opened ClaimedJobs
  import opened WorkerPool
  import opened Limits
  import ResponseCadence
  import Text

  /** A monitoring as Core lists it. */
  datatype Listed = Listed(monitoring: Monitoring, checkIntervalSeconds: int, lastResponseAt: Option<int>) {
    function Cadence(): ResponseCadence.Monitoring {
      ResponseCadence.Monitoring(monitoring.id, checkIntervalSeconds, lastResponseAt)
    }
  }

  // ---- The types asked for ----

  /** The kinds that are new, behind those collected already. */
  function AddNew(types: seq<string>, kinds: seq<string>): seq<string> {
    if kinds == [] then types
    else
      var added, last := AddNew(types, kinds[..|kinds| - 1]), kinds[|kinds| - 1];
      if last in added then added else added + [last]
  }

  function TypesOf(executors: seq<Executor>, phase: string): seq<string> {
    if executors == [] then []
    else
      var earlier, last := TypesOf(executors[..|executors| - 1], phase), executors[|executors| - 1];
      if last.phase != phase then earlier else AddNew(earlier, last.kinds)
  }

  method Types(executors: seq<Executor>, phase: string) returns (types: seq<string>)
    ensures types == TypesOf(executors, phase)
  {
    types := [];
    var seen: set<string> := {};
    for e := 0 to |executors|
      invariant types == TypesOf(executors[..e], phase) && seen == set t | t in types
    {
      assert executors[..e + 1][..e] == executors[..e];
      if executors[e].phase != phase {
        continue;
      }
      var kinds, before := executors[e].kinds, types;
      for k := 0 to |kinds|
        invariant types == AddNew(before, kinds[..k]) && seen == set t | t in types
      {
        assert kinds[..k + 1][..k] == kinds[..k];
        if kinds[k] in seen {
          continue;
        }
        seen := seen + {kinds[k]};
        types := types + [kinds[k]];
      }
      assert kinds[..|kinds|] == kinds;
    }
    assert executors[..|executors|] == executors;
  }

  predicate NoRepeats(types: seq<string>) {
    forall i, j | 0 <= i < j < |types| :: types[i] != types[j]
  }

  lemma {:induction false} AddNewAddsAll(types: seq<string>, kinds: seq<string>)
    requires NoRepeats(types)
    ensures NoRepeats(AddNew(types, kinds))
    ensures forall t :: t in AddNew(types, kinds) <==> t in types || t in kinds
  {
    if kinds != [] {
      AddNewAddsAll(types, kinds[..|kinds| - 1]);
      assert kinds == kinds[..|kinds| - 1] + [kinds[|kinds| - 1]];
    }
  }

  lemma {:induction false} FindInOneMore(executors: seq<Executor>, last: Executor, phase: string, kind: string)
    ensures Find(executors + [last], phase, kind).Some?
         <==> Find(executors, phase, kind).Some? || (last.phase == phase && kind in last.kinds)
  {
    var all := executors + [last];
    if executors != [] {
      assert all[1..] == executors[1..] + [last];
      FindInOneMore(executors[1..], last, phase, kind);
    } else {
      assert all[1..] == [];
    }
  }

  /** The types asked for are exactly those some executor of the phase supports, each once. */
  lemma {:induction false} TypesAreThoseSupported(executors: seq<Executor>, phase: string, kind: string)
    ensures NoRepeats(TypesOf(executors, phase))
    ensures kind in TypesOf(executors, phase) <==> Find(executors, phase, kind).Some?
  {
    if executors != [] {
      var earlier, last := executors[..|executors| - 1], executors[|executors| - 1];
      TypesAreThoseSupported(earlier, phase, kind);
      assert executors == earlier + [last];
      FindInOneMore(earlier, last, phase, kind);
      AddNewAddsAll(TypesOf(earlier, phase), last.kinds);
    }
  }

  // ---- Fetching ----

  function IDs(items: seq<Listed>): set<string> {
    set m | m in items :: m.monitoring.id
  }

  predicate DistinctIDs(items: seq<Listed>) {
    forall i, j | 0 <= i < j < |items| :: items[i].monitoring.id != items[j].monitoring.id
  }

  /** The items whose IDs are new, behind those kept already. */
  function Merge(kept: seq<Listed>, items: seq<Listed>): seq<Listed> {
    if items == [] then kept
    else
      var merged, last := Merge(kept, items[..|items| - 1]), items[|items| - 1];
      if last.monitoring.id in IDs(merged) then merged else merged + [last]
  }

  /** What is fetched for a list of types, each asked for once; a failed request fails the whole. */
  function Fetched(types: seq<string>, answers: string -> Option<seq<Listed>>): Option<seq<Listed>> {
    if types == [] then Some([])
    else
      var earlier, last := types[..|types| - 1], types[|types| - 1];
      var fetched := Fetched(earlier, answers);
      if fetched.None? || last in earlier then fetched
      else if answers(last).None? then None
      else Some(Merge(fetched.value, answers(last).value))
  }

  /** Without types there is one unfiltered request, whose answer is passed on as it is. */
  method GetMonitorings(location: string, instanceCode: string, types: seq<string>,
                        answers: string -> Option<seq<Listed>>)
    returns (monitorings: Option<seq<Listed>>)
    ensures Text.TrimSpace(location) == "" || Text.TrimSpace(location) != instanceCode ==> monitorings.None?
    ensures Text.TrimSpace(location) != "" && Text.TrimSpace(location) == instanceCode ==>
              monitorings == if types == [] then answers("") else Fetched(types, answers)
  {
    var trimmed := Text.TrimSpace(location);
    if trimmed == "" || instanceCode == "" || trimmed != instanceCode {
      return None;
    }
    if |types| == 0 {
      return answers("");
    }
    var seenTypes: set<string>, seenMonitorings: set<string> := {}, {};
    var kept: seq<Listed> := [];
    for t := 0 to |types|
      invariant seenTypes == set x | x in types[..t]
      invariant Fetched(types[..t], answers) == Some(kept) && seenMonitorings == IDs(kept)
    {
      assert types[..t + 1][..t] == types[..t];
      if types[t] in seenTypes {
        continue;
      }
      seenTypes := seenTypes + {types[t]};
      var items := answers(types[t]);
      if items.None? {
        FailureStays(types, answers, t + 1);
        return None;
      }
      kept, seenMonitorings := MergeItems(kept, seenMonitorings, items.value);
    }
    assert types[..|types|] == types;
    return Some(kept);
  }

  /** The inner loop: one answer, item by item. */
  method MergeItems(before: seq<Listed>, seen: set<string>, items: seq<Listed>)
    returns (kept: seq<Listed>, seenMonitorings: set<string>)
    requires seen == IDs(before)
    ensures kept == Merge(before, items) && seenMonitorings == IDs(kept)
  {
    kept, seenMonitorings := before, seen;
    for i := 0 to |items|
      invariant kept == Merge(before, items[..i]) && seenMonitorings == IDs(kept)
    {
      assert items[..i + 1][..i] == items[..i];
      if items[i].monitoring.id in seenMonitorings {
        continue;
      }
      seenMonitorings := seenMonitorings + {items[i].monitoring.id};
      kept := kept + [items[i]];
    }
    assert items[..|items|] == items;
  }

  lemma {:induction false} FailureStays(types: seq<string>, answers: string -> Option<seq<Listed>>, n: nat)
    requires n <= |types| && Fetched(types[..n], answers).None?
    ensures Fetched(types, answers).None?
    decreases |types|
  {
    if n < |types| {
      assert types[..|types| - 1][..n] == types[..n];
      FailureStays(types[..|types| - 1], answers, n);
    } else {
      assert types[..n] == types;
    }
  }

  lemma {:induction false} MergeKeepsIDs(kept: seq<Listed>, items: seq<Listed>)
    requires DistinctIDs(kept)
    ensures DistinctIDs(Merge(kept, items)) && IDs(Merge(kept, items)) == IDs(kept) + IDs(items)
  {
    if items != [] {
      var earlier, last := items[..|items| - 1], items[|items| - 1];
      MergeKeepsIDs(kept, earlier);
      assert items == earlier + [last];
      OneMoreID(earlier, last);
      OneMoreID(Merge(kept, earlier), last);
    }
  }

  lemma OneMoreID(items: seq<Listed>, m: Listed)
    ensures IDs(items + [m]) == IDs(items) + {m.monitoring.id}
  {
    forall id | id in IDs(items) + {m.monitoring.id} ensures id in IDs(items + [m]) {
      if id in IDs(items) {
        var x :| x in items && x.monitoring.id == id;
        assert x in items + [m];
      } else {
        assert m in items + [m];
      }
    }
  }

  predicate ListedUnder(id: string, types: seq<string>, answers: string -> Option<seq<Listed>>) {
    exists t :: t in types && answers(t).Some? && id in IDs(answers(t).value)
  }

  /** What is fetched lists each ID once, and has exactly the IDs Core listed under any of the types. */
  lemma {:induction false} FetchedIDs(types: seq<string>, answers: string -> Option<seq<Listed>>)
    requires Fetched(types, answers).Some?
    ensures DistinctIDs(Fetched(types, answers).value)
    ensures forall t | t in types :: answers(t).Some?
    ensures forall id :: id in IDs(Fetched(types, answers).value) <==> ListedUnder(id, types, answers)
  {
    if types != [] {
      var earlier, last := types[..|types| - 1], types[|types| - 1];
      FetchedIDs(earlier, answers);
      assert types == earlier + [last];
      if last !in earlier {
        MergeKeepsIDs(Fetched(earlier, answers).value, answers(last).value);
      }
    }
  }

  /** The item is the first one of its ID in the list. */
  predicate FirstIn(items: seq<Listed>, m: Listed) {
    exists i :: 0 <= i < |items| && items[i] == m && m.monitoring.id !in IDs(items[..i])
  }

  lemma FirstInOneMore(items: seq<Listed>, last: Listed, m: Listed)
    ensures FirstIn(items + [last], m) <==> FirstIn(items, m) || (m == last && m.monitoring.id !in IDs(items))
  {
    var all := items + [last];
    assert all[..|items|] == items;
    if i :| 0 <= i < |all| && all[i] == m && m.monitoring.id !in IDs(all[..i]) {
      assert i < |items| ==> all[..i] == items[..i];
    }
    if i :| 0 <= i < |items| && items[i] == m && m.monitoring.id !in IDs(items[..i]) {
      assert all[..i] == items[..i] && all[i] == m;
    }
    if m == last && m.monitoring.id !in IDs(items) {
      assert all[|items|] == m;
    }
  }

  lemma {:induction false} MergedItems(kept: seq<Listed>, items: seq<Listed>, m: Listed)
    ensures m in Merge(kept, items) <==> m in kept || (m.monitoring.id !in IDs(kept) && FirstIn(items, m))
    ensures IDs(Merge(kept, items)) == IDs(kept) + IDs(items)
  {
    if items != [] {
      var earlier, last := items[..|items| - 1], items[|items| - 1];
      MergedItems(kept, earlier, m);
      assert items == earlier + [last];
      FirstInOneMore(earlier, last, m);
      OneMoreID(earlier, last);
      OneMoreID(Merge(kept, earlier), last);
    }
  }

  /** The item is the first one of its ID under a type, and no type before lists its ID. */
  predicate FirstUnder(types: seq<string>, answers: string -> Option<seq<Listed>>, t: nat, m: Listed) {
    && t < |types| && answers(types[t]).Some? && FirstIn(answers(types[t]).value, m)
    && !ListedUnder(m.monitoring.id, types[..t], answers)
  }

  /** What is fetched are items Core listed, unaltered: of each ID, the first one. */
  lemma {:induction false} FetchedItems(types: seq<string>, answers: string -> Option<seq<Listed>>, m: Listed)
    requires Fetched(types, answers).Some?
    ensures m in Fetched(types, answers).value <==> exists t: nat :: FirstUnder(types, answers, t, m)
  {
    if types != [] {
      var earlier, last := types[..|types| - 1], types[|types| - 1];
      FetchedItems(earlier, answers, m);
      FetchedIDs(earlier, answers);
      forall t: nat | t < |earlier| ensures FirstUnder(types, answers, t, m) <==> FirstUnder(earlier, answers, t, m) {
        assert types[..t] == earlier[..t];
      }
      if last in earlier {
        RepeatedTypeIsNotFirst(types, answers, m);
      } else {
        MergedItems(Fetched(earlier, answers).value, answers(last).value, m);
        assert FirstUnder(types, answers, |earlier|, m)
           <==> FirstIn(answers(last).value, m) && !ListedUnder(m.monitoring.id, earlier, answers);
      }
      assert forall t: nat :: FirstUnder(types, answers, t, m) ==> t < |earlier| || t == |earlier|;
    }
  }

  lemma RepeatedTypeIsNotFirst(types: seq<string>, answers: string -> Option<seq<Listed>>, m: Listed)
    requires types != [] && types[|types| - 1] in types[..|types| - 1]
    ensures !FirstUnder(types, answers, |types| - 1, m)
  {
    var last := types[|types| - 1];
    if answers(last).Some? && FirstIn(answers(last).value, m) {
      assert m in answers(last).value && m.monitoring.id in IDs(answers(last).value);
      assert ListedUnder(m.monitoring.id, types[..|types| - 1], answers);
    }
  }

  /** Each phase has types to ask for, so none of them takes the unfiltered answer. */
  lemma PhasesHaveTypes(phase: string)
    requires IsLeasePhase(phase)
    ensures TypesOf(EXECUTORS, phase) != []
  {
    var kind := if phase == DOMAIN_EXPIRATION then "domain_expiration" else "http";
    TypesAreThoseSupported(EXECUTORS, phase, kind);
    FindAt(EXECUTORS, phase, kind, if phase == RESPONSE then 0 else if phase == SSL then 5 else 6);
  }

  /** What a phase fetches is the list for its types, with each ID once. */
  method FetchPhase(location: string, instanceCode: string, phase: string, answers: string -> Option<seq<Listed>>)
    returns (monitorings: Option<seq<Listed>>)
    requires IsLeasePhase(phase)
    ensures monitorings.Some? ==>
              Fetched(TypesOf(EXECUTORS, phase), answers) == monitorings && DistinctIDs(monitorings.value)
  {
    var types := Types(EXECUTORS, phase);
    PhasesHaveTypes(phase);
    monitorings := GetMonitorings(location, instanceCode, types, answers);
    if monitorings.Some? {
      FetchedIDs(types, answers);
    }
  }

  // ---- A phase ----

  /** How one visit of a worker goes: the cadence gate, and the rest of what the environment decides. */
  datatype Visit = Visit(gateOpens: bool, world: World)

  /** A phase that got as far as dispatching: what Core answered for each type, the list fetched from it,
      the clock at each item, and the visits. */
  datatype PhaseRun = PhaseRun(phase: string, answers: string -> Option<seq<Listed>>, monitorings: seq<Listed>,
                               now: nat -> int, visits: nat -> Visit)

  /** The monitoring is one the phase is for, and it is time for it. */
  predicate Eligible(run: PhaseRun, k: nat)
    requires k < |run.monitorings|
  {
    var m := run.monitorings[k];
    && Supports(run.phase, m.monitoring.kind)
    && (run.phase == RESPONSE ==> ResponseCadence.ResponseDue(m.Cadence(), run.now(k)))
  }

  predicate Dispatched(run: PhaseRun, k: nat)
    requires k < |run.monitorings|
  {
    Eligible(run, k) && !run.monitorings[k].monitoring.maintenanceActive
  }

  /** The check of a monitoring in a phase. */
  function CheckOf(phase: string, id: string): string {
    phase + ":" + id
  }

  /** A visit: the gate may turn the job away, the limiter may be waited for until the context ends, and
      what the check yields is published under a key of its own. */
  function VisitScript(phase: string, id: string, v: Visit): seq<Effect> {
    if phase == RESPONSE && !v.gateOpens then [DropQueuedJob(phase, "cadence")]
    else if v.world.slotDenied then [StartJob, FinishJob(phase, "canceled")]
    else Checked(phase, CheckOf(phase, id), v.world.shape.Outcome()) + PublishEffects(v.world.shape, [], v.world)
  }

  function Checked(phase: string, check: string, outcome: string): seq<Effect> {
    [StartJob, AcquireSlot(check), ReleaseSlot(check), FinishJob(phase, outcome)]
  }

  /** Whether a worker goes on with a monitoring: only the response phase asks the cadence gate. */
  predicate GoesOn(starts: map<string, int>, phase: string, call: ResponseCadence.Attempt<string>) {
    phase == RESPONSE ==> ResponseCadence.Opens(starts, call)
  }

  /** A worker's turn with one monitoring. `execution` is what the executor returns when it is called. */
  method VisitMonitoring(service: MonitoringService, cadence: ResponseCadence.ResponseCadence, location: string,
                         now: int,
                         phase: string, m: Listed, execution: Execution, w: World)
    requires service.Valid() && execution.Outline() == w.shape
    modifies service`trace, service.telemetry, service.client, execution.Payloads(), cadence
    ensures var call := ResponseCadence.CadenceCall(m.Cadence(), location, now);
            && service.Valid()
            && service.trace == old(service.trace)
                 + VisitScript(phase, m.monitoring.id, Visit(GoesOn(old(cadence.starts), phase, call), w))
            && cadence.starts == if phase == RESPONSE then ResponseCadence.Pass(old(cadence.starts), call)
                                 else old(cadence.starts)
  {
    if phase == RESPONSE {
      var started := cadence.TryStart(m.Cadence(), location, now);
      if !started {
        service.telemetry.DropQueuedJob(phase, "cadence");
        service.Note(DropQueuedJob(phase, "cadence"));
        return;
      }
    }
    ExecuteMonitoring(service, phase, m, execution, w);
  }

  /** Past the gate: the slot, the check, and what is published of it. */
  method ExecuteMonitoring(service: MonitoringService, phase: string, m: Listed, execution: Execution, w: World)
    requires service.Valid() && execution.Outline() == w.shape
    modifies service`trace, service.telemetry, service.client, execution.Payloads()
    ensures service.Valid() && service.trace == old(service.trace) + VisitScript(phase, m.monitoring.id, Visit(true, w))
  {
    if w.slotDenied {
      CountCanceled(service, phase);
      return;
    }
    ghost var before := service.trace;
    CountCheck(service, phase, phase + ":" + m.monitoring.id, execution.Outline().Outcome());
    service.PublishExecution(execution, [], w);
    Associative(before, Checked(phase, CheckOf(phase, m.monitoring.id), w.shape.Outcome()),
                PublishEffects(w.shape, [], w));
  }

  method CountCanceled(service: MonitoringService, phase: string)
    requires service.Valid()
    modifies service`trace, service.telemetry
    ensures service.Valid() && service.trace == old(service.trace) + [StartJob, FinishJob(phase, "canceled")]
  {
    CountStart(service);
    CountFinish(service, phase, "canceled");
  }

  method CountCheck(service: MonitoringService, phase: string, check: string, outcome: string)
    requires service.Valid()
    modifies service`trace, service.telemetry
    ensures service.Valid() && service.trace == old(service.trace) + Checked(phase, check, outcome)
  {
    CountStart(service);
    service.TakeSlot(check);
    CountFinish(service, phase, outcome);
  }

  method CountStart(service: MonitoringService)
    requires service.Valid()
    modifies service`trace, service.telemetry
    ensures service.Valid() && service.trace == old(service.trace) + [StartJob]
  {
    service.telemetry.StartJob();
    service.Note(StartJob);
  }

  method CountFinish(service: MonitoringService, phase: string, outcome: string)
    requires service.Valid()
    modifies service`trace, service.telemetry
    ensures service.Valid() && service.trace == old(service.trace) + [FinishJob(phase, outcome)]
  {
    service.telemetry.FinishJobWithDuration(phase, outcome);
    service.Note(FinishJob(phase, outcome));
  }

  function ItemOf(run: PhaseRun, p: nat, k: nat): Item
    requires k < |run.monitorings|
  {
    Item(p, k, VisitScript(run.phase, run.monitorings[k].monitoring.id, run.visits(k)))
  }

  /** What the producer of the phase does for one monitoring: hand it to a worker, or publish that it is
      under maintenance, or nothing. */
  function Dispatch(run: PhaseRun, p: nat, k: nat): seq<Instruction>
    requires k < |run.monitorings|
  {
    if Dispatched(run, k) then [Do(k, QueueJob), Send(ItemOf(run, p, k))]
    else if Eligible(run, k) then DoAll(k, PublishEffects(MaintenanceShape(run.phase), [], run.visits(k).world))
    else []
  }

  /** What it does from the k-th monitoring on. */
  function Dispatches(run: PhaseRun, p: nat, k: nat): seq<Instruction>
    requires k <= |run.monitorings|
    decreases |run.monitorings| - k
  {
    if k == |run.monitorings| then [] else Dispatch(run, p, k) + Dispatches(run, p, k + 1)
  }

  lemma PublishedIsSilent(shape: Shape, w: World)
    ensures forall e | e in PublishEffects(shape, [], w) :: e.Post?
  {
  }

  lemma CheckedFacts(phase: string, outcome: string, check: string, quiet: seq<Effect>, job: string)
    requires forall e | e in quiet :: Silent(e)
    ensures Facts(Checked(phase, check, outcome) + quiet, job, -1, 0, 0, One(check == job), None)
  {
    FinishFacts(phase, outcome, quiet, job);
    var finish := [FinishJob(phase, outcome)] + quiet;
    SlotFacts(check, finish, job, None);
    var checked := [AcquireSlot(check), ReleaseSlot(check)] + finish;
    assert (Checked(phase, check, outcome) + quiet)[1..] == checked;
  }

  lemma UncheckedFacts(phase: string, job: string)
    ensures Facts([DropQueuedJob(phase, "cadence")], job, -1, 0, 0, 0, None)
    ensures Facts([StartJob, FinishJob(phase, "canceled")], job, -1, 0, 0, 0, None)
  {
    NoFacts(job);
    var finish := [FinishJob(phase, "canceled")];
    assert finish[1..] == [];
    assert Facts(finish, job, 0, -1, 0, 0, None);
    assert [StartJob, FinishJob(phase, "canceled")][1..] == finish;
    assert [DropQueuedJob(phase, "cadence")][1..] == [];
  }

  /** A visit takes its job out of the queue once, brackets at most one check, and moves no claimed job. */
  lemma VisitFacts(phase: string, id: string, v: Visit, job: string)
    ensures exists checks ::
              && Facts(VisitScript(phase, id, v), job, -1, 0, 0, checks, None)
              && 0 <= checks <= One(CheckOf(phase, id) == job)
  {
    var check := CheckOf(phase, id);
    if (phase == RESPONSE && !v.gateOpens) || v.world.slotDenied {
      UncheckedFacts(phase, job);
      assert Facts(VisitScript(phase, id, v), job, -1, 0, 0, 0, None);
    } else {
      PublishedIsSilent(v.world.shape, v.world);
      CheckedFacts(phase, v.world.shape.Outcome(), check, PublishEffects(v.world.shape, [], v.world), job);
      assert Facts(VisitScript(phase, id, v), job, -1, 0, 0, One(check == job), None);
    }
  }

  lemma ChecksDiffer(p: string, a: string, q: string, b: string)
    requires IsLeasePhase(p) && IsLeasePhase(q)
    ensures CheckOf(p, a) == CheckOf(q, b) <==> p == q && a == b
  {
    assert ':' !in p && ':' !in q;
    if CheckOf(p, a) == CheckOf(q, b) {
      assert CheckOf(p, a)[|p|] == ':' && CheckOf(q, b)[|q|] == ':';
      assert CheckOf(p, a)[..|p|] == p && CheckOf(q, b)[..|q|] == q;
      assert CheckOf(p, a)[|p| + 1..] == a && CheckOf(q, b)[|q| + 1..] == b;
    }
  }

  lemma {:induction false} PostsAreChain(posts: seq<Effect>)
    requires forall e | e in posts :: e.Post?
    ensures Chain(posts) && CurrentStage(posts) == None
  {
    if posts != [] {
      PostsAreChain(posts[1..]);
      assert posts[0] in posts;
    }
  }

  lemma {:induction false} PostsAreProduced(k: nat, posts: seq<Effect>, m: Measure)
    requires forall e | e in posts :: e.Post?
    requires GaugeMeasure(m) || m.Checks?
    ensures Producer(DoAll(k, posts)) && ProgramSum(m, DoAll(k, posts)) == 0
  {
    ProgramSumOfDoAll(m, k, posts);
    NoWeight(m, posts);
  }

  lemma {:induction false} NoWeight(m: Measure, posts: seq<Effect>)
    requires forall e | e in posts :: e.Post?
    requires GaugeMeasure(m) || m.Checks?
    ensures Sum(m, posts) == 0
  {
    if posts != [] {
      NoWeight(m, posts[1..]);
      assert posts[0] in posts;
    }
  }

  /** What is left for a monitoring after what its producer does: a chain that moves no claimed job. */
  lemma DispatchRest(run: PhaseRun, p: nat, k: nat, job: nat)
    requires k < |run.monitorings|
    ensures var rest := RestOf(Dispatch(run, p, k), job);
            Chain(rest) && CurrentStage(rest) == None && (job != k ==> rest == [])
  {
    if Dispatched(run, k) {
      var item := ItemOf(run, p, k);
      HandOutRest(k, item, job);
      VisitFacts(run.phase, run.monitorings[k].monitoring.id, run.visits(k), "");
      assert ([QueueJob] + item.script)[1..] == item.script;
    } else if Eligible(run, k) {
      var posts := PublishEffects(MaintenanceShape(run.phase), [], run.visits(k).world);
      PublishedIsSilent(MaintenanceShape(run.phase), run.visits(k).world);
      RestOfDoAll(k, posts, job);
      PostsAreChain(posts);
    }
  }

  lemma HandOutRest(k: nat, item: Item, job: nat)
    requires item.index == k
    ensures RestOf([Do(k, QueueJob), Send(item)], job) == if job == k then [QueueJob] + item.script else []
  {
    var send := [Send(item)];
    assert item.script + [] == item.script;
    assert send[1..] == [] && RestOf(send, job) == if job == k then item.script else [];
    assert [Do(k, QueueJob), Send(item)][1..] == send;
  }

  lemma HandOutSums(k: nat, item: Item, m: Measure, other: Item)
    ensures ProgramSum(m, [Do(k, QueueJob), Send(item)]) == Weight(m, QueueJob) + Sum(m, item.script)
    ensures ProgramCount([Do(k, QueueJob), Send(item)], other) == One(other == item)
  {
    var send := [Send(item)];
    assert send[1..] == [] && ProgramSum(m, send) == Sum(m, item.script)
      && ProgramCount(send, other) == One(other == item);
    assert [Do(k, QueueJob), Send(item)][1..] == send;
  }

  lemma DispatchIsLast(run: PhaseRun, p: nat, k: nat)
    requires k < |run.monitorings|
    ensures SentLast(Dispatch(run, p, k))
    ensures var dispatch := Dispatch(run, p, k);
            forall i | 0 <= i < |dispatch| && dispatch[i].Send? :: dispatch[i].item.index == k
  {
    var dispatch := Dispatch(run, p, k);
    forall i | 0 <= i < |dispatch| && dispatch[i].Send?
      ensures RestOf(dispatch[i + 1..], dispatch[i].item.index) == []
    {
      assert dispatch[i + 1..] == [];
    }
  }

  lemma {:induction false} DispatchesRest(run: PhaseRun, p: nat, k: nat, job: nat)
    requires k <= |run.monitorings|
    ensures var rest := RestOf(Dispatches(run, p, k), job);
            Chain(rest) && CurrentStage(rest) == None && (job < k ==> rest == [])
    decreases |run.monitorings| - k
  {
    if k < |run.monitorings| {
      var first, later := RestOf(Dispatch(run, p, k), job), RestOf(Dispatches(run, p, k + 1), job);
      DispatchRest(run, p, k, job);
      DispatchesRest(run, p, k + 1, job);
      RestOfConcat(Dispatch(run, p, k), Dispatches(run, p, k + 1), job);
      assert first + later == if job == k then first else later;
    }
  }

  lemma {:induction false} DispatchesAreLast(run: PhaseRun, p: nat, k: nat)
    requires k <= |run.monitorings|
    ensures SentLast(Dispatches(run, p, k))
    decreases |run.monitorings| - k
  {
    if k < |run.monitorings| {
      DispatchesAreLast(run, p, k + 1);
      DispatchIsLast(run, p, k);
      DispatchesRest(run, p, k + 1, k);
      SentLastConcat(Dispatch(run, p, k), Dispatches(run, p, k + 1));
    }
  }

  lemma HandOutIsProgram(k: nat, item: Item, later: seq<Instruction>)
    requires Script(item.script) && Program(later) && ProgramSum(QueueGauge, later) == 0
    ensures var all := [Do(k, QueueJob), Send(item)] + later;
            Program(all) && ProgramSum(QueueGauge, all) == 0
  {
    var rest := [Send(item)] + later;
    assert rest[1..] == later;
    assert ([Do(k, QueueJob), Send(item)] + later)[1..] == rest;
    assert ProgramSum(QueueGauge, rest) == -1;
  }

  lemma {:induction false} DispatchesAreProgram(run: PhaseRun, p: nat, k: nat)
    requires k <= |run.monitorings|
    ensures Program(Dispatches(run, p, k)) && ProgramSum(QueueGauge, Dispatches(run, p, k)) == 0
    decreases |run.monitorings| - k
  {
    if k < |run.monitorings| {
      DispatchesAreProgram(run, p, k + 1);
      var dispatch, later := Dispatch(run, p, k), Dispatches(run, p, k + 1);
      if Dispatched(run, k) {
        VisitIsScript(run, p, k);
        HandOutIsProgram(k, ItemOf(run, p, k), later);
      } else if Eligible(run, k) {
        var posts := PublishEffects(MaintenanceShape(run.phase), [], run.visits(k).world);
        PublishedIsSilent(MaintenanceShape(run.phase), run.visits(k).world);
        PostsAreProduced(k, posts, QueueGauge);
        ProgramBehind(dispatch, later);
        ProgramSumConcat(QueueGauge, dispatch, later);
      } else {
        assert dispatch + later == later;
      }
    }
  }

  lemma VisitIsScript(run: PhaseRun, p: nat, k: nat)
    requires k < |run.monitorings|
    ensures Script(ItemOf(run, p, k).script)
  {
    VisitFacts(run.phase, run.monitorings[k].monitoring.id, run.visits(k), "");
  }

  lemma DispatchChecks(run: PhaseRun, p: nat, k: nat, job: string)
    requires k < |run.monitorings|
    ensures 0 <= ProgramSum(Checks(job), Dispatch(run, p, k))
           <= One(CheckOf(run.phase, run.monitorings[k].monitoring.id) == job)
  {
    if Dispatched(run, k) {
      VisitFacts(run.phase, run.monitorings[k].monitoring.id, run.visits(k), job);
      HandOutSums(k, ItemOf(run, p, k), Checks(job), ItemOf(run, p, k));
    } else if Eligible(run, k) {
      var posts := PublishEffects(MaintenanceShape(run.phase), [], run.visits(k).world);
      PublishedIsSilent(MaintenanceShape(run.phase), run.visits(k).world);
      PostsAreProduced(k, posts, Checks(job));
    }
  }

  /** A phase plans the check of a monitoring at most once. */
  lemma {:induction false} DispatchPlansOneCheck(run: PhaseRun, p: nat, k: nat, job: string)
    requires k <= |run.monitorings| && DistinctIDs(run.monitorings) && IsLeasePhase(run.phase)
    ensures 0 <= ProgramSum(Checks(job), Dispatches(run, p, k)) <= 1
    ensures (forall i | k <= i < |run.monitorings| :: CheckOf(run.phase, run.monitorings[i].monitoring.id) != job) ==>
              ProgramSum(Checks(job), Dispatches(run, p, k)) == 0
    decreases |run.monitorings| - k
  {
    if k < |run.monitorings| {
      DispatchPlansOneCheck(run, p, k + 1, job);
      DispatchChecks(run, p, k, job);
      ProgramSumConcat(Checks(job), Dispatch(run, p, k), Dispatches(run, p, k + 1));
      var id := run.monitorings[k].monitoring.id;
      forall i | k < i < |run.monitorings|
        ensures CheckOf(run.phase, run.monitorings[i].monitoring.id) != CheckOf(run.phase, id)
      {
        ChecksDiffer(run.phase, run.monitorings[i].monitoring.id, run.phase, id);
      }
    }
  }

  // ---- The phases together ----

  function Programs(runs: seq<PhaseRun>): seq<seq<Instruction>> {
    seq(|runs|, p requires 0 <= p < |runs| => Dispatches(runs[p], p, 0))
  }

  /** The coordinator's phases, each with its own channel and as many workers as the limit allows, and
      one limiter for all of them. */
  function LegacyPool(runs: seq<PhaseRun>, before: Gauges, cfg: Config): Pool {
    Pool(Programs(runs), WorkersFor(|runs|, WorkerLimit(cfg)), before, 0, LimiterCapacity(cfg), [], [])
  }

  function WorkersFor(phases: nat, limit: nat): seq<Worker> {
    if limit == 0 then []
    else WorkersFor(phases, limit - 1) + seq(phases, p requires 0 <= p < phases => Worker(p, Idle))
  }

  /** The phases are different ones, and each list is what was fetched for the types of its phase. */
  predicate OfCoordinator(runs: seq<PhaseRun>) {
    && (forall p | 0 <= p < |runs| :: IsLeasePhase(runs[p].phase) && IsFetched(runs[p]))
    && (forall p, q | 0 <= p < q < |runs| :: runs[p].phase != runs[q].phase)
  }

  predicate IsFetched(run: PhaseRun) {
    Fetched(TypesOf(EXECUTORS, run.phase), run.answers) == Some(run.monitorings)
  }

  lemma FetchedOnce(run: PhaseRun)
    requires IsFetched(run)
    ensures DistinctIDs(run.monitorings)
  {
    FetchedIDs(TypesOf(EXECUTORS, run.phase), run.answers);
  }

  lemma {:induction false} WorkersForAreIdle(phases: nat, limit: nat)
    ensures forall w | 0 <= w < |WorkersFor(phases, limit)| ::
              WorkersFor(phases, limit)[w].phase < phases && WorkersFor(phases, limit)[w].state.Idle?
    ensures 0 < limit ==> forall p | 0 <= p < phases :: Served(WorkersFor(phases, limit), p)
  {
    if 0 < limit {
      WorkersForAreIdle(phases, limit - 1);
      var ws, before := WorkersFor(phases, limit), WorkersFor(phases, limit - 1);
      forall p | 0 <= p < phases ensures Served(ws, p) {
        assert ws[|before| + p].phase == p;
      }
    }
  }

  lemma LegacyPoolIsWellFormed(runs: seq<PhaseRun>, before: Gauges, cfg: Config)
    ensures WellFormed(LegacyPool(runs, before, cfg)) && Chained(LegacyPool(runs, before, cfg))
  {
    forall p | 0 <= p < |runs| ensures Program(Programs(runs)[p]) && ChainedProgram(Programs(runs)[p]) {
      DispatchesAreProgram(runs[p], p, 0);
      DispatchesAreLast(runs[p], p, 0);
      forall job: nat ensures Chain(RestOf(Programs(runs)[p], job)) {
        DispatchesRest(runs[p], p, 0, job);
      }
    }
    WorkersForAreIdle(|runs|, WorkerLimit(cfg));
  }

  lemma LegacyPoolOwes(runs: seq<PhaseRun>, before: Gauges, cfg: Config)
    ensures var start := LegacyPool(runs, before, cfg);
            Ahead(QueueGauge, start) == 0 && Ahead(ActiveGauge, start) == 0 && Ahead(Slots, start) == 0
  {
    var start := LegacyPool(runs, before, cfg);
    LegacyPoolIsWellFormed(runs, before, cfg);
    ProgramsSumsAreOwed(start.programs);
    WorkersForAreIdle(|runs|, WorkerLimit(cfg));
    NoWorkers(QueueGauge, start.workers);
    NoWorkers(ActiveGauge, start.workers);
    NoWorkers(Slots, start.workers);
    forall p | 0 <= p < |runs| ensures ProgramSum(QueueGauge, Programs(runs)[p]) == 0 {
      DispatchesAreProgram(runs[p], p, 0);
    }
    NoPrograms(QueueGauge, start.programs);
  }

  lemma NobodyPending(programs: seq<seq<Instruction>>, stage: Stage)
    requires forall p | 0 <= p < |programs| :: ProgramInStage(programs[p], stage) == 0
    ensures PendingInStage(programs, stage) == 0
  {
  }

  lemma LegacyPoolStages(runs: seq<PhaseRun>, before: Gauges, cfg: Config, stage: Stage)
    ensures JobsInStage(LegacyPool(runs, before, cfg), stage) == 0
  {
    forall p | 0 <= p < |runs| ensures ProgramInStage(Programs(runs)[p], stage) == 0 {
      forall job: nat ensures CurrentStage(RestOf(Programs(runs)[p], job)) != Some(stage) {
        DispatchesRest(runs[p], p, 0, job);
      }
      NobodyBelow(Programs(runs)[p], Bound(Programs(runs)[p]), stage);
    }
    NobodyPending(Programs(runs), stage);
    WorkersForAreIdle(|runs|, WorkerLimit(cfg));
    NobodyInStage(WorkersFor(|runs|, WorkerLimit(cfg)), stage);
  }

  /** A phase whose name the check does not carry plans none of it. */
  ghost predicate Names(run: PhaseRun, job: string) {
    exists id :: CheckOf(run.phase, id) == job
  }

  /** What a phase plans of a check: at most one, and nothing if the check does not carry its name. */
  lemma PhasePlansOneCheck(run: PhaseRun, p: nat, job: string)
    requires IsLeasePhase(run.phase) && IsFetched(run)
    ensures 0 <= ProgramSum(Checks(job), Dispatches(run, p, 0)) <= 1
    ensures !Names(run, job) ==> ProgramSum(Checks(job), Dispatches(run, p, 0)) == 0
  {
    FetchedOnce(run);
    DispatchPlansOneCheck(run, p, 0, job);
  }

  lemma OnePhaseNames(a: PhaseRun, b: PhaseRun, job: string)
    requires IsLeasePhase(a.phase) && IsLeasePhase(b.phase) && a.phase != b.phase && Names(a, job)
    ensures !Names(b, job)
  {
    var id :| CheckOf(a.phase, id) == job;
    forall other ensures CheckOf(b.phase, other) != job {
      ChecksDiffer(b.phase, other, a.phase, id);
    }
  }

  lemma PhasesPlanOneCheck(runs: seq<PhaseRun>, job: string)
    requires OfCoordinator(runs)
    ensures ProgramsSum(Checks(job), Programs(runs)) <= 1
  {
    var programs := Programs(runs);
    forall p | 0 <= p < |programs| ensures 0 <= ProgramSum(Checks(job), programs[p]) <= 1 {
      PhasePlansOneCheck(runs[p], p, job);
    }
    forall p, q | 0 <= p < q < |programs|
      ensures ProgramSum(Checks(job), programs[p]) == 0 || ProgramSum(Checks(job), programs[q]) == 0
    {
      PhasePlansOneCheck(runs[p], p, job);
      PhasePlansOneCheck(runs[q], q, job);
      if Names(runs[p], job) {
        OnePhaseNames(runs[p], runs[q], job);
      }
    }
    AtMostOneProgram(Checks(job), programs);
  }

  lemma LegacyPoolPlansOneCheck(runs: seq<PhaseRun>, before: Gauges, cfg: Config, job: string)
    requires OfCoordinator(runs)
    ensures Ahead(Checks(job), LegacyPool(runs, before, cfg)) <= 1
    ensures Ahead(InCheck(job), LegacyPool(runs, before, cfg)) == 0
  {
    var start := LegacyPool(runs, before, cfg);
    PhasesPlanOneCheck(runs, job);
    WorkersForAreIdle(|runs|, WorkerLimit(cfg));
    NoWorkers(Checks(job), start.workers);
    NoWorkers(InCheck(job), start.workers);
    LegacyPoolIsWellFormed(runs, before, cfg);
    NoCheckOutsideScripts(start.programs, job);
  }

  // ---- What holds in every run without leases ----

  lemma LegacyRunIsReady(runs: seq<PhaseRun>, before: Gauges, cfg: Config)
    requires Settled(before) && OfCoordinator(runs)
    ensures Ready(LegacyPool(runs, before, cfg))
  {
    var start := LegacyPool(runs, before, cfg);
    LegacyPoolIsWellFormed(runs, before, cfg);
    LegacyPoolOwes(runs, before, cfg);
    forall stage | Passing(stage) ensures JobsInStage(start, stage) == 0 {
      LegacyPoolStages(runs, before, cfg, stage);
    }
    forall job ensures Ahead(Checks(job), start) <= 1 && Ahead(InCheck(job), start) == 0 {
      LegacyPoolPlansOneCheck(runs, before, cfg, job);
    }
  }

  /** In every reachable state of the phases side by side, the queue gauge is what was queued less what
      was started or dropped, the active gauge what was started less what was finished, and the slots held
      what was acquired less what was released; all are zero after the run. */
  lemma LegacyRunAccounts(runs: seq<PhaseRun>, before: Gauges, cfg: Config, steps: seq<Step>)
    requires Settled(before) && OfCoordinator(runs) && After(LegacyPool(runs, before, cfg), steps).Some?
    ensures var s := After(LegacyPool(runs, before, cfg), steps).value;
            && Accounted(s) && s.capacity == LimiterCapacity(cfg)
            && (Final(s) ==> Settled(s.gauges))
  {
    var start := LegacyPool(runs, before, cfg);
    LegacyRunIsReady(runs, before, cfg);
    RunAccounts(start, steps);
    CapacityIsConstant(start, steps);
  }

  /** Every such run ends, and can only stop when all was handled and every worker has left. */
  lemma LegacyRunEnds(runs: seq<PhaseRun>, before: Gauges, cfg: Config, steps: seq<Step>)
    requires Settled(before) && OfCoordinator(runs) && After(LegacyPool(runs, before, cfg), steps).Some?
    ensures |steps| <= Work(LegacyPool(runs, before, cfg))
    ensures !Final(After(LegacyPool(runs, before, cfg), steps).value) ==>
              exists step :: After(LegacyPool(runs, before, cfg), steps + [step]).Some?
  {
    LegacyRunIsReady(runs, before, cfg);
    EveryRunEnds(LegacyPool(runs, before, cfg), steps);
  }

  /** No phase ever has two checks of one monitoring in progress. */
  lemma LegacyRunExcludes(runs: seq<PhaseRun>, before: Gauges, cfg: Config, steps: seq<Step>,
                          phase: string, id: string, v: nat, w: nat)
    requires Settled(before) && OfCoordinator(runs) && After(LegacyPool(runs, before, cfg), steps).Some? && v != w
    ensures var s := After(LegacyPool(runs, before, cfg), steps).value;
            !(CheckInProgress(s, v, CheckOf(phase, id)) && CheckInProgress(s, w, CheckOf(phase, id)))
  {
    LegacyRunIsReady(runs, before, cfg);
    RunExcludes(LegacyPool(runs, before, cfg), steps, CheckOf(phase, id), v, w);
  }

  // ---- Exactly once ----

  predicate Planned(runs: seq<PhaseRun>, item: Item) {
    item.phase < |runs| && PlannedFrom(runs[item.phase], item.phase, 0, item)
  }

  lemma DispatchCountsOne(run: PhaseRun, p: nat, k: nat, item: Item)
    requires k < |run.monitorings|
    ensures ProgramCount(Dispatch(run, p, k), item) == One(Dispatched(run, k) && item == ItemOf(run, p, k))
  {
    if Dispatched(run, k) {
      HandOutSums(k, ItemOf(run, p, k), Slots, item);
    } else {
      NothingSent(Dispatch(run, p, k), item);
    }
  }

  predicate PlannedFrom(run: PhaseRun, p: nat, k: nat, item: Item) {
    k <= item.index < |run.monitorings| && Dispatched(run, item.index) && item == ItemOf(run, p, item.index)
  }

  lemma {:induction false} DispatchCount(run: PhaseRun, p: nat, k: nat, item: Item)
    requires k <= |run.monitorings|
    ensures ProgramCount(Dispatches(run, p, k), item) == One(PlannedFrom(run, p, k, item))
    decreases |run.monitorings| - k
  {
    if k < |run.monitorings| {
      DispatchCount(run, p, k + 1, item);
      DispatchCountsOne(run, p, k, item);
      ProgramCountConcat(Dispatch(run, p, k), Dispatches(run, p, k + 1), item);
      OneMorePlanned(run, p, k, item);
    }
  }

  lemma OneMorePlanned(run: PhaseRun, p: nat, k: nat, item: Item)
    requires k < |run.monitorings|
    ensures One(PlannedFrom(run, p, k, item))
           == One(PlannedFrom(run, p, k + 1, item)) + One(Dispatched(run, k) && item == ItemOf(run, p, k))
  {
  }

  lemma ProgramsCount(runs: seq<PhaseRun>, item: Item)
    ensures PendingCount(Programs(runs), item) == One(Planned(runs, item))
  {
    var programs := Programs(runs);
    forall q | 0 <= q < |programs| ensures ProgramCount(programs[q], item) == One(PlannedFrom(runs[q], q, 0, item)) {
      DispatchCount(runs[q], q, 0, item);
    }
    PendingInOne(programs, item, item.phase);
  }

  /** When a run returns, each monitoring a phase dispatched was handled by one worker, one time, and
      nothing else was. */
  lemma LegacyRunHandlesEachOnce(runs: seq<PhaseRun>, before: Gauges, cfg: Config, steps: seq<Step>, item: Item)
    requires After(LegacyPool(runs, before, cfg), steps).Some?
           && Final(After(LegacyPool(runs, before, cfg), steps).value)
    ensures var handled := After(LegacyPool(runs, before, cfg), steps).value.handled;
            && (Planned(runs, item) <==> exists i :: 0 <= i < |handled| && handled[i].1 == item)
            && forall i, j | 0 <= i < j < |handled| && handled[i].1 == item :: handled[j].1 != item
  {
    var start := LegacyPool(runs, before, cfg);
    ProgramsCount(runs, item);
    WorkersForAreIdle(|runs|, WorkerLimit(cfg));
    NobodyBusy(start.workers, item);
    HandledAsOftenAsPlanned(start, steps, item);
  }
}
