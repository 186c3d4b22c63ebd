/** What a visit and a phase of a run without leases amount to, in terms of the configuration and the
    answers alone (internal/adapters/runner/runner.go). */
module Visits {
  import opened Wrappers
  import opened Telemetry
  import opened ClaimedJobs
  import opened WorkerPool
  import opened LegacyRun
  import opened Handlings
  import ResponseCadence

  /** What is sent of a result nobody gave a key: it goes out under a generated one, or not at all. */
  function Sendings(shape: Shape, w: World): seq<Effect> {
    match w.generated
    case Some(key) => Publication(shape, key, w)
    case None => []
  }

  /** The main result of a visit. A response check waits for its gate; then the job is started, its slot
      bracketed, its end counted with the status of the result, and each field of the result posted. */
  lemma VisitIs(phase: string, id: string, v: Visit)
    ensures VisitScript(phase, id, v)
         == if phase == "response" && !v.gateOpens then [DropQueuedJob("response", "cadence")]
            else if v.world.slotDenied then [StartJob, FinishJob(phase, "canceled")]
            else [StartJob, AcquireSlot(phase + ":" + id), ReleaseSlot(phase + ":" + id),
                  FinishJob(phase, StatusOf(v.world.shape))] + Sendings(v.world.shape, v.world)
  {
    PublishedIs(v.world.shape, [], v.world);
  }

  /** When a worker goes on with a monitoring: at once, outside the response phase; in it, when the interval has
      passed since Core's last response and since the start recorded under the ID and the location. */
  lemma GoesOnIff(starts: map<string, int>, phase: string, m: Listed, location: string, now: int)
    ensures var seconds := if 60 <= m.checkIntervalSeconds then m.checkIntervalSeconds else 300;
            GoesOn(starts, phase, ResponseCadence.CadenceCall(m.Cadence(), location, now))
            <==> || phase != "response"
                 || (&& ResponseCadence.Passed(m.lastResponseAt, seconds, now)
                     && ResponseCadence.Passed(
                          ResponseCadence.LastOf(starts, m.monitoring.id + ":" + location), seconds, now))
  {
    ResponseCadence.StartsIff(starts, m.Cadence(), location, now);
  }

  /** The posts of a visit. */
  lemma VisitPosts(phase: string, id: string, v: Visit)
    ensures PostsOf(VisitScript(phase, id, v))
         == if (phase == "response" && !v.gateOpens) || v.world.slotDenied then []
            else Sendings(v.world.shape, v.world)
  {
    if (phase == "response" && !v.gateOpens) || v.world.slotDenied {
      VisitIs(phase, id, v);
      NoPosts(VisitScript(phase, id, v));
    } else {
      var w := v.world;
      CheckedPosts(Checked(phase, CheckOf(phase, id), w.shape.Outcome()), PublishEffects(w.shape, [], w));
      PublishedIs(w.shape, [], w);
      if w.generated.Some? {
        PublicationIsPosts(w.shape, w.generated.value, w);
      }
    }
  }

  lemma CheckedPosts(checked: seq<Effect>, published: seq<Effect>)
    requires forall e | e in checked :: !e.Post?
    ensures PostsOf(checked + published) == PostsOf(published)
  {
    PostsOfConcat(checked, published);
    NoPosts(checked);
  }

  /** Which monitorings a worker gets to see: those of a kind the phase checks that are not under
      maintenance and, in the response phase, whose last response is an interval old. */
  lemma DispatchedIff(run: PhaseRun, k: nat)
    requires k < |run.monitorings|
    ensures var m := run.monitorings[k];
            Dispatched(run, k)
            <==> && !m.monitoring.maintenanceActive
                 && (|| (run.phase == "response"
                         && m.monitoring.kind in ["http", "ping", "keyword", "port", "dns_record"]
                         && ResponseCadence.Passed(m.lastResponseAt, ResponseCadence.Seconds(m.Cadence()), run.now(k)))
                     || (run.phase == "ssl" && m.monitoring.kind in ["http", "keyword", "port"])
                     || (run.phase == "domain_expiration" && m.monitoring.kind == "domain_expiration"))
  {
    SupportsIff(run.phase, run.monitorings[k].monitoring.kind);
    ResponseCadence.DueIff(run.monitorings[k].Cadence(), run.now(k));
  }

  /** What the producer does with one monitoring. One under maintenance is not handed to a worker: outside
      the certificate phase its status is published as unknown. */
  lemma DispatchIs(run: PhaseRun, p: nat, k: nat)
    requires k < |run.monitorings|
    ensures var m, w := run.monitorings[k], run.visits(k).world;
            Dispatch(run, p, k)
            == if Dispatched(run, k) then
                 [Do(k, QueueJob), Send(Item(p, k, VisitScript(run.phase, m.monitoring.id, run.visits(k))))]
               else if Eligible(run, k) && run.phase != "ssl" then
                 DoAll(k, Sendings(Shape(Some("unknown"), None, None), w))
               else []
  {
    PublishedIs(MaintenanceShape(run.phase), [], run.visits(k).world);
  }

  /** How many workers a phase has. */
  function WorkersIn(ws: seq<Worker>, phase: nat): nat {
    if ws == [] then 0
    else WorkersIn(ws[..|ws| - 1], phase) + if ws[|ws| - 1].phase == phase then 1 else 0
  }

  lemma {:induction false} WorkersInConcat(a: seq<Worker>, b: seq<Worker>, phase: nat)
    ensures WorkersIn(a + b, phase) == WorkersIn(a, phase) + WorkersIn(b, phase)
  {
    if b == [] {
      assert a + b == a;
    } else {
      WorkersInConcat(a, b[..|b| - 1], phase);
      assert (a + b)[..|a + b| - 1] == a + b[..|b| - 1];
    }
  }

  lemma {:induction false} OneForEach(phases: nat, phase: nat)
    ensures WorkersIn(seq(phases, p requires 0 <= p < phases => Worker(p, Idle)), phase)
         == if phase < phases then 1 else 0
  {
    if phases > 0 {
      OneForEach(phases - 1, phase);
      var all := seq(phases, p requires 0 <= p < phases => Worker(p, Idle));
      assert all[..phases - 1] == seq(phases - 1, p requires 0 <= p < phases - 1 => Worker(p, Idle));
    }
  }

  /** Each phase has as many workers as the configuration says. */
  lemma {:induction false} EachPhaseHasItsWorkers(phases: nat, limit: nat, phase: nat)
    ensures WorkersIn(WorkersFor(phases, limit), phase) == if phase < phases then limit else 0
  {
    if limit > 0 {
      EachPhaseHasItsWorkers(phases, limit - 1, phase);
      OneForEach(phases, phase);
      WorkersInConcat(WorkersFor(phases, limit - 1), seq(phases, p requires 0 <= p < phases => Worker(p, Idle)), phase);
    }
  }
}
