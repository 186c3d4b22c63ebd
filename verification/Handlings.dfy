/** What the handling of a claimed job amounts to, said of its script as a whole: which transitions,
    outcomes, events and requests it holds, and when (internal/adapters/runner/job_leases.go). */
module Handlings {
  import opened Wrappers
  import opened Telemetry
  import opened ClaimedJobs
  import Idempotency
  import Text

  /** The phase and kind of a check that some executor is for. */
  lemma SupportsIff(phase: string, kind: string)
    ensures Supports(phase, kind)
       <==> || (phase == "response" && kind in ["http", "ping", "keyword", "port", "dns_record"])
            || (phase == "ssl" && kind in ["http", "keyword", "port"])
            || (phase == "domain_expiration" && kind == "domain_expiration")
  {
    var e := EXECUTORS;
    FindIff(e, phase, kind);
    assert e[0].kinds == ["http"] && e[1].kinds == ["ping"] && e[2].kinds == ["keyword"] && e[3].kinds == ["port"];
    assert e[4].kinds == ["dns_record"] && e[5].kinds == ["http", "keyword", "port"];
    assert e[6].kinds == ["domain_expiration"];
    assert e[0].phase == e[1].phase == e[2].phase == e[3].phase == e[4].phase == "response";
    assert e[5].phase == "ssl" && e[6].phase == "domain_expiration";
    if Supports(phase, kind) {
      var n :| 0 <= n < |e| && e[n].phase == phase && kind in e[n].kinds;
      assert n in [0, 1, 2, 3, 4, 5, 6];
    }
  }

  /** The jobs some executor is for. */
  lemma SupportedIff(job: ClaimedJob)
    ensures var phase, kind := Text.TrimSpace(job.phase), job.monitoring.kind;
            Supported(job)
            <==> || (phase == "response" && kind in ["http", "ping", "keyword", "port", "dns_record"])
                 || (phase == "ssl" && kind in ["http", "keyword", "port"])
                 || (phase == "domain_expiration" && kind == "domain_expiration")
  {
    SupportsIff(Text.TrimSpace(job.phase), job.monitoring.kind);
  }

  lemma {:induction false} FindIff(executors: seq<Executor>, phase: string, kind: string)
    ensures Find(executors, phase, kind).Some?
       <==> exists n :: 0 <= n < |executors| && executors[n].phase == phase && kind in executors[n].kinds
  {
    if executors != [] {
      FindIff(executors[1..], phase, kind);
      if n :| 0 <= n < |executors[1..]| && executors[1..][n].phase == phase && kind in executors[1..][n].kinds {
        assert executors[n + 1].phase == phase && kind in executors[n + 1].kinds;
      }
      if n :| 0 <= n < |executors| && executors[n].phase == phase && kind in executors[n].kinds {
        assert n > 0 ==> executors[1..][n - 1] == executors[n];
      }
    }
  }

  // ---- How a handling ends ----

  /** The job starts to run. */
  predicate Starts(job: ClaimedJob, w: World) {
    Supported(job) && WellFormedJob(job) && w.now < job.leaseExpiresAt.value
  }

  /** It gets as far as a result. */
  predicate Finishes(job: ClaimedJob, w: World) {
    Starts(job, w) && (job.monitoring.maintenanceActive || !(w.slotDenied || w.parentCanceled || w.leaseLost))
  }

  lemma FinishesIsReports(job: ClaimedJob, w: World)
    ensures Finishes(job, w) <==> Reports(job, w)
    ensures Starts(job, w) <==> Guard(job, w.now).LetThrough?
    ensures Starts(job, w) ==> Guard(job, w.now) == LetThrough(Text.TrimSpace(job.phase))
    ensures Starts(job, w) ==> Idempotency.IsUUIDv4(ClaimKey(job))
  {
    LetThroughIff(job, w.now);
    LetThroughIsValid(job, w.now);
  }

  /** What is reported as the outcome of a check. */
  function StatusOf(shape: Shape): string {
    match shape
    case Shape(Some(status), _, _) => status
    case Shape(None, Some(status), _) => status
    case Shape(None, None, Some(status)) => status
    case Shape(None, None, None) => "unknown"
  }

  // ---- The parts ----

  lemma InReported(job: ClaimedJob, phase: string, shape: Shape, outcome: string, w: World, e: Effect)
    requires Idempotency.IsUUIDv4(ClaimKey(job)) && !e.Post?
    ensures e in Reported(job, phase, shape, outcome, w)
       <==> || e == Completion(job, shape, ClaimKey(job), w)
            || (w.completion == Sent(true)
                && e in [RecordLease("completed"), RecordJobTransition(Running, Completed), FinishJob(phase, outcome)])
            || (w.completion != Sent(true)
                && e in [RecordJobTransition(Running, CompletionFailed), FinishJob(phase, "completion_failed")])
  {
    DualWritesArePosts(shape, ClaimKey(job), w);
  }

  lemma InRelease(job: ClaimedJob, reason: string, w: World, e: Effect)
    ensures e in ReleaseEffects(job, reason, w)
       <==> && JobID(job) != ""
            && (|| e == Release(job.id, job.attempt, reason, w.release.Sent?)
                || (w.release == Sent(true) && e == RecordLease("released")))
  {
  }

  lemma InGivenUp(job: ClaimedJob, phase: string, reason: string, w: World, e: Effect)
    ensures e in GivenUp(job, phase, reason, w)
       <==> || e in ReleaseEffects(job, reason, w)
            || e == RecordJobTransition(Running, Released) || e == FinishJob(phase, "canceled")
  {
  }

  /** Why Core is given a job back. */
  function ReasonOf(job: ClaimedJob, w: World): string {
    if !Supported(job) then "unsupported monitoring job"
    else if !WellFormedJob(job) then ValidateClaimedJob(job)
    else if job.leaseExpiresAt.value <= w.now then "lease expired before execution"
    else if w.slotDenied then "execution canceled before start"
    else if w.leaseLost then "lease renewal failed"
    else "execution canceled"
  }

  /** A job that does not start. */
  lemma InRefused(job: ClaimedJob, w: World, e: Effect)
    requires !Starts(job, w)
    ensures var phase := if IsLeasePhase(Text.TrimSpace(job.phase)) then Text.TrimSpace(job.phase) else "unknown";
            var invalid := Supported(job) && !WellFormedJob(job);
            e in JobScript(job, w)
            <==> || e == DropQueuedJob(phase, if invalid then "invalid" else "released")
                 || e == RecordJobTransition(Queued, if invalid then Invalid else Released)
                 || e in ReleaseEffects(job, ReasonOf(job, w), w)
  {
    ValidIffWellFormed(job);
  }

  /** A job that starts and is given up. */
  lemma InAbandoned(job: ClaimedJob, w: World, e: Effect)
    requires Starts(job, w) && !Finishes(job, w)
    ensures e in JobScript(job, w)
       <==> || e in [RecordLeaseWait, StartJob, RecordJobTransition(Queued, Running)]
            || (!w.slotDenied && e in [AcquireSlot(JobID(job)), ReleaseSlot(JobID(job))])
            || e in GivenUp(job, Text.TrimSpace(job.phase), ReasonOf(job, w), w)
            || (w.slotDenied && w.leaseLost && e == RecordLease("expired"))
  {
    FinishesIsReports(job, w);
  }

  /** A job that gets as far as a result. */
  lemma InFinished(job: ClaimedJob, w: World, e: Effect)
    requires Finishes(job, w)
    ensures var phase, maintenance := Text.TrimSpace(job.phase), job.monitoring.maintenanceActive;
            e in JobScript(job, w)
            <==> || e in [RecordLeaseWait, StartJob, RecordJobTransition(Queued, Running)]
                 || (!maintenance && e in [AcquireSlot(JobID(job)), ReleaseSlot(JobID(job))])
                 || e in Reported(job, phase, if maintenance then MaintenanceShape(phase) else w.shape,
                                  if maintenance then "maintenance" else StatusOf(w.shape), w)
  {
    FinishesIsReports(job, w);
  }

  // ---- The whole ----

  /** The main result: which effects a handling has beside its posts. It is counted as completed, failed or
      released, and finished with an outcome, exactly as Expect says; and so are its events and requests. */
  lemma HandlingDoes(job: ClaimedJob, w: World, e: Effect)
    requires !e.Post?
    ensures e in JobScript(job, w) <==> Expected(job, w, e)
  {
    if !Starts(job, w) {
      RefusedDoes(job, w, e);
    } else if !Finishes(job, w) {
      AbandonedDoes(job, w, e);
    } else {
      FinishedDoes(job, w, e);
    }
  }

  lemma RefusedDoes(job: ClaimedJob, w: World, e: Effect)
    requires !e.Post? && !Starts(job, w)
    ensures e in JobScript(job, w) <==> Expected(job, w, e)
  {
    InRefused(job, w, e);
    InRelease(job, ReasonOf(job, w), w, e);
    RefusedIs(job, w, e, IsInvalid(job), ReasonOf(job, w));
  }

  lemma RefusedIs(job: ClaimedJob, w: World, e: Effect, invalid: bool, reason: string)
    ensures var phase := if IsLeasePhase(Text.TrimSpace(job.phase)) then Text.TrimSpace(job.phase) else "unknown";
            Expect(job, w, e, invalid, false, false, reason)
            <==> || e == DropQueuedJob(phase, if invalid then "invalid" else "released")
                 || e == RecordJobTransition(Queued, if invalid then Invalid else Released)
                 || (JobID(job) != ""
                     && (|| e == Release(job.id, job.attempt, reason, w.release.Sent?)
                         || (w.release == Sent(true) && e == RecordLease("released"))))
  {
  }

  lemma AbandonedDoes(job: ClaimedJob, w: World, e: Effect)
    requires !e.Post? && Starts(job, w) && !Finishes(job, w)
    ensures e in JobScript(job, w) <==> Expected(job, w, e)
  {
    InAbandoned(job, w, e);
    InGivenUp(job, Text.TrimSpace(job.phase), ReasonOf(job, w), w, e);
    InRelease(job, ReasonOf(job, w), w, e);
    AbandonedIs(job, w, e, ReasonOf(job, w));
  }

  lemma AbandonedIs(job: ClaimedJob, w: World, e: Effect, reason: string)
    requires JobID(job) != "" && !job.monitoring.maintenanceActive
    ensures Expect(job, w, e, false, true, false, reason)
       <==> || e in [RecordLeaseWait, StartJob, RecordJobTransition(Queued, Running)]
            || (!w.slotDenied && e in [AcquireSlot(JobID(job)), ReleaseSlot(JobID(job))])
            || e in [RecordJobTransition(Running, Released), FinishJob(Text.TrimSpace(job.phase), "canceled")]
            || e == Release(job.id, job.attempt, reason, w.release.Sent?)
            || (w.release == Sent(true) && e == RecordLease("released"))
            || (w.slotDenied && w.leaseLost && e == RecordLease("expired"))
  {
  }

  lemma FinishedDoes(job: ClaimedJob, w: World, e: Effect)
    requires !e.Post? && Finishes(job, w)
    ensures e in JobScript(job, w) <==> Expected(job, w, e)
  {
    var phase, maintenance := Text.TrimSpace(job.phase), job.monitoring.maintenanceActive;
    FinishesIsReports(job, w);
    InFinished(job, w, e);
    InReported(job, phase, if maintenance then MaintenanceShape(phase) else w.shape,
               if maintenance then "maintenance" else StatusOf(w.shape), w, e);
    FinishedIs(job, w, e, ReasonOf(job, w));
  }

  lemma FinishedIs(job: ClaimedJob, w: World, e: Effect, reason: string)
    requires job.monitoring.maintenanceActive || !(w.slotDenied || w.parentCanceled || w.leaseLost)
    ensures var phase, maintenance := Text.TrimSpace(job.phase), job.monitoring.maintenanceActive;
            var shape := if maintenance then MaintenanceShape(phase) else w.shape;
            var outcome := if maintenance then "maintenance" else StatusOf(w.shape);
            Expect(job, w, e, false, true, true, reason)
            <==> || e in [RecordLeaseWait, StartJob, RecordJobTransition(Queued, Running)]
                 || (!maintenance && e in [AcquireSlot(JobID(job)), ReleaseSlot(JobID(job))])
                 || e == Completion(job, shape, ClaimKey(job), w)
                 || (w.completion == Sent(true)
                     && e in [RecordLease("completed"), RecordJobTransition(Running, Completed),
                              FinishJob(phase, outcome)])
                 || (w.completion != Sent(true)
                     && e in [RecordJobTransition(Running, CompletionFailed), FinishJob(phase, "completion_failed")])
  {
  }

  /** The job is turned away because it is not well formed. */
  predicate IsInvalid(job: ClaimedJob) {
    Supported(job) && !WellFormedJob(job)
  }

  /** The effects a handling has beside its posts. */
  predicate Expected(job: ClaimedJob, w: World, e: Effect) {
    Expect(job, w, e, IsInvalid(job), Starts(job, w), Finishes(job, w), ReasonOf(job, w))
  }

  /** The same, given how the handling goes. */
  predicate Expect(job: ClaimedJob, w: World, e: Effect, invalid: bool, starts: bool, finishes: bool, reason: string) {
    var phase, maintenance := Text.TrimSpace(job.phase), job.monitoring.maintenanceActive;
    var accepted := w.completion == Sent(true);
    match e
    case RecordLeaseWait => starts
    case StartJob => starts
    case AcquireSlot(check) => starts && !maintenance && !w.slotDenied && check == JobID(job)
    case ReleaseSlot(check) => starts && !maintenance && !w.slotDenied && check == JobID(job)
    case RecordJobTransition(from, to) =>
      || (starts && from == Queued && to == Running)
      || (!starts && from == Queued && to == if invalid then Invalid else Released)
      || (starts && from == Running
          && to == if !finishes then Released else if accepted then Completed else CompletionFailed)
    case DropQueuedJob(p, outcome) =>
      && !starts && p == (if phase in ["response", "ssl", "domain_expiration"] then phase else "unknown")
      && outcome == if invalid then "invalid" else "released"
    case FinishJob(p, outcome) =>
      && starts && p == phase
      && outcome == if !finishes then "canceled"
                    else if !accepted then "completion_failed"
                    else if maintenance then "maintenance" else StatusOf(w.shape)
    case RecordLease(event) =>
      || (event == "completed" && finishes && accepted)
      || (event == "released" && JobID(job) != "" && !finishes && w.release == Sent(true))
      || (event == "expired" && starts && !finishes && w.slotDenied && w.leaseLost)
    case Complete(id, key, attempt, heldKeys, built) =>
      && finishes && id == job.id && key == ClaimKey(job) && attempt == job.attempt && built == w.completion.Sent?
      && heldKeys == Repeat(ClaimKey(job), FieldsReported(job, w))
    case Release(id, attempt, r, built) =>
      && JobID(job) != "" && !finishes
      && id == job.id && attempt == job.attempt && r == reason && built == w.release.Sent?
    case _ => false
  }

  /** How many fields the result of a job has. */
  function FieldsReported(job: ClaimedJob, w: World): nat {
    if job.monitoring.maintenanceActive then (if Text.TrimSpace(job.phase) == "ssl" then 0 else 1)
    else (if w.shape.response.Some? then 1 else 0) + (if w.shape.ssl.Some? then 1 else 0)
         + if w.shape.domain.Some? then 1 else 0
  }

  // ---- Why a job is invalid ----

  /** The rules a job has to keep, in the order they are looked at. */
  predicate Keeps(job: ClaimedJob, rule: nat) {
    var m := job.monitoring;
    match rule
    case 0 => JobID(job) != ""
    case 1 => Text.TrimSpace(m.id) != ""
    case 2 => job.leaseExpiresAt.Some?
    case 3 => 1 <= job.attempt
    case 4 => Idempotency.IsUUIDv4(ClaimKey(job))
    case 5 => Text.TrimSpace(m.target) != ""
    case 6 => 0 <= m.timeout
    case 7 => m.kind == "port" ==> 1 <= m.port <= 65535
    case 8 => m.kind == "dns_record" ==> Text.TrimSpace(m.dnsRecordType) != "" && m.dnsExpectedValues != []
    case _ => true
  }

  const REASONS: seq<string> := [
    "job ID is empty", "monitoring ID is empty", "lease expiration is missing", "job attempt must be positive",
    "job idempotency key is invalid", "monitoring target is empty", "monitoring timeout must not be negative",
    "monitoring port is invalid", "DNS monitoring configuration is incomplete"
  ]

  /** The reason names the first rule broken. */
  lemma ReasonNamesFirstBroken(job: ClaimedJob, rule: nat)
    requires rule < 9 && !Keeps(job, rule) && forall earlier: nat | earlier < rule :: Keeps(job, earlier)
    ensures ValidateClaimedJob(job) == REASONS[rule]
  {
    assert Keeps(job, 0) || rule == 0;
    assert Keeps(job, 1) || rule <= 1;
    assert Keeps(job, 2) || rule <= 2;
    assert Keeps(job, 3) || rule <= 3;
    assert Keeps(job, 4) || rule <= 4;
    assert Keeps(job, 5) || rule <= 5;
    assert Keeps(job, 6) || rule <= 6;
    assert Keeps(job, 7) || rule <= 7;
  }

  // ---- Posts ----

  function PostsOf(effects: seq<Effect>): seq<Effect> {
    if effects == [] then [] else PostIn(effects[0]) + PostsOf(effects[1..])
  }

  function PostIn(e: Effect): seq<Effect> {
    if e.Post? then [e] else []
  }

  lemma {:induction false} PostsOfConcat(a: seq<Effect>, b: seq<Effect>)
    ensures PostsOf(a + b) == PostsOf(a) + PostsOf(b)
  {
    if a == [] {
      assert a + b == b;
    } else {
      PostsOfConcat(a[1..], b);
      assert (a + b)[1..] == a[1..] + b;
      Associative(PostIn(a[0]), PostsOf(a[1..]), PostsOf(b));
    }
  }

  lemma {:induction false} AllPosts(posts: seq<Effect>)
    requires forall e | e in posts :: e.Post?
    ensures PostsOf(posts) == posts
  {
    if posts != [] {
      assert posts[0] in posts;
      AllPosts(posts[1..]);
    }
  }

  lemma {:induction false} NoPosts(effects: seq<Effect>)
    requires forall e | e in effects :: !e.Post?
    ensures PostsOf(effects) == []
  {
    if effects != [] {
      assert effects[0] in effects;
      NoPosts(effects[1..]);
    }
  }

  function Copies(n: nat, e: Effect): seq<Effect> {
    seq(n, _ => e)
  }

  /** A callback is tried again if its first try ended in a transport error or a server error, and neither
      the context ended nor the request could not be built again. Without a key there is one try. */
  predicate TriedAgain(key: string, c: Callback) {
    && (c.first == Transport || (c.first.Status? && 500 <= c.first.code))
    && !c.doneAfterFirst && !c.doneWhileWaiting && c.rebuilds && Text.TrimSpace(key) != ""
  }

  /** How many requests are sent for one field of a result. */
  function Requests(field: Option<string>, key: string, c: Callback): nat {
    if field.None? || !c.builds then 0 else if TriedAgain(key, c) then 2 else 1
  }

  /** What is sent of a result: its response, its certificate and its registration, each to its endpoint. */
  function Publication(shape: Shape, key: string, w: World): seq<Effect> {
    Copies(Requests(shape.response, key, w.callback(ResponseResult)), Post("monitoring-responses", key, key))
    + Copies(Requests(shape.ssl, key, w.callback(SSLResult)), Post("ssl-results", key, key))
    + Copies(Requests(shape.domain, key, w.callback(DomainResult)), Post("domain-results", key, key))
  }

  /** A callback that is sent once or twice succeeds exactly if its last request was accepted. */
  lemma CallbackIs(key: string, c: Callback)
    ensures Delivered(key, c) <==> c.builds && if TriedAgain(key, c) then c.second == Accepted else c.first == Accepted
    ensures Tries(key, c) == Requests(Some(""), key, c)
  {
  }

  lemma PostsAre(field: Option<string>, kind: Kind, key: string, w: World)
    ensures PostsIf(field.Some?, kind, key, w)
         == Copies(Requests(field, key, w.callback(kind)), Post(KindName(kind), key, key))
  {
  }

  /** A result is published under the given key if that is a version 4 UUID, else under a generated one. */
  lemma PublishedIs(shape: Shape, keys: seq<string>, w: World)
    ensures PublishEffects(shape, keys, w)
         == if keys != [] && Idempotency.IsUUIDv4(keys[0]) then Publication(shape, keys[0], w)
            else if w.generated.Some? then Publication(shape, w.generated.value, w) else []
  {
    if PublishKey(keys, w.generated).Some? {
      var key := PublishKey(keys, w.generated).value;
      PostsAre(shape.response, ResponseResult, key, w);
      PostsAre(shape.ssl, SSLResult, key, w);
      PostsAre(shape.domain, DomainResult, key, w);
    }
  }

  lemma PublicationIsPosts(shape: Shape, key: string, w: World)
    ensures PostsOf(Publication(shape, key, w)) == Publication(shape, key, w)
  {
    AllPosts(Publication(shape, key, w));
  }

  /** What a job reports, if it gets that far. */
  function ResultOf(job: ClaimedJob, w: World): Shape {
    if !job.monitoring.maintenanceActive then w.shape
    else if Text.TrimSpace(job.phase) == "ssl" then Shape(None, None, None) else Shape(Some("unknown"), None, None)
  }

  lemma PostsOfReported(job: ClaimedJob, phase: string, shape: Shape, outcome: string, w: World)
    requires Idempotency.IsUUIDv4(ClaimKey(job))
    ensures PostsOf(Reported(job, phase, shape, outcome, w))
         == if w.dualWrite then Publication(shape, ClaimKey(job), w) else []
  {
    var writes := DualWrites(shape, ClaimKey(job), w);
    PublishedIs(shape, [ClaimKey(job)], w);
    PublicationIsPosts(shape, ClaimKey(job), w);
    ReportSplits(job, phase, shape, outcome, w);
    TailHasNoPosts(job, phase, shape, outcome, w);
    OnlyWritesPost(writes, ReportTail(job, phase, shape, outcome, w));
  }

  lemma OnlyWritesPost(writes: seq<Effect>, tail: seq<Effect>)
    requires forall e | e in tail :: !e.Post?
    ensures PostsOf(writes + tail) == PostsOf(writes)
  {
    PostsOfConcat(writes, tail);
    NoPosts(tail);
  }

  /** How a report ends. */
  function ReportEnd(job: ClaimedJob, phase: string, outcome: string, w: World): seq<Effect> {
    if CompletesClaim(job, w) then [RecordJobTransition(Running, Completed), FinishJob(phase, outcome)]
    else [RecordJobTransition(Running, CompletionFailed), FinishJob(phase, "completion_failed")]
  }

  /** What follows the posts of a report. */
  function ReportTail(job: ClaimedJob, phase: string, shape: Shape, outcome: string, w: World): seq<Effect> {
    [Completion(job, shape, ClaimKey(job), w)] + Noted(w.completion.Succeeds(), "completed")
    + ReportEnd(job, phase, outcome, w)
  }

  lemma TailHasNoPosts(job: ClaimedJob, phase: string, shape: Shape, outcome: string, w: World)
    ensures forall e | e in ReportTail(job, phase, shape, outcome, w) :: !e.Post?
  {
  }

  lemma Regroup(a: seq<Effect>, b: seq<Effect>, c: seq<Effect>, d: seq<Effect>)
    ensures a + b + c + d == a + (b + c + d)
  {
  }

  lemma ReportSplits(job: ClaimedJob, phase: string, shape: Shape, outcome: string, w: World)
    requires Idempotency.IsUUIDv4(ClaimKey(job))
    ensures Reported(job, phase, shape, outcome, w)
         == DualWrites(shape, ClaimKey(job), w) + ReportTail(job, phase, shape, outcome, w)
  {
    Regroup(DualWrites(shape, ClaimKey(job), w), [Completion(job, shape, ClaimKey(job), w)],
            Noted(w.completion.Succeeds(), "completed"), ReportEnd(job, phase, outcome, w));
  }

  /** The posts of a handling: with writing to the old endpoints on, what is published of its result under the
      claim's key, and otherwise none. */
  lemma HandlingPosts(job: ClaimedJob, w: World)
    ensures PostsOf(JobScript(job, w))
         == if Finishes(job, w) && w.dualWrite then Publication(ResultOf(job, w), ClaimKey(job), w) else []
  {
    FinishesIsReports(job, w);
    if !Finishes(job, w) {
      forall e | e in JobScript(job, w) ensures !e.Post? {
        EverythingCarriesTheClaim(job, w, e);
      }
      NoPosts(JobScript(job, w));
    } else {
      FinishedPosts(job, Text.TrimSpace(job.phase), w);
    }
  }

  /** What comes before the report of a job. */
  function BeforeReport(job: ClaimedJob): (head: seq<Effect>)
    ensures forall e | e in head :: !e.Post?
  {
    if job.monitoring.maintenanceActive then STARTED else STARTED + Slot(JobID(job))
  }

  function Outcome(job: ClaimedJob, w: World): string {
    if job.monitoring.maintenanceActive then "maintenance" else w.shape.Outcome()
  }

  lemma FinishedScript(job: ClaimedJob, phase: string, w: World)
    requires Finishes(job, w) && phase == Text.TrimSpace(job.phase)
    ensures JobScript(job, w) == BeforeReport(job) + Reported(job, phase, ResultOf(job, w), Outcome(job, w), w)
  {
    FinishesIsReports(job, w);
    var report := Reported(job, phase, ResultOf(job, w), Outcome(job, w), w);
    if !job.monitoring.maintenanceActive {
      Associative(STARTED, Slot(JobID(job)), report);
    }
  }

  lemma FinishedPosts(job: ClaimedJob, phase: string, w: World)
    requires Finishes(job, w) && phase == Text.TrimSpace(job.phase)
    ensures PostsOf(JobScript(job, w)) == if w.dualWrite then Publication(ResultOf(job, w), ClaimKey(job), w) else []
  {
    FinishesIsReports(job, w);
    FinishedScript(job, phase, w);
    var report := Reported(job, phase, ResultOf(job, w), Outcome(job, w), w);
    PostsOfReported(job, phase, ResultOf(job, w), Outcome(job, w), w);
    NoPosts(BeforeReport(job));
    PostsOfConcat(BeforeReport(job), report);
  }

  // ---- In which order ----

  /** What is done to give a job back. */
  function Returned(job: ClaimedJob, w: World): seq<Effect> {
    if JobID(job) == "" then []
    else [Release(job.id, job.attempt, ReasonOf(job, w), w.release.Sent?)]
         + if w.release == Sent(true) then [RecordLease("released")] else []
  }

  /** What is done with a result: published if the old endpoints are still in use, then completed, then counted. */
  function Reporting(job: ClaimedJob, w: World): seq<Effect> {
    var phase, key, shape := Text.TrimSpace(job.phase), ClaimKey(job), ResultOf(job, w);
    var outcome := if job.monitoring.maintenanceActive then "maintenance" else StatusOf(w.shape);
    (if w.dualWrite then Publication(shape, key, w) else [])
    + [Complete(job.id, key, job.attempt, Repeat(key, FieldsReported(job, w)), w.completion.Sent?)]
    + if w.completion == Sent(true)
      then [RecordLease("completed"), RecordJobTransition(Running, Completed), FinishJob(phase, outcome)]
      else [RecordJobTransition(Running, CompletionFailed), FinishJob(phase, "completion_failed")]
  }

  /** A handling from beginning to end. */
  function Timeline(job: ClaimedJob, w: World): seq<Effect> {
    var phase, invalid := Text.TrimSpace(job.phase), IsInvalid(job);
    if !Starts(job, w) then
      [DropQueuedJob(if IsLeasePhase(phase) then phase else "unknown", if invalid then "invalid" else "released"),
       RecordJobTransition(Queued, if invalid then Invalid else Released)] + Returned(job, w)
    else
      [RecordLeaseWait, StartJob, RecordJobTransition(Queued, Running)]
      + (if job.monitoring.maintenanceActive || w.slotDenied then []
         else [AcquireSlot(JobID(job)), ReleaseSlot(JobID(job))])
      + if Finishes(job, w) then Reporting(job, w)
        else Returned(job, w) + [RecordJobTransition(Running, Released), FinishJob(phase, "canceled")]
             + if w.slotDenied && w.leaseLost then [RecordLease("expired")] else []
  }

  lemma ReportParts(job: ClaimedJob, phase: string, shape: Shape, outcome: string, w: World, fields: nat)
    requires Idempotency.IsUUIDv4(ClaimKey(job)) && fields == |shape.Kinds()|
    ensures Reported(job, phase, shape, outcome, w)
         == DualWrites(shape, ClaimKey(job), w)
            + [Complete(job.id, ClaimKey(job), job.attempt, Repeat(ClaimKey(job), fields), w.completion.Sent?)]
            + if w.completion == Sent(true)
              then [RecordLease("completed"), RecordJobTransition(Running, Completed), FinishJob(phase, outcome)]
              else [RecordJobTransition(Running, CompletionFailed), FinishJob(phase, "completion_failed")]
  {
  }

  lemma FieldsAre(job: ClaimedJob, w: World)
    ensures |ResultOf(job, w).Kinds()| == FieldsReported(job, w)
    ensures Outcome(job, w) == if job.monitoring.maintenanceActive then "maintenance" else StatusOf(w.shape)
  {
  }

  lemma WritesAre(shape: Shape, key: string, w: World)
    requires Idempotency.IsUUIDv4(key)
    ensures DualWrites(shape, key, w) == if w.dualWrite then Publication(shape, key, w) else []
  {
    PublishedIs(shape, [key], w);
  }

  lemma ReportedIs(job: ClaimedJob, w: World)
    requires Idempotency.IsUUIDv4(ClaimKey(job))
    ensures Reported(job, Text.TrimSpace(job.phase), ResultOf(job, w), Outcome(job, w), w) == Reporting(job, w)
  {
    FieldsAre(job, w);
    WritesAre(ResultOf(job, w), ClaimKey(job), w);
    ReportParts(job, Text.TrimSpace(job.phase), ResultOf(job, w), Outcome(job, w), w, FieldsReported(job, w));
  }

  /** The script of a handling, whole and in order. */
  lemma HandlingIs(job: ClaimedJob, w: World)
    ensures JobScript(job, w) == Timeline(job, w)
  {
    if !Starts(job, w) {
      RefusedScript(job, w);
    } else if Finishes(job, w) {
      FinishesIsReports(job, w);
      FinishedScript(job, Text.TrimSpace(job.phase), w);
      ReportedIs(job, w);
    } else {
      AbandonedScript(job, w);
    }
  }

  lemma RefusedScript(job: ClaimedJob, w: World)
    requires !Starts(job, w)
    ensures JobScript(job, w) == Timeline(job, w)
  {
    var phase, invalid := Text.TrimSpace(job.phase), IsInvalid(job);
    RefusedGate(job, w, phase, invalid, ReasonOf(job, w));
    ReturnedIs(job, w);
  }

  lemma RefusedGate(job: ClaimedJob, w: World, phase: string, invalid: bool, reason: string)
    requires !Starts(job, w) && phase == Text.TrimSpace(job.phase) && invalid == IsInvalid(job)
    requires reason == ReasonOf(job, w)
    ensures Guard(job, w.now)
         == TurnedAway(if IsLeasePhase(phase) then phase else "unknown", if invalid then "invalid" else "released",
                       if invalid then Invalid else Released, reason)
  {
    ValidIffWellFormed(job);
  }

  lemma ReturnedIs(job: ClaimedJob, w: World)
    ensures ReleaseEffects(job, ReasonOf(job, w), w) == Returned(job, w)
  {
  }

  lemma GivenUpIs(job: ClaimedJob, w: World)
    ensures GivenUp(job, Text.TrimSpace(job.phase), ReasonOf(job, w), w)
         == Returned(job, w)
            + [RecordJobTransition(Running, Released), FinishJob(Text.TrimSpace(job.phase), "canceled")]
  {
  }

  /** Why a job that started is given up. */
  function GivenUpFor(w: World): string {
    if w.slotDenied then "execution canceled before start"
    else if w.leaseLost then "lease renewal failed"
    else "execution canceled"
  }

  lemma AbandonedReason(job: ClaimedJob, w: World)
    requires Starts(job, w) && !Finishes(job, w)
    ensures ReasonOf(job, w) == GivenUpFor(w)
    ensures !job.monitoring.maintenanceActive && (w.slotDenied || w.parentCanceled || w.leaseLost)
  {
  }

  lemma AbandonedRest(job: ClaimedJob, phase: string, w: World)
    requires !job.monitoring.maintenanceActive && (w.slotDenied || w.parentCanceled || w.leaseLost)
    ensures RestOfRun(job, phase, w)
         == if w.slotDenied then GivenUp(job, phase, GivenUpFor(w), w) + Noted(w.leaseLost, "expired")
            else Slot(JobID(job)) + GivenUp(job, phase, GivenUpFor(w), w)
  {
  }

  lemma AbandonedScript(job: ClaimedJob, w: World)
    requires Starts(job, w) && !Finishes(job, w)
    ensures JobScript(job, w) == Timeline(job, w)
  {
    var phase := Text.TrimSpace(job.phase);
    var given := GivenUp(job, phase, ReasonOf(job, w), w);
    var slot := if w.slotDenied then [] else Slot(JobID(job));
    var expired := if w.slotDenied && w.leaseLost then [RecordLease("expired")] else [];
    AbandonedReason(job, w);
    GivenUpIs(job, w);
    AbandonedRest(job, phase, w);
    StartedScript(job, w);
    Glue(STARTED, RestOfRun(job, phase, w), slot, given, expired, w.slotDenied);
    AbandonedTimeline(job, w, given, slot, expired);
  }

  lemma Glue(head: seq<Effect>, rest: seq<Effect>, slot: seq<Effect>, given: seq<Effect>, expired: seq<Effect>,
             denied: bool)
    requires if denied then slot == [] && rest == given + expired else expired == [] && rest == slot + given
    ensures head + rest == head + slot + (given + expired)
  {
    Associative(head, slot, given + expired);
    assert denied ==> slot + (given + expired) == given + expired;
    assert !denied ==> given + expired == given;
  }

  lemma StartedScript(job: ClaimedJob, w: World)
    requires Starts(job, w)
    ensures JobScript(job, w) == STARTED + RestOfRun(job, Text.TrimSpace(job.phase), w)
  {
    FinishesIsReports(job, w);
  }

  lemma AbandonedTimeline(job: ClaimedJob, w: World, given: seq<Effect>, slot: seq<Effect>, expired: seq<Effect>)
    requires Starts(job, w) && !Finishes(job, w)
    requires slot == if w.slotDenied then [] else Slot(JobID(job))
    requires given == Returned(job, w)
                      + [RecordJobTransition(Running, Released), FinishJob(Text.TrimSpace(job.phase), "canceled")]
    requires expired == if w.slotDenied && w.leaseLost then [RecordLease("expired")] else []
    ensures Timeline(job, w) == STARTED + slot + (given + expired)
  {
  }
}
