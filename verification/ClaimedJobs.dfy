/** The handling of one claimed job: internal/adapters/runner/job_leases.go, with the parts of
    executor_registry.go and coreapi/client.go it goes through. What the environment decides is a World;
    what the handling does is a script of effects. */
module ClaimedJobs {
  import opened Wrappers
  import opened Telemetry
  import Idempotency
  import Text

  datatype Monitoring = Monitoring(id: string, kind: string, target: string, timeout: int, port: int,
                                   dnsRecordType: string, dnsExpectedValues: seq<string>, maintenanceActive: bool)

  /** A missing expiry is None. */
  datatype ClaimedJob = ClaimedJob(id: string, phase: string, leaseExpiresAt: Option<int>, attempt: int,
                                   idempotencyKey: string, monitoring: Monitoring)

  // ---- The executor registry ----

  datatype Executor = Executor(name: string, phase: string, kinds: seq<string>)

  const RESPONSE := "response"
  const SSL := "ssl"
  const DOMAIN_EXPIRATION := "domain_expiration"

  const EXECUTORS: seq<Executor> := [
    Executor("http", RESPONSE, ["http"]),
    Executor("ping", RESPONSE, ["ping"]),
    Executor("keyword", RESPONSE, ["keyword"]),
    Executor("tcp-port", RESPONSE, ["port"]),
    Executor("dns-record", RESPONSE, ["dns_record"]),
    Executor("tls-certificate", SSL, ["http", "keyword", "port"]),
    Executor("domain-expiration", DOMAIN_EXPIRATION, ["domain_expiration"])
  ]

  function Find(executors: seq<Executor>, phase: string, kind: string): Option<Executor> {
    if executors == [] then None
    else if executors[0].phase == phase && kind in executors[0].kinds then Some(executors[0])
    else Find(executors[1..], phase, kind)
  }

  predicate Supports(phase: string, kind: string) {
    Find(EXECUTORS, phase, kind).Some?
  }

  lemma {:induction false} FindAt(executors: seq<Executor>, phase: string, kind: string, n: nat)
    requires n < |executors| && executors[n].phase == phase && kind in executors[n].kinds
    ensures Find(executors, phase, kind).Some?
  {
    if n > 0 {
      FindAt(executors[1..], phase, kind, n - 1);
    }
  }

  // ---- Results ----

  datatype Kind = ResponseResult | SSLResult | DomainResult

  function KindName(kind: Kind): string {
    match kind
    case ResponseResult => "monitoring-responses" case SSLResult => "ssl-results" case DomainResult => "domain-results"
  }

  /** A result on its way to Core; its key is filled in late. */
  class Payload {
    const monitoringID: string
    const status: string
    var idempotencyKey: string

    constructor (monitoringID: string, status: string)
      ensures this.monitoringID == monitoringID && this.status == status && idempotencyKey == ""
    {
      this.monitoringID, this.status, this.idempotencyKey := monitoringID, status, "";
    }
  }

  /** The output of an executor; any of the three may be missing. */
  datatype Execution = Execution(response: Payload?, ssl: Payload?, domain: Payload?) {
    function Payloads(): set<object> {
      (if response != null then {response} else {}) + (if ssl != null then {ssl} else {})
      + (if domain != null then {domain} else {})
    }

    predicate Empty() {
      response == null && ssl == null && domain == null
    }

    /** The same without the objects. */
    function Outline(): Shape {
      Shape(if response != null then Some(response.status) else None,
            if ssl != null then Some(ssl.status) else None,
            if domain != null then Some(domain.status) else None)
    }
  }

  datatype Shape = Shape(response: Option<string>, ssl: Option<string>, domain: Option<string>) {
    function Kinds(): seq<Kind> {
      (if response.Some? then [ResponseResult] else []) + (if ssl.Some? then [SSLResult] else [])
      + (if domain.Some? then [DomainResult] else [])
    }

    function Outcome(): string {
      if response.Some? then response.value else if ssl.Some? then ssl.value
      else if domain.Some? then domain.value else "unknown"
    }
  }

  /** Maintenance of a certificate check reports nothing. */
  function MaintenanceShape(phase: string): Shape {
    if phase == SSL then Shape(None, None, None) else Shape(Some("unknown"), None, None)
  }

  /** What the executors of a phase return: a response, a certificate result, or a response with the
      registration result if the lookup gave one. */
  function ExecutedShape(phase: string, status: string, registration: Option<string>): Shape {
    if phase == SSL then Shape(None, Some(status), None)
    else Shape(Some(status), None, if phase == DOMAIN_EXPIRATION then registration else None)
  }

  /** A job's result has exactly one field, except for a certificate check under maintenance, which has
      none, and a domain check whose lookup gave a result, which has two. */
  lemma OneResultFieldIff(phase: string, maintenance: bool, status: string, registration: Option<string>)
    ensures var shape := if maintenance then MaintenanceShape(phase) else ExecutedShape(phase, status, registration);
            var one := if maintenance then phase != SSL else phase != DOMAIN_EXPIRATION || registration.None?;
            |shape.Kinds()| == 1 <==> one
  {
  }

  // ---- Callbacks ----

  /** What one try at a callback ends in. */
  datatype Reply = Accepted | Status(code: int) | Transport | Malformed

  predicate Retryable(reply: Reply) {
    reply.Transport? || (reply.Status? && 500 <= reply.code)
  }

  /** The answers to the two tries, whether the request could be built, and when the context ended. */
  datatype Callback = Callback(first: Reply, second: Reply, builds: bool, rebuilds: bool,
                               doneAfterFirst: bool, doneWhileWaiting: bool)

  function MaxAttempts(key: string): nat {
    if Text.TrimSpace(key) != "" then 2 else 1
  }

  /** How many requests a callback sends. */
  function Tries(key: string, c: Callback): nat {
    if !c.builds then 0
    else if MaxAttempts(key) == 1 || c.doneAfterFirst || !Retryable(c.first) || c.doneWhileWaiting || !c.rebuilds then 1
    else 2
  }

  /** The last request sent was accepted. */
  predicate Delivered(key: string, c: Callback) {
    (Tries(key, c) == 1 && c.first.Accepted?) || (Tries(key, c) == 2 && c.second.Accepted?)
  }

  function Posts(kind: Kind, key: string, heldKey: string, c: Callback): seq<Effect> {
    seq(Tries(key, c), _ => Post(KindName(kind), key, heldKey))
  }

  // ---- The world ----

  /** How a request that is tried once goes: it cannot be built, so nothing is sent, or it is sent and
      succeeds or not. */
  datatype Sending = Unbuilt | Sent(accepted: bool) {
    predicate Succeeds() {
      Sent? && accepted
    }
  }

  /** Everything one handling depends on beside the job: the clock at the expiry check, how the slot,
      the check and the renewal went, and how the requests go. `generated` is the key the fallback
      generator would produce. */
  datatype World = World(now: int, slotDenied: bool, parentCanceled: bool, leaseLost: bool, shape: Shape,
                         completion: Sending, release: Sending, callback: Kind -> Callback, generated: Option<string>,
                         dualWrite: bool)

  // ---- Specification ----

  predicate IsLeasePhase(phase: string) {
    phase == RESPONSE || phase == SSL || phase == DOMAIN_EXPIRATION
  }

  function LeaseMetricPhase(phase: string): string {
    if IsLeasePhase(Text.TrimSpace(phase)) then Text.TrimSpace(phase) else "unknown"
  }

  /** The reason a job is invalid, or the empty string. */
  function ValidateClaimedJob(job: ClaimedJob): string {
    var m := job.monitoring;
    if Text.TrimSpace(job.id) == "" then "job ID is empty"
    else if Text.TrimSpace(m.id) == "" then "monitoring ID is empty"
    else if job.leaseExpiresAt.None? then "lease expiration is missing"
    else if job.attempt < 1 then "job attempt must be positive"
    else if !Idempotency.IsUUIDv4(Text.TrimSpace(job.idempotencyKey)) then "job idempotency key is invalid"
    else if Text.TrimSpace(m.target) == "" then "monitoring target is empty"
    else if m.timeout < 0 then "monitoring timeout must not be negative"
    else if m.kind == "port" && (m.port < 1 || m.port > 65535) then "monitoring port is invalid"
    else if m.kind == "dns_record" && (Text.TrimSpace(m.dnsRecordType) == "" || |m.dnsExpectedValues| == 0)
      then "DNS monitoring configuration is incomplete"
    else ""
  }

  /** The key publishExecution settles on: the given one if it is a version 4 UUID, else a generated one. */
  function PublishKey(keys: seq<string>, generated: Option<string>): Option<string> {
    if 0 < |keys| && Idempotency.IsUUIDv4(keys[0]) then Some(keys[0]) else generated
  }

  /** The posts of one kind of result, if there is one. */
  function PostsIf(present: bool, kind: Kind, key: string, w: World): seq<Effect> {
    if present then Posts(kind, key, key, w.callback(kind)) else []
  }

  function PublishAll(shape: Shape, key: string, w: World): seq<Effect> {
    PostsIf(shape.response.Some?, ResponseResult, key, w) + PostsIf(shape.ssl.Some?, SSLResult, key, w)
    + PostsIf(shape.domain.Some?, DomainResult, key, w)
  }

  function PublishEffects(shape: Shape, keys: seq<string>, w: World): seq<Effect> {
    var key := PublishKey(keys, w.generated);
    if key.None? then [] else PublishAll(shape, key.value, w)
  }

  function Repeat(key: string, n: nat): seq<string> {
    seq(n, _ => key)
  }

  function ClaimKey(job: ClaimedJob): string {
    Text.TrimSpace(job.idempotencyKey)
  }

  /** Whether completeClaimedJob reports success, and what it does. */
  predicate CompletesClaim(job: ClaimedJob, w: World) {
    Idempotency.IsUUIDv4(ClaimKey(job)) && w.completion.Succeeds()
  }

  function CompleteEffects(job: ClaimedJob, shape: Shape, w: World): seq<Effect> {
    if !Idempotency.IsUUIDv4(ClaimKey(job)) then [] else KeyedEffects(job, shape, ClaimKey(job), w)
  }

  function KeyedEffects(job: ClaimedJob, shape: Shape, key: string, w: World): seq<Effect> {
    DualWrites(shape, key, w) + [Completion(job, shape, key, w)] + Noted(w.completion.Succeeds(), "completed")
  }

  function Completion(job: ClaimedJob, shape: Shape, key: string, w: World): Effect {
    Complete(job.id, key, job.attempt, Repeat(key, |shape.Kinds()|), w.completion.Sent?)
  }

  function DualWrites(shape: Shape, key: string, w: World): seq<Effect> {
    if w.dualWrite then PublishEffects(shape, [key], w) else []
  }

  /** A lease event, if the condition holds. */
  function Noted(condition: bool, event: string): seq<Effect> {
    if condition then [RecordLease(event)] else []
  }

  function ReleaseEffects(job: ClaimedJob, reason: string, w: World): seq<Effect> {
    if Text.TrimSpace(job.id) == "" then []
    else [Release(job.id, job.attempt, reason, w.release.Sent?)] + Noted(w.release.Succeeds(), "released")
  }

  /** A job that is turned away before it starts. */
  function Discarded(job: ClaimedJob, phase: string, outcome: string, to: Stage, reason: string,
                     w: World): seq<Effect> {
    [DropQueuedJob(phase, outcome), RecordJobTransition(Queued, to)] + ReleaseEffects(job, reason, w)
  }

  /** The end of a handling that started to run and could not finish. */
  function GivenUp(job: ClaimedJob, phase: string, reason: string, w: World): seq<Effect> {
    ReleaseEffects(job, reason, w) + [RecordJobTransition(Running, Released), FinishJob(phase, "canceled")]
  }

  function Reported(job: ClaimedJob, phase: string, shape: Shape, outcome: string, w: World): seq<Effect> {
    CompleteEffects(job, shape, w)
    + if CompletesClaim(job, w) then [RecordJobTransition(Running, Completed), FinishJob(phase, outcome)]
      else [RecordJobTransition(Running, CompletionFailed), FinishJob(phase, "completion_failed")]
  }

  function JobID(job: ClaimedJob): string {
    Text.TrimSpace(job.id)
  }

  const STARTED: seq<Effect> := [RecordLeaseWait, StartJob, RecordJobTransition(Queued, Running)]

  function Slot(check: string): seq<Effect> {
    [AcquireSlot(check), ReleaseSlot(check)]
  }

  function AfterCheck(job: ClaimedJob, phase: string, w: World): seq<Effect> {
    if w.parentCanceled || w.leaseLost
    then GivenUp(job, phase, if w.leaseLost then "lease renewal failed" else "execution canceled", w)
    else Reported(job, phase, w.shape, w.shape.Outcome(), w)
  }

  function RestOfRun(job: ClaimedJob, phase: string, w: World): seq<Effect> {
    if job.monitoring.maintenanceActive then Reported(job, phase, MaintenanceShape(phase), "maintenance", w)
    else if w.slotDenied then
      GivenUp(job, phase, "execution canceled before start", w) + Noted(w.leaseLost, "expired")
    else Slot(JobID(job)) + AfterCheck(job, phase, w)
  }

  /** A job past the three guards. */
  function RunScript(job: ClaimedJob, phase: string, w: World): seq<Effect> {
    STARTED + RestOfRun(job, phase, w)
  }

  /** What the three guards decide: turned away, with the outcome counted, the stage entered and the
      reason given to Core, or let through. */
  datatype Gate =
    | TurnedAway(metricPhase: string, outcome: string, to: Stage, reason: string)
    | LetThrough(phase: string)

  function Guard(job: ClaimedJob, now: int): Gate {
    var phase := Text.TrimSpace(job.phase);
    if !IsLeasePhase(phase) || !Supports(phase, job.monitoring.kind) then
      TurnedAway(LeaseMetricPhase(job.phase), "released", Released, "unsupported monitoring job")
    else if ValidateClaimedJob(job) != "" then TurnedAway(phase, "invalid", Invalid, ValidateClaimedJob(job))
    else if job.leaseExpiresAt.value <= now then
      TurnedAway(phase, "released", Released, "lease expired before execution")
    else LetThrough(phase)
  }

  /** The whole handling of one claimed job. */
  function JobScript(job: ClaimedJob, w: World): seq<Effect> {
    match Guard(job, w.now)
    case TurnedAway(phase, outcome, to, reason) => Discarded(job, phase, outcome, to, reason, w)
    case LetThrough(phase) => RunScript(job, phase, w)
  }

  predicate IsCall(e: Effect) {
    e.Post? || (e.Complete? && e.built) || (e.Release? && e.releaseBuilt)
  }

  /** The requests among the effects, as far as they were sent. */
  function Calls(effects: seq<Effect>): seq<Effect> {
    if effects == [] then []
    else
      var last := effects[|effects| - 1];
      Calls(effects[..|effects| - 1]) + if IsCall(last) then [last] else []
  }

  // ---- The code ----

  /** The client, with the requests it has sent. */
  class CoreClient {
    var sent: seq<Effect>

    constructor ()
      ensures sent == []
    {
      sent := [];
    }

    /** Two tries with one key, or one without. */
    method PostCallbackJSON(kind: Kind, key: string, heldKey: string, c: Callback) returns (ok: bool)
      modifies this
      ensures sent == old(sent) + Posts(kind, key, heldKey, c)
      ensures ok == Delivered(key, c)
    {
      var maxAttempts := 1;
      if Text.TrimSpace(key) != "" {
        maxAttempts := 2;
      }
      var attempt := 0;
      while attempt < maxAttempts
        invariant 0 <= attempt <= maxAttempts && maxAttempts == MaxAttempts(key)
        invariant sent == old(sent) + seq(attempt, _ => Post(KindName(kind), key, heldKey))
        invariant attempt == 1 ==>
                    c.builds && !c.doneAfterFirst && Retryable(c.first) && !c.doneWhileWaiting && maxAttempts == 2
        invariant attempt < 2
      {
        if !(if attempt == 0 then c.builds else c.rebuilds) {
          return false;
        }
        sent := sent + [Post(KindName(kind), key, heldKey)];
        var reply := if attempt == 0 then c.first else c.second;
        if reply.Accepted? || attempt == maxAttempts - 1 || c.doneAfterFirst || !Retryable(reply) {
          return reply.Accepted?;
        }
        if c.doneWhileWaiting {
          return false;
        }
        attempt := attempt + 1;
      }
      return false;
    }

    method CompleteMonitoringJob(jobID: string, key: string, attempt: int, heldKeys: seq<string>, sending: Sending)
      returns (ok: bool)
      modifies this
      ensures sent == old(sent) + if sending.Sent? then [Complete(jobID, key, attempt, heldKeys, true)] else []
      ensures ok == sending.Succeeds()
    {
      if sending.Unbuilt? {
        return false;
      }
      sent := sent + [Complete(jobID, key, attempt, heldKeys, true)];
      return sending.accepted;
    }

    method ReleaseMonitoringJob(jobID: string, attempt: int, reason: string, sending: Sending) returns (ok: bool)
      modifies this
      ensures sent == old(sent) + if sending.Sent? then [Release(jobID, attempt, reason, true)] else []
      ensures ok == sending.Succeeds()
    {
      if sending.Unbuilt? {
        return false;
      }
      sent := sent + [Release(jobID, attempt, reason, true)];
      return sending.accepted;
    }
  }

  method SetExecutionIdempotencyKey(execution: Execution, key: string)
    modifies execution.Payloads()
    ensures Stamped(execution, key)
  {
    if execution.response != null {
      execution.response.idempotencyKey := key;
    }
    if execution.ssl != null {
      execution.ssl.idempotencyKey := key;
    }
    if execution.domain != null {
      execution.domain.idempotencyKey := key;
    }
  }

  /** The keys the payload objects handed to the client hold. They are not serialised: what Core is sent is
      the header. */
  method KeysHeld(execution: Execution) returns (keys: seq<string>)
    ensures forall key | Stamped(execution, key) :: keys == Repeat(key, |execution.Outline().Kinds()|)
  {
    keys := [];
    if execution.response != null {
      keys := keys + [execution.response.idempotencyKey];
    }
    if execution.ssl != null {
      keys := keys + [execution.ssl.idempotencyKey];
    }
    if execution.domain != null {
      keys := keys + [execution.domain.idempotencyKey];
    }
  }

  ghost predicate Stamped(execution: Execution, key: string)
    reads execution.Payloads()
  {
    && (execution.response != null ==> execution.response.idempotencyKey == key)
    && (execution.ssl != null ==> execution.ssl.idempotencyKey == key)
    && (execution.domain != null ==> execution.domain.idempotencyKey == key)
  }

  lemma Associative(a: seq<Effect>, b: seq<Effect>, c: seq<Effect>)
    ensures a + b + c == a + (b + c)
  {
  }

  lemma {:induction false} PostsRecordNothing(t: Gauges, posts: seq<Effect>)
    requires forall e | e in posts :: e.Post?
    ensures RecordAll(t, posts) == t
  {
    if posts != [] {
      PostsRecordNothing(t, posts[..|posts| - 1]);
      assert posts[|posts| - 1] in posts;
    }
  }

  lemma {:induction false} PostsAreCalls(before: seq<Effect>, posts: seq<Effect>)
    requires forall e | e in posts :: e.Post?
    ensures Calls(before + posts) == Calls(before) + posts
  {
    if posts == [] {
      assert before + posts == before;
    } else {
      var init, last := posts[..|posts| - 1], posts[|posts| - 1];
      PostsAreCalls(before, init);
      assert last in posts;
      assert (before + posts)[..|before + posts| - 1] == before + init;
    }
  }

  /** Posts leave the telemetry alone and are all requests. */
  lemma OnlyPosts(t: Gauges, before: seq<Effect>, posts: seq<Effect>)
    requires forall e | e in posts :: e.Post?
    ensures RecordAll(t, before + posts) == RecordAll(t, before)
    ensures Calls(before + posts) == Calls(before) + posts
  {
    RecordAllConcat(t, before, posts);
    PostsRecordNothing(RecordAll(t, before), posts);
    PostsAreCalls(before, posts);
  }

  /** The handling of claimed jobs. `trace` is history: everything done so far, in order. Valid says
      that the telemetry and the requests sent are exactly what the trace says. */
  class MonitoringService {
    const telemetry: Telemetry
    const client: CoreClient
    ghost const base: Gauges
    ghost var trace: seq<Effect>

    ghost predicate Valid()
      reads this, telemetry, client
    {
      telemetry.View() == RecordAll(base, trace) && client.sent == Calls(trace)
    }

    constructor (telemetry: Telemetry, client: CoreClient)
      requires client.sent == []
      ensures Valid() && trace == []
      ensures this.telemetry == telemetry && this.client == client && base == telemetry.View()
    {
      this.telemetry, this.client, this.base, this.trace := telemetry, client, telemetry.View(), [];
    }

    /** Enters into the trace what was just done. */
    ghost method Note(e: Effect)
      requires telemetry.View() == Record(RecordAll(base, trace), e)
      requires client.sent == Calls(trace) + if IsCall(e) then [e] else []
      modifies this`trace
      ensures Valid() && trace == old(trace) + [e]
    {
      assert (trace + [e])[..|trace|] == trace;
      trace := trace + [e];
    }

    /** One payload, stamped and posted. */
    method PostResult(kind: Kind, payload: Payload, key: string, c: Callback)
      requires Valid()
      modifies this`trace, client, payload
      ensures Valid() && trace == old(trace) + Posts(kind, key, key, c)
      ensures payload.idempotencyKey == key
    {
      payload.idempotencyKey := key;
      var _ := client.PostCallbackJSON(kind, key, payload.idempotencyKey, c);
      OnlyPosts(base, trace, Posts(kind, key, key, c));
      trace := trace + Posts(kind, key, key, c);
    }

    method PostIfPresent(kind: Kind, payload: Payload?, key: string, w: World)
      requires Valid()
      modifies this`trace, client, payload
      ensures Valid() && trace == old(trace) + PostsIf(payload != null, kind, key, w)
      ensures payload != null ==> payload.idempotencyKey == key
    {
      if payload != null {
        PostResult(kind, payload, key, w.callback(kind));
      }
    }

    method PublishExecution(execution: Execution, keys: seq<string>, w: World)
      requires Valid()
      modifies this`trace, client, execution.Payloads()
      ensures Valid() && trace == old(trace) + PublishEffects(execution.Outline(), keys, w)
      ensures PublishKey(keys, w.generated).Some? ==> Stamped(execution, PublishKey(keys, w.generated).value)
    {
      if execution.Empty() {
        return;
      }
      var settled := PublishKey(keys, w.generated);
      if settled.None? {
        return;
      }
      PostResults(execution, settled.value, w);
    }

    method PostResults(execution: Execution, key: string, w: World)
      requires Valid()
      modifies this`trace, client, execution.Payloads()
      ensures Valid() && trace == old(trace) + PublishAll(execution.Outline(), key, w)
      ensures Stamped(execution, key)
    {
      ghost var before, shape := trace, execution.Outline();
      PostIfPresent(ResponseResult, execution.response, key, w);
      PostIfPresent(SSLResult, execution.ssl, key, w);
      PostIfPresent(DomainResult, execution.domain, key, w);
      ghost var response := PostsIf(shape.response.Some?, ResponseResult, key, w);
      ghost var ssl := PostsIf(shape.ssl.Some?, SSLResult, key, w);
      Associative(before, response, ssl);
      Associative(before, response + ssl, PostsIf(shape.domain.Some?, DomainResult, key, w));
    }

    method NoteLease(condition: bool, event: string)
      requires Valid()
      modifies this`trace, telemetry
      ensures Valid() && trace == old(trace) + Noted(condition, event)
    {
      if condition {
        telemetry.RecordLease(event);
        Note(RecordLease(event));
      }
    }

    /** The callbacks to the old endpoints, while both are in use. */
    method DualWrite(execution: Execution, key: string, w: World)
      requires Valid() && Idempotency.IsUUIDv4(key) && Stamped(execution, key)
      modifies this`trace, client, execution.Payloads()
      ensures Valid() && trace == old(trace) + DualWrites(execution.Outline(), key, w)
      ensures Stamped(execution, key)
    {
      if w.dualWrite {
        PublishExecution(execution, [key], w);
      }
    }

    method CompleteClaimedJob(job: ClaimedJob, execution: Execution, w: World) returns (completed: bool)
      requires Valid()
      modifies this`trace, telemetry, client, execution.Payloads()
      ensures Valid() && trace == old(trace) + CompleteEffects(job, execution.Outline(), w)
      ensures completed == CompletesClaim(job, w)
    {
      var key := Text.TrimSpace(job.idempotencyKey);
      if !Idempotency.IsUUIDv4(key) {
        return false;
      }
      completed := StampAndComplete(job, execution, key, w);
    }

    method StampAndComplete(job: ClaimedJob, execution: Execution, key: string, w: World) returns (completed: bool)
      requires Valid() && Idempotency.IsUUIDv4(key)
      modifies this`trace, telemetry, client, execution.Payloads()
      ensures Valid() && trace == old(trace) + KeyedEffects(job, execution.Outline(), key, w)
      ensures completed == w.completion.Succeeds()
    {
      Stamp(execution, key);
      completed := CompleteWithKey(job, execution, key, w);
    }

    method Stamp(execution: Execution, key: string)
      requires Valid()
      modifies execution.Payloads()
      ensures Valid() && Stamped(execution, key)
    {
      SetExecutionIdempotencyKey(execution, key);
    }

    method CompleteWithKey(job: ClaimedJob, execution: Execution, key: string, w: World) returns (completed: bool)
      requires Valid() && Idempotency.IsUUIDv4(key) && Stamped(execution, key)
      modifies this`trace, telemetry, client, execution.Payloads()
      ensures Valid() && trace == old(trace) + KeyedEffects(job, execution.Outline(), key, w)
      ensures completed == w.completion.Succeeds()
    {
      ghost var before, shape := trace, execution.Outline();
      DualWrite(execution, key, w);
      completed := SendCompletion(job, execution, key, w);
      Associative(before, DualWrites(shape, key, w), [Completion(job, shape, key, w)]);
      NoteLease(completed, "completed");
      Associative(before, DualWrites(shape, key, w) + [Completion(job, shape, key, w)], Noted(completed, "completed"));
    }

    method SendCompletion(job: ClaimedJob, execution: Execution, key: string, w: World) returns (completed: bool)
      requires Valid() && Stamped(execution, key)
      modifies this`trace, client
      ensures Valid() && completed == w.completion.Succeeds()
      ensures trace == old(trace) + [Completion(job, execution.Outline(), key, w)]
    {
      var keys := KeysHeld(execution);
      completed := client.CompleteMonitoringJob(job.id, key, job.attempt, keys, w.completion);
      Note(Complete(job.id, key, job.attempt, keys, w.completion.Sent?));
    }

    method ReleaseClaimedJob(job: ClaimedJob, reason: string, w: World)
      requires Valid()
      modifies this`trace, telemetry, client
      ensures Valid() && trace == old(trace) + ReleaseEffects(job, reason, w)
    {
      if Text.TrimSpace(job.id) == "" {
        return;
      }
      var ok := client.ReleaseMonitoringJob(job.id, job.attempt, reason, w.release);
      Note(Release(job.id, job.attempt, reason, w.release.Sent?));
      NoteLease(ok, "released");
    }

    method RecordTransition(from: Stage, to: Stage)
      requires Valid()
      modifies this`trace, telemetry
      ensures Valid() && trace == old(trace) + [RecordJobTransition(from, to)]
    {
      telemetry.RecordJobTransition(StageName(from), StageName(to));
      Note(RecordJobTransition(from, to));
    }

    method TransitionAndFinish(to: Stage, phase: string, outcome: string)
      requires Valid()
      modifies this`trace, telemetry
      ensures Valid() && trace == old(trace) + [RecordJobTransition(Running, to), FinishJob(phase, outcome)]
    {
      RecordTransition(Running, to);
      telemetry.FinishJobWithDuration(phase, outcome);
      Note(FinishJob(phase, outcome));
    }

    method Discard(job: ClaimedJob, phase: string, outcome: string, to: Stage, reason: string, w: World)
      requires Valid()
      modifies this`trace, telemetry, client
      ensures Valid() && trace == old(trace) + Discarded(job, phase, outcome, to, reason, w)
    {
      ghost var before := trace;
      telemetry.DropQueuedJob(phase, outcome);
      Note(DropQueuedJob(phase, outcome));
      RecordTransition(Queued, to);
      assert trace == before + [DropQueuedJob(phase, outcome), RecordJobTransition(Queued, to)];
      ReleaseClaimedJob(job, reason, w);
      Associative(before, [DropQueuedJob(phase, outcome), RecordJobTransition(Queued, to)],
                  ReleaseEffects(job, reason, w));
    }

    method GiveUp(job: ClaimedJob, phase: string, reason: string, w: World)
      requires Valid()
      modifies this`trace, telemetry, client
      ensures Valid() && trace == old(trace) + GivenUp(job, phase, reason, w)
    {
      ghost var before := trace;
      ReleaseClaimedJob(job, reason, w);
      TransitionAndFinish(Released, phase, "canceled");
      Associative(before, ReleaseEffects(job, reason, w),
                  [RecordJobTransition(Running, Released), FinishJob(phase, "canceled")]);
    }

    method Report(job: ClaimedJob, phase: string, execution: Execution, outcome: string, w: World)
      requires Valid()
      modifies this`trace, telemetry, client, execution.Payloads()
      ensures Valid() && trace == old(trace) + Reported(job, phase, execution.Outline(), outcome, w)
    {
      ghost var before, effects := trace, CompleteEffects(job, execution.Outline(), w);
      var completed := CompleteClaimedJob(job, execution, w);
      var to, result := Completed, outcome;
      if !completed {
        to, result := CompletionFailed, "completion_failed";
      }
      TransitionAndFinish(to, phase, result);
      Associative(before, effects, [RecordJobTransition(Running, to), FinishJob(phase, result)]);
    }

    /** The handling of one job. `execution` is what the executor returns when it is called. */
    method RunClaimedJob(job: ClaimedJob, execution: Execution, w: World)
      requires Valid() && execution.Outline() == w.shape
      modifies this`trace, telemetry, client, execution.Payloads()
      ensures Valid() && trace == old(trace) + JobScript(job, w)
    {
      var gate := PassGuards(job, w.now);
      match gate
      case TurnedAway(phase, outcome, to, reason) => Discard(job, phase, outcome, to, reason, w);
      case LetThrough(phase) => StartClaimedJob(job, phase, execution, w);
    }

    /** The three guards in front of the start. */
    method PassGuards(job: ClaimedJob, now: int) returns (gate: Gate)
      ensures gate == Guard(job, now)
    {
      var phase := Text.TrimSpace(job.phase);
      if !IsLeasePhase(phase) || !Supports(phase, job.monitoring.kind) {
        return TurnedAway(LeaseMetricPhase(job.phase), "released", Released, "unsupported monitoring job");
      }
      var reason := ValidateClaimedJob(job);
      if reason != "" {
        return TurnedAway(phase, "invalid", Invalid, reason);
      }
      if job.leaseExpiresAt.value <= now {
        return TurnedAway(phase, "released", Released, "lease expired before execution");
      }
      return LetThrough(phase);
    }

    method StartClaimedJob(job: ClaimedJob, phase: string, execution: Execution, w: World)
      requires Valid() && execution.Outline() == w.shape
      modifies this`trace, telemetry, client, execution.Payloads()
      ensures Valid() && trace == old(trace) + RunScript(job, phase, w)
    {
      ghost var before := trace;
      CountStart();
      ExecuteClaimedJob(job, phase, execution, w);
      Associative(before, STARTED, RestOfRun(job, phase, w));
    }

    method CountStart()
      requires Valid()
      modifies this`trace, telemetry
      ensures Valid() && trace == old(trace) + STARTED
    {
      telemetry.RecordLeaseWait();
      Note(RecordLeaseWait);
      telemetry.StartJob();
      Note(StartJob);
      RecordTransition(Queued, Running);
    }

    /** Past the start: the slot, the check, and how it ends. */
    method ExecuteClaimedJob(job: ClaimedJob, phase: string, execution: Execution, w: World)
      requires Valid() && execution.Outline() == w.shape
      modifies this`trace, telemetry, client, execution.Payloads()
      ensures Valid() && trace == old(trace) + RestOfRun(job, phase, w)
    {
      ghost var before := trace;
      if job.monitoring.maintenanceActive {
        var maintenance := MaintenanceExecution(job, phase);
        Report(job, phase, maintenance, "maintenance", w);
        return;
      }
      if w.slotDenied {
        GiveUp(job, phase, "execution canceled before start", w);
        NoteLease(w.leaseLost, "expired");
        Associative(before, GivenUp(job, phase, "execution canceled before start", w), Noted(w.leaseLost, "expired"));
        return;
      }
      TakeSlot(Text.TrimSpace(job.id));
      CloseClaimedJob(job, phase, execution, w);
      Associative(before, Slot(JobID(job)), AfterCheck(job, phase, w));
    }

    method MaintenanceExecution(job: ClaimedJob, phase: string) returns (maintenance: Execution)
      ensures maintenance.Outline() == MaintenanceShape(phase) && fresh(maintenance.Payloads())
    {
      maintenance := Execution(null, null, null);
      if phase != SSL {
        var payload := new Payload(job.monitoring.id, "unknown");
        maintenance := Execution(payload, null, null);
      }
    }

    /** The check itself, between taking a slot and giving it back. */
    method TakeSlot(check: string)
      requires Valid()
      modifies this`trace
      ensures Valid() && trace == old(trace) + Slot(check)
    {
      Note(AcquireSlot(check));
      Note(ReleaseSlot(check));
    }

    /** After the check: a canceled or lost job is released, any other is completed. */
    method CloseClaimedJob(job: ClaimedJob, phase: string, execution: Execution, w: World)
      requires Valid() && execution.Outline() == w.shape
      modifies this`trace, telemetry, client, execution.Payloads()
      ensures Valid() && trace == old(trace) + AfterCheck(job, phase, w)
    {
      if w.parentCanceled || w.leaseLost {
        var reason := "execution canceled";
        if w.leaseLost {
          reason := "lease renewal failed";
        }
        GiveUp(job, phase, reason, w);
        return;
      }
      Report(job, phase, execution, execution.Outline().Outcome(), w);
    }
  }

  // ---- What every handling keeps ----

  /** The requests that settle a claim. */
  predicate Settles(e: Effect) {
    e.Complete? || e.Release?
  }

  function Settlements(effects: seq<Effect>): nat {
    if effects == [] then 0 else (if Settles(effects[0]) then 1 else 0) + Settlements(effects[1..])
  }

  lemma {:induction false} SettlementsConcat(a: seq<Effect>, b: seq<Effect>)
    ensures Settlements(a + b) == Settlements(a) + Settlements(b)
  {
    if a == [] {
      assert a + b == b;
    } else {
      assert (a + b)[1..] == a[1..] + b;
      SettlementsConcat(a[1..], b);
    }
  }

  lemma {:induction false} NoSettlements(effects: seq<Effect>)
    requires forall e | e in effects :: !Settles(e)
    ensures Settlements(effects) == 0
  {
    if effects != [] {
      NoSettlements(effects[1..]);
    }
  }

  lemma DualWritesArePosts(shape: Shape, key: string, w: World)
    requires Idempotency.IsUUIDv4(key)
    ensures forall e | e in DualWrites(shape, key, w) :: e.Post? && e.header == key && e.heldKey == key
    ensures |DualWrites(shape, key, w)| <= 6
  {
  }

  lemma KeyedEffectsSettleOnce(job: ClaimedJob, shape: Shape, key: string, w: World)
    requires Idempotency.IsUUIDv4(key)
    ensures Settlements(KeyedEffects(job, shape, key, w)) == 1
  {
    DualWritesArePosts(shape, key, w);
    NoSettlements(DualWrites(shape, key, w));
    SettlementsConcat(DualWrites(shape, key, w), [Completion(job, shape, key, w)]);
    SettlementsConcat(DualWrites(shape, key, w) + [Completion(job, shape, key, w)],
                      Noted(w.completion.Succeeds(), "completed"));
    NoSettlements(Noted(w.completion.Succeeds(), "completed"));
  }

  lemma ReleaseSettles(job: ClaimedJob, reason: string, w: World)
    ensures Settlements(ReleaseEffects(job, reason, w)) == if JobID(job) == "" then 0 else 1
  {
    if JobID(job) != "" {
      SettlementsConcat([Release(job.id, job.attempt, reason, w.release.Sent?)],
                        Noted(w.release.Succeeds(), "released"));
      NoSettlements(Noted(w.release.Succeeds(), "released"));
    }
  }

  lemma GivenUpSettles(job: ClaimedJob, phase: string, reason: string, w: World)
    ensures Settlements(GivenUp(job, phase, reason, w)) == if JobID(job) == "" then 0 else 1
  {
    ReleaseSettles(job, reason, w);
    SettlementsConcat(ReleaseEffects(job, reason, w),
                      [RecordJobTransition(Running, Released), FinishJob(phase, "canceled")]);
    NoSettlements([RecordJobTransition(Running, Released), FinishJob(phase, "canceled")]);
  }

  lemma ReportedSettlesOnce(job: ClaimedJob, phase: string, shape: Shape, outcome: string, w: World)
    requires Idempotency.IsUUIDv4(ClaimKey(job))
    ensures Settlements(Reported(job, phase, shape, outcome, w)) == 1
  {
    var effects := CompleteEffects(job, shape, w);
    var tail := Reported(job, phase, shape, outcome, w)[|effects|..];
    KeyedEffectsSettleOnce(job, shape, ClaimKey(job), w);
    assert effects == KeyedEffects(job, shape, ClaimKey(job), w);
    assert Reported(job, phase, shape, outcome, w) == effects + tail;
    SettlementsConcat(effects, tail);
    NoSettlements(tail);
  }

  lemma RestOfRunSettlesOnce(job: ClaimedJob, phase: string, w: World)
    requires Idempotency.IsUUIDv4(ClaimKey(job)) && JobID(job) != ""
    ensures Settlements(RestOfRun(job, phase, w)) == 1
  {
    if job.monitoring.maintenanceActive {
      ReportedSettlesOnce(job, phase, MaintenanceShape(phase), "maintenance", w);
    } else if w.slotDenied {
      GivenUpSettles(job, phase, "execution canceled before start", w);
      SettlementsConcat(GivenUp(job, phase, "execution canceled before start", w), Noted(w.leaseLost, "expired"));
      NoSettlements(Noted(w.leaseLost, "expired"));
    } else {
      NoSettlements(Slot(JobID(job)));
      SettlementsConcat(Slot(JobID(job)), AfterCheck(job, phase, w));
      if w.parentCanceled || w.leaseLost {
        GivenUpSettles(job, phase, if w.leaseLost then "lease renewal failed" else "execution canceled", w);
      } else {
        ReportedSettlesOnce(job, phase, w.shape, w.shape.Outcome(), w);
      }
    }
  }

  predicate Supported(job: ClaimedJob) {
    IsLeasePhase(Text.TrimSpace(job.phase)) && Supports(Text.TrimSpace(job.phase), job.monitoring.kind)
  }

  /** What a job needs to be run: an ID, a target, an expiry, a first attempt or a later one, a version 4
      UUID as its key, and the settings of its kind. */
  predicate WellFormedJob(job: ClaimedJob) {
    var m := job.monitoring;
    && JobID(job) != "" && Text.TrimSpace(m.id) != "" && Text.TrimSpace(m.target) != ""
    && job.leaseExpiresAt.Some? && 1 <= job.attempt && Idempotency.IsUUIDv4(ClaimKey(job))
    && 0 <= m.timeout
    && (m.kind == "port" ==> 1 <= m.port <= 65535)
    && (m.kind == "dns_record" ==> Text.TrimSpace(m.dnsRecordType) != "" && m.dnsExpectedValues != [])
  }

  lemma ValidIffWellFormed(job: ClaimedJob)
    ensures ValidateClaimedJob(job) == "" <==> WellFormedJob(job)
  {
  }

  /** A job is let through exactly if it is supported, well formed and unexpired. */
  lemma LetThroughIff(job: ClaimedJob, now: int)
    ensures var gate := Guard(job, now);
            && (gate.LetThrough? <==> Supported(job) && WellFormedJob(job) && now < job.leaseExpiresAt.value)
            && (gate.LetThrough? ==> gate.phase == Text.TrimSpace(job.phase))
  {
    ValidIffWellFormed(job);
  }

  /** One that is turned away is invalid exactly if it is supported and not well formed, and released
      otherwise: because it is not supported, or because it has expired. It is counted under its phase, or
      as unknown if that is none. */
  lemma TurnedAwayAs(job: ClaimedJob, now: int)
    requires Guard(job, now).TurnedAway?
    ensures var gate := Guard(job, now);
            && gate.to == (if Supported(job) && !WellFormedJob(job) then Invalid else Released)
            && gate.outcome == (if gate.to == Invalid then "invalid" else "released")
            && gate.metricPhase
               == (if IsLeasePhase(Text.TrimSpace(job.phase)) then Text.TrimSpace(job.phase) else "unknown")
  {
    ValidIffWellFormed(job);
  }

  lemma LetThroughIsValid(job: ClaimedJob, now: int)
    ensures Guard(job, now).LetThrough? ==>
              && ValidateClaimedJob(job) == "" && JobID(job) != "" && Idempotency.IsUUIDv4(ClaimKey(job))
              && job.leaseExpiresAt.Some? && now < job.leaseExpiresAt.value && 1 <= job.attempt
  {
  }

  /** Whatever the environment does, a claim is settled exactly once, by a completion attempt or by a
      release attempt; only a job with a blank ID is not settled at all. So a failed completion is never
      followed by a release. */
  lemma SettledExactlyOnce(job: ClaimedJob, w: World)
    ensures Settlements(JobScript(job, w)) == if JobID(job) == "" then 0 else 1
  {
    var gate := Guard(job, w.now);
    if gate.LetThrough? {
      LetThroughIsValid(job, w.now);
      RestOfRunSettlesOnce(job, gate.phase, w);
      SettlementsConcat(STARTED, RestOfRun(job, gate.phase, w));
      NoSettlements(STARTED);
    } else {
      var head := [DropQueuedJob(gate.metricPhase, gate.outcome), RecordJobTransition(Queued, gate.to)];
      ReleaseSettles(job, gate.reason, w);
      SettlementsConcat(head, ReleaseEffects(job, gate.reason, w));
      NoSettlements(head);
    }
  }

  /** The job gets as far as reporting a result. */
  predicate Reports(job: ClaimedJob, w: World) {
    Guard(job, w.now).LetThrough?
      && (job.monitoring.maintenanceActive || !(w.slotDenied || w.parentCanceled || w.leaseLost))
  }

  /** Everything sent for a claim carries the claim. */
  predicate CarriesClaim(job: ClaimedJob, e: Effect) {
    match e
    case Complete(jobID, key, attempt, heldKeys, _) =>
      && jobID == job.id && attempt == job.attempt && key == ClaimKey(job) && Idempotency.IsUUIDv4(key)
      && forall k | k in heldKeys :: k == key
    case Post(_, header, heldKey) => header == heldKey == ClaimKey(job) && Idempotency.IsUUIDv4(header)
    case Release(jobID, attempt, _, _) => jobID == job.id && attempt == job.attempt
    case _ => true
  }

  lemma ReportedCarriesClaim(job: ClaimedJob, phase: string, shape: Shape, outcome: string, w: World, e: Effect)
    requires Idempotency.IsUUIDv4(ClaimKey(job)) && e in Reported(job, phase, shape, outcome, w)
    ensures CarriesClaim(job, e) && !e.Release?
  {
    DualWritesArePosts(shape, ClaimKey(job), w);
    if e in DualWrites(shape, ClaimKey(job), w) {
      assert e.Post?;
    }
  }

  lemma GivenUpCarriesClaim(job: ClaimedJob, phase: string, reason: string, w: World, e: Effect)
    requires e in GivenUp(job, phase, reason, w)
    ensures CarriesClaim(job, e) && !e.Complete? && !e.Post?
  {
  }

  lemma RestCarriesClaim(job: ClaimedJob, phase: string, w: World, e: Effect)
    requires Idempotency.IsUUIDv4(ClaimKey(job)) && e in RestOfRun(job, phase, w)
    ensures CarriesClaim(job, e)
    ensures e.Complete? || e.Post? ==>
              job.monitoring.maintenanceActive || !(w.slotDenied || w.parentCanceled || w.leaseLost)
  {
    if job.monitoring.maintenanceActive {
      ReportedCarriesClaim(job, phase, MaintenanceShape(phase), "maintenance", w, e);
    } else if w.slotDenied {
      if e in GivenUp(job, phase, "execution canceled before start", w) {
        GivenUpCarriesClaim(job, phase, "execution canceled before start", w, e);
      }
    } else if e in AfterCheck(job, phase, w) {
      if w.parentCanceled || w.leaseLost {
        GivenUpCarriesClaim(job, phase, if w.leaseLost then "lease renewal failed" else "execution canceled", w, e);
      } else {
        ReportedCarriesClaim(job, phase, w.shape, w.shape.Outcome(), w, e);
      }
    }
  }

  /** Every completion and every callback, and every retry of one, is sent under the claim's own key, a
      version 4 UUID, which its payload objects hold too; completions and releases carry its ID and attempt;
      and a result is only sent for a job that passed its guards and was neither canceled nor lost. */
  lemma EverythingCarriesTheClaim(job: ClaimedJob, w: World, e: Effect)
    ensures e in JobScript(job, w) ==> CarriesClaim(job, e) && (e.Complete? || e.Post? ==> Reports(job, w))
  {
    var gate := Guard(job, w.now);
    if gate.LetThrough? {
      LetThroughIsValid(job, w.now);
      if e in RestOfRun(job, gate.phase, w) {
        RestCarriesClaim(job, gate.phase, w, e);
      }
    } else if e in ReleaseEffects(job, gate.reason, w) {
      assert e.Release? || e.RecordLease?;
    }
  }

  lemma PublishIgnoresGenerator(shape: Shape, key: string, w: World, generated: Option<string>)
    requires Idempotency.IsUUIDv4(key)
    ensures DualWrites(shape, key, w) == DualWrites(shape, key, w.(generated := generated))
  {
  }

  /** The fallback key generator is never asked, and the second key check never fails: what is done
      does not depend on what the generator would produce. */
  lemma GeneratorIsNeverAsked(job: ClaimedJob, w: World, generated: Option<string>)
    ensures JobScript(job, w.(generated := generated)) == JobScript(job, w)
    ensures Guard(job, w.now).LetThrough? ==> (CompletesClaim(job, w) <==> w.completion.Succeeds())
  {
    var gate, v := Guard(job, w.now), w.(generated := generated);
    if gate.LetThrough? {
      LetThroughIsValid(job, w.now);
      PublishIgnoresGenerator(MaintenanceShape(gate.phase), ClaimKey(job), w, generated);
      PublishIgnoresGenerator(w.shape, ClaimKey(job), w, generated);
      assert AfterCheck(job, gate.phase, v) == AfterCheck(job, gate.phase, w);
      assert RestOfRun(job, gate.phase, v) == RestOfRun(job, gate.phase, w);
    }
  }

  // ---- Which claims are completed, and which are checked ----

  predicate Completes(effects: seq<Effect>) {
    exists e :: e in effects && e.Complete?
  }

  lemma ReportedCompletes(job: ClaimedJob, phase: string, shape: Shape, outcome: string, w: World)
    requires Idempotency.IsUUIDv4(ClaimKey(job))
    ensures Completion(job, shape, ClaimKey(job), w) in Reported(job, phase, shape, outcome, w)
  {
    var completion := [Completion(job, shape, ClaimKey(job), w)];
    assert completion[0] in DualWrites(shape, ClaimKey(job), w) + completion;
    assert completion[0] in KeyedEffects(job, shape, ClaimKey(job), w);
  }

  /** The shape reported of a job. */
  function ReportedShape(job: ClaimedJob, w: World): Shape {
    if job.monitoring.maintenanceActive then MaintenanceShape(Text.TrimSpace(job.phase)) else w.shape
  }

  lemma ReportsCompletes(job: ClaimedJob, w: World)
    ensures Reports(job, w) ==> Completion(job, ReportedShape(job, w), ClaimKey(job), w) in JobScript(job, w)
  {
    var gate, completion := Guard(job, w.now), Completion(job, ReportedShape(job, w), ClaimKey(job), w);
    if Reports(job, w) {
      LetThroughIsValid(job, w.now);
      if job.monitoring.maintenanceActive {
        ReportedCompletes(job, gate.phase, MaintenanceShape(gate.phase), "maintenance", w);
      } else {
        ReportedCompletes(job, gate.phase, w.shape, w.shape.Outcome(), w);
        assert completion in Slot(JobID(job)) + AfterCheck(job, gate.phase, w);
      }
      assert completion in RestOfRun(job, gate.phase, w);
    }
  }

  /** A claim with an ID is completed, rather than released, exactly if it passed its guards and is under
      maintenance or got its slot and was neither canceled nor lost. */
  lemma CompletedIffReports(job: ClaimedJob, w: World)
    ensures Completes(JobScript(job, w)) <==> Reports(job, w)
  {
    if Reports(job, w) {
      ReportsCompletes(job, w);
    } else if e :| e in JobScript(job, w) && e.Complete? {
      EverythingCarriesTheClaim(job, w, e);
    }
  }

  predicate Releases(effects: seq<Effect>) {
    exists e :: e in effects && e.Release?
  }

  lemma {:induction false} SettledBySome(effects: seq<Effect>)
    requires 0 < Settlements(effects)
    ensures Completes(effects) || Releases(effects)
  {
    if Settles(effects[0]) {
      assert effects[0] in effects;
    } else {
      SettledBySome(effects[1..]);
      var e :| e in effects[1..] && Settles(e);
      assert e in effects;
    }
  }

  lemma {:induction false} SettledBy(effects: seq<Effect>, e: Effect)
    requires e in effects && Settles(e)
    ensures 1 <= Settlements(effects)
  {
    if e != effects[0] {
      SettledBy(effects[1..], e);
    }
  }

  lemma {:induction false} SettledByBoth(effects: seq<Effect>, a: Effect, b: Effect)
    requires a in effects && b in effects && a != b && Settles(a) && Settles(b)
    ensures 2 <= Settlements(effects)
  {
    if effects[0] == a {
      SettledBy(effects[1..], b);
    } else if effects[0] == b {
      SettledBy(effects[1..], a);
    } else {
      SettledByBoth(effects[1..], a, b);
    }
  }

  /** And it is released exactly if it has an ID and is not completed. */
  lemma ReleasedIffNotReports(job: ClaimedJob, w: World)
    ensures Releases(JobScript(job, w)) <==> JobID(job) != "" && !Reports(job, w)
  {
    var script := JobScript(job, w);
    SettledExactlyOnce(job, w);
    CompletedIffReports(job, w);
    if release :| release in script && release.Release? {
      SettledBy(script, release);
      if completion :| completion in script && completion.Complete? {
        SettledByBoth(script, completion, release);
      }
    } else if JobID(job) != "" {
      SettledBySome(script);
    }
  }

  lemma NoSlotIn(effects: seq<Effect>, check: string)
    requires forall e | e in effects :: !e.AcquireSlot?
    ensures AcquireSlot(check) !in effects
  {
  }

  lemma ReportedTakesNoSlot(job: ClaimedJob, phase: string, shape: Shape, outcome: string, w: World, check: string)
    ensures AcquireSlot(check) !in Reported(job, phase, shape, outcome, w)
  {
    if Idempotency.IsUUIDv4(ClaimKey(job)) {
      DualWritesArePosts(shape, ClaimKey(job), w);
      NoSlotIn(DualWrites(shape, ClaimKey(job), w), check);
      NoSlotIn(Noted(w.completion.Succeeds(), "completed"), check);
    }
    NoSlotIn(CompleteEffects(job, shape, w), check);
  }

  lemma GivenUpTakesNoSlot(job: ClaimedJob, phase: string, reason: string, w: World, check: string)
    ensures AcquireSlot(check) !in GivenUp(job, phase, reason, w) + Noted(w.leaseLost, "expired")
  {
  }

  lemma TurnedAwayTakesNoSlot(job: ClaimedJob, phase: string, outcome: string, to: Stage, reason: string, w: World,
                              check: string)
    ensures AcquireSlot(check) !in Discarded(job, phase, outcome, to, reason, w)
  {
  }

  /** A claim takes a slot exactly if it passed its guards, is not under maintenance, and was not canceled
      while it waited for one; so a job under maintenance takes none. */
  lemma SlotTakenIff(job: ClaimedJob, w: World)
    ensures AcquireSlot(JobID(job)) in JobScript(job, w)
       <==> Guard(job, w.now).LetThrough? && !job.monitoring.maintenanceActive && !w.slotDenied
  {
    var gate, check := Guard(job, w.now), JobID(job);
    match gate
    case TurnedAway(phase, outcome, to, reason) => TurnedAwayTakesNoSlot(job, phase, outcome, to, reason, w, check);
    case LetThrough(phase) =>
      NoSlotIn(STARTED, check);
      if job.monitoring.maintenanceActive {
        ReportedTakesNoSlot(job, phase, MaintenanceShape(phase), "maintenance", w, check);
      } else if w.slotDenied {
        GivenUpTakesNoSlot(job, phase, "execution canceled before start", w, check);
      } else {
        assert AcquireSlot(check) in Slot(check);
        assert AcquireSlot(check) in RestOfRun(job, phase, w);
      }
  }

  /** A certificate check under maintenance, with this key. */
  function UnderMaintenance(key: string): ClaimedJob {
    ClaimedJob("j", SSL, Some(1), 1, key, Monitoring("m", "http", "t", 0, 0, "", [], true))
  }

  lemma {:induction false} KeyIsSpaceless(key: string)
    requires Idempotency.IsUUIDv4(key)
    ensures Text.TrimSpace(key) == key
  {
    Idempotency.AcceptedIff(key, '4');
    forall c | c in key ensures !Text.IsSpace(c) {
      var i :| 0 <= i < |key| && key[i] == c;
    }
    Text.TrimSpacelessIsIdentity(key);
  }

  lemma SpacelessWords()
    ensures Text.TrimSpace(SSL) == SSL && Text.TrimSpace("j") == "j" && Text.TrimSpace("m") == "m"
           && Text.TrimSpace("t") == "t"
  {
    Text.TrimSpacelessIsIdentity(SSL);
    Text.TrimSpacelessIsIdentity("j");
    Text.TrimSpacelessIsIdentity("m");
    Text.TrimSpacelessIsIdentity("t");
  }

  /** Not every claimed job takes a slot: whatever the environment does before the lease is over, a job
      under maintenance is let through and takes none. */
  lemma MaintenanceTakesNoSlot(random: Idempotency.Bytes16, w: World)
    requires w.now < 1
    ensures var job := UnderMaintenance(Idempotency.FormatKey(Idempotency.Forced(random)));
            Guard(job, w.now).LetThrough? && AcquireSlot(JobID(job)) !in JobScript(job, w)
  {
    var key := Idempotency.FormatKey(Idempotency.Forced(random));
    var job := UnderMaintenance(key);
    Idempotency.KeyRoundTrip(random);
    KeyIsSpaceless(key);
    SpacelessWords();
    FindAt(EXECUTORS, SSL, "http", 5);
    LetThroughIff(job, w.now);
    SlotTakenIff(job, w);
  }

  // ---- What Core records ----

  /** The key a result is sent under, if it is sent. */
  function ResultKey(e: Effect): Option<string> {
    match e
    case Complete(_, key, _, _, built) => if built then Some(key) else None
    case Post(_, header, _) => Some(header)
    case _ => None
  }

  /** A Core that takes every request under one key for the same result: the first one is recorded, and
      later ones change nothing. */
  function Records(effects: seq<Effect>): map<string, Effect> {
    if effects == [] then map[]
    else
      var before, last := Records(effects[..|effects| - 1]), effects[|effects| - 1];
      var key := ResultKey(last);
      if key.None? || key.value in before then before else before[key.value := last]
  }

  /** What is recorded was sent, under that key; and everything sent has its key recorded. */
  lemma {:induction false} RecordsAreSent(effects: seq<Effect>)
    ensures forall key | key in Records(effects) ::
              Records(effects)[key] in effects && ResultKey(Records(effects)[key]) == Some(key)
    ensures forall e | e in effects && ResultKey(e).Some? :: ResultKey(e).value in Records(effects)
  {
    if effects != [] {
      var before, last := effects[..|effects| - 1], effects[|effects| - 1];
      RecordsAreSent(before);
      assert effects == before + [last];
    }
  }

  /** A record once made is never changed. */
  lemma {:induction false} RecordsStay(effects: seq<Effect>, more: seq<Effect>, key: string)
    requires key in Records(effects)
    ensures key in Records(effects + more) && Records(effects + more)[key] == Records(effects)[key]
  {
    if more == [] {
      assert effects + more == effects;
    } else {
      assert (effects + more)[..|effects + more| - 1] == effects + more[..|more| - 1];
      RecordsStay(effects, more[..|more| - 1], key);
    }
  }
}
