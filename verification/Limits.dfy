/** The numbers that bound a run: the clamps of internal/config/config.go, the limits derived from them
    in internal/adapters/runner, and the checks internal/adapters/coreapi/client.go makes on a claim. */
module Limits {
  import opened Wrappers

  const MAX_QUEUE_WORKERS := 64
  const MAX_RUN_CONCURRENCY := 64
  const MAX_JOB_LEASE_BATCH := 256
  const MAX_CLAIM_BATCH_SIZE := 256

  function Min(a: int, b: int): int {
    if a < b then a else b
  }

  function Max(a: int, b: int): int {
    if a < b then b else a
  }

  function Distance(a: int, b: int): nat {
    if a < b then b - a else a - b
  }

  /** The value in the range that is nearest. */
  function Clamp(value: int, minimum: int, maximum: int): (clamped: int)
    ensures minimum <= maximum ==> minimum <= clamped <= maximum
    ensures minimum <= maximum ==>
              forall n | minimum <= n <= maximum && n != clamped :: Distance(clamped, value) < Distance(n, value)
  {
    Min(maximum, Max(minimum, value))
  }

  datatype Config = Config(queueDefaultWorkers: int, runMaxConcurrency: int, jobLeaseMaxBatch: int)

  /** The number of a range that is nearest to another. */
  predicate Nearest(n: int, value: int, least: int, most: int) {
    least <= n <= most && forall other | least <= other <= most :: Distance(n, value) <= Distance(other, value)
  }

  /** The three settings as the environment gives them; an absent one falls back on the workers. */
  function FromEnv(workers: int, concurrency: Option<int>, batch: Option<int>): (cfg: Config)
    ensures Nearest(cfg.queueDefaultWorkers, workers, 1, 64)
    ensures Nearest(cfg.runMaxConcurrency,
                    if concurrency.Some? then concurrency.value else cfg.queueDefaultWorkers, 1, 64)
    ensures Nearest(cfg.jobLeaseMaxBatch, if batch.Some? then batch.value else cfg.queueDefaultWorkers, 1, 256)
  {
    var queueWorkers := Clamp(workers, 1, MAX_QUEUE_WORKERS);
    Config(queueWorkers,
           Clamp(if concurrency.Some? then concurrency.value else queueWorkers, 1, MAX_RUN_CONCURRENCY),
           Clamp(if batch.Some? then batch.value else queueWorkers, 1, MAX_JOB_LEASE_BATCH))
  }

  /** A configuration allows one worker, or as many as the queue asks for, within the concurrency. */
  predicate WorkersAllowed(cfg: Config, n: int) {
    && (n <= 1 || n <= cfg.queueDefaultWorkers)
    && (0 < cfg.runMaxConcurrency ==> n <= cfg.runMaxConcurrency)
  }

  /** The most workers allowed. */
  function WorkerLimit(cfg: Config): (limit: int)
    ensures 1 <= limit
    ensures WorkersAllowed(cfg, limit) && forall n | WorkersAllowed(cfg, n) :: n <= limit
  {
    var workers := Max(1, cfg.queueDefaultWorkers);
    if 0 < cfg.runMaxConcurrency then Min(workers, cfg.runMaxConcurrency) else workers
  }

  /** A claim may ask for one job, or as many as the batch setting says, but not for more than there are
      workers. */
  predicate BatchAllowed(cfg: Config, n: int) {
    (n <= 1 || n <= cfg.jobLeaseMaxBatch) && WorkersAllowed(cfg, n)
  }

  /** The most jobs allowed. */
  function BatchSize(cfg: Config): (size: int)
    ensures BatchAllowed(cfg, size) && forall n | BatchAllowed(cfg, n) :: n <= size
  {
    Max(1, Min(Max(1, cfg.jobLeaseMaxBatch), WorkerLimit(cfg)))
  }

  /** The capacity of the limiter the execution controller makes for a run. */
  function LimiterCapacity(cfg: Config): int {
    if cfg.runMaxConcurrency < 1 then 1 else cfg.runMaxConcurrency
  }

  /** The checks the client makes on the numbers of a claim request. */
  predicate ClaimRequestAccepted(capacity: int, maxBatchSize: int) {
    1 <= capacity && 1 <= maxBatchSize <= MAX_CLAIM_BATCH_SIZE
  }

  /** Whatever the environment holds, the claim request meets the client's checks, and a batch is never
      larger than the workers, nor the workers more than the slots. */
  lemma ConfiguredLimits(workers: int, concurrency: Option<int>, batch: Option<int>)
    ensures var cfg := FromEnv(workers, concurrency, batch);
            && ClaimRequestAccepted(WorkerLimit(cfg), BatchSize(cfg))
            && 1 <= BatchSize(cfg) <= WorkerLimit(cfg) <= LimiterCapacity(cfg) <= 64
            && LimiterCapacity(cfg) == cfg.runMaxConcurrency
  {
  }
}
