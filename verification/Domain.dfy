/** The rows of the business database, the pinned configuration and the time constants
    that every other module of the model shares. */
module Domain {

  datatype Option<+T> = None | Some(value: T)

  type Id = nat
  type Token = nat
  /** Go's resolution: nanoseconds. */
  type Time = int
  type Duration = int

  const SECOND: Duration := 1_000_000_000

  /** Lease of a claimed notification, `LeaseTTL`. */
  const LEASE_TTL: Duration := 60_000_000_000
  /** Lease of a claimed outbox row. */
  const PUBLISH_LEASE: Duration := 30_000_000_000
  /** Context of one `Worker.Process` call. */
  const PROCESS_TIMEOUT: Duration := 45_000_000_000
  /** Context of one turn of `Dispatcher.Run`. */
  const PUBLISH_TIMEOUT: Duration := 10_000_000_000
  /** Delay of a quota deferral. */
  const DEFER_DELAY: Duration := 5_000_000_000
  /** Delay before a released outbox row is available again. */
  const RELEASE_DELAY: Duration := 2_000_000_000
  /** Age at which a published trigger, or a due task, counts as stale. */
  const STALE_AFTER: Duration := 60_000_000_000

  /** A routing key: the dispatch queue, or the delay queue with the given time to live. */
  datatype Route = Dispatch | Delayed(ttl: Duration)

  datatype Status = Pending | InFlight | Delivered | Failed

  datatype Lease = Lease(token: Token, until: Time)

  /** A row of `notification_task`. */
  datatype Task = Task(
    id: Id,
    client: string,
    key: string,
    hash: nat,
    target: string,
    revision: nat,
    status: Status,
    attempts: nat,
    cycle: nat,
    generation: nat,
    next: Time,
    deadline: Time,
    lease: Option<Lease>)

  datatype Result = ResultStarted | ResultDecided(verdict: Verdict) | ResultUnknown

  /** A row of `delivery_attempt`; its key (notification, attempt number) is the map key. */
  datatype Attempt = Attempt(
    generation: nat,
    token: Token,
    started: Time,
    finished: Option<Time>,
    result: Result)

  datatype EventStatus = Waiting | Publishing | Published

  /** A row of `mq_outbox`; its auto-increment key is its position in the table. */
  datatype Event = Event(
    notification: Id,
    generation: nat,
    route: Route,
    available: Time,
    created: Time,
    status: EventStatus,
    lease: Option<Lease>,
    publishedAt: Option<Time>)

  datatype Verdict = Success | Retry | Fail

  /** The `Retry-After` header of a response after `TrimSpace`, `ParseInt` and `ParseTime`. */
  datatype RetryAfter = Absent | Seconds(seconds: int) | HttpDate(at: Time) | Unreadable

  datatype Decision = Decision(verdict: Verdict, reason: string, uncertain: bool, retryAfter: RetryAfter)

  /** The part of a pinned target that the protocol reads. */
  datatype Target = Target(retryEnabled: bool, idempotencyMode: string, uncertainRetry: Option<bool>)

  datatype RetryPolicy = RetryPolicy(delays: seq<Duration>, maxDuration: Duration, respectRetryAfter: bool)

  datatype Pinned = Pinned(target: Target, retry: RetryPolicy)

  /** Configuration history: (revision, target name) to the pinned target and its retry policy. */
  type Config = map<(nat, string), Pinned>

  function Min(a: int, b: int): int { if a <= b then a else b }

  function Max(a: int, b: int): int { if a >= b then a else b }
}
