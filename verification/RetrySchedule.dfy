/** The retry scheduler, `retry.Schedule`, and the table of delay buckets. */
module RetrySchedule {
  import opened Domain

  const BUCKETS: seq<Duration> :=
    [5 * SECOND, 30 * SECOND, 120 * SECOND, 600 * SECOND, 1_800 * SECOND, 7_200 * SECOND, 21_600 * SECOND]

  const BUCKET_NAMES: seq<string> := ["5s", "30s", "2m", "10m", "30m", "2h", "6h"]

  const MAX_RETRY_AFTER: int := 30 * 24 * 3600

  const INT64_MIN: int := -0x8000_0000_0000_0000
  const INT64_MAX: int := 0x7fff_ffff_ffff_ffff

  /** What the configuration validator admits as a retry policy. */
  ghost predicate ValidPolicy(p: RetryPolicy) {
    && 0 < p.maxDuration <= 30 * 24 * 3600 * SECOND
    && |p.delays| <= 100
    && forall i :: 0 <= i < |p.delays| ==> p.delays[i] in BUCKETS
  }

  /** Two's complement wrap-around of Go's int64. */
  function Wrap64(x: int): int {
    (x - INT64_MIN) % 0x1_0000_0000_0000_0000 + INT64_MIN
  }

  /** `Time.Sub` saturates instead of wrapping. */
  function Sub64(a: Time, b: Time): Duration {
    Max(INT64_MIN, Min(INT64_MAX, a - b))
  }

  function UncertainAllowed(t: Target): bool {
    if t.uncertainRetry.Some? then t.uncertainRetry.value else t.idempotencyMode == "supported"
  }

  /** `config.BucketRoute`: the routing key of a bucket, or the empty string. */
  function BucketRoute(d: Duration): string { BucketRouteFrom(d, 0) }

  function BucketRouteFrom(d: Duration, i: nat): string
    requires i <= |BUCKETS|
    decreases |BUCKETS| - i
  {
    if i == |BUCKETS| then ""
    else if d == BUCKETS[i] then "retry." + BUCKET_NAMES[i]
    else BucketRouteFrom(d, i + 1)
  }

  function RoutingKey(r: Route): string {
    match r case Dispatch => "dispatch" case Delayed(ttl) => BucketRoute(ttl)
  }

  /** Time a message spends in the queue that a routing key names. */
  function QueueTtl(r: Route): Duration {
    match r case Dispatch => 0 case Delayed(ttl) => ttl
  }

  ghost predicate ValidRoute(r: Route) { r.Delayed? ==> r.ttl in BUCKETS }

  /** The position of the first bucket that is at least d, counting from i. */
  function FirstBucket(d: Duration, i: nat): (k: nat)
    requires i <= |BUCKETS|
    ensures i <= k <= |BUCKETS|
    ensures k < |BUCKETS| ==> d <= BUCKETS[k]
    ensures forall j :: i <= j < k ==> BUCKETS[j] < d
    decreases |BUCKETS| - i
  {
    if i == |BUCKETS| || d <= BUCKETS[i] then i else FirstBucket(d, i + 1)
  }

  /** The least bucket that is at least d; 0 when there is none. */
  function BucketFor(d: Duration): Duration {
    var k := FirstBucket(d, 0);
    if k < |BUCKETS| then BUCKETS[k] else 0
  }

  /** The wait a response asks for on top of the policy delay, with Go's arithmetic.
      None: the header is above the accepted limit. */
  function Wait(p: RetryPolicy, now: Time, delay: Duration, r: RetryAfter): Option<Duration> {
    if !p.respectRetryAfter then Some(delay)
    else match r
      case Absent => Some(delay)
      case Unreadable => Some(delay)
      case Seconds(s) =>
        if s > MAX_RETRY_AFTER then None
        else if s > 0 then Some(Max(delay, Wrap64(s * SECOND)))
        else Some(delay)
      case HttpDate(at) => Some(Max(delay, Sub64(at, now)))
  }

  datatype Plan = Plan(decision: Decision, next: Option<Time>, route: Route)

  function Rejected(d: Decision, reason: string): Plan {
    Plan(d.(verdict := Fail, reason := reason), None, Dispatch)
  }

  /** The value that `Schedule` computes for a decision whose verdict is Retry. */
  function Schedule(now: Time, cycle: nat, deadline: Time, t: Target, p: RetryPolicy, d: Decision): Plan {
    if !t.retryEnabled then Rejected(d, "automatic_retry_disabled")
    else if d.uncertain && !UncertainAllowed(t) then Rejected(d, "uncertain_retry_disabled")
    else if !(1 <= cycle <= |p.delays|) then Rejected(d, "retry_exhausted")
    else
      var w := Wait(p, now, p.delays[cycle - 1], d.retryAfter);
      if w.None? then Rejected(d, "retry_after_exceeds_limit")
      else
        var b := BucketFor(w.value);
        if b == 0 then Rejected(d, "retry_after_exceeds_buckets")
        else if deadline <= now + b then Rejected(d, "retry_deadline_exceeded")
        else Plan(d, Some(now + b), Delayed(b))
  }

  /** The loop over the buckets inside `retry.Schedule`. */
  method ScanBuckets(delay: Duration) returns (bucket: Duration)
    ensures bucket == BucketFor(delay)
  {
    bucket := 0;
    var k := 0;
    while k < |BUCKETS|
      invariant 0 <= k <= |BUCKETS|
      invariant bucket == 0
      invariant FirstBucket(delay, 0) == FirstBucket(delay, k)
    {
      if BUCKETS[k] >= delay { bucket := BUCKETS[k]; break; }
      k := k + 1;
    }
  }

  /** The part of `retry.Schedule` that raises the delay to what the response asks for. */
  method RespectHeader(p: RetryPolicy, now: Time, policyDelay: Duration, r: RetryAfter) returns (wait: Option<Duration>)
    ensures wait == Wait(p, now, policyDelay, r)
  {
    var delay := policyDelay;
    if p.respectRetryAfter && r != Absent {
      match r
      case Seconds(s) =>
        if s > MAX_RETRY_AFTER { return None; }
        if s > 0 { delay := Max(delay, Wrap64(s * SECOND)); }
      case HttpDate(at) =>
        delay := Max(delay, Sub64(at, now));
      case _ =>
    }
    return Some(delay);
  }

  /** `retry.Schedule` as written: the delay is raised step by step and the buckets are scanned. */
  method ScheduleRetry(now: Time, cycle: nat, deadline: Time, t: Target, p: RetryPolicy, d: Decision)
    returns (plan: Plan)
    ensures plan == Schedule(now, cycle, deadline, t, p, d)
  {
    if !t.retryEnabled { return Rejected(d, "automatic_retry_disabled"); }
    if d.uncertain && !UncertainAllowed(t) { return Rejected(d, "uncertain_retry_disabled"); }
    var i := cycle - 1;
    if i < 0 || i >= |p.delays| { return Rejected(d, "retry_exhausted"); }
    var wait := RespectHeader(p, now, p.delays[i], d.retryAfter);
    if wait.None? { return Rejected(d, "retry_after_exceeds_limit"); }
    var bucket := ScanBuckets(wait.value);
    if bucket == 0 { return Rejected(d, "retry_after_exceeds_buckets"); }
    var next := now + bucket;
    if next >= deadline { return Rejected(d, "retry_deadline_exceeded"); }
    return Plan(d, Some(next), Delayed(bucket));
  }

  /** The wait in ideal arithmetic: the larger of the policy delay and what a respected header asks for. */
  ghost function AskedWait(p: RetryPolicy, now: Time, delay: Duration, r: RetryAfter): int {
    if p.respectRetryAfter && r.Seconds? then Max(delay, r.seconds * SECOND)
    else if p.respectRetryAfter && r.HttpDate? then Max(delay, r.at - now)
    else delay
  }

  /** b is the least bucket that is at least w. */
  ghost predicate LeastBucket(b: Duration, w: int) {
    b in BUCKETS && w <= b && forall c :: c in BUCKETS && w <= c ==> b <= c
  }

  /** A retry is granted for the bucket b: the only ways `Schedule` may leave the verdict alone. */
  ghost predicate Granted(now: Time, cycle: nat, deadline: Time, t: Target, p: RetryPolicy, d: Decision, b: Duration) {
    && t.retryEnabled
    && (d.uncertain ==> UncertainAllowed(t))
    && 1 <= cycle <= |p.delays|
    && LeastBucket(b, AskedWait(p, now, p.delays[cycle - 1], d.retryAfter))
    && now + b < deadline
  }

  lemma BucketsAscend(i: nat, j: nat)
    requires i <= j < |BUCKETS|
    ensures 0 < BUCKETS[i] <= BUCKETS[j] <= 21_600 * SECOND
  {
  }

  /** No int64 duration overflows: the seconds that pass the limit do not wrap, and with Go's arithmetic the
      wait is the ideal one, except where both are above every bucket. */
  lemma WaitIsIdeal(p: RetryPolicy, now: Time, delay: Duration, r: RetryAfter)
    requires delay in BUCKETS
    ensures r.Seconds? && 0 < r.seconds <= MAX_RETRY_AFTER ==> Wrap64(r.seconds * SECOND) == r.seconds * SECOND
    ensures var w := Wait(p, now, delay, r); var a := AskedWait(p, now, delay, r);
            && (w.None? ==> a > 21_600 * SECOND)
            && (w.Some? && a <= 21_600 * SECOND ==> w.value == a)
            && (w.Some? && a > 21_600 * SECOND ==> w.value > 21_600 * SECOND)
  {
    var i :| 0 <= i < |BUCKETS| && BUCKETS[i] == delay;
    BucketsAscend(i, i);
    if r.Seconds? && 0 < r.seconds <= MAX_RETRY_AFTER { InRangeIsExact(r.seconds * SECOND); }
  }

  lemma InRangeIsExact(x: int)
    requires INT64_MIN <= x <= INT64_MAX
    ensures Wrap64(x) == x
  {
  }

  lemma BucketForIsLeast(w: Duration)
    ensures BucketFor(w) != 0 <==> w <= 21_600 * SECOND
    ensures BucketFor(w) != 0 ==> LeastBucket(BucketFor(w), w) && 0 < BucketFor(w)
  {
    var k := FirstBucket(w, 0);
    assert BUCKETS[6] == 21_600 * SECOND;
    if k < |BUCKETS| {
      forall c | c in BUCKETS && w <= c ensures BUCKETS[k] <= c {
        var j :| 0 <= j < |BUCKETS| && BUCKETS[j] == c;
        BucketsAscend(k, j);
      }
      BucketsAscend(k, 6);
    }
  }

  lemma LeastBucketUnique(b: Duration, c: Duration, w: int)
    requires LeastBucket(b, w) && LeastBucket(c, w)
    ensures b == c
  {
  }

  lemma NoBucketAboveSixHours(b: Duration, w: int)
    requires LeastBucket(b, w)
    ensures w <= 21_600 * SECOND
  {
    var i :| 0 <= i < |BUCKETS| && BUCKETS[i] == b;
    BucketsAscend(i, 6);
  }

  /** With a validated policy the scheduler's bucket is the least one for the ideal wait. */
  lemma ScheduledBucket(p: RetryPolicy, now: Time, delay: Duration, r: RetryAfter, b: Duration)
    requires delay in BUCKETS
    ensures var w := Wait(p, now, delay, r);
            LeastBucket(b, AskedWait(p, now, delay, r)) <==> w.Some? && BucketFor(w.value) == b != 0
  {
    WaitIsIdeal(p, now, delay, r);
    var w := Wait(p, now, delay, r);
    var a := AskedWait(p, now, delay, r);
    if w.Some? { BucketForIsLeast(w.value); }
    if LeastBucket(b, a) {
      NoBucketAboveSixHours(b, a);
      LeastBucketUnique(b, BucketFor(w.value), a);
    }
  }

  lemma DelayIsBucket(p: RetryPolicy, cycle: nat)
    requires ValidPolicy(p) && 1 <= cycle <= |p.delays|
    ensures p.delays[cycle - 1] in BUCKETS
  {
  }

  /** `Schedule` is exact. It grants a retry with bucket b if and only if b is granted, and then the plan
      carries b as delay and as route, strictly before the deadline; otherwise it fails with no time. */
  lemma ScheduleExact(now: Time, cycle: nat, deadline: Time, t: Target, p: RetryPolicy, d: Decision, b: Duration)
    requires ValidPolicy(p) && d.verdict == Retry
    ensures var plan := Schedule(now, cycle, deadline, t, p, d);
            && (Granted(now, cycle, deadline, t, p, d, b)
                <==> plan.decision.verdict == Retry && plan.route == Delayed(b))
            && (Granted(now, cycle, deadline, t, p, d, b) ==> plan == Plan(d, Some(now + b), Delayed(b)))
            && (plan.decision.verdict != Retry ==> plan.decision.verdict == Fail && plan.next == None)
            && (plan.decision.verdict == Retry ==> plan.route.Delayed?)
  {
    hide LeastBucket, Wait, BucketFor, AskedWait, ValidPolicy, UncertainAllowed;
    if 1 <= cycle <= |p.delays| {
      DelayIsBucket(p, cycle);
      ScheduledBucket(p, now, p.delays[cycle - 1], d.retryAfter, b);
    }
  }

  /** What the protocol uses of `Schedule`, for every policy and not only for validated ones. */
  lemma ScheduleBounds(now: Time, cycle: nat, deadline: Time, t: Target, p: RetryPolicy, d: Decision)
    requires d.verdict == Retry
    ensures var plan := Schedule(now, cycle, deadline, t, p, d);
            if plan.decision.verdict == Retry then
              && 1 <= cycle <= |p.delays| && plan.next.Some? && plan.route.Delayed?
              && plan.route.ttl in BUCKETS && 0 < plan.route.ttl
              && plan.next.value == now + plan.route.ttl < deadline
            else plan.decision.verdict == Fail && plan.next == None && plan.route == Dispatch
  {
    if 1 <= cycle <= |p.delays| {
      var w := Wait(p, now, p.delays[cycle - 1], d.retryAfter);
      if w.Some? { BucketForIsLeast(w.value); }
    }
  }

  /** Valid routes are told apart by their routing keys, and none is the empty key. */
  lemma RoutingKeysDistinct(a: Route, b: Route)
    requires ValidRoute(a) && ValidRoute(b)
    ensures RoutingKey(a) == RoutingKey(b) ==> a == b
    ensures RoutingKey(a) != ""
  {
    if a.Delayed? {
      var i := KeyOfBucket(a.ttl);
      assert RoutingKey(a)[0] == 'r';
      if b.Delayed? {
        var j := KeyOfBucket(b.ttl);
        assert RoutingKey(a)[6..] == BUCKET_NAMES[i];
        assert RoutingKey(b)[6..] == BUCKET_NAMES[j];
        if i != j { NamesDistinct(i, j); }
      }
    } else if b.Delayed? {
      var j := KeyOfBucket(b.ttl);
      assert RoutingKey(b)[0] == 'r' && RoutingKey(a)[0] == 'd';
    }
  }

  lemma NamesDistinct(i: nat, j: nat)
    requires i < |BUCKETS| && j < |BUCKETS| && i != j
    ensures BUCKET_NAMES[i] != BUCKET_NAMES[j]
  {
    assert |"5s"| == 2 && |"2m"| == 2 && |"2h"| == 2 && |"6h"| == 2;
    assert |"30s"| == 3 && |"10m"| == 3 && |"30m"| == 3;
    assert "5s"[0] == '5' && "2m"[0] == '2' && "2h"[0] == '2' && "6h"[0] == '6';
    assert "2m"[1] == 'm' && "2h"[1] == 'h';
    assert "30s"[0] == '3' && "10m"[0] == '1' && "30m"[0] == '3';
    assert "30s"[2] == 's' && "30m"[2] == 'm';
  }

  lemma KeyOfBucket(d: Duration) returns (i: nat)
    requires d in BUCKETS
    ensures i < |BUCKETS| && BUCKETS[i] == d && BucketRoute(d) == "retry." + BUCKET_NAMES[i]
  {
    i :| 0 <= i < |BUCKETS| && BUCKETS[i] == d;
    BucketRouteScan(i, 0);
  }

  lemma {:induction false} BucketRouteScan(k: nat, i: nat)
    requires i <= k < |BUCKETS|
    ensures BucketRouteFrom(BUCKETS[k], i) == "retry." + BUCKET_NAMES[k]
    decreases k - i
  {
    if i < k {
      assert BUCKETS[i] != BUCKETS[k];
      BucketRouteScan(k, i + 1);
    }
  }
}
