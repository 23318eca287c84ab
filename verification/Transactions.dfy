/** Every SQL transaction of `internal/repository/business` as a guard (its WHERE clauses and unique
    keys) and a function from the database before to the database after. A transaction is atomic; the
    time it reads is a parameter. */
module Transactions {
  import opened Domain

  datatype Db = Db(tasks: map<Id, Task>, attempts: map<(Id, nat), Attempt>, outbox: seq<Event>)

  /** The row `insertEvent` writes. */
  function NewEvent(id: Id, generation: nat, route: Route, available: Time, now: Time): Event {
    Event(id, generation, route, available, now, Waiting, None, None)
  }

  // ---- Accept -------------------------------------------------------------------------------------

  /** The row that `Service.Accept` builds; `at` is the clock reading it stores in next and deadline. */
  function NewTask(id: Id, client: string, key: string, hash: nat, target: string, revision: nat,
                   at: Time, maxDuration: Duration): Task {
    Task(id, client, key, hash, target, revision, Pending, 0, 0, 1, at, at + maxDuration, None)
  }

  predicate SameKey(t: Task, client: string, key: string) { t.client == client && t.key == key }

  /** Neither the primary key nor the unique key (client, idempotency key) is taken. */
  predicate Insertable(db: Db, n: Task) {
    n.id !in db.tasks && forall id :: id in db.tasks ==> !SameKey(db.tasks[id], n.client, n.key)
  }

  function Accept(db: Db, now: Time, n: Task): Db {
    Db(db.tasks[n.id := n], db.attempts, db.outbox + [NewEvent(n.id, n.generation, Dispatch, n.next, now)])
  }

  // ---- Claim --------------------------------------------------------------------------------------

  predicate Claimable(db: Db, now: Time, id: Id, generation: nat) {
    && id in db.tasks
    && var t := db.tasks[id];
    && t.generation == generation && t.status == Pending && t.next <= now
    && (id, t.attempts + 1) !in db.attempts
  }

  function ClaimedRow(t: Task, now: Time, token: Token): Task {
    t.(status := InFlight, lease := Some(Lease(token, now + LEASE_TTL)), attempts := t.attempts + 1,
        cycle := t.cycle + 1)
  }

  function Claim(db: Db, now: Time, token: Token, id: Id): Db
    requires id in db.tasks
  {
    var n := ClaimedRow(db.tasks[id], now, token);
    Db(db.tasks[id := n], db.attempts[(id, n.attempts) := Attempt(n.generation, token, now, None, ResultStarted)],
        db.outbox)
  }

  // ---- Finish -------------------------------------------------------------------------------------

  predicate SameLease(t: Task, n: Task) {
    n.lease.Some? && t.lease.Some? && t.lease.value.token == n.lease.value.token
  }

  predicate Finishable(db: Db, now: Time, n: Task) {
    && n.id in db.tasks
    && var t := db.tasks[n.id];
    && t.generation == n.generation && SameLease(t, n) && t.status == InFlight && now < t.lease.value.until
  }

  function StatusAfter(v: Verdict): Status {
    match v case Success => Delivered case Retry => Pending case Fail => Failed
  }

  function FinishedRow(t: Task, n: Task, v: Verdict, next: Option<Time>): Task {
    t.(status := StatusAfter(v),
       generation := if v == Retry then n.generation + 1 else n.generation,
       next := if next.Some? then next.value else n.next,
       lease := None)
  }

  /** UPDATE delivery_attempt WHERE notification_id, attempt_no and lease_token match. */
  function CloseAttempt(attempts: map<(Id, nat), Attempt>, n: Task, now: Time, r: Result, onlyOpen: bool): map<(Id,
      nat), Attempt>
    requires n.lease.Some?
  {
    var k := (n.id, n.attempts);
    if k in attempts && attempts[k].token == n.lease.value.token && (onlyOpen ==> attempts[k].finished.None?)
    then attempts[k := attempts[k].(finished := Some(now), result := r)]
    else attempts
  }

  function Finish(db: Db, now: Time, n: Task, v: Verdict, next: Option<Time>, route: Route): Db
    requires Finishable(db, now, n)
  {
    var t := FinishedRow(db.tasks[n.id], n, v, next);
    Db(db.tasks[n.id := t],
       CloseAttempt(db.attempts, n, now, ResultDecided(v), false),
       if v == Retry then db.outbox + [NewEvent(n.id, t.generation, route, now, now)] else db.outbox)
  }

  // ---- DeferPending -------------------------------------------------------------------------------

  predicate Deferrable(db: Db, id: Id, generation: nat) {
    id in db.tasks && db.tasks[id].generation == generation && db.tasks[id].status == Pending
  }

  function Defer(db: Db, now: Time, id: Id, delay: Duration): Db
    requires id in db.tasks
  {
    var t := db.tasks[id];
    Db(db.tasks[id := t.(generation := t.generation + 1, next := now + delay)], db.attempts,
       db.outbox + [NewEvent(id, t.generation + 1, Dispatch, now + delay, now)])
  }

  // ---- RecoverLease -------------------------------------------------------------------------------

  predicate IsExpired(t: Task, now: Time) {
    t.status == InFlight && t.lease.Some? && t.lease.value.until < now
  }

  predicate Recoverable(db: Db, now: Time, n: Task) {
    && n.id in db.tasks
    && var t := db.tasks[n.id];
    && t.generation == n.generation && SameLease(t, n) && IsExpired(t, now)
  }

  function RecoveredRow(t: Task, n: Task, v: Verdict, next: Option<Time>): Task {
    t.(status := if v == Retry then Pending else Failed,
       generation := t.generation + 1,
       next := if next.Some? then next.value else n.next,
       lease := None)
  }

  function RecoverLease(db: Db, now: Time, n: Task, v: Verdict, next: Option<Time>, route: Route): Db
    requires Recoverable(db, now, n)
  {
    var t := RecoveredRow(db.tasks[n.id], n, v, next);
    Db(db.tasks[n.id := t],
       CloseAttempt(db.attempts, n, now, ResultUnknown, true),
       if v == Retry then db.outbox + [NewEvent(n.id, n.generation + 1, route, now, now)] else db.outbox)
  }

  /** A result of `Expired`: the first hundred expired rows in the order of their lease times. */
  ghost predicate ExpiredList(db: Db, now: Time, ns: seq<Task>) {
    && |ns| <= 100
    && (forall i :: 0 <= i < |ns| ==> ns[i].id in db.tasks && ns[i] == db.tasks[ns[i].id] && IsExpired(ns[i], now))
    && (forall i, j :: 0 <= i < j < |ns| ==> ns[i].id != ns[j].id && ns[i].lease.value.until <= ns[j].lease.value.until)
    && (forall id :: id in db.tasks && IsExpired(db.tasks[id], now)
                     && (forall i :: 0 <= i < |ns| ==> ns[i].id != id) ==>
          && |ns| == 100
          && forall i :: 0 <= i < |ns| ==> ns[i].lease.value.until <= db.tasks[id].lease.value.until)
  }

  // ---- Reconcile ----------------------------------------------------------------------------------

  /** The outbox row e keeps the task it triggers from being reconciled. */
  predicate LiveTrigger(e: Event, t: Task, now: Time) {
    && e.notification == t.id && e.generation == t.generation
    && (e.status == Waiting || e.status == Publishing || (e.publishedAt.Some?
        && e.publishedAt.value > now - STALE_AFTER))
  }

  predicate IsStale(db: Db, now: Time, id: Id) {
    && id in db.tasks
    && var t := db.tasks[id];
    && t.status == Pending && t.next < now - STALE_AFTER
    && forall i :: 0 <= i < |db.outbox| ==> !LiveTrigger(db.outbox[i], t, now)
  }

  /** A result of the SELECT in `Reconcile`: the first hundred stale tasks by next time, leaving out
      those that another transaction has locked. */
  ghost predicate StaleList(db: Db, now: Time, ids: seq<Id>, locked: set<Id>) {
    && |ids| <= 100
    && (forall i :: 0 <= i < |ids| ==> ids[i] !in locked && IsStale(db, now, ids[i]))
    && (forall i, j :: 0 <= i < j < |ids| ==> ids[i] != ids[j] && db.tasks[ids[i]].next <= db.tasks[ids[j]].next)
    && (forall id :: id in db.tasks && id !in locked && IsStale(db, now, id) && id !in ids ==>
          && |ids| == 100
          && forall i :: 0 <= i < |ids| ==> db.tasks[ids[i]].next <= db.tasks[id].next)
  }

  function ReconcileOne(db: Db, now: Time, id: Id): Db
    requires id in db.tasks
  {
    var t := db.tasks[id];
    Db(db.tasks[id := t.(generation := t.generation + 1)], db.attempts,
       db.outbox + [NewEvent(id, t.generation + 1, Dispatch, now, now)])
  }

  function Reconcile(db: Db, now: Time, ids: seq<Id>): (r: Db)
    requires forall i :: 0 <= i < |ids| ==> ids[i] in db.tasks
    ensures r.tasks.Keys == db.tasks.Keys
    decreases |ids|
  {
    if ids == [] then db
    else
      var d := ReconcileOne(db, now, ids[0]);
      assert forall i :: 0 <= i < |ids[1..]| ==> ids[1..][i] == ids[i + 1];
      Reconcile(d, now, ids[1..])
  }

  // ---- ManualRetry --------------------------------------------------------------------------------

  predicate Retriable(db: Db, id: Id, client: string, generation: nat) {
    && id in db.tasks
    && var t := db.tasks[id];
    && t.client == client && t.status == Failed && t.generation == generation
  }

  function ManualRetry(db: Db, now: Time, id: Id, maxDuration: Duration): Db
    requires id in db.tasks
  {
    var t := db.tasks[id];
    Db(db.tasks[id := t.(status := Pending, generation := t.generation + 1, cycle := 0, next := now,
        deadline := now + maxDuration)],
       db.attempts, db.outbox + [NewEvent(id, t.generation + 1, Dispatch, now, now)])
  }

  // ---- Outbox -------------------------------------------------------------------------------------

  predicate IsReady(e: Event, now: Time) { e.status == Waiting && e.available <= now }

  /** Row r comes first in the order (available_at, id) among the ready rows that are not locked. */
  ghost predicate FirstReady(outbox: seq<Event>, now: Time, r: nat, locked: set<nat>) {
    && r < |outbox| && r !in locked && IsReady(outbox[r], now)
    && forall i :: 0 <= i < |outbox| && i !in locked && IsReady(outbox[i], now) ==>
         outbox[r].available < outbox[i].available || (outbox[r].available == outbox[i].available && r <= i)
  }

  function ClaimedEvent(e: Event, now: Time, token: Token): Event {
    e.(status := Publishing, lease := Some(Lease(token, now + PUBLISH_LEASE)))
  }

  predicate HoldsRow(e: Event, token: Token) {
    e.status == Publishing && e.lease.Some? && e.lease.value.token == token
  }

  /** The WHERE clause of `Published`. */
  predicate Confirmable(e: Event, now: Time, token: Token) {
    HoldsRow(e, token) && now < e.lease.value.until
  }

  function PublishedEvent(e: Event, now: Time): Event {
    e.(status := Published, publishedAt := Some(now), lease := None)
  }

  function ReleasedEvent(e: Event, now: Time): Event {
    e.(status := Waiting, available := now + RELEASE_DELAY, lease := None)
  }

  predicate IsAbandoned(e: Event, now: Time) {
    e.status == Publishing && e.lease.Some? && e.lease.value.until < now
  }

  function ResetEvent(e: Event): Event { e.(status := Waiting, lease := None) }

  /** A choice of `UPDATE ... LIMIT 1000`: abandoned rows, all of them unless there are more. */
  ghost predicate AbandonedRows(outbox: seq<Event>, now: Time, rows: set<nat>) {
    && (forall r :: r in rows ==> r < |outbox| && IsAbandoned(outbox[r], now))
    && |rows| <= 1000
    && (|rows| < 1000 ==> forall i :: 0 <= i < |outbox| && IsAbandoned(outbox[i], now) ==> i in rows)
  }

  function ResetRows(outbox: seq<Event>, rows: set<nat>): (r: seq<Event>)
    ensures |r| == |outbox|
    ensures forall i :: 0 <= i < |outbox| ==> r[i] == if i in rows then ResetEvent(outbox[i]) else outbox[i]
  {
    seq(|outbox|, i requires 0 <= i < |outbox| => if i in rows then ResetEvent(outbox[i]) else outbox[i])
  }
}
