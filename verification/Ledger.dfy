/** The two ledgers the tables keep: attempts per task and outbox rows per generation. Each lemma
    takes one kind of change to a task row and shows that the ledgers stay balanced. */
module Ledger {
  import opened Domain
  import opened RetrySchedule
  import opened Transactions

  /** What happened to a task so far; none of it is stored in the tables. `defers` counts the quota
      deferrals of the current retry cycle. */
  datatype History = History(manualRetries: nat, failedRecoveries: nat, defers: nat, lastReconcile: Option<Time>)

  const NO_HISTORY := History(0, 0, 0, None)

  // ---- attempts -----------------------------------------------------------------------------------

  /** Attempt k of task t: it is unfinished exactly when it is the attempt in flight, and then it
      carries the lease of the task. */
  ghost predicate AttemptOk(t: Task, k: nat, a: Attempt) {
    && a.generation <= t.generation
    && (a.finished.None? <==> t.status == InFlight && k == t.attempts)
    && (t.status == Pending || (t.status == InFlight && k < t.attempts) ==> a.generation < t.generation)
    && (t.status == InFlight && k == t.attempts ==>
          a.generation == t.generation && t.lease.Some? && a.token == t.lease.value.token)
  }

  ghost predicate TaskAttempts(t: Task, attempts: map<(Id, nat), Attempt>) {
    && (forall k: nat :: (t.id, k) in attempts <==> 1 <= k <= t.attempts)
    && (forall k: nat :: (t.id, k) in attempts ==> AttemptOk(t, k, attempts[(t.id, k)]))
    && (forall i: nat, j: nat :: (t.id, i) in attempts && (t.id, j) in attempts && i < j ==>
          attempts[(t.id, i)].generation < attempts[(t.id, j)].generation)
  }

  ghost predicate AttemptLedger(tasks: map<Id, Task>, attempts: map<(Id, nat), Attempt>) {
    && (forall id :: id in tasks ==> tasks[id].id == id && TaskAttempts(tasks[id], attempts))
    && (forall x :: x in attempts ==> x.0 in tasks)
    && (forall x, y :: x in attempts && y in attempts && attempts[x].token == attempts[y].token ==> x == y)
  }

  lemma AttemptsAfterInsert(tasks: map<Id, Task>, attempts: map<(Id, nat), Attempt>, n: Task)
    requires AttemptLedger(tasks, attempts) && n.id !in tasks && n.attempts == 0
    ensures AttemptLedger(tasks[n.id := n], attempts)
  {
  }

  lemma AttemptsAfterClaim(tasks: map<Id, Task>, attempts: map<(Id, nat), Attempt>, id: Id, now: Time, token: Token)
    requires AttemptLedger(tasks, attempts) && id in tasks && tasks[id].status == Pending
    requires forall x :: x in attempts ==> attempts[x].token != token
    ensures var n := ClaimedRow(tasks[id], now, token);
            AttemptLedger(tasks[id := n], attempts[(id, n.attempts) := Attempt(n.generation, token, now, None,
                ResultStarted)])
  {
    var n := ClaimedRow(tasks[id], now, token);
    var attempts' := attempts[(id, n.attempts) := Attempt(n.generation, token, now, None, ResultStarted)];
    assert TaskAttempts(tasks[id], attempts);
    assert TaskAttempts(n, attempts');
    forall o | o in tasks && o != id ensures TaskAttempts(tasks[o], attempts') {
      SameAttempts(tasks[o], attempts, attempts');
    }
  }

  lemma SameAttempts(t: Task, attempts: map<(Id, nat), Attempt>, attempts': map<(Id, nat), Attempt>)
    requires TaskAttempts(t, attempts)
    requires forall k: nat :: (t.id, k) in attempts <==> (t.id, k) in attempts'
    requires forall k: nat :: (t.id, k) in attempts ==> attempts[(t.id, k)] == attempts'[(t.id, k)]
    ensures TaskAttempts(t, attempts')
  {
  }

  /** The attempt in flight is closed, and no other attempt is touched. */
  lemma AttemptsAfterClose(tasks: map<Id, Task>, attempts: map<(Id, nat), Attempt>, id: Id, t: Task, now: Time,
      r: Result, onlyOpen: bool)
    requires AttemptLedger(tasks, attempts) && id in tasks
    requires tasks[id].status == InFlight && tasks[id].lease.Some? && 1 <= tasks[id].attempts
    requires t.id == id && t.attempts == tasks[id].attempts && t.status != InFlight
    requires tasks[id].generation <= t.generation && (t.status == Pending ==> tasks[id].generation < t.generation)
    ensures var k := (id, tasks[id].attempts);
            && k in attempts
            && CloseAttempt(attempts, tasks[id], now, r, onlyOpen)
                 == attempts[k := attempts[k].(finished := Some(now), result := r)]
    ensures AttemptLedger(tasks[id := t], CloseAttempt(attempts, tasks[id], now, r, onlyOpen))
  {
    var n := tasks[id];
    assert TaskAttempts(n, attempts);
    var attempts' := CloseAttempt(attempts, n, now, r, onlyOpen);
    assert AttemptOk(n, n.attempts, attempts[(id, n.attempts)]);
    assert TaskAttempts(t, attempts');
    forall o | o in tasks && o != id ensures TaskAttempts(tasks[o], attempts') {
      SameAttempts(tasks[o], attempts, attempts');
    }
  }

  /** A task that is not in flight moves to a later generation without a new attempt. */
  lemma AttemptsAfterMove(tasks: map<Id, Task>, attempts: map<(Id, nat), Attempt>, id: Id, t: Task)
    requires AttemptLedger(tasks, attempts) && id in tasks
    requires tasks[id].status != InFlight && t.status != InFlight
    requires t.id == id && t.attempts == tasks[id].attempts && tasks[id].generation < t.generation
    ensures AttemptLedger(tasks[id := t], attempts)
  {
    assert TaskAttempts(tasks[id], attempts);
    assert TaskAttempts(t, attempts);
  }

  // ---- outbox -------------------------------------------------------------------------------------

  /** Number of outbox rows of a task. */
  function RowsOf(outbox: seq<Event>, id: Id): nat {
    if outbox == [] then 0
    else RowsOf(outbox[..|outbox| - 1], id) + (if outbox[|outbox| - 1].notification == id then 1 else 0)
  }

  lemma RowsOfAppend(outbox: seq<Event>, e: Event, id: Id)
    ensures RowsOf(outbox + [e], id) == RowsOf(outbox, id) + (if e.notification == id then 1 else 0)
  {
    assert (outbox + [e])[..|outbox|] == outbox;
  }

  ghost predicate SameOwners(a: seq<Event>, b: seq<Event>) {
    |a| == |b| && forall i :: 0 <= i < |a| ==> a[i].notification == b[i].notification
  }

  lemma {:induction false} RowsOfSameOwners(a: seq<Event>, b: seq<Event>, id: Id)
    requires SameOwners(a, b)
    ensures RowsOf(a, id) == RowsOf(b, id)
    decreases |a|
  {
    if a != [] { RowsOfSameOwners(a[..|a| - 1], b[..|b| - 1], id); }
  }

  lemma {:induction false} NoRows(outbox: seq<Event>, id: Id)
    requires forall i :: 0 <= i < |outbox| ==> outbox[i].notification != id
    ensures RowsOf(outbox, id) == 0
    decreases |outbox|
  {
    if outbox != [] { NoRows(outbox[..|outbox| - 1], id); }
  }

  predicate Triggers(e: Event, id: Id, generation: nat) { e.notification == id && e.generation == generation }

  ghost predicate HasTrigger(outbox: seq<Event>, id: Id, generation: nat) {
    exists i :: 0 <= i < |outbox| && Triggers(outbox[i], id, generation)
  }

  ghost predicate EventOk(tasks: map<Id, Task>, e: Event) {
    && e.notification in tasks
    && 1 <= e.generation <= tasks[e.notification].generation
    && (e.status == Publishing <==> e.lease.Some?)
    && (e.status == Published <==> e.publishedAt.Some?)
    && ValidRoute(e.route)
  }

  ghost predicate TaskRows(t: Task, outbox: seq<Event>, h: History) {
    && RowsOf(outbox, t.id) + h.failedRecoveries == t.generation
    && (t.status == Pending ==> HasTrigger(outbox, t.id, t.generation))
  }

  ghost predicate OneRowPerGeneration(outbox: seq<Event>) {
    forall i, j | 0 <= i < |outbox| && 0 <= j < |outbox| ::
      Triggers(outbox[i], outbox[j].notification, outbox[j].generation) ==> i == j
  }

  ghost predicate OutboxLedger(tasks: map<Id, Task>, outbox: seq<Event>, hist: map<Id, History>) {
    && tasks.Keys == hist.Keys
    && (forall i :: 0 <= i < |outbox| ==> EventOk(tasks, outbox[i]))
    && OneRowPerGeneration(outbox)
    && (forall id :: id in tasks ==> tasks[id].id == id && TaskRows(tasks[id], outbox, hist[id]))
  }

  lemma TriggerKept(outbox: seq<Event>, outbox': seq<Event>, id: Id, generation: nat)
    requires HasTrigger(outbox, id, generation) && |outbox| <= |outbox'|
    requires forall i :: 0 <= i < |outbox| ==>
               outbox'[i].notification == outbox[i].notification && outbox'[i].generation == outbox[i].generation
    ensures HasTrigger(outbox', id, generation)
  {
    var i :| 0 <= i < |outbox| && Triggers(outbox[i], id, generation);
    assert Triggers(outbox'[i], id, generation);
  }

  lemma OneRowAfterAppend(tasks: map<Id, Task>, outbox: seq<Event>, e: Event)
    requires OneRowPerGeneration(outbox)
    requires forall i :: 0 <= i < |outbox| && outbox[i].notification == e.notification ==>
          outbox[i].generation < e.generation
    ensures OneRowPerGeneration(outbox + [e])
  {
    var outbox' := outbox + [e];
    forall i, j | 0 <= i < |outbox'| && 0 <= j < |outbox'|
        && Triggers(outbox'[i], outbox'[j].notification, outbox'[j].generation)
      ensures i == j
    {
      if i < |outbox| && j < |outbox| {
        assert Triggers(outbox[i], outbox[j].notification, outbox[j].generation);
      }
    }
  }

  lemma OthersAfterAppend(tasks: map<Id, Task>, outbox: seq<Event>, hist: map<Id, History>, e: Event, o: Id)
    requires OutboxLedger(tasks, outbox, hist) && o in tasks && o != e.notification
    ensures TaskRows(tasks[o], outbox + [e], hist[o])
  {
    assert tasks[o].id == o && TaskRows(tasks[o], outbox, hist[o]);
    RowsOfAppend(outbox, e, o);
    if tasks[o].status == Pending { TriggerKept(outbox, outbox + [e], o, tasks[o].generation); }
  }

  lemma OwnAfterAppend(tasks: map<Id, Task>, outbox: seq<Event>, hist: map<Id, History>, t: Task, h: History, e: Event)
    requires OutboxLedger(tasks, outbox, hist) && Triggers(e, t.id, t.generation)
    requires if t.id in tasks then t.generation == tasks[t.id].generation + 1
          && h.failedRecoveries == hist[t.id].failedRecoveries
             else t.generation == 1 && h.failedRecoveries == 0
    ensures TaskRows(t, outbox + [e], h)
  {
    assert forall i :: 0 <= i < |outbox| ==> EventOk(tasks, outbox[i]);
    RowsOfAppend(outbox, e, t.id);
    assert Triggers((outbox + [e])[|outbox|], t.id, t.generation);
    if t.id in tasks {
      assert tasks[t.id].id == t.id && TaskRows(tasks[t.id], outbox, hist[t.id]);
    } else {
      NoRows(outbox, t.id);
    }
  }

  /** A task enters its next generation together with the outbox row of that generation. */
  lemma OutboxAfterAppend(tasks: map<Id, Task>, outbox: seq<Event>, hist: map<Id, History>, id: Id, t: Task,
      h: History, route: Route, available: Time, now: Time)
    requires OutboxLedger(tasks, outbox, hist)
    requires t.id == id && ValidRoute(route)
    requires if id in tasks then t.generation == tasks[id].generation + 1
          && h.failedRecoveries == hist[id].failedRecoveries
             else t.generation == 1 && h.failedRecoveries == 0
    ensures OutboxLedger(tasks[id := t], outbox + [NewEvent(id, t.generation, route, available, now)], hist[id := h])
  {
    hide OneRowPerGeneration, TaskRows, ValidRoute;
    var e := NewEvent(id, t.generation, route, available, now);
    var outbox' := outbox + [e];
    forall i | 0 <= i < |outbox'| ensures EventOk(tasks[id := t], outbox'[i]) {
      if i < |outbox| { assert outbox'[i] == outbox[i] && EventOk(tasks, outbox[i]); }
    }
    forall i | 0 <= i < |outbox| && outbox[i].notification == id ensures outbox[i].generation < e.generation {
      assert EventOk(tasks, outbox[i]);
    }
    OneRowAfterAppend(tasks, outbox, e);
    OwnAfterAppend(tasks, outbox, hist, t, h, e);
    forall o | o in tasks && o != id
      ensures TaskRows(tasks[o], outbox', hist[o])
    {
      OthersAfterAppend(tasks, outbox, hist, e, o);
    }
  }

  /** A task changes without a new outbox row. */
  lemma OutboxAfterSame(tasks: map<Id, Task>, outbox: seq<Event>, hist: map<Id, History>, id: Id, t: Task, h: History)
    requires OutboxLedger(tasks, outbox, hist) && id in tasks
    requires t.id == id && t.status != Pending && tasks[id].generation <= t.generation
    requires t.generation - tasks[id].generation == h.failedRecoveries - hist[id].failedRecoveries
    ensures OutboxLedger(tasks[id := t], outbox, hist[id := h])
  {
    assert TaskRows(tasks[id], outbox, hist[id]);
    assert forall i :: 0 <= i < |outbox| ==> EventOk(tasks, outbox[i]);
  }

  /** e became e' without changing what it triggers. */
  ghost predicate SameTrigger(e: Event, e': Event) {
    e'.notification == e.notification && e'.generation == e.generation && e'.route == e.route && e'.created == e.created
  }

  lemma OutboxAfterRows(tasks: map<Id, Task>, outbox: seq<Event>, outbox': seq<Event>, hist: map<Id, History>)
    requires OutboxLedger(tasks, outbox, hist) && |outbox'| == |outbox|
    requires forall i :: 0 <= i < |outbox| ==> SameTrigger(outbox[i], outbox'[i]) && EventOk(tasks, outbox'[i])
    ensures OutboxLedger(tasks, outbox', hist)
  {
    forall id | id in tasks ensures TaskRows(tasks[id], outbox', hist[id]) {
      assert TaskRows(tasks[id], outbox, hist[id]);
      RowsOfSameOwners(outbox, outbox', id);
      if tasks[id].status == Pending { TriggerKept(outbox, outbox', id, tasks[id].generation); }
    }
    forall i, j | 0 <= i < |outbox'| && 0 <= j < |outbox'|
        && Triggers(outbox'[i], outbox'[j].notification, outbox'[j].generation)
      ensures i == j
    {
      assert SameTrigger(outbox[i], outbox'[i]) && SameTrigger(outbox[j], outbox'[j]);
      assert Triggers(outbox[i], outbox[j].notification, outbox[j].generation);
    }
  }
}
