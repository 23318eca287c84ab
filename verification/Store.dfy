/** `business.Store`: the tables as fields that each method updates statement by statement. Every method
    is proved against the transaction of the same name in `Transactions`. */
module Store {
  import opened Domain
  import opened Transactions
  import opened Selection

  datatype Error = StateError | ConflictError | NotFoundError | DuplicateError

  datatype Reply<+T> = Ok(value: T) | Err(error: Error)

  /** The rest of a batch is reconciled by its next row and then the rest of that. */
  lemma NextOfBatch(db: Db, now: Time, batch: seq<Id>, k: nat)
    requires k < |batch| && forall i :: 0 <= i < |batch| ==> batch[i] in db.tasks
    ensures Transactions.Reconcile(db, now, batch[k..]) == Transactions.Reconcile(ReconcileOne(db, now, batch[k]),
          now, batch[k + 1..])
  {
    assert batch[k..][0] == batch[k] && batch[k..][1..] == batch[k + 1..];
  }

  lemma StaleAreThere(db: Db, now: Time, ids: seq<Id>)
    requires StaleList(db, now, ids, {})
    ensures forall i :: 0 <= i < |ids| ==> ids[i] in db.tasks
  {
    forall i | 0 <= i < |ids| ensures ids[i] in db.tasks { assert IsStale(db, now, ids[i]); }
  }

  lemma NoMoreOfBatch(db: Db, now: Time, batch: seq<Id>)
    ensures Transactions.Reconcile(db, now, batch[|batch|..]) == db
  {
  }

  class Store {
    var tasks: map<Id, Task>
    var attempts: map<(Id, nat), Attempt>
    var outbox: seq<Event>

    function Contents(): Db reads this { Db(tasks, attempts, outbox) }

    ghost predicate Keyed() reads this { forall id :: id in tasks ==> tasks[id].id == id }

    constructor ()
      ensures Contents() == Db(map[], map[], [])
    {
      tasks, attempts, outbox := map[], map[], [];
    }

    method InsertEvent(id: Id, generation: nat, route: Route, available: Time, now: Time)
      modifies this`outbox
      ensures outbox == old(outbox) + [NewEvent(id, generation, route, available, now)]
    {
      outbox := outbox + [NewEvent(id, generation, route, available, now)];
    }

    method ByKey(client: string, key: string) returns (r: Reply<Task>)
      ensures r.Ok? ==> r.value in tasks.Values && SameKey(r.value, client, key)
      ensures r.Err? ==> r.error == NotFoundError && forall id :: id in tasks ==> !SameKey(tasks[id], client, key)
    {
      if exists id :: id in tasks && SameKey(tasks[id], client, key) {
        var id :| id in tasks && SameKey(tasks[id], client, key);
        r := Ok(tasks[id]);
      } else {
        r := Err(NotFoundError);
      }
    }

    /** Inserts the task with its first event, or answers with the row that already holds the key. */
    method Accept(n: Task, now: Time) returns (r: Reply<(Task, bool)>)
      modifies this
      ensures old(Insertable(Contents(), n)) ==>
            Contents() == Transactions.Accept(old(Contents()), now, n) && r == Ok((n, true))
      ensures !old(Insertable(Contents(), n)) ==> Contents() == old(Contents())
      ensures !old(Insertable(Contents(), n)) && r.Ok? ==>
                !r.value.1 && r.value.0 in tasks.Values && SameKey(r.value.0, n.client, n.key)
                    && r.value.0.hash == n.hash
      ensures !old(Insertable(Contents(), n)) && r == Err(ConflictError) ==>
                exists id :: id in tasks && SameKey(tasks[id], n.client, n.key) && tasks[id].hash != n.hash
      ensures !old(Insertable(Contents(), n)) && r.Err? && r != Err(ConflictError) ==>
                r == Err(NotFoundError) && n.id in tasks && forall id :: id in tasks ==>
                    !SameKey(tasks[id], n.client, n.key)
    {
      if n.id in tasks || exists id :: id in tasks && SameKey(tasks[id], n.client, n.key) {
        var found := ByKey(n.client, n.key);
        match found
        case Err(e) => return Err(e);
        case Ok(row) =>
          if row.hash != n.hash {
            assert exists id :: id in tasks && tasks[id] == row;
            return Err(ConflictError);
          }
          return Ok((row, false));
      }
      tasks := tasks[n.id := n];
      InsertEvent(n.id, n.generation, Dispatch, n.next, now);
      return Ok((n, true));
    }

    method Claim(id: Id, generation: nat, token: Token, now: Time) returns (r: Reply<Task>)
      modifies this
      ensures old(Claimable(Contents(), now, id, generation)) ==>
                Contents() == Transactions.Claim(old(Contents()), now, token, id) && r == Ok(tasks[id])
      ensures !old(Claimable(Contents(), now, id, generation)) ==> Contents() == old(Contents()) && r.Err?
    {
      var before := tasks;
      if id !in tasks || tasks[id].generation != generation || tasks[id].status != Pending || tasks[id].next > now {
        return Err(StateError);
      }
      var t := tasks[id];
      tasks := tasks[id := t.(status := InFlight, lease := Some(Lease(token, now + LEASE_TTL)),
                              attempts := t.attempts + 1, cycle := t.cycle + 1)];
      var n := tasks[id];
      if (id, n.attempts) in attempts {
        tasks := before;
        return Err(DuplicateError);
      }
      attempts := attempts[(id, n.attempts) := Attempt(n.generation, token, now, None, ResultStarted)];
      return Ok(n);
    }

    method UpdateAttempt(n: Task, now: Time, r: Result, onlyOpen: bool)
      requires n.lease.Some?
      modifies this`attempts
      ensures attempts == CloseAttempt(old(attempts), n, now, r, onlyOpen)
    {
      var k := (n.id, n.attempts);
      if k in attempts && attempts[k].token == n.lease.value.token && (!onlyOpen || attempts[k].finished.None?) {
        attempts := attempts[k := attempts[k].(finished := Some(now), result := r)];
      }
    }

    method Finish(n: Task, v: Verdict, next: Option<Time>, route: Route, now: Time) returns (r: Reply<()>)
      modifies this
      ensures old(Finishable(Contents(), now, n)) ==>
                Contents() == Transactions.Finish(old(Contents()), now, n, v, next, route) && r == Ok(())
      ensures !old(Finishable(Contents(), now, n)) ==> Contents() == old(Contents()) && r == Err(StateError)
    {
      var status, generation := Failed, n.generation;
      if v == Success {
        status := Delivered;
      } else if v == Retry {
        status, generation := Pending, generation + 1;
      }
      var at := if next.None? then n.next else next.value;
      if n.id !in tasks || tasks[n.id].generation != n.generation || !SameLease(tasks[n.id], n)
         || tasks[n.id].status != InFlight || tasks[n.id].lease.value.until <= now {
        return Err(StateError);
      }
      tasks := tasks[n.id := tasks[n.id].(status := status, generation := generation, next := at, lease := None)];
      UpdateAttempt(n, now, ResultDecided(v), false);
      if status == Pending { InsertEvent(n.id, generation, route, now, now); }
      return Ok(());
    }

    method DeferPending(id: Id, generation: nat, delay: Duration, now: Time) returns (r: Reply<()>)
      modifies this
      ensures old(Deferrable(Contents(), id, generation)) ==>
            Contents() == Defer(old(Contents()), now, id, delay) && r == Ok(())
      ensures !old(Deferrable(Contents(), id, generation)) ==> Contents() == old(Contents()) && r == Err(StateError)
    {
      var next := now + delay;
      if id !in tasks || tasks[id].generation != generation || tasks[id].status != Pending { return Err(StateError); }
      tasks := tasks[id := tasks[id].(generation := tasks[id].generation + 1, next := next)];
      InsertEvent(id, generation + 1, Dispatch, next, now);
      return Ok(());
    }

    /** SELECT of the expired leases ORDER BY lease_until LIMIT 100. */
    method Expired(now: Time) returns (ns: seq<Task>)
      requires Keyed()
      ensures ExpiredList(Contents(), now, ns)
    {
      hide ExpiredList, IsExpired;
      var ids := OrderByLimit(ExpiredIds(Contents(), now), LeaseEnds(Contents(), now), 100);
      FirstIsExpiredList(Contents(), now, ids);
      return RowsAt(Contents(), ids);
    }

    method RecoverLease(n: Task, v: Verdict, next: Option<Time>, route: Route, now: Time) returns (r: Reply<()>)
      modifies this
      ensures old(Recoverable(Contents(), now, n)) ==>
                Contents() == Transactions.RecoverLease(old(Contents()), now, n, v, next, route) && r == Ok(())
      ensures !old(Recoverable(Contents(), now, n)) ==> Contents() == old(Contents()) && r == Err(StateError)
    {
      var status := if v == Retry then Pending else Failed;
      var at := if next.None? then n.next else next.value;
      if n.id !in tasks || tasks[n.id].status != InFlight || tasks[n.id].generation != n.generation
         || !SameLease(tasks[n.id], n) || tasks[n.id].lease.value.until >= now {
        return Err(StateError);
      }
      var t := tasks[n.id];
      tasks := tasks[n.id := t.(status := status, generation := t.generation + 1, lease := None, next := at)];
      UpdateAttempt(n, now, ResultUnknown, true);
      if status == Pending { InsertEvent(n.id, n.generation + 1, route, now, now); }
      return Ok(());
    }

    /** UPDATE of the abandoned rows LIMIT 1000. */
    method RecoverOutbox(now: Time) returns (ghost rows: set<nat>)
      modifies this`outbox
      ensures AbandonedRows(old(outbox), now, rows) && outbox == ResetRows(old(outbox), rows)
    {
      rows := {};
      var i, count := 0, 0;
      while i < |outbox| && count < 1000
        invariant 0 <= i <= |outbox| == |old(outbox)| && count == |rows| <= 1000
        invariant forall r :: r in rows ==> r < i && IsAbandoned(old(outbox)[r], now)
        invariant forall r :: 0 <= r < i && IsAbandoned(old(outbox)[r], now) ==> r in rows
        invariant forall r :: 0 <= r < |outbox| ==>
              outbox[r] == if r in rows then ResetEvent(old(outbox)[r]) else old(outbox)[r]
      {
        if IsAbandoned(outbox[i], now) {
          outbox := outbox[i := ResetEvent(outbox[i])];
          rows := rows + {i};
          count := count + 1;
        }
        i := i + 1;
      }
      assert outbox == ResetRows(old(outbox), rows);
    }

    /** SELECT of the stale tasks ORDER BY next_attempt_at LIMIT 100. */
    method Stale(now: Time) returns (ids: seq<Id>)
      ensures StaleList(Contents(), now, ids, {})
    {
      ids := OrderByLimit(StaleIds(Contents(), now), NextTimes(Contents(), now), 100);
      FirstIsStaleList(Contents(), now, ids);
    }

    /** The body of the loop in `Reconcile`. */
    method ReconcileRow(id: Id, now: Time)
      requires id in tasks
      modifies this
      ensures Contents() == ReconcileOne(old(Contents()), now, id) && tasks.Keys == old(tasks.Keys)
    {
      var generation := tasks[id].generation + 1;
      tasks := tasks[id := tasks[id].(generation := generation)];
      InsertEvent(id, generation, Dispatch, now, now);
    }

    /** Every stale task of one batch gets the next generation and a trigger for it. */
    method Reconcile(now: Time) returns (count: nat, ghost ids: seq<Id>)
      modifies this
      ensures StaleList(old(Contents()), now, ids, {}) && count == |ids|
      ensures forall i :: 0 <= i < |ids| ==> ids[i] in old(tasks)
      ensures Contents() == Transactions.Reconcile(old(Contents()), now, ids)
    {
      var batch := Stale(now);
      ids := batch;
      ghost var start := Contents();
      StaleAreThere(start, now, batch);
      count := ReconcileRows(batch, now);
    }

    /** The loop in `Reconcile`. */
    method ReconcileRows(batch: seq<Id>, now: Time) returns (count: nat)
      requires forall i :: 0 <= i < |batch| ==> batch[i] in tasks
      modifies this
      ensures Contents() == Transactions.Reconcile(old(Contents()), now, batch) && count == |batch|
    {
      hide Transactions.Reconcile;
      ghost var start := Contents();
      assert batch[0..] == batch;
      var k := 0;
      while k < |batch|
        invariant 0 <= k <= |batch| && tasks.Keys == start.tasks.Keys
        invariant Transactions.Reconcile(Contents(), now, batch[k..]) == Transactions.Reconcile(start, now, batch)
      {
        NextOfBatch(Contents(), now, batch, k);
        ReconcileRow(batch[k], now);
        k := k + 1;
      }
      NoMoreOfBatch(Contents(), now, batch);
      return |batch|;
    }

    method ManualRetry(id: Id, client: string, generation: nat, duration: Duration, now: Time) returns (r: Reply<()>)
      modifies this
      ensures old(Retriable(Contents(), id, client, generation)) ==>
            Contents() == Transactions.ManualRetry(old(Contents()), now, id, duration) && r == Ok(())
      ensures !old(Retriable(Contents(), id, client, generation)) ==>
            Contents() == old(Contents()) && r == Err(StateError)
    {
      if id !in tasks || tasks[id].client != client || tasks[id].status != Failed
          || tasks[id].generation != generation {
        return Err(StateError);
      }
      tasks := tasks[id := tasks[id].(status := Pending, generation := tasks[id].generation + 1, cycle := 0,
                                      next := now, deadline := now + duration)];
      InsertEvent(id, generation + 1, Dispatch, now, now);
      return Ok(());
    }

    /** The first ready row in the order (available_at, id) is leased to the caller. */
    method ClaimOutbox(token: Token, now: Time) returns (row: Option<nat>)
      modifies this`outbox
      ensures row.None? ==> outbox == old(outbox) && forall i :: 0 <= i < |outbox| ==> !IsReady(outbox[i], now)
      ensures row.Some? ==>
                && FirstReady(old(outbox), now, row.value, {})
                && outbox == old(outbox)[row.value := ClaimedEvent(old(outbox)[row.value], now, token)]
    {
      row := None;
      var i := 0;
      while i < |outbox|
        invariant 0 <= i <= |outbox| && outbox == old(outbox)
        invariant row.None? ==> forall k :: 0 <= k < i ==> !IsReady(outbox[k], now)
        invariant row.Some? ==> row.value < i && FirstReady(outbox[..i], now, row.value, {})
      {
        if IsReady(outbox[i], now) && (row.None?
            || outbox[i].available < outbox[row.value].available) { row := Some(i); }
        assert outbox[..i + 1] == outbox[..i] + [outbox[i]];
        i := i + 1;
      }
      assert outbox[..i] == outbox;
      if row.Some? { outbox := outbox[row.value := ClaimedEvent(outbox[row.value], now, token)]; }
    }

    method Published(row: nat, token: Token, now: Time) returns (r: Reply<()>)
      modifies this`outbox
      ensures old(row < |outbox| && Confirmable(outbox[row], now, token)) ==>
                outbox == old(outbox)[row := PublishedEvent(old(outbox)[row], now)] && r == Ok(())
      ensures !old(row < |outbox| && Confirmable(outbox[row], now, token)) ==>
            outbox == old(outbox) && r == Err(StateError)
    {
      if row < |outbox| && HoldsRow(outbox[row], token) && now < outbox[row].lease.value.until {
        outbox := outbox[row := outbox[row].(status := EventStatus.Published, publishedAt := Some(now), lease := None)];
        return Ok(());
      }
      return Err(StateError);
    }

    method ReleaseOutbox(row: nat, token: Token, now: Time)
      modifies this`outbox
      ensures outbox == if old(row < |outbox| && HoldsRow(outbox[row], token))
                        then old(outbox)[row := ReleasedEvent(old(outbox)[row], now)] else old(outbox)
    {
      if row < |outbox| && HoldsRow(outbox[row], token) {
        outbox := outbox[row := outbox[row].(status := Waiting, available := now + RELEASE_DELAY, lease := None)];
      }
    }
  }
}
