/** `recovery.Loop.step` as it is written: one sweep over outbox, leases and stale tasks. */
module RecoveryLoop {
  import opened Domain
  import opened RetrySchedule
  import opened Transactions
  import opened Selection
  import Protocol
  import Store

  /** A row that a sweep left alone, or whose lease the sweep recovered. */
  ghost predicate Swept(t: Task, t': Task, now: Time) {
    || t' == t
    || (IsExpired(t, now) && t'.lease.None? && t'.generation == t.generation + 1 && t'.attempts == t.attempts
        && t'.id == t.id && (t'.status == Pending || t'.status == Failed))
  }

  /** The clock at successive readings never runs backwards. */
  ghost predicate Advances(clock: nat -> Time) { forall i, j :: i <= j ==> clock(i) <= clock(j) }

  class Loop {
    const store: Store.Store
    const config: Config
    var recovered: nat
    var reconciled: nat

    constructor (store: Store.Store, config: Config)
      ensures this.store == store && this.config == config && recovered == 0 && reconciled == 0
    {
      this.store, this.config, recovered, reconciled := store, config, 0, 0;
    }

    /** The part of `step` that recovers leases, with a clock that every transaction and every plan reads
        again. It fails only when the configuration history lacks the revision of an expired task; otherwise
        the number of leases that had expired when the loop began falls by min(100, count). */
    method RecoverLeases(clock: nat -> Time) returns (ok: bool, readings: nat)
      requires store.Keyed() && Advances(clock)
      modifies this, store
      ensures store.Keyed() && store.tasks.Keys == old(store.tasks.Keys)
      ensures forall id :: id in old(store.tasks) ==> Swept(old(store.tasks)[id], store.tasks[id], clock(0))
      ensures !ok ==> exists id :: id in store.tasks && !Protocol.Known(config, store.tasks[id])
      ensures ok ==> var before := |ExpiredIds(old(store.Contents()), clock(0))|;
                     && |ExpiredIds(store.Contents(), clock(0))| == before - Min(100, before)
                     && recovered == old(recovered) + Min(100, before)
      ensures reconciled == old(reconciled)
    {
      hide ExpiredIds, ExpiredList, Recoverable, RecoverLease, SweptSoFar, Swept;
      ghost var start, now := store.Contents(), clock(0);
      var ns := store.Expired(clock(0));
      NothingSweptYet(start, now, ns);
      var i := 0;
      while i < |ns|
        invariant 0 <= i <= |ns| && SweptSoFar(start, store.Contents(), now, ns, i)
        invariant recovered == old(recovered) + i && reconciled == old(reconciled)
      {
        var n := ns[i];
        NextToSweep(start, store.Contents(), now, ns, i, clock(2 * i + 2));
        if !Protocol.Known(config, n) {
          SweptResult(start, store.Contents(), now, ns, i);
          return false, 2 * i + 1;
        }
        var c := config[(n.revision, n.target)];
        var plan := ScheduleRetry(clock(2 * i + 1), n.cycle, n.deadline, c.target, c.retry, Protocol.LEASE_EXPIRED);
        ghost var before := store.Contents();
        var r := store.RecoverLease(n, plan.decision.verdict, plan.next, plan.route, clock(2 * i + 2));
        if r.Ok? { recovered := recovered + 1; }
        SweepOne(start, before, now, ns, i, clock(2 * i + 2), plan.decision.verdict, plan.next, plan.route);
        i := i + 1;
      }
      SweptResult(start, store.Contents(), now, ns, i);
      CountExpired(start, store.Contents(), now, ns);
      return true, 2 * |ns| + 1;
    }

    /** One sweep. The leases counted are those expired when the loop over them began, at the second reading
        of the clock; `end` is the reading of the reconciliation. */
    method Step(clock: nat -> Time) returns (ok: bool, ghost end: Time)
      requires store.Keyed() && Advances(clock)
      modifies this, store
      ensures store.Keyed() && store.tasks.Keys == old(store.tasks.Keys) && clock(1) <= end
      ensures !ok ==> exists id :: id in store.tasks && !Protocol.Known(config, store.tasks[id])
      ensures ok ==> var before := |ExpiredIds(old(store.Contents()), clock(1))|;
                     && |ExpiredIds(store.Contents(), clock(1))| == before - Min(100, before)
                     && recovered == old(recovered) + Min(100, before)
      ensures ok ==> old(reconciled) <= reconciled
      ensures ok ==> |StaleIds(store.Contents(), end)| == 0 || reconciled == old(reconciled) + 100
    {
      hide StaleList, AbandonedRows, ExpiredIds, StaleIds, IsStale, ResetRows, Swept, Reconciled;
      ghost var rows := store.RecoverOutbox(clock(0));
      SameTasks(old(store.Contents()), store.Contents(), clock(1));
      var later := (i: nat) => clock(i + 1);
      var readings;
      ok, readings := RecoverLeases(later);
      var now := clock(readings + 1);
      end := now;
      if !ok { return; }
      ghost var mid := store.Contents();
      var count, ids := store.Reconcile(now);
      reconciled := reconciled + count;
      DistinctStale(mid, now, ids);
      ReconcileRows(mid, now, ids);
      ReconciledKeys(mid, store.Contents(), now, ids);
      SameExpired(mid, store.Contents(), now, ids, clock(1));
      StaleAfter(mid, store.Contents(), now, ids);
      AllStaleListed(mid, now, ids);
      if |ids| < 100 { assert StaleIds(store.Contents(), now) == {}; }
    }
  }

  function FirstIds(ns: seq<Task>, i: nat): set<Id>
    requires i <= |ns|
  {
    set k | 0 <= k < i :: ns[k].id
  }

  /** The first i rows of the list have been recovered, and nothing else has changed. */
  ghost predicate SweptSoFar(a: Db, b: Db, now: Time, ns: seq<Task>, i: nat) {
    && i <= |ns| && b.tasks.Keys == a.tasks.Keys
    && (forall id :: id in a.tasks ==> b.tasks[id].id == id)
    && (forall id :: id in a.tasks && id !in FirstIds(ns, i) ==> b.tasks[id] == a.tasks[id])
    && (forall id :: id in FirstIds(ns, i) ==>
        id in a.tasks && b.tasks[id].lease.None? && Swept(a.tasks[id], b.tasks[id], now))
  }

  lemma NothingSweptYet(a: Db, now: Time, ns: seq<Task>)
    requires forall id :: id in a.tasks ==> a.tasks[id].id == id
    ensures SweptSoFar(a, a, now, ns, 0)
  {
  }

  lemma NextToSweep(a: Db, b: Db, now: Time, ns: seq<Task>, i: nat, later: Time)
    requires ExpiredList(a, now, ns) && SweptSoFar(a, b, now, ns, i) && i < |ns| && now <= later
    ensures ns[i].id in b.tasks && b.tasks[ns[i].id] == ns[i] && IsExpired(ns[i], now) && ns[i].id !in FirstIds(ns, i)
    ensures Recoverable(b, later, ns[i])
  {
  }

  lemma SweepOne(a: Db, b: Db, now: Time, ns: seq<Task>, i: nat, later: Time, v: Verdict, next: Option<Time>,
      route: Route)
    requires ExpiredList(a, now, ns) && SweptSoFar(a, b, now, ns, i) && i < |ns| && now <= later
          && Recoverable(b, later, ns[i])
    ensures SweptSoFar(a, RecoverLease(b, later, ns[i], v, next, route), now, ns, i + 1)
  {
    NextToSweep(a, b, now, ns, i, later);
    hide ExpiredList, SweptSoFar, Swept;
    RowSwept(a, b, RecoverLease(b, later, ns[i], v, next, route), now, ns, i,
        RecoveredRow(b.tasks[ns[i].id], ns[i], v, next));
  }

  lemma RowSwept(a: Db, b: Db, c: Db, now: Time, ns: seq<Task>, i: nat, t: Task)
    requires SweptSoFar(a, b, now, ns, i) && i < |ns| && ns[i].id !in FirstIds(ns, i)
    requires ns[i].id in a.tasks && b.tasks[ns[i].id] == ns[i] && IsExpired(ns[i], now)
    requires c.tasks == b.tasks[ns[i].id := t] && t.id == ns[i].id && t.lease.None?
    requires t.generation == ns[i].generation + 1 && t.attempts == ns[i].attempts
          && (t.status == Pending || t.status == Failed)
    ensures SweptSoFar(a, c, now, ns, i + 1)
  {
    OneMoreId(ns, i);
    hide FirstIds;
  }

  lemma OneMoreId(ns: seq<Task>, i: nat)
    requires i < |ns|
    ensures FirstIds(ns, i + 1) == FirstIds(ns, i) + {ns[i].id}
  {
  }

  lemma SweptResult(a: Db, b: Db, now: Time, ns: seq<Task>, i: nat)
    requires SweptSoFar(a, b, now, ns, i)
    ensures b.tasks.Keys == a.tasks.Keys && forall id :: id in a.tasks ==>
          b.tasks[id].id == id && Swept(a.tasks[id], b.tasks[id], now)
  {
  }

  /** The rows of the list are no longer expired; every other expired row still is. */
  lemma CountExpired(a: Db, b: Db, now: Time, ns: seq<Task>)
    requires ExpiredList(a, now, ns) && SweptSoFar(a, b, now, ns, |ns|)
    ensures var before := |ExpiredIds(a, now)|; |ns| == Min(100, before) && |ExpiredIds(b, now)| == before - |ns|
  {
    var done := FirstIds(ns, |ns|);
    DistinctIds(ns, |ns|);
    ListedIds(a, now, ns);
    hide ExpiredList, FirstIds, Swept;
    assert ExpiredIds(b, now) == ExpiredIds(a, now) - done;
    SubsetCount(done, ExpiredIds(a, now));
  }

  lemma ListedIds(a: Db, now: Time, ns: seq<Task>)
    requires ExpiredList(a, now, ns)
    ensures FirstIds(ns, |ns|) <= ExpiredIds(a, now)
    ensures |ns| < 100 ==> FirstIds(ns, |ns|) == ExpiredIds(a, now)
  {
    if |ns| < 100 {
      forall id | id in ExpiredIds(a, now) ensures id in FirstIds(ns, |ns|) {
        if forall i :: 0 <= i < |ns| ==> ns[i].id != id { assert false; }
      }
    }
  }

  lemma {:induction false} DistinctIds(ns: seq<Task>, i: nat)
    requires i <= |ns| && forall j, k :: 0 <= j < k < |ns| ==> ns[j].id != ns[k].id
    ensures |FirstIds(ns, i)| == i
    decreases i
  {
    if i > 0 {
      DistinctIds(ns, i - 1);
      assert FirstIds(ns, i) == FirstIds(ns, i - 1) + {ns[i - 1].id};
    }
  }

  lemma DistinctStale(db: Db, now: Time, ids: seq<Id>)
    requires StaleList(db, now, ids, {})
    ensures forall i :: 0 <= i < |ids| ==> ids[i] in db.tasks && IsStale(db, now, ids[i])
    ensures forall i, j :: 0 <= i < j < |ids| ==> ids[i] != ids[j]
  {
  }

  lemma SameTasks(a: Db, b: Db, now: Time)
    requires a.tasks == b.tasks
    ensures ExpiredIds(a, now) == ExpiredIds(b, now)
  {
  }

  lemma ReconciledKeys(a: Db, b: Db, now: Time, ids: seq<Id>)
    requires Reconciled(a, b, now, ids) && forall id :: id in a.tasks ==> a.tasks[id].id == id
    ensures b.tasks.Keys == a.tasks.Keys && forall id :: id in b.tasks ==> b.tasks[id].id == id
  {
  }

  lemma AllStaleListed(db: Db, now: Time, ids: seq<Id>)
    requires StaleList(db, now, ids, {})
    ensures |ids| <= 100 && (|ids| < 100 ==> (set id | id in StaleIds(db, now) && id !in ids) == {})
  {
    hide IsStale;
  }

  lemma SameExpired(a: Db, b: Db, now: Time, ids: seq<Id>, at: Time)
    requires Reconciled(a, b, now, ids) && forall i :: 0 <= i < |ids| ==> IsStale(a, now, ids[i])
    ensures ExpiredIds(b, at) == ExpiredIds(a, at)
  {
    forall id | id in a.tasks ensures IsExpired(b.tasks[id], at) <==> IsExpired(a.tasks[id], at) {
      if id in ids {
        var i :| 0 <= i < |ids| && ids[i] == id;
        assert IsStale(a, now, ids[i]);
      }
    }
  }
}
