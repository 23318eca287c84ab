/** What `ORDER BY ... LIMIT k` returns, and that there always is such a result. */
module Selection {
  import opened Domain
  import opened Transactions

  /** ids are the first k elements of s in the order of their keys. */
  ghost predicate FirstByKey(s: set<Id>, key: map<Id, Time>, k: nat, ids: seq<Id>)
    requires s <= key.Keys
  {
    && |ids| == Min(k, |s|)
    && (forall i :: 0 <= i < |ids| ==> ids[i] in s)
    && (forall i, j :: 0 <= i < j < |ids| ==> ids[i] != ids[j] && key[ids[i]] <= key[ids[j]])
    && (forall x :: x in s && x !in ids ==> |ids| == k && forall i :: 0 <= i < |ids| ==> key[ids[i]] <= key[x])
  }

  lemma {:induction false} LeastExists(s: set<Id>, key: map<Id, Time>) returns (m: Id)
    requires s != {} && s <= key.Keys
    ensures m in s && forall x :: x in s ==> key[m] <= key[x]
    decreases |s|
  {
    m :| m in s;
    if s != {m} {
      var r := LeastExists(s - {m}, key);
      if key[r] < key[m] { m := r; }
    }
  }

  lemma {:induction false} FirstExists(s: set<Id>, key: map<Id, Time>, k: nat) returns (ids: seq<Id>)
    requires s <= key.Keys
    ensures FirstByKey(s, key, k, ids)
    decreases k
  {
    if k == 0 || s == {} {
      ids := [];
    } else {
      var m := LeastExists(s, key);
      var rest := FirstExists(s - {m}, key, k - 1);
      ids := [m] + rest;
      assert forall x :: x in s && x !in ids ==> x in s - {m} && x !in rest;
    }
  }

  lemma {:induction false} SubsetExists(s: set<nat>, k: nat) returns (r: set<nat>)
    ensures r <= s && |r| == Min(k, |s|)
    decreases k
  {
    if k == 0 || s == {} {
      r := {};
    } else {
      var m :| m in s;
      var q := SubsetExists(s - {m}, k - 1);
      r := q + {m};
    }
  }

  lemma {:induction false} FreshExists(s: set<nat>) returns (n: nat)
    ensures n !in s && forall x :: x in s ==> x < n
    decreases |s|
  {
    if s == {} {
      n := 0;
    } else {
      var m :| m in s;
      var q := FreshExists(s - {m});
      n := Max(q, m + 1);
      assert forall x :: x in s ==> x == m || x in s - {m};
    }
  }

  lemma SubsetCount<T>(a: set<T>, b: set<T>)
    requires a <= b
    ensures |a| <= |b|
    ensures a != b ==> |a| < |b|
  {
    assert b == a + (b - a);
  }

  /** ORDER BY key LIMIT k. */
  method OrderByLimit(s: set<Id>, key: map<Id, Time>, k: nat) returns (ids: seq<Id>)
    requires s <= key.Keys
    ensures FirstByKey(s, key, k, ids)
  {
    var left := s;
    ids := [];
    while left != {} && |ids| < k
      invariant left <= s && |ids| + |left| == |s| && |ids| <= k
      invariant forall x :: x in s <==> x in left || x in ids
      invariant forall i :: 0 <= i < |ids| ==> ids[i] in s && ids[i] !in left
      invariant forall i, j :: 0 <= i < j < |ids| ==> ids[i] != ids[j] && key[ids[i]] <= key[ids[j]]
      invariant forall i, x :: 0 <= i < |ids| && x in left ==> key[ids[i]] <= key[x]
      decreases left
    {
      ghost var m := LeastExists(left, key);
      var id :| id in left && forall x :: x in left ==> key[id] <= key[x];
      ids := ids + [id];
      left := left - {id};
    }
  }

  // ---- the queries of the recovery loop

  function ExpiredIds(db: Db, now: Time): set<Id> {
    set id | id in db.tasks && IsExpired(db.tasks[id], now)
  }

  function LeaseEnds(db: Db, now: Time): map<Id, Time> {
    map id | id in ExpiredIds(db, now) :: db.tasks[id].lease.value.until
  }

  function RowsAt(db: Db, ids: seq<Id>): seq<Task>
    requires forall i :: 0 <= i < |ids| ==> ids[i] in db.tasks
  {
    seq(|ids|, i requires 0 <= i < |ids| => db.tasks[ids[i]])
  }

  /** The first hundred expired rows are a result of the query behind `Expired`. */
  lemma FirstIsExpiredList(db: Db, now: Time, ids: seq<Id>)
    requires forall id :: id in db.tasks ==> db.tasks[id].id == id
    requires FirstByKey(ExpiredIds(db, now), LeaseEnds(db, now), 100, ids)
    ensures forall i :: 0 <= i < |ids| ==> ids[i] in db.tasks && IsExpired(db.tasks[ids[i]], now)
    ensures ExpiredList(db, now, RowsAt(db, ids))
  {
    var ns := RowsAt(db, ids);
    forall i, j | 0 <= i < j < |ns| ensures ns[i].id != ns[j].id && ns[i].lease.value.until <= ns[j].lease.value.until {
      assert ids[i] != ids[j] && LeaseEnds(db, now)[ids[i]] <= LeaseEnds(db, now)[ids[j]];
    }
    forall id | id in db.tasks && IsExpired(db.tasks[id], now) && (forall i :: 0 <= i < |ns| ==> ns[i].id != id)
      ensures |ns| == 100 && forall i :: 0 <= i < |ns| ==> ns[i].lease.value.until <= db.tasks[id].lease.value.until
    {
      assert id in ExpiredIds(db, now);
      forall i | 0 <= i < |ids| ensures ids[i] != id { assert ns[i].id != id; }
      forall i | 0 <= i < |ns| ensures ns[i].lease.value.until <= db.tasks[id].lease.value.until {
        assert LeaseEnds(db, now)[ids[i]] <= LeaseEnds(db, now)[id];
      }
    }
  }

  function StaleIds(db: Db, now: Time): set<Id> {
    set id | id in db.tasks && IsStale(db, now, id)
  }

  function NextTimes(db: Db, now: Time): map<Id, Time> {
    map id | id in StaleIds(db, now) :: db.tasks[id].next
  }

  lemma FirstIsStaleList(db: Db, now: Time, ids: seq<Id>)
    requires FirstByKey(StaleIds(db, now), NextTimes(db, now), 100, ids)
    ensures StaleList(db, now, ids, {})
  {
    hide IsStale;
    assert forall i :: 0 <= i < |ids| ==> ids[i] in StaleIds(db, now);
    assert forall i :: 0 <= i < |ids| ==> ids[i] in db.tasks;
    forall i, j | 0 <= i < j < |ids| ensures ids[i] != ids[j] && db.tasks[ids[i]].next <= db.tasks[ids[j]].next {
      assert NextTimes(db, now)[ids[i]] <= NextTimes(db, now)[ids[j]];
    }
    forall id | id in db.tasks && IsStale(db, now, id) && id !in ids
      ensures |ids| == 100 && forall i :: 0 <= i < |ids| ==> db.tasks[ids[i]].next <= db.tasks[id].next
    {
      assert id in StaleIds(db, now);
      forall i | 0 <= i < |ids| ensures db.tasks[ids[i]].next <= db.tasks[id].next {
        assert NextTimes(db, now)[ids[i]] <= NextTimes(db, now)[id];
      }
    }
  }

  /** b is a after each listed task moved to its next generation with a waiting row for it. */
  ghost predicate Reconciled(a: Db, b: Db, now: Time, ids: seq<Id>) {
    && a.outbox <= b.outbox && b.tasks.Keys == a.tasks.Keys && b.attempts == a.attempts
    && (forall i :: |a.outbox| <= i < |b.outbox| ==> b.outbox[i].status == Waiting && b.outbox[i].notification in ids)
    && (forall id :: id in a.tasks && id !in ids ==> b.tasks[id] == a.tasks[id])
    && (forall id :: id in ids ==>
          && id in a.tasks && b.tasks[id] == a.tasks[id].(generation := a.tasks[id].generation + 1)
          && NewEvent(id, a.tasks[id].generation + 1, Dispatch, now, now) in b.outbox)
  }

  /** `Reconcile` moves each listed task to its next generation with a waiting row for it, and touches
      nothing else. */
  lemma {:induction false} ReconcileRows(db: Db, now: Time, ids: seq<Id>)
    requires forall i :: 0 <= i < |ids| ==> ids[i] in db.tasks
    requires forall i, j :: 0 <= i < j < |ids| ==> ids[i] != ids[j]
    ensures Reconciled(db, Reconcile(db, now, ids), now, ids)
    decreases |ids|
  {
    if ids != [] {
      var d := ReconcileOne(db, now, ids[0]);
      assert forall i :: 0 <= i < |ids[1..]| ==> ids[1..][i] == ids[i + 1];
      ReconcileRows(d, now, ids[1..]);
      hide Reconciled;
      ReconciledCons(db, Reconcile(d, now, ids[1..]), now, ids[0], ids[1..]);
      assert [ids[0]] + ids[1..] == ids;
    }
  }

  lemma ReconciledCons(a: Db, b: Db, now: Time, id: Id, rest: seq<Id>)
    requires id in a.tasks && id !in rest && Reconciled(ReconcileOne(a, now, id), b, now, rest)
    ensures Reconciled(a, b, now, [id] + rest)
  {
    var ids := [id] + rest;
    var d := ReconcileOne(a, now, id);
    var e := NewEvent(id, a.tasks[id].generation + 1, Dispatch, now, now);
    assert forall x :: x in ids <==> x == id || x in rest;
    assert d.outbox[|a.outbox|] == e && b.outbox[|a.outbox|] == e;
  }

  /** After a reconciliation the stale tasks are exactly the others. */
  lemma StaleAfter(a: Db, b: Db, now: Time, ids: seq<Id>)
    requires Reconciled(a, b, now, ids) && forall id :: id in a.tasks ==> a.tasks[id].id == id
    ensures StaleIds(b, now) == (set id | id in StaleIds(a, now) && id !in ids)
  {
    forall id | id in a.tasks ensures id in StaleIds(b, now) <==> id in StaleIds(a, now) && id !in ids {
      if id in ids {
        var e := NewEvent(id, a.tasks[id].generation + 1, Dispatch, now, now);
        var i :| 0 <= i < |b.outbox| && b.outbox[i] == e;
        assert LiveTrigger(b.outbox[i], b.tasks[id], now);
      } else {
        assert forall i :: 0 <= i < |a.outbox| ==> b.outbox[i] == a.outbox[i];
      }
    }
  }
}
