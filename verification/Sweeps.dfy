/** What a sweep of the recovery loop achieves while workers, dispatchers, clients and other loops go on. */
module Sweeps {
  import opened Domain
  import opened Transactions
  import opened Ledger
  import opened Protocol
  import opened Fencing
  import opened Frames
  import opened Guarantees
  import opened Timing
  import opened Selection
  import opened Recoverability

  /** The row n of a sweep's list is no longer held under the lease it had in the list. */
  ghost predicate Cleared(s: State, n: Task) { n.id in s.db.tasks && !SameLease(s.db.tasks[n.id], n) }

  /** The rows of the list had expired at time t, under leases that were handed out. */
  ghost predicate Listed(s: State, ns: seq<Task>, t: Time) {
    t <= s.clock && forall n :: n in ns ==> IsExpired(n, t) && n.lease.value.token in s.issued && n.id in s.db.tasks
  }

  /** Every row of the list is cleared, or agent p has still to come to it. */
  ghost predicate Underway(s: State, p: Pid, ns: seq<Task>) {
    forall n :: n in ns ==> Cleared(s, n) || (p in s.agents && n in Left(s.agents[p]))
  }

  lemma ClearedKept(s: State, s': State, n: Task)
    requires Evolves(s, s') && Cleared(s, n) && n.lease.Some? && n.lease.value.token in s.issued
    ensures Cleared(s', n)
  {
    assert RowEvolves(s.db.tasks[n.id], s'.db.tasks[n.id], s.issued);
  }

  lemma ListedKept(s: State, s': State, ns: seq<Task>, t: Time)
    requires Evolves(s, s') && Listed(s, ns, t) && s.clock <= s'.clock
    ensures Listed(s', ns, t)
  {
  }

  /** A list row is a version of its row, and so is what a sweeping agent holds. */
  lemma HoldsSnapshots(cfg: Config, s: State, p: Pid)
    requires Fence(cfg, s) && p in s.agents && (s.agents[p].Sweeping? || s.agents[p].Recovering?)
    ensures forall n :: n in Left(s.agents[p]) ==> LeaseSnapshot(s.db, s.issued, n) && Known(cfg, n)
  {
    hide DbFence, LeaseSnapshot, PlanOk, PlanFor;
    assert AgentOk(cfg, s.db, s.issued, s.receipts, p, s.agents[p]);
    forall n | n in Left(s.agents[p]) ensures LeaseSnapshot(s.db, s.issued, n) && Known(cfg, n) {
      assert LeaseSnapshot(s.db, s.issued, n);
      SnapshotIsKnown(cfg, s, n);
    }
  }

  lemma SnapshotIsKnown(cfg: Config, s: State, n: Task)
    requires Fence(cfg, s) && LeaseSnapshot(s.db, s.issued, n)
    ensures Known(cfg, n)
  {
    assert TaskOk(cfg, s.db.tasks[n.id], s.hist[n.id], s.issued);
  }

  /** A recovery tried after the end of the listed lease clears the row, whoever came before. */
  lemma RecoverClears(cfg: Config, s: State, p: Pid, t: Time)
    requires Fence(cfg, s) && p in s.agents && s.agents[p].Recovering? && t <= s.clock && IsExpired(s.agents[p].n, t)
    ensures var n := s.agents[p].n; Cleared(DoRecover(s, s.clock, p, s.agents[p]), n)
  {
    var x := s.agents[p];
    assert x.n in Left(x);
    HoldsSnapshots(cfg, s, p);
    TablesKeyed(cfg, s);
    hide Fence, PlanFor, CloseAttempt;
    if SameLease(s.db.tasks[x.n.id], x.n) {
      assert s.db.tasks[x.n.id] == x.n && Recoverable(s.db, s.clock, x.n);
    }
  }

  lemma OthersKeepUnderway(s: State, s': State, p: Pid, ns: seq<Task>, t: Time)
    requires Evolves(s, s') && Listed(s, ns, t) && Underway(s, p, ns)
    requires p in s.agents ==> p in s'.agents && Left(s'.agents[p]) == Left(s.agents[p])
    ensures Underway(s', p, ns)
  {
    hide Evolves;
    forall n | n in ns && Cleared(s, n) ensures Cleared(s', n) { ClearedKept(s, s', n); }
  }

  lemma FirstClearedKeepsUnderway(s: State, s': State, p: Pid, ns: seq<Task>, t: Time)
    requires Evolves(s, s') && Listed(s, ns, t) && Underway(s, p, ns) && p in s.agents && s.agents[p].Recovering?
    requires p in s'.agents && s'.agents[p] == Sweeping(s.agents[p].rest)
    requires s.agents[p].n in ns ==> Cleared(s', s.agents[p].n)
    ensures Underway(s', p, ns)
  {
    var x := s.agents[p];
    hide Evolves, Cleared;
    forall n | n in ns ensures Cleared(s', n) || n in Left(s'.agents[p]) {
      if Cleared(s, n) { ClearedKept(s, s', n); } else { assert n in [x.n] + x.rest; }
    }
  }

  lemma RecoverKeepsUnderway(cfg: Config, s: State, p: Pid, ns: seq<Task>, t: Time)
    requires Fence(cfg, s) && Listed(s, ns, t) && Underway(s, p, ns) && p in s.agents && s.agents[p].Recovering?
    requires var s' := DoRecover(s, s.clock, p, s.agents[p]); Evolves(s, s')
    ensures Underway(DoRecover(s, s.clock, p, s.agents[p]), p, ns)
  {
    var x := s.agents[p];
    var s' := DoRecover(s, s.clock, p, x);
    hide Fence, Evolves, Underway, Cleared, Recoverable, RecoverLease;
    assert s'.agents[p] == Sweeping(x.rest);
    if x.n in ns { RecoverClears(cfg, s, p, t); }
    hide DoRecover;
    FirstClearedKeepsUnderway(s, s', p, ns, t);
  }

  /** An idle or finished agent holds no row: then the whole list is cleared, and stays so. */
  lemma DoneKeepsUnderway(s: State, s': State, p: Pid, ns: seq<Task>, t: Time)
    requires Evolves(s, s') && Listed(s, ns, t) && Underway(s, p, ns) && (p !in s.agents || Left(s.agents[p]) == [])
    ensures Underway(s', p, ns)
  {
    hide Evolves;
    forall n | n in ns ensures Cleared(s', n) { ClearedKept(s, s', n); }
  }

  /** What a sweeping agent can do by itself, crashes aside. */
  lemma SweeperMoves(cfg: Config, s: State, now: Time, p: Pid, a: Step)
    requires Enabled(cfg, s, now, a) && Actor(a) == {p} && a != Crash(p)
    requires p in s.agents && Left(s.agents[p]) != []
    ensures a == PlanRecovery(p) || a == RecoverTx(p)
  {
    hide PlanFor, FirstReady, ExpiredList, AbandonedRows, StaleList;
  }

  lemma StepKeepsUnderway(cfg: Config, s: State, p: Pid, ns: seq<Task>, t: Time, a: Step)
    requires Fence(cfg, s) && Listed(s, ns, t) && Underway(s, p, ns) && Enabled(cfg, s, s.clock, a) && a != Crash(p)
    ensures var s' := Apply(cfg, s, s.clock, a); Listed(s', ns, t) && Underway(s', p, ns)
  {
    hide Fence, Enabled, Apply, Evolves, Underway, Listed, OnTasks, SameTasks;
    var s' := Apply(cfg, s, s.clock, a);
    StepFenced(cfg, s, s.clock, a);
    StepFramed(cfg, s, s.clock, a);
    ListedKept(s, s', ns, t);
    if p !in s.agents || Left(s.agents[p]) == [] {
      DoneKeepsUnderway(s, s', p, ns, t);
    } else if p !in Actor(a) {
      OthersKeepUnderway(s, s', p, ns, t);
    } else {
      SweeperMoves(cfg, s, s.clock, p, a);
      if a.RecoverTx? {
        RecoverMoves(cfg, s, p);
        RecoverKeepsUnderway(cfg, s, p, ns, t);
      } else {
        PlanMoves(cfg, s, p);
        HoldsSnapshots(cfg, s, p);
        var rest := s.agents[p].rest;
        assert rest[0] in Left(s.agents[p]) && rest == [rest[0]] + rest[1..];
        OthersKeepUnderway(s, s', p, ns, t);
      }
    }
  }

  // ---- leases that had expired ------------------------------------------------------------------------

  /** A lease in s' was there in s, or runs for a minute from now. */
  ghost predicate LeasesFrom(s: State, s': State, now: Time) {
    forall id :: id in s'.db.tasks && s'.db.tasks[id].lease.Some? ==>
      || (id in s.db.tasks && s.db.tasks[id].lease == s'.db.tasks[id].lease)
      || s'.db.tasks[id].lease.value.until == now + LEASE_TTL
  }

  lemma ClientLeases(cfg: Config, s: State, now: Time, a: Step)
    requires Enabled(cfg, s, now, a) && (a.Submit? || a.RetryByHand?)
    ensures LeasesFrom(s, Apply(cfg, s, now, a), now)
  {
  }

  lemma TransactionLeases(cfg: Config, s: State, now: Time, a: Step)
    requires Enabled(cfg, s, now, a) && (a.DeferTx? || a.ClaimTx? || a.FinishTx? || a.RecoverTx?)
    ensures LeasesFrom(s, Apply(cfg, s, now, a), now)
  {
    hide CloseAttempt;
  }

  lemma ReconcileLeases(cfg: Config, s: State, now: Time, a: Step)
    requires Enabled(cfg, s, now, a) && a.ReconcileTx? && s.db.tasks.Keys == s.hist.Keys
    ensures LeasesFrom(s, Apply(cfg, s, now, a), now)
  {
    ReconcileReady(cfg, s, now, a);
    hide Enabled, Apply;
    ReconcileAllKeeps(s, now, a.ids);
    forall id | id in s.db.tasks ensures ReconcileAll(s, now, a.ids).db.tasks[id].lease == s.db.tasks[id].lease {
      ReconcileKeepsRow(s, now, a.ids, id);
    }
  }

  lemma StepLeases(cfg: Config, s: State, now: Time, a: Step)
    requires Fence(cfg, s) && Enabled(cfg, s, now, a)
    ensures LeasesFrom(s, Apply(cfg, s, now, a), now)
  {
    TablesKeyed(cfg, s);
    hide Fence, Enabled, Apply, LeasesFrom, SameAgentsBut;
    if a.Submit? || a.RetryByHand? {
      ClientLeases(cfg, s, now, a);
    } else if a.ReconcileTx? {
      ReconcileLeases(cfg, s, now, a);
    } else if OnTasks(a) {
      TransactionLeases(cfg, s, now, a);
    } else {
      StepFramed(cfg, s, now, a);
      SameLeases(s, Apply(cfg, s, now, a), now);
    }
  }

  lemma SameLeases(s: State, s': State, now: Time)
    requires s'.db.tasks == s.db.tasks
    ensures LeasesFrom(s, s', now)
  {
  }

  /** Whatever had expired at time t in z had so in s, under the same lease. */
  ghost predicate NoneNew(s: State, z: State, t: Time) {
    forall id :: id in z.db.tasks && IsExpired(z.db.tasks[id], t) ==>
      id in s.db.tasks && IsExpired(s.db.tasks[id], t) && SameLease(z.db.tasks[id], s.db.tasks[id])
  }

  lemma StepAddsNone(cfg: Config, s: State, a: Step, t: Time)
    requires Fence(cfg, s) && Enabled(cfg, s, s.clock, a) && t <= s.clock
    ensures NoneNew(s, Apply(cfg, s, s.clock, a), t)
  {
    hide Fence, Enabled, Apply;
    var s' := Apply(cfg, s, s.clock, a);
    StepLeases(cfg, s, s.clock, a);
    forall id | id in s.db.tasks ensures s.db.tasks[id].status == InFlight <==> s.db.tasks[id].lease.Some? {
      LeaseOfRow(cfg, s, id);
    }
  }

  lemma NoneNewTransitive(a: State, b: State, c: State, t: Time)
    requires NoneNew(a, b, t) && NoneNew(b, c, t)
    ensures NoneNew(a, c, t)
  {
  }

  lemma NoneNewReflexive(s: State, t: Time)
    ensures NoneNew(s, s, t)
  {
  }

  // ---- runs -------------------------------------------------------------------------------------------

  lemma {:induction false} RunKeepsUnderway(cfg: Config, s: State, p: Pid, ns: seq<Task>, t: Time, script: seq<Move>)
    requires Fence(cfg, s) && Listed(s, ns, t) && Underway(s, p, ns) && Timed(cfg, s, script) && Legal(cfg, s, script)
    requires forall i :: 0 <= i < |script| ==> script[i].step != Crash(p)
    ensures var z := Run(cfg, s, script); Underway(z, p, ns) && NoneNew(s, z, t)
    decreases |script|
  {
    hide Fence, Enabled, Apply, Evolves, Underway, NoneNew;
    assert t <= s.clock;
    hide Listed;
    if script == [] {
      NoneNewReflexive(s, t);
    } else {
      var s1 := Apply(cfg, s, s.clock, script[0].step);
      StepFenced(cfg, s, s.clock, script[0].step);
      StepKeepsUnderway(cfg, s, p, ns, t, script[0].step);
      StepAddsNone(cfg, s, script[0].step, t);
      RunKeepsUnderway(cfg, s1, p, ns, t, script[1..]);
      NoneNewTransitive(s, s1, Run(cfg, s1, script[1..]), t);
    }
  }

  lemma ListStarts(cfg: Config, s: State, s1: State, p: Pid, ns: seq<Task>)
    requires Fence(cfg, s1) && ExpiredList(s.db, s.clock, ns) && s1 == Put(s, p, Sweeping(ns))
    ensures Listed(s1, ns, s.clock) && Underway(s1, p, ns) && NoneNew(s, s1, s.clock)
  {
    HoldsSnapshots(cfg, s1, p);
    hide Fence;
  }

  /** Whatever had expired at time t keeps the lease it had in s, so a cleared row is not among it. */
  lemma ClearedIsNotLeft(s: State, z: State, n: Task, t: Time)
    requires NoneNew(s, z, t) && Cleared(z, n) && n.id in s.db.tasks && s.db.tasks[n.id] == n
    ensures n.id !in ExpiredIds(z.db, t)
  {
  }

  lemma CountLeft(s: State, z: State, ns: seq<Task>)
    requires ExpiredList(s.db, s.clock, ns) && NoneNew(s, z, s.clock) && forall n :: n in ns ==> Cleared(z, n)
    ensures var before := |ExpiredIds(s.db, s.clock)|; |ExpiredIds(z.db, s.clock)| <= before - Min(100, before)
  {
    ListIsExpired(s, ns);
    var all, left := ExpiredIds(s.db, s.clock), ExpiredIds(z.db, s.clock);
    forall i | 0 <= i < |ns| ensures ns[i].id !in left {
      assert ns[i] in ns;
      ClearedIsNotLeft(s, z, ns[i], s.clock);
    }
    assert left <= all;
    hide NoneNew, ExpiredList, Cleared, ExpiredIds, RowsExpired;
    CountWithout(all, left, ns);
  }

  lemma CountWithout(all: set<Id>, left: set<Id>, ns: seq<Task>)
    requires IdsOf(ns) <= all && left <= all && forall i :: 0 <= i < |ns| ==> ns[i].id !in left
    ensures |left| <= |all| - |IdsOf(ns)|
  {
    assert left <= all - IdsOf(ns);
    SubsetCount(left, all - IdsOf(ns));
    assert all == (all - IdsOf(ns)) + IdsOf(ns);
  }

  /** Every sweep, interleaved with any steps of any other agents: when the sweep of p is through, none of
      the rows on its list is still held under the lease it had there, whoever cleared it; and of the leases
      that had expired at its query at least min(100, count) are gone, with none added. */
  lemma {:induction false} EverySweepClears(cfg: Config, s: State, p: Pid, ns: seq<Task>, script: seq<Move>)
    requires TimedReachable(cfg, s) && Enabled(cfg, s, s.clock, ReadExpired(p, ns))
    requires var s1 := Apply(cfg, s, s.clock, ReadExpired(p, ns)); Timed(cfg, s1, script) && Legal(cfg, s1, script)
    requires forall i :: 0 <= i < |script| ==> script[i].step != Crash(p)
    requires var z := Run(cfg, Apply(cfg, s, s.clock, ReadExpired(p, ns)), script);
          p in z.agents && z.agents[p] == Sweeping([])
    ensures var z := Run(cfg, Apply(cfg, s, s.clock, ReadExpired(p, ns)), script);
          var before := |ExpiredIds(s.db, s.clock)|;
            && (forall n :: n in ns ==> Cleared(z, n))
            && |ExpiredIds(z.db, s.clock)| <= before - Min(100, before)
            && NoneNew(s, z, s.clock)
  {
    TimedReachableInvariant(cfg, s);
    ReadMoves(cfg, s, p, ns);
    hide Fence, Timely, Enabled, Apply, Run, Legal, Timed, TimedReachable, ExpiredList, Evolves, NoneNew, Listed,
        Cleared;
    var s1 := Apply(cfg, s, s.clock, ReadExpired(p, ns));
    var z := Run(cfg, s1, script);
    StepFenced(cfg, s, s.clock, ReadExpired(p, ns));
    ListStarts(cfg, s, s1, p, ns);
    RunKeepsUnderway(cfg, s1, p, ns, s.clock, script);
    NoneNewTransitive(s, s1, z, s.clock);
    forall n | n in ns ensures Cleared(z, n) { assert n !in Left(z.agents[p]); }
    CountLeft(s, z, ns);
  }
}
