/** What the protocol guarantees over every run under one shared clock. */
module TimedGuarantees {
  import opened Domain
  import opened RetrySchedule
  import opened Transactions
  import opened Ledger
  import opened Protocol
  import opened Fencing
  import opened Frames
  import opened Guarantees
  import opened Timing

  /** No two `Adapter.Deliver` calls for one notification are under way at the same time, however many
      duplicate triggers, proxies, crashes and recoveries the run contains. */
  lemma MutualExclusion(cfg: Config, s: State, p: Pid, q: Pid)
    requires TimedReachable(cfg, s) && p in s.agents && q in s.agents
    requires s.agents[p].Delivering? && s.agents[q].Delivering? && s.agents[p].n.id == s.agents[q].n.id
    ensures p == q
  {
    hide DbFence, EventTimely, TaskTimely, TimedReachable;
    TimedReachableInvariant(cfg, s);
    assert AgentTimely(s, s.agents[p]) && AgentTimely(s, s.agents[q]);
    assert AgentOk(cfg, s.db, s.issued, s.receipts, p, s.agents[p]);
    assert AgentOk(cfg, s.db, s.issued, s.receipts, q, s.agents[q]);
  }

  /** While a call is under way its task stays claimed by it: the lease cannot run out under a call. */
  lemma CallHoldsItsLease(cfg: Config, s: State, p: Pid)
    requires TimedReachable(cfg, s) && p in s.agents && s.agents[p].Delivering?
    ensures var n := s.agents[p].n;
            && n.id in s.db.tasks && s.db.tasks[n.id] == n && n.status == InFlight
            && n.lease.Some? && s.clock + (LEASE_TTL - PROCESS_TIMEOUT) <= n.lease.value.until
  {
    hide DbFence, EventTimely, TaskTimely, TimedReachable;
    TimedReachableInvariant(cfg, s);
    assert AgentTimely(s, s.agents[p]);
    assert AgentOk(cfg, s.db, s.issued, s.receipts, p, s.agents[p]);
  }

  /** Every call starts with the gate acquired, the latest policy check passed and the clock before the
      deadline of the current cycle, although the gate is skipped for tasks that look expired and the row
      is read again by the claim. */
  lemma CallIsAdmitted(cfg: Config, s: State, p: Pid, secretOk: bool, late: Decision)
    requires TimedReachable(cfg, s) && Enabled(cfg, s, s.clock, Decide(p, secretOk, late))
    requires Apply(cfg, s, s.clock, Decide(p, secretOk, late)).agents[p].Delivering?
    ensures var a := s.agents[p];
            && a.Claimed? && a.gated && a.policyOk
            && a.n.id in s.db.tasks && s.db.tasks[a.n.id] == a.n && s.clock < s.db.tasks[a.n.id].deadline
  {
    hide Fence, EventTimely, TaskTimely, TimedReachable;
    TimedReachableInvariant(cfg, s);
    assert AgentTimely(s, s.agents[p]);
  }

  /** A live trigger is never early: when a worker has loaded a pending task of the generation it was
      triggered for, the next time has come, so the not-before guard never drops a trigger. */
  lemma TriggersAreNeverEarly(cfg: Config, s: State, p: Pid)
    requires TimedReachable(cfg, s) && p in s.agents && s.agents[p].Loaded?
    ensures s.agents[p].n.next <= s.clock
    ensures p in Apply(cfg, s, s.clock, NotBefore(p)).agents
  {
    hide Fence, EventTimely, TaskTimely, TimedReachable;
    TimedReachableInvariant(cfg, s);
    assert AgentTimely(s, s.agents[p]);
  }

  /** The same for the outbox row and the message of the current generation. */
  lemma CurrentTriggerLeavesOnTime(cfg: Config, s: State, i: nat, m: Message)
    requires TimedReachable(cfg, s) && i < |s.db.outbox| && m in s.broker
    ensures s.db.outbox[i].notification in s.db.tasks && m.id in s.db.tasks
    ensures var e := s.db.outbox[i];
            var t := s.db.tasks[e.notification];
            t.status == Pending && t.generation == e.generation ==> t.next <= e.available + QueueTtl(e.route)
    ensures var t := s.db.tasks[m.id];
            t.status == Pending && t.generation == m.generation ==> t.next <= m.readyAt
  {
    hide DbFence, TaskTimely, TimedReachable, AgentOk, AgentTimely;
    TimedReachableInvariant(cfg, s);
    assert EventTimely(s.db.tasks, s.hist, s.db.outbox[i], s.clock);
    LeaseOfEvent(cfg, s, i);
    assert MessageOk(s.db.tasks, m) && NotEarly(s.db.tasks, m.id, m.generation, m.readyAt);
  }

  /** Dispatchers never publish the same row at the same time. */
  lemma PublishersExclude(cfg: Config, s: State, p: Pid, q: Pid)
    requires TimedReachable(cfg, s) && p in s.agents && q in s.agents
    requires s.agents[p].Publisher? && s.agents[q].Publisher? && s.agents[p].row == s.agents[q].row
    ensures p == q
  {
    hide DbFence, EventTimely, TaskTimely, TimedReachable, NotEarly;
    TimedReachableInvariant(cfg, s);
    assert AgentTimely(s, s.agents[p]) && AgentTimely(s, s.agents[q]);
    assert AgentOk(cfg, s.db, s.issued, s.receipts, p, s.agents[p]);
    assert AgentOk(cfg, s.db, s.issued, s.receipts, q, s.agents[q]);
  }

  /** The number k of quota deferrals in one cycle satisfies 5s * (k - 1) < MaxDuration. */
  lemma DeferralsAreBounded(cfg: Config, s: State, id: Id)
    requires TimedReachable(cfg, s) && id in s.db.tasks
    ensures id in s.hist && Known(cfg, s.db.tasks[id])
    ensures s.hist[id].defers >= 1 ==> DEFER_DELAY * (s.hist[id].defers - 1) < MaxDuration(cfg, s.db.tasks[id])
  {
    hide Fence, EventTimely, AgentTimely, TimedReachable;
    TimedReachableInvariant(cfg, s);
    assert TaskTimely(cfg, s.db.tasks[id], s.hist[id], s.clock);
  }

  /** A stale row was last reconciled a minute ago or more: until its trigger ages it is not stale. */
  lemma StaleIsApart(cfg: Config, s: State, id: Id)
    requires Fence(cfg, s) && Timely(cfg, s) && IsStale(s.db, s.clock, id)
    ensures id in s.hist
    ensures s.hist[id].lastReconcile.Some? ==> s.hist[id].lastReconcile.value + STALE_AFTER <= s.clock
  {
    hide AttemptLedger, AgentsOk, AgentTimely, TaskTimely;
    var t := s.db.tasks[id];
    assert TaskRows(t, s.db.outbox, s.hist[id]);
    var r :| 0 <= r < |s.db.outbox| && Triggers(s.db.outbox[r], t.id, t.generation);
    assert !LiveTrigger(s.db.outbox[r], t, s.clock);
    assert EventTimely(s.db.tasks, s.hist, s.db.outbox[r], s.clock);
    LeaseOfEvent(cfg, s, r);
  }

  /** Two reconciliations of one task are at least a minute apart. */
  lemma ReconcilesAreApart(cfg: Config, s: State, p: Pid, ids: seq<Id>, locked: set<Id>, i: nat)
    requires TimedReachable(cfg, s) && Enabled(cfg, s, s.clock, ReconcileTx(p, ids, locked)) && i < |ids|
    ensures ids[i] in s.hist
    ensures s.hist[ids[i]].lastReconcile.Some? ==> s.hist[ids[i]].lastReconcile.value + STALE_AFTER <= s.clock
    ensures var s' := Apply(cfg, s, s.clock, ReconcileTx(p, ids, locked));
            ids[i] in s'.hist && s'.hist[ids[i]].lastReconcile == Some(s.clock)
  {
    TimedReachableInvariant(cfg, s);
    hide Fence, Timely, TimedReachable;
    assert IsStale(s.db, s.clock, ids[i]);
    hide IsStale;
    StaleIsApart(cfg, s, ids[i]);
    ReconcileMarks(s, s.clock, ids, ids[i]);
  }

  lemma {:induction false} ReconcileMarks(s: State, now: Time, ids: seq<Id>, id: Id)
    requires forall i :: 0 <= i < |ids| ==> ids[i] in s.db.tasks && ids[i] in s.hist
    ensures id in s.hist && (id in ids || s.hist[id].lastReconcile == Some(now)) ==>
              id in ReconcileAll(s, now, ids).hist && ReconcileAll(s, now, ids).hist[id].lastReconcile == Some(now)
    decreases |ids|
  {
    if ids != [] {
      var s1 := ReconcileTask(s, now, ids[0]);
      assert forall i :: 0 <= i < |ids[1..]| ==> ids[1..][i] == ids[i + 1];
      assert id in ids ==> id == ids[0] || id in ids[1..];
      ReconcileMarks(s1, now, ids[1..], id);
    }
  }

  /** `next_attempt_at` never decreases over a run. */
  lemma NextNeverDecreases(cfg: Config, s: State, script: seq<Move>, id: Id)
    requires TimedReachable(cfg, s) && Timed(cfg, s, script) && id in s.db.tasks
    ensures Legal(cfg, s, script)
    ensures var s' := Run(cfg, s, script); id in s'.db.tasks && s.db.tasks[id].next <= s'.db.tasks[id].next
  {
    hide Fence, Timely, TimedReachable, Timed, Legal, Run;
    TimedReachableInvariant(cfg, s);
    RunTimely(cfg, s, script);
  }
}
