/** What holds when all agents share one nondecreasing clock and every HTTP call and publish honours its
    context: mutual exclusion, triggers that are never early, and the bounds on deferrals. */
module Timing {
  import opened Domain
  import opened RetrySchedule
  import opened Transactions
  import opened Ledger
  import opened Protocol
  import opened Fencing
  import opened Frames
  import opened Guarantees

  ghost function MaxDuration(cfg: Config, t: Task): Duration
    requires Known(cfg, t)
  {
    cfg[(t.revision, t.target)].retry.maxDuration
  }

  /** The k-th deferral of a cycle that starts at `start` moved the next time to at least start + 5s * k,
      and it happened before the deadline. */
  ghost predicate DefersBounded(start: Time, next: Time, defers: nat, duration: Duration) {
    && start + DEFER_DELAY * defers <= next
    && (1 <= defers ==> DEFER_DELAY * (defers - 1) < duration)
  }

  ghost predicate TaskTimely(cfg: Config, t: Task, h: History, clock: Time) {
    && Known(cfg, t)
    && (t.status != Pending || t.generation == 1 ==> t.next <= clock)
    && DefersBounded(t.deadline - MaxDuration(cfg, t), t.next, h.defers, MaxDuration(cfg, t))
    && (h.lastReconcile.Some? ==> h.lastReconcile.value <= clock)
  }

  /** A trigger of the current generation of a pending task leaves its queue no earlier than the next time. */
  ghost predicate NotEarly(tasks: map<Id, Task>, id: Id, generation: nat, at: Time) {
    id in tasks && tasks[id].generation == generation && tasks[id].status == Pending ==> tasks[id].next <= at
  }

  ghost predicate EventTimely(tasks: map<Id, Task>, hist: map<Id, History>, e: Event, clock: Time) {
    && e.created <= clock
    && (e.status != Waiting ==> e.available <= clock)
    && (e.publishedAt.Some? ==> e.created <= e.publishedAt.value <= clock)
    && NotEarly(tasks, e.notification, e.generation, e.available + QueueTtl(e.route))
    && (e.notification in tasks && e.notification in hist && tasks[e.notification].generation == e.generation
        && tasks[e.notification].status == Pending && hist[e.notification].lastReconcile.Some? ==>
          hist[e.notification].lastReconcile.value <= e.created)
  }

  ghost predicate AgentTimely(s: State, a: Agent) {
    match a
    case Started(start, id, generation) => start <= s.clock && NotEarly(s.db.tasks, id, generation, s.clock)
    case Loaded(start, n) => start <= s.clock && n.next <= s.clock
    case Due(start, n) => start <= s.clock && n.next <= s.clock
    case Checked(start, n, _, expired, at) => start <= s.clock && n.next <= at <= s.clock
        && (expired <==> n.deadline <= at)
    case Deferring(n, at) => n.next <= at <= s.clock && at < n.deadline
    case Admitted(start, n, policyOk, gated) =>
      start <= s.clock && (gated ==> policyOk) && (policyOk && !gated ==> n.deadline <= s.clock)
    case Claimed(start, n, policyOk, gated) =>
      && start <= s.clock && (gated ==> policyOk) && (policyOk && !gated ==> n.deadline <= s.clock)
      && n.lease.Some? && start + LEASE_TTL <= n.lease.value.until && n.next <= s.clock
      && (s.clock <= n.lease.value.until ==> n.id in s.db.tasks && s.db.tasks[n.id] == n)
    case Delivering(start, n, policyOk, gated, at) =>
      && policyOk && gated && at < n.deadline && at <= s.clock <= start + PROCESS_TIMEOUT
      && n.lease.Some? && start + LEASE_TTL <= n.lease.value.until
      && n.id in s.db.tasks && s.db.tasks[n.id] == n && n.next <= s.clock
    case Decided(n, _) => n.next <= s.clock
    case Ready(n, _, at) => n.next <= at <= s.clock
    case Publisher(start, row, token, id, generation, route, _) =>
      && NotEarly(s.db.tasks, id, generation, s.clock + QueueTtl(route))
      && start <= s.clock <= start + PUBLISH_TIMEOUT
      && row < |s.db.outbox| && s.db.outbox[row].lease == Some(Lease(token, start + PUBLISH_LEASE))
    case Sweeping(rest) => forall i :: 0 <= i < |rest| ==> rest[i].next <= s.clock
    case Recovering(n, _, at, rest) => n.next <= at <= s.clock && forall i :: 0 <= i < |rest| ==>
        rest[i].next <= s.clock
    case _ => true
  }

  /** The timed part of the invariant. */
  ghost predicate Timely(cfg: Config, s: State) {
    && (forall id :: id in s.db.tasks ==> id in s.hist && TaskTimely(cfg, s.db.tasks[id], s.hist[id], s.clock))
    && (forall i :: 0 <= i < |s.db.outbox| ==> EventTimely(s.db.tasks, s.hist, s.db.outbox[i], s.clock))
    && (forall p :: p in s.agents ==> AgentTimely(s, s.agents[p]))
    && (forall m :: m in s.broker ==> NotEarly(s.db.tasks, m.id, m.generation, m.readyAt))
  }

  ghost predicate NextKept(s: State, s': State) {
    forall id :: id in s.db.tasks ==> id in s'.db.tasks && s.db.tasks[id].next <= s'.db.tasks[id].next
  }

  // ---- frame --------------------------------------------------------------------------------------

  lemma NotEarlyKept(s: State, s': State, id: Id, generation: nat, at: Time)
    requires Evolves(s, s') && NotEarly(s.db.tasks, id, generation, at)
    requires id in s.db.tasks && generation <= s.db.tasks[id].generation
    ensures NotEarly(s'.db.tasks, id, generation, at)
  {
    assert RowEvolves(s.db.tasks[id], s'.db.tasks[id], s.issued);
  }

  lemma EventTimelyKept(s: State, s': State, e: Event)
    requires Evolves(s, s') && s'.clock == s.clock && EventTimely(s.db.tasks, s.hist, e, s.clock)
    requires EventOk(s.db.tasks, e) && s.hist.Keys == s.db.tasks.Keys && s'.hist.Keys == s'.db.tasks.Keys
    requires s'.db.tasks[e.notification] == s.db.tasks[e.notification] ==>
          s'.hist[e.notification] == s.hist[e.notification]
    ensures EventTimely(s'.db.tasks, s'.hist, e, s'.clock)
  {
    assert RowEvolves(s.db.tasks[e.notification], s'.db.tasks[e.notification], s.issued);
  }

  lemma PublisherTimelyKept(cfg: Config, s: State, s': State, p: Pid, a: Agent, who: set<Pid>)
    requires Fence(cfg, s) && a.Publisher? && AgentOk(cfg, s.db, s.issued, s.receipts, p, a) && AgentTimely(s, a)
          && p !in who
    requires Evolves(s, s') && Effect(s, s', s.clock, who) && s'.clock == s.clock
    ensures AgentTimely(s', a)
  {
    hide AttemptLedger, OutboxLedger, AgentsOk, PlanOk;
    assert EventEffect(s.db.outbox[a.row], s'.db.outbox[a.row], s.issued, s.clock, who);
    EventOfRow(s.db.tasks, s.db.outbox, s.hist, a.row);
    NotEarlyKept(s, s', a.id, a.generation, s.clock + QueueTtl(a.route));
  }

  lemma CallTimelyKept(cfg: Config, s: State, s': State, p: Pid, a: Agent, who: set<Pid>)
    requires Fence(cfg, s) && (a.Claimed? || a.Delivering?) && AgentOk(cfg, s.db, s.issued, s.receipts, p, a)
          && AgentTimely(s, a) && p !in who
    requires Effect(s, s', s.clock, who) && s'.clock == s.clock
    ensures AgentTimely(s', a)
  {
    hide AttemptLedger, OutboxLedger, AgentsOk, PlanOk, DbFence, Effect, NotEarly;
    if a.n.id in s.db.tasks { EffectOnTask(s, s', s.clock, who, a.n.id); }
  }

  /** An HTTP call and a publish under way are not disturbed by the steps of others. */
  lemma AgentTimelyKept(cfg: Config, s: State, s': State, p: Pid, a: Agent, who: set<Pid>)
    requires Fence(cfg, s) && AgentOk(cfg, s.db, s.issued, s.receipts, p, a) && AgentTimely(s, a) && p !in who
    requires Evolves(s, s') && Effect(s, s', s.clock, who) && s'.clock == s.clock
    ensures AgentTimely(s', a)
  {
    hide AttemptLedger, OutboxLedger, AgentsOk, PlanOk, DbFence, Effect, Evolves, NotEarly;
    match a
    case Started(_, id, generation) => NotEarlyKept(s, s', id, generation, s.clock);
    case Claimed(_, _, _, _) => CallTimelyKept(cfg, s, s', p, a, who);
    case Delivering(_, _, _, _, _) => CallTimelyKept(cfg, s, s', p, a, who);
    case Publisher(_, _, _, _, _, _, _) => PublisherTimelyKept(cfg, s, s', p, a, who);
    case _ =>
  }

  ghost predicate TaskOrKept(cfg: Config, s: State, s': State, id: Id)
    requires id in s'.db.tasks && id in s'.hist
  {
    || (id in s.db.tasks && id in s.hist && s'.db.tasks[id] == s.db.tasks[id] && s'.hist[id] == s.hist[id])
    || (TaskTimely(cfg, s'.db.tasks[id], s'.hist[id], s'.clock)
        && (id in s.db.tasks ==> s'.db.tasks[id] != s.db.tasks[id] && s.db.tasks[id].next <= s'.db.tasks[id].next))
  }

  /** The timed invariant is kept by a step of `who` when it is kept for the rows, agents and messages
      that the step changes. */
  lemma TimelyKept(cfg: Config, s: State, s': State, who: set<Pid>)
    requires Fence(cfg, s) && Timely(cfg, s) && Fence(cfg, s') && s'.clock == s.clock
    requires Evolves(s, s') && Effect(s, s', s.clock, who)
    requires forall id :: id in s'.db.tasks ==> id in s'.hist && TaskOrKept(cfg, s, s', id)
    requires forall i :: 0 <= i < |s'.db.outbox| ==>
               (i < |s.db.outbox| && s'.db.outbox[i] == s.db.outbox[i])
                   || EventTimely(s'.db.tasks, s'.hist, s'.db.outbox[i], s'.clock)
    requires forall p :: p in s'.agents ==>
          if p in who then AgentTimely(s', s'.agents[p]) else p in s.agents && s'.agents[p] == s.agents[p]
    requires forall m :: m in s'.broker ==> m in s.broker || NotEarly(s'.db.tasks, m.id, m.generation, m.readyAt)
    ensures Timely(cfg, s') && NextKept(s, s')
  {
    hide AttemptLedger, OutboxLedger, Evolves, Effect, AgentTimely, EventTimely, NotEarly, TaskTimely, AgentOk;
    TablesKeyed(cfg, s);
    TablesKeyed(cfg, s');
    forall i | 0 <= i < |s'.db.outbox| ensures EventTimely(s'.db.tasks, s'.hist, s'.db.outbox[i], s'.clock) {
      if i < |s.db.outbox| && s'.db.outbox[i] == s.db.outbox[i] {
        EventOfRow(s.db.tasks, s.db.outbox, s.hist, i);
        assert EventTimely(s.db.tasks, s.hist, s.db.outbox[i], s.clock);
        TasksGrow(s, s', s.db.outbox[i].notification);
        assert TaskOrKept(cfg, s, s', s.db.outbox[i].notification);
        EventTimelyKept(s, s', s.db.outbox[i]);
      }
    }
    forall p | p in s'.agents ensures AgentTimely(s', s'.agents[p]) {
      if p !in who { AgentTimelyKept(cfg, s, s', p, s.agents[p], who); }
    }
    forall m | m in s'.broker ensures NotEarly(s'.db.tasks, m.id, m.generation, m.readyAt) {
      if m in s.broker {
        assert MessageOk(s.db.tasks, m);
        NotEarlyKept(s, s', m.id, m.generation, m.readyAt);
      }
    }
    forall id | id in s'.db.tasks ensures id in s'.hist && TaskTimely(cfg, s'.db.tasks[id], s'.hist[id], s'.clock) {
      assert TaskOrKept(cfg, s, s', id);
    }
    forall id | id in s.db.tasks ensures id in s'.db.tasks && s.db.tasks[id].next <= s'.db.tasks[id].next {
      TasksGrow(s, s', id);
      assert TaskOrKept(cfg, s, s', id);
    }
  }

  lemma TasksGrow(s: State, s': State, id: Id)
    requires Evolves(s, s') && id in s.db.tasks
    ensures id in s'.db.tasks
  {
  }

  /** One task row changes, with at most one new outbox row. */
  lemma OneTaskTimely(cfg: Config, s: State, s': State, id: Id, who: set<Pid>)
    requires Fence(cfg, s) && Timely(cfg, s) && Fence(cfg, s') && s'.clock == s.clock && s'.broker == s.broker
    requires Evolves(s, s') && Effect(s, s', s.clock, who)
    requires id in s'.db.tasks && id in s'.hist
    requires s'.db.tasks == s.db.tasks[id := s'.db.tasks[id]] && s'.hist == s.hist[id := s'.hist[id]]
    requires TaskTimely(cfg, s'.db.tasks[id], s'.hist[id], s.clock)
    requires id in s.db.tasks ==> s'.db.tasks[id] != s.db.tasks[id] && s.db.tasks[id].next <= s'.db.tasks[id].next
    requires s'.db.outbox == s.db.outbox
             || (|s'.db.outbox| == |s.db.outbox| + 1 && s.db.outbox <= s'.db.outbox
                 && EventTimely(s'.db.tasks, s'.hist, s'.db.outbox[|s.db.outbox|], s.clock))
    requires forall p :: p in s'.agents ==>
          if p in who then AgentTimely(s', s'.agents[p]) else p in s.agents && s'.agents[p] == s.agents[p]
    ensures Timely(cfg, s') && NextKept(s, s')
  {
    hide Fence, Evolves, Effect, AgentTimely, EventTimely, NotEarly, TaskTimely;
    assert s.db.tasks.Keys == s.hist.Keys by { Keyed(cfg, s); }
    TimelyKept(cfg, s, s', who);
  }

  lemma Keyed(cfg: Config, s: State)
    requires Fence(cfg, s)
    ensures s.db.tasks.Keys == s.hist.Keys
  {
    TablesKeyed(cfg, s);
  }

  /** Only agent p moves. */
  lemma AgentMoveTimely(cfg: Config, s: State, s': State, p: Pid)
    requires Fence(cfg, s) && Timely(cfg, s) && s' == s.(agents := s'.agents, receipts := s'.receipts) && Fence(cfg, s')
    requires forall q :: q in s'.agents && q != p ==> q in s.agents && s'.agents[q] == s.agents[q]
    requires p in s'.agents ==> AgentTimely(s', s'.agents[p])
    ensures Timely(cfg, s') && NextKept(s, s')
  {
    hide Fence;
    assert forall q :: q in s'.agents && q != p ==> AgentTimely(s', s.agents[q]);
  }

  // ---- steps --------------------------------------------------------------------------------------

  lemma SubmitTimely(cfg: Config, s: State, a: Step)
    requires Fence(cfg, s) && Timely(cfg, s) && Enabled(cfg, s, s.clock, a) && a.Submit?
    ensures var s' := Apply(cfg, s, s.clock, a); Timely(cfg, s') && NextKept(s, s')
  {
    hide Fence, Timely, Evolves, Effect;
    var s' := Apply(cfg, s, s.clock, a);
    StepFenced(cfg, s, s.clock, a);
    StepEffect(cfg, s, s.clock, a);
    OneTaskTimely(cfg, s, s', a.id, {});
  }

  lemma RetryByHandTimely(cfg: Config, s: State, a: Step)
    requires Fence(cfg, s) && Timely(cfg, s) && Enabled(cfg, s, s.clock, a) && a.RetryByHand?
    ensures var s' := Apply(cfg, s, s.clock, a); Timely(cfg, s') && NextKept(s, s')
  {
    hide Fence, Evolves, Effect, EventTimely, AgentTimely;
    var s' := Apply(cfg, s, s.clock, a);
    StepFenced(cfg, s, s.clock, a);
    StepEffect(cfg, s, s.clock, a);
    assert TaskTimely(cfg, s.db.tasks[a.id], s.hist[a.id], s.clock);
    NewTriggerTimely(cfg, s', a.id, Dispatch, s.clock);
    OneTaskTimely(cfg, s, s', a.id, {});
  }

  lemma NewTriggerTimely(cfg: Config, s: State, id: Id, route: Route, available: Time)
    requires id in s.db.tasks && id in s.hist && TaskTimely(cfg, s.db.tasks[id], s.hist[id], s.clock)
    requires s.db.tasks[id].next <= available + QueueTtl(route)
    ensures EventTimely(s.db.tasks, s.hist, NewEvent(id, s.db.tasks[id].generation, route, available, s.clock), s.clock)
  {
  }

  /** A pending snapshot of the current generation is the current row. */
  lemma PendingSnapshotIsRow(cfg: Config, s: State, p: Pid)
    requires Fence(cfg, s) && p in s.agents && (s.agents[p].Deferring? || s.agents[p].Admitted?)
    ensures var n := s.agents[p].n;
            && n.id in s.db.tasks && n.id in s.hist && s.db.tasks[n.id].id == n.id && 1 <= s.db.tasks[n.id].generation
            && (s.db.tasks[n.id].generation == n.generation && s.db.tasks[n.id].status == Pending ==>
                s.db.tasks[n.id] == n)
  {
    assert AgentOk(cfg, s.db, s.issued, s.receipts, p, s.agents[p]);
    LeaseOfRow(cfg, s, s.agents[p].n.id);
    GenerationPositive(cfg, s, s.agents[p].n.id);
  }

  lemma DeferTimely(cfg: Config, s: State, a: Step)
    requires Fence(cfg, s) && Timely(cfg, s) && Enabled(cfg, s, s.clock, a) && a.DeferTx?
    ensures var s' := Apply(cfg, s, s.clock, a); Timely(cfg, s') && NextKept(s, s')
  {
    hide Fence, Evolves, Effect, EventTimely;
    var s' := Apply(cfg, s, s.clock, a);
    StepFenced(cfg, s, s.clock, a);
    StepEffect(cfg, s, s.clock, a);
    PendingSnapshotIsRow(cfg, s, a.p);
    var n := s.agents[a.p].n;
    if Deferrable(s.db, n.id, n.generation) {
      assert AgentTimely(s, s.agents[a.p]);
      assert TaskTimely(cfg, s.db.tasks[n.id], s.hist[n.id], s.clock);
      NewTriggerTimely(cfg, s', n.id, Dispatch, s.clock + DEFER_DELAY);
      OneTaskTimely(cfg, s, s', n.id, {a.p});
    } else {
      AgentMoveTimely(cfg, s, s', a.p);
    }
  }

  lemma ClaimTimely(cfg: Config, s: State, a: Step)
    requires Fence(cfg, s) && Timely(cfg, s) && Enabled(cfg, s, s.clock, a) && a.ClaimTx?
    ensures var s' := Apply(cfg, s, s.clock, a); Timely(cfg, s') && NextKept(s, s')
  {
    hide Fence, Evolves, Effect, EventTimely;
    var s' := Apply(cfg, s, s.clock, a);
    StepFenced(cfg, s, s.clock, a);
    StepEffect(cfg, s, s.clock, a);
    PendingSnapshotIsRow(cfg, s, a.p);
    var n := s.agents[a.p].n;
    assert AgentTimely(s, s.agents[a.p]);
    if Claimable(s.db, s.clock, n.id, n.generation) {
      assert TaskTimely(cfg, s.db.tasks[n.id], s.hist[n.id], s.clock);
      assert s.hist[n.id := s.hist[n.id]] == s.hist;
      OneTaskTimely(cfg, s, s', n.id, {a.p});
    } else {
      AgentMoveTimely(cfg, s, s', a.p);
    }
  }

  /** The row behind a lease snapshot, when the lease is still the current one. */
  lemma LeaseSnapshotIsRow(cfg: Config, s: State, p: Pid)
    requires Fence(cfg, s) && p in s.agents && (s.agents[p].Ready? || s.agents[p].Recovering?)
    ensures var n := s.agents[p].n;
            && n.id in s.db.tasks && n.id in s.hist && s.db.tasks[n.id].id == n.id && 1 <= s.db.tasks[n.id].generation
            && (SameLease(s.db.tasks[n.id], n) ==> s.db.tasks[n.id] == n)
            && PlanOk(cfg, n, s.agents[p].plan, s.agents[p].at)
  {
    assert AgentOk(cfg, s.db, s.issued, s.receipts, p, s.agents[p]);
    LeaseOfRow(cfg, s, s.agents[p].n.id);
    GenerationPositive(cfg, s, s.agents[p].n.id);
  }

  lemma TimelyParts(cfg: Config, s: State, p: Pid, id: Id)
    requires Timely(cfg, s) && p in s.agents && id in s.db.tasks && id in s.hist
    ensures AgentTimely(s, s.agents[p]) && TaskTimely(cfg, s.db.tasks[id], s.hist[id], s.clock)
  {
  }

  lemma FinishTimely(cfg: Config, s: State, a: Step)
    requires Fence(cfg, s) && Timely(cfg, s) && Enabled(cfg, s, s.clock, a) && a.FinishTx?
    ensures var s' := Apply(cfg, s, s.clock, a); Timely(cfg, s') && NextKept(s, s')
  {
    hide Fence, Evolves, Effect, EventTimely, ValidRoute, Timely;
    var s' := Apply(cfg, s, s.clock, a);
    StepFenced(cfg, s, s.clock, a);
    StepEffect(cfg, s, s.clock, a);
    LeaseSnapshotIsRow(cfg, s, a.p);
    var x := s.agents[a.p];
    TimelyParts(cfg, s, a.p, x.n.id);
    if Finishable(s.db, s.clock, x.n) {
      assert s.hist[x.n.id := s.hist[x.n.id]] == s.hist;
      if x.plan.decision.verdict == Retry { NewTriggerTimely(cfg, s', x.n.id, x.plan.route, s.clock); }
      OneTaskTimely(cfg, s, s', x.n.id, {a.p});
    } else {
      AgentMoveTimely(cfg, s, s', a.p);
    }
  }

  lemma RecoverTimely(cfg: Config, s: State, a: Step)
    requires Fence(cfg, s) && Timely(cfg, s) && Enabled(cfg, s, s.clock, a) && a.RecoverTx?
    ensures var s' := Apply(cfg, s, s.clock, a); Timely(cfg, s') && NextKept(s, s')
  {
    hide Fence, Evolves, Effect, EventTimely, ValidRoute, Timely;
    var s' := Apply(cfg, s, s.clock, a);
    StepFenced(cfg, s, s.clock, a);
    StepEffect(cfg, s, s.clock, a);
    LeaseSnapshotIsRow(cfg, s, a.p);
    var x := s.agents[a.p];
    TimelyParts(cfg, s, a.p, x.n.id);
    if Recoverable(s.db, s.clock, x.n) {
      if x.plan.decision.verdict == Retry { NewTriggerTimely(cfg, s', x.n.id, x.plan.route, s.clock); }
      OneTaskTimely(cfg, s, s', x.n.id, {a.p});
    } else {
      AgentMoveTimely(cfg, s, s', a.p);
    }
  }

  lemma ReconcileTaskTimely(cfg: Config, s: State, id: Id)
    requires Fence(cfg, s) && Timely(cfg, s) && id in s.db.tasks && id in s.hist
    requires s.db.tasks[id].status == Pending && s.db.tasks[id].next <= s.clock
    ensures var s' := ReconcileTask(s, s.clock, id); Timely(cfg, s') && NextKept(s, s')
  {
    hide Fence, Evolves, EventTimely, AgentTimely;
    var s' := ReconcileTask(s, s.clock, id);
    ReconcileTaskFenced(cfg, s, s.clock, id);
    LeaseOfRow(cfg, s, id);
    assert TaskTimely(cfg, s.db.tasks[id], s.hist[id], s.clock);
    NewTriggerTimely(cfg, s', id, Dispatch, s.clock);
    OneTaskTimely(cfg, s, s', id, {});
  }

  lemma {:induction false} ReconcileAllTimely(cfg: Config, s: State, ids: seq<Id>)
    requires Fence(cfg, s) && Timely(cfg, s)
    requires forall i :: 0 <= i < |ids| ==> ids[i] in s.db.tasks && ids[i] in s.hist
    requires forall i :: 0 <= i < |ids| ==> s.db.tasks[ids[i]].status == Pending && s.db.tasks[ids[i]].next <= s.clock
    ensures var s' := ReconcileAll(s, s.clock, ids);
            Fence(cfg, s') && Timely(cfg, s') && NextKept(s, s') && s'.clock == s.clock && s'.agents == s.agents
    decreases |ids|
  {
    hide Fence, Timely, Evolves;
    if ids != [] {
      ReconcileTaskFenced(cfg, s, s.clock, ids[0]);
      ReconcileTaskTimely(cfg, s, ids[0]);
      var s1 := ReconcileTask(s, s.clock, ids[0]);
      assert forall i :: 0 <= i < |ids[1..]| ==> ids[1..][i] == ids[i + 1];
      ReconcileAllTimely(cfg, s1, ids[1..]);
      assert ReconcileAll(s, s.clock, ids) == ReconcileAll(s1, s.clock, ids[1..]);
    }
  }

  lemma ReconcileTimely(cfg: Config, s: State, a: Step)
    requires Fence(cfg, s) && Timely(cfg, s) && Enabled(cfg, s, s.clock, a) && a.ReconcileTx?
    ensures var s' := Apply(cfg, s, s.clock, a); Timely(cfg, s') && NextKept(s, s')
  {
    hide Fence, Timely, LiveTrigger, ReconcileAll;
    forall i | 0 <= i < |a.ids|
      ensures a.ids[i] in s.db.tasks && s.db.tasks[a.ids[i]].status == Pending && s.db.tasks[a.ids[i]].next <= s.clock
    {
      assert IsStale(s.db, s.clock, a.ids[i]);
    }
    ReconcileAllTimely(cfg, s, a.ids);
    var r := ReconcileAll(s, s.clock, a.ids);
    StepFenced(cfg, s, s.clock, a);
    AgentMoveTimely(cfg, r, Drop(r, a.p), a.p);
  }

  // ---- dispatcher ---------------------------------------------------------------------------------

  /** One outbox row changes; the tasks stay as they are. */
  lemma OneRowTimely(cfg: Config, s: State, s': State, row: nat, p: Pid)
    requires Fence(cfg, s) && Timely(cfg, s) && Fence(cfg, s') && s'.clock == s.clock && s'.broker == s.broker
          && s'.hist == s.hist
    requires Evolves(s, s') && Effect(s, s', s.clock, {p})
    requires row < |s.db.outbox| && s'.db.tasks == s.db.tasks && |s'.db.outbox| == |s.db.outbox|
    requires s'.db.outbox == s.db.outbox[row := s'.db.outbox[row]]
          && EventTimely(s'.db.tasks, s'.hist, s'.db.outbox[row], s.clock)
    requires forall q :: q in s'.agents ==>
          if q == p then AgentTimely(s', s'.agents[q]) else q in s.agents && s'.agents[q] == s.agents[q]
    ensures Timely(cfg, s') && NextKept(s, s')
  {
    hide Fence, Evolves, Effect, AgentTimely, EventTimely, NotEarly, TaskTimely;
    assert s.db.tasks.Keys == s.hist.Keys by { Keyed(cfg, s); }
    TimelyKept(cfg, s, s', {p});
  }

  lemma TakeTimely(cfg: Config, s: State, a: Step)
    requires Fence(cfg, s) && Timely(cfg, s) && Enabled(cfg, s, s.clock, a) && a.Take?
    ensures var s' := Apply(cfg, s, s.clock, a); Timely(cfg, s') && NextKept(s, s')
  {
    hide Fence, Evolves, Effect, FirstReady;
    var s' := Apply(cfg, s, s.clock, a);
    ReadyRow(s.db.outbox, s.clock, a.row, a.lockedRows);
    StepFenced(cfg, s, s.clock, a);
    StepEffect(cfg, s, s.clock, a);
    assert EventTimely(s.db.tasks, s.hist, s.db.outbox[a.row], s.clock);
    OneRowTimely(cfg, s, s', a.row, a.p);
  }

  lemma PublishedTimely(cfg: Config, s: State, a: Step)
    requires Fence(cfg, s) && Timely(cfg, s) && Enabled(cfg, s, s.clock, a) && (a.PublishedTx? || a.ReleaseTx?)
    ensures var s' := Apply(cfg, s, s.clock, a); Timely(cfg, s') && NextKept(s, s')
  {
    hide Fence, Evolves, Effect, AgentTimely;
    var s' := Apply(cfg, s, s.clock, a);
    StepFenced(cfg, s, s.clock, a);
    StepEffect(cfg, s, s.clock, a);
    var row := s.agents[a.p].row;
    if row < |s.db.outbox| && s'.db != s.db {
      assert EventTimely(s.db.tasks, s.hist, s.db.outbox[row], s.clock);
      OneRowTimely(cfg, s, s', row, a.p);
    } else {
      AgentMoveTimely(cfg, s, s', a.p);
    }
  }

  lemma SendTimely(cfg: Config, s: State, a: Step)
    requires Fence(cfg, s) && Timely(cfg, s) && Enabled(cfg, s, s.clock, a) && a.Send?
    ensures var s' := Apply(cfg, s, s.clock, a); Timely(cfg, s') && NextKept(s, s')
  {
    hide Fence, Evolves, Effect, EventTimely, TaskTimely;
    var s' := Apply(cfg, s, s.clock, a);
    StepFenced(cfg, s, s.clock, a);
    StepEffect(cfg, s, s.clock, a);
    assert AgentTimely(s, s.agents[a.p]);
    assert s.db.tasks.Keys == s.hist.Keys by { Keyed(cfg, s); }
    TimelyKept(cfg, s, s', {a.p});
  }

  lemma ResetTimely(s: State, e: Event)
    requires EventTimely(s.db.tasks, s.hist, e, s.clock)
    ensures EventTimely(s.db.tasks, s.hist, ResetEvent(e), s.clock)
  {
  }

  lemma ResetRowsTimely(s: State, rows: set<nat>)
    requires forall i :: 0 <= i < |s.db.outbox| ==> EventTimely(s.db.tasks, s.hist, s.db.outbox[i], s.clock)
    ensures var b := ResetRows(s.db.outbox, rows);
            |b| == |s.db.outbox| && forall i :: 0 <= i < |b| ==> EventTimely(s.db.tasks, s.hist, b[i], s.clock)
  {
    hide EventTimely;
    forall i | 0 <= i < |s.db.outbox|
      ensures EventTimely(s.db.tasks, s.hist, ResetRows(s.db.outbox, rows)[i], s.clock)
    {
      assert EventTimely(s.db.tasks, s.hist, s.db.outbox[i], s.clock);
      ResetTimely(s, s.db.outbox[i]);
    }
  }

  lemma SweepOutboxTimely(cfg: Config, s: State, a: Step)
    requires Fence(cfg, s) && Timely(cfg, s) && Enabled(cfg, s, s.clock, a) && a.SweepOutbox?
    ensures var s' := Apply(cfg, s, s.clock, a); Timely(cfg, s') && NextKept(s, s')
  {
    hide Fence, Evolves, Effect, TaskTimely, AbandonedRows, NotEarly, EventTimely, ResetRows;
    var s' := Apply(cfg, s, s.clock, a);
    StepFenced(cfg, s, s.clock, a);
    StepEffect(cfg, s, s.clock, a);
    ResetRowsTimely(s, a.rows);
    assert s.db.tasks.Keys == s.hist.Keys by { Keyed(cfg, s); }
    hide Timely, Enabled;
    TimelyKept(cfg, s, s', {a.p});
  }

  // ---- steps that move one agent ------------------------------------------------------------------

  lemma StartTimely(cfg: Config, s: State, a: Step)
    requires Fence(cfg, s) && Timely(cfg, s) && Enabled(cfg, s, s.clock, a) && (a.Receive? || a.Proxy? || a.Load?)
    ensures var s' := Apply(cfg, s, s.clock, a); Timely(cfg, s') && NextKept(s, s')
  {
    hide Fence, Evolves, EventTimely;
    var s' := Apply(cfg, s, s.clock, a);
    StepFenced(cfg, s, s.clock, a);
    if a.Proxy? { assert TaskTimely(cfg, s.db.tasks[a.id], s.hist[a.id], s.clock); }
    if a.Load? { assert AgentTimely(s, s.agents[a.p]); }
    AgentMoveTimely(cfg, s, s', a.p);
  }

  lemma GuardTimely(cfg: Config, s: State, a: Step)
    requires Fence(cfg, s) && Timely(cfg, s) && Enabled(cfg, s, s.clock, a)
    requires a.NotBefore? || a.Check? || a.LockRefused? || a.Gate?
    ensures var s' := Apply(cfg, s, s.clock, a); Timely(cfg, s') && NextKept(s, s')
  {
    hide Fence, Evolves, EventTimely, TaskTimely;
    var s' := Apply(cfg, s, s.clock, a);
    StepFenced(cfg, s, s.clock, a);
    assert AgentTimely(s, s.agents[a.p]);
    AgentMoveTimely(cfg, s, s', a.p);
  }

  /** At the moment of the call the claimed row is still the current one, and the gate was passed. */
  lemma DecideTimely(cfg: Config, s: State, a: Step)
    requires Fence(cfg, s) && Timely(cfg, s) && Enabled(cfg, s, s.clock, a) && a.Decide?
    ensures var s' := Apply(cfg, s, s.clock, a); Timely(cfg, s') && NextKept(s, s')
  {
    hide Fence, Evolves, EventTimely, TaskTimely, NotEarly;
    var s' := Apply(cfg, s, s.clock, a);
    StepFenced(cfg, s, s.clock, a);
    assert AgentTimely(s, s.agents[a.p]);
    AgentMoveTimely(cfg, s, s', a.p);
  }

  lemma CallTimely(cfg: Config, s: State, a: Step)
    requires Fence(cfg, s) && Timely(cfg, s) && Enabled(cfg, s, s.clock, a)
    requires a.Return? || a.PlanRetry?
    ensures var s' := Apply(cfg, s, s.clock, a); Timely(cfg, s') && NextKept(s, s')
  {
    hide Fence, Evolves, EventTimely, TaskTimely, PlanFor;
    var s' := Apply(cfg, s, s.clock, a);
    StepFenced(cfg, s, s.clock, a);
    assert AgentTimely(s, s.agents[a.p]);
    AgentMoveTimely(cfg, s, s', a.p);
  }

  lemma PublishEndTimely(cfg: Config, s: State, a: Step)
    requires Fence(cfg, s) && Timely(cfg, s) && Enabled(cfg, s, s.clock, a)
    requires a.Confirm? || a.Unconfirmed?
    ensures var s' := Apply(cfg, s, s.clock, a); Timely(cfg, s') && NextKept(s, s')
  {
    hide Fence, Evolves, EventTimely, TaskTimely, NotEarly;
    var s' := Apply(cfg, s, s.clock, a);
    StepFenced(cfg, s, s.clock, a);
    assert AgentTimely(s, s.agents[a.p]);
    hide Timely;
    AgentMoveTimely(cfg, s, s', a.p);
  }

  lemma CrashTimely(cfg: Config, s: State, a: Step)
    requires Fence(cfg, s) && Timely(cfg, s) && Enabled(cfg, s, s.clock, a) && a.Crash?
    ensures var s' := Apply(cfg, s, s.clock, a); Timely(cfg, s') && NextKept(s, s')
  {
    hide Fence, Evolves, Timely;
    var s' := Apply(cfg, s, s.clock, a);
    StepFenced(cfg, s, s.clock, a);
    AgentMoveTimely(cfg, s, s', a.p);
  }

  lemma ListTimely(cfg: Config, s: State, ns: seq<Task>)
    requires Timely(cfg, s) && ExpiredList(s.db, s.clock, ns) && s.db.tasks.Keys <= s.hist.Keys
    ensures forall i :: 0 <= i < |ns| ==> ns[i].next <= s.clock
  {
    hide AgentTimely, EventTimely;
    forall i | 0 <= i < |ns| ensures ns[i].next <= s.clock {
      assert ns[i] == s.db.tasks[ns[i].id] && IsExpired(ns[i], s.clock);
      assert TaskTimely(cfg, s.db.tasks[ns[i].id], s.hist[ns[i].id], s.clock);
    }
  }

  lemma LoopTimely(cfg: Config, s: State, a: Step)
    requires Fence(cfg, s) && Timely(cfg, s) && Enabled(cfg, s, s.clock, a)
    requires a.ReadExpired? || a.PlanRecovery?
    ensures var s' := Apply(cfg, s, s.clock, a); Timely(cfg, s') && NextKept(s, s')
  {
    hide Fence, Evolves, EventTimely, PlanFor, ExpiredList;
    var s' := Apply(cfg, s, s.clock, a);
    StepFenced(cfg, s, s.clock, a);
    if a.ReadExpired? {
      Keyed(cfg, s);
      ListTimely(cfg, s, a.ns);
    } else {
      assert AgentTimely(s, s.agents[a.p]);
    }
    AgentMoveTimely(cfg, s, s', a.p);
  }

  lemma LoseTimely(cfg: Config, s: State, s': State)
    requires Timely(cfg, s) && s' == s.(broker := s'.broker) && s'.broker <= s.broker
    ensures Timely(cfg, s') && NextKept(s, s')
  {
    hide EventTimely, NotEarly, TaskTimely;
    forall p | p in s'.agents ensures AgentTimely(s', s'.agents[p]) { assert AgentTimely(s, s.agents[p]); }
  }

  lemma TickTimely(cfg: Config, s: State, to: Time)
    requires Timely(cfg, s) && s.clock <= to && ContextsAllow(s, to)
    ensures var s' := s.(clock := to); Timely(cfg, s') && NextKept(s, s')
  {
    hide NotEarly;
    var s' := s.(clock := to);
    forall p | p in s'.agents ensures AgentTimely(s', s'.agents[p]) {
      TickAgent(s, p, to);
    }
    forall i | 0 <= i < |s'.db.outbox| ensures EventTimely(s'.db.tasks, s'.hist, s'.db.outbox[i], s'.clock) {
      assert EventTimely(s.db.tasks, s.hist, s.db.outbox[i], s.clock);
    }
  }

  lemma TickAgent(s: State, p: Pid, to: Time)
    requires p in s.agents && AgentTimely(s, s.agents[p]) && s.clock <= to && ContextsAllow(s, to)
    ensures AgentTimely(s.(clock := to), s.agents[p])
  {
  }

  lemma LoseStep(cfg: Config, s: State, m: Message)
    requires Timely(cfg, s) && Enabled(cfg, s, s.clock, Lose(m))
    ensures var s' := Apply(cfg, s, s.clock, Lose(m)); Timely(cfg, s') && NextKept(s, s')
  {
    hide Timely, NextKept;
    LoseTimely(cfg, s, Apply(cfg, s, s.clock, Lose(m)));
  }

  lemma TickStep(cfg: Config, s: State, to: Time)
    requires Timely(cfg, s) && Enabled(cfg, s, s.clock, Tick(to))
    ensures var s' := Apply(cfg, s, s.clock, Tick(to)); Timely(cfg, s') && NextKept(s, s')
  {
    hide Timely, NextKept, ContextsAllow;
    TickTimely(cfg, s, to);
  }

  /** Every step that reads the shared clock keeps the timed invariant and never lowers a next time. */
  lemma StepTimely(cfg: Config, s: State, a: Step)
    requires Fence(cfg, s) && Timely(cfg, s) && Enabled(cfg, s, s.clock, a)
    ensures var s' := Apply(cfg, s, s.clock, a); Timely(cfg, s') && NextKept(s, s')
  {
    hide Fence, Timely, NextKept, Apply, Enabled;
    match a
    case Submit(_, _, _, _, _, _, _) => SubmitTimely(cfg, s, a);
    case RetryByHand(_, _, _) => RetryByHandTimely(cfg, s, a);
    case Receive(_, _) => StartTimely(cfg, s, a);
    case Proxy(_, _) => StartTimely(cfg, s, a);
    case Load(_) => StartTimely(cfg, s, a);
    case NotBefore(_) => GuardTimely(cfg, s, a);
    case Check(_, _) => GuardTimely(cfg, s, a);
    case LockRefused(_) => GuardTimely(cfg, s, a);
    case Gate(_, _) => GuardTimely(cfg, s, a);
    case DeferTx(_) => DeferTimely(cfg, s, a);
    case ClaimTx(_, _) => ClaimTimely(cfg, s, a);
    case Decide(_, _, _) => DecideTimely(cfg, s, a);
    case Return(_, _) => CallTimely(cfg, s, a);
    case PlanRetry(_) => CallTimely(cfg, s, a);
    case FinishTx(_) => FinishTimely(cfg, s, a);
    case Take(_, _, _, _) => TakeTimely(cfg, s, a);
    case Send(_) => SendTimely(cfg, s, a);
    case Confirm(_) => PublishEndTimely(cfg, s, a);
    case Unconfirmed(_) => PublishEndTimely(cfg, s, a);
    case PublishedTx(_) => PublishedTimely(cfg, s, a);
    case ReleaseTx(_) => PublishedTimely(cfg, s, a);
    case SweepOutbox(_, _) => SweepOutboxTimely(cfg, s, a);
    case ReadExpired(_, _) => LoopTimely(cfg, s, a);
    case PlanRecovery(_) => LoopTimely(cfg, s, a);
    case RecoverTx(_) => RecoverTimely(cfg, s, a);
    case ReconcileTx(_, _, _) => ReconcileTimely(cfg, s, a);
    case Crash(_) => CrashTimely(cfg, s, a);
    case Lose(m) => LoseStep(cfg, s, m);
    case Tick(to) => TickStep(cfg, s, to);
  }

  // ---- timed runs ---------------------------------------------------------------------------------

  /** Every run under the shared clock keeps both invariants, and `next_attempt_at` never decreases. */
  lemma {:induction false} RunTimely(cfg: Config, s: State, script: seq<Move>)
    requires Fence(cfg, s) && Timely(cfg, s) && Timed(cfg, s, script)
    ensures Legal(cfg, s, script)
    ensures var s' := Run(cfg, s, script); Fence(cfg, s') && Timely(cfg, s') && NextKept(s, s')
    decreases |script|
  {
    hide Fence, Timely, Enabled, Apply, Evolves;
    if script != [] {
      var s1 := Apply(cfg, s, s.clock, script[0].step);
      StepFenced(cfg, s, s.clock, script[0].step);
      StepTimely(cfg, s, script[0].step);
      RunTimely(cfg, s1, script[1..]);
    }
  }

  ghost predicate TimedReachable(cfg: Config, s: State) {
    exists s0: State, script: seq<Move> :: Initial(s0) && Timed(cfg, s0, script) && Legal(cfg, s0, script)
        && Run(cfg, s0, script) == s
  }

  lemma TimedReachableInvariant(cfg: Config, s: State)
    requires TimedReachable(cfg, s)
    ensures Fence(cfg, s) && Timely(cfg, s)
  {
    hide Fence, Run, Legal, Timed;
    var s0: State, script: seq<Move> :| Initial(s0) && Timed(cfg, s0, script) && Legal(cfg, s0, script)
        && Run(cfg, s0, script) == s;
    InitialFenced(cfg, s0);
    assert Timely(cfg, s0);
    RunTimely(cfg, s0, script);
  }
}
