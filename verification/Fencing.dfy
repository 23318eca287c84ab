/** What the fences keep, whatever the clocks read: the invariant of every reachable state and how any
    step may change a row, an attempt and an outbox row. */
module Fencing {
  import opened Domain
  import opened RetrySchedule
  import opened Transactions
  import opened Ledger
  import opened Protocol

  // ---- rows ---------------------------------------------------------------------------------------

  /** Retries that the pinned policy of a task allows. */
  ghost function Retries(cfg: Config, t: Task): nat
    requires Known(cfg, t)
  {
    |cfg[(t.revision, t.target)].retry.delays|
  }

  ghost function AttemptBudget(cycles: nat, retries: nat): nat { cycles * (retries + 1) }

  lemma BudgetStep(cycles: nat, retries: nat)
    ensures AttemptBudget(cycles + 1, retries) == AttemptBudget(cycles, retries) + retries + 1
  {
  }

  ghost predicate TaskOk(cfg: Config, t: Task, h: History, issued: map<Token, Pid>) {
    && 1 <= t.generation && Known(cfg, t)
    && (t.status == InFlight <==> t.lease.Some?)
    && (t.lease.Some? ==> t.lease.value.token in issued && 1 <= t.attempts && 1 <= t.cycle)
    && t.cycle <= Retries(cfg, t) + (if t.status == Pending then 0 else 1)
    && t.attempts <= AttemptBudget(h.manualRetries, Retries(cfg, t)) + t.cycle
  }

  ghost predicate DbFence(cfg: Config, db: Db, hist: map<Id, History>, issued: map<Token, Pid>,
      receipts: set<Receipt>) {
    && AttemptLedger(db.tasks, db.attempts)
    && OutboxLedger(db.tasks, db.outbox, hist)
    && db.tasks.Keys == hist.Keys
    && (forall id :: id in db.tasks ==> db.tasks[id].id == id && TaskOk(cfg, db.tasks[id], hist[id], issued))
    && (forall x :: x in db.attempts ==> db.attempts[x].token in issued)
    && (forall i :: 0 <= i < |db.outbox| ==> RowFence(db.outbox[i], issued, receipts))
    && ReceiptsOk(receipts)
  }

  /** The broker confirms only what it was sent under the same token. */
  ghost predicate ReceiptsOk(receipts: set<Receipt>) {
    forall r :: r in receipts && r.Acked? ==> Shipped(r.token, r.id, r.generation) in receipts
  }

  ghost predicate WasAcked(receipts: set<Receipt>, id: Id, generation: nat) {
    exists token :: Acked(token, id, generation) in receipts
  }

  ghost predicate RowFence(e: Event, issued: map<Token, Pid>, receipts: set<Receipt>) {
    && (e.lease.Some? ==> e.lease.value.token in issued)
    && (e.status == Published ==> WasAcked(receipts, e.notification, e.generation))
  }

  // ---- snapshots ----------------------------------------------------------------------------------

  ghost predicate SameIdentity(n: Task, t: Task) {
    n.id == t.id && n.client == t.client && n.key == t.key && n.hash == t.hash && n.target == t.target
        && n.revision == t.revision
  }

  /** t may be the current version of the row whose earlier version is n. */
  ghost predicate Since(n: Task, t: Task) {
    && SameIdentity(n, t)
    && n.generation <= t.generation
    && (n.generation == t.generation ==>
        n.next == t.next && n.deadline == t.deadline && (t.status == Pending ==> t == n))
    && (SameLease(t, n) ==> t == n)
  }

  ghost predicate Snapshot(db: Db, n: Task) { n.id in db.tasks && Since(n, db.tasks[n.id]) }

  /** n is a version of the row that was pending. */
  ghost predicate PendingSnapshot(db: Db, n: Task) { Snapshot(db, n) && n.status == Pending && n.lease.None? }

  ghost predicate LeaseSnapshot(db: Db, issued: map<Token, Pid>, n: Task) {
    Snapshot(db, n) && n.status == InFlight && n.lease.Some? && n.lease.value.token in issued
  }

  /** n is the row that agent p claimed. */
  ghost predicate ClaimSnapshot(db: Db, issued: map<Token, Pid>, n: Task, p: Pid) {
    LeaseSnapshot(db, issued, n) && issued[n.lease.value.token] == p
  }

  ghost predicate PlanOk(cfg: Config, n: Task, plan: Plan, at: Time) {
    && Known(cfg, n)
    && (plan.decision.verdict == Retry ==>
          && 1 <= n.cycle <= Retries(cfg, n) && ValidRoute(plan.route)
          && plan.next == Some(at + QueueTtl(plan.route)) && 0 < QueueTtl(plan.route))
    && (plan.decision.verdict != Retry ==> plan.next == None)
  }

  ghost predicate AgentOk(cfg: Config, db: Db, issued: map<Token, Pid>, receipts: set<Receipt>, p: Pid, a: Agent) {
    match a
    case Started(_, id, generation) => id in db.tasks && generation <= db.tasks[id].generation
    case Loaded(_, n) => PendingSnapshot(db, n)
    case Due(_, n) => PendingSnapshot(db, n)
    case Checked(_, n, _, _, _) => PendingSnapshot(db, n)
    case Deferring(n, _) => PendingSnapshot(db, n)
    case Admitted(_, n, _, _) => PendingSnapshot(db, n)
    case Claimed(_, n, _, _) => ClaimSnapshot(db, issued, n, p)
    case Delivering(_, n, _, _, _) => ClaimSnapshot(db, issued, n, p)
    case Decided(n, _) => ClaimSnapshot(db, issued, n, p)
    case Ready(n, plan, at) => ClaimSnapshot(db, issued, n, p) && PlanOk(cfg, n, plan, at)
    case Publisher(_, row, token, id, generation, route, s) =>
      && row < |db.outbox| && token in issued && issued[token] == p
      && Triggers(db.outbox[row], id, generation) && db.outbox[row].route == route
      && (s ==> Shipped(token, id, generation) in receipts)
    case Confirmed(row, token) =>
      && row < |db.outbox| && token in issued && issued[token] == p
      && Acked(token, db.outbox[row].notification, db.outbox[row].generation) in receipts
    case Releasing(row, token) => row < |db.outbox| && token in issued && issued[token] == p
    case Swept => true
    case Sweeping(rest) => forall i :: 0 <= i < |rest| ==> LeaseSnapshot(db, issued, rest[i])
    case Recovering(n, plan, at, rest) =>
      && LeaseSnapshot(db, issued, n) && PlanOk(cfg, n, plan, at) && plan == PlanFor(cfg, at, n, LEASE_EXPIRED)
      && forall i :: 0 <= i < |rest| ==> LeaseSnapshot(db, issued, rest[i])
  }

  ghost predicate MessageOk(tasks: map<Id, Task>, m: Message) {
    m.id in tasks && m.generation <= tasks[m.id].generation
  }

  ghost predicate AgentsOk(cfg: Config, s: State) {
    forall p :: p in s.agents ==> AgentOk(cfg, s.db, s.issued, s.receipts, p, s.agents[p])
  }

  /** The invariant of every reachable state. */
  ghost predicate Fence(cfg: Config, s: State) {
    && DbFence(cfg, s.db, s.hist, s.issued, s.receipts)
    && AgentsOk(cfg, s)
    && (forall m :: m in s.broker ==> MessageOk(s.db.tasks, m))
  }

  // ---- evolution ----------------------------------------------------------------------------------

  /** How any number of steps may change a task row: identity never changes, generations never fall,
      nothing but the status of a started attempt changes within a generation, a lease never comes
      back, and `delivered` is absorbing. */
  ghost predicate RowEvolves(t: Task, t': Task, issued: map<Token, Pid>) {
    && Since(t, t')
    && (t'.lease.Some? ==> t' == t || t'.lease.value.token !in issued)
    && t.attempts <= t'.attempts
    && (t.status == Delivered ==> t' == t)
  }

  /** How any number of steps may change an attempt: its outcome is written at most once. */
  ghost predicate AttemptEvolves(a: Attempt, a': Attempt) {
    && a'.generation == a.generation && a'.token == a.token && a'.started == a.started
    && (a.finished.Some? ==> a' == a)
  }

  /** How any number of steps may change an outbox row: it never triggers anything else, `published` is
      final, and a publish token never comes back. */
  ghost predicate EventEvolves(e: Event, e': Event, issued: map<Token, Pid>) {
    && SameTrigger(e, e')
    && (e.status == Published ==> e' == e)
    && (e'.lease.Some? ==> e' == e || e'.lease.value.token !in issued)
  }

  ghost predicate Evolves(s: State, s': State) {
    && (forall id :: id in s.db.tasks ==> id in s'.db.tasks && RowEvolves(s.db.tasks[id], s'.db.tasks[id], s.issued))
    && (forall x :: x in s.db.attempts ==> x in s'.db.attempts && AttemptEvolves(s.db.attempts[x], s'.db.attempts[x]))
    && |s.db.outbox| <= |s'.db.outbox|
    && (forall i :: 0 <= i < |s.db.outbox| ==> EventEvolves(s.db.outbox[i], s'.db.outbox[i], s.issued))
    && (forall k :: k in s.issued ==> k in s'.issued && s'.issued[k] == s.issued[k])
    && s.receipts <= s'.receipts
  }

  lemma SinceEvolves(n: Task, t: Task, t': Task, issued: map<Token, Pid>)
    requires Since(n, t) && RowEvolves(t, t', issued)
    requires n.lease.Some? ==> n.lease.value.token in issued
    ensures Since(n, t')
  {
  }

  lemma RowEvolvesTransitive(t: Task, t': Task, t'': Task, issued: map<Token, Pid>, issued': map<Token, Pid>)
    requires RowEvolves(t, t', issued) && RowEvolves(t', t'', issued')
    requires t.lease.Some? ==> t.lease.value.token in issued
    requires forall k :: k in issued ==> k in issued'
    ensures RowEvolves(t, t'', issued)
  {
  }

  lemma EvolvesTransitive(cfg: Config, a: State, b: State, c: State)
    requires Evolves(a, b) && Evolves(b, c) && DbFence(cfg, a.db, a.hist, a.issued, a.receipts)
    ensures Evolves(a, c)
  {
    forall id | id in a.db.tasks ensures id in c.db.tasks && RowEvolves(a.db.tasks[id], c.db.tasks[id], a.issued) {
      assert TaskOk(cfg, a.db.tasks[id], a.hist[id], a.issued);
      RowEvolvesTransitive(a.db.tasks[id], b.db.tasks[id], c.db.tasks[id], a.issued, b.issued);
    }
    forall x | x in a.db.attempts ensures x in c.db.attempts && AttemptEvolves(a.db.attempts[x], c.db.attempts[x]) {
      assert AttemptEvolves(a.db.attempts[x], b.db.attempts[x]) && AttemptEvolves(b.db.attempts[x], c.db.attempts[x]);
    }
    forall i | 0 <= i < |a.db.outbox| ensures EventEvolves(a.db.outbox[i], c.db.outbox[i], a.issued) {
      assert EventEvolves(a.db.outbox[i], b.db.outbox[i], a.issued)
          && EventEvolves(b.db.outbox[i], c.db.outbox[i], b.issued);
    }
  }

  lemma EvolvesReflexive(s: State)
    ensures Evolves(s, s)
  {
  }

  lemma SnapshotKept(s: State, s': State, n: Task)
    requires Evolves(s, s') && Snapshot(s.db, n)
    requires n.lease.Some? ==> n.lease.value.token in s.issued
    ensures Snapshot(s'.db, n)
  {
    SinceEvolves(n, s.db.tasks[n.id], s'.db.tasks[n.id], s.issued);
  }

  lemma DispatcherKept(cfg: Config, s: State, s': State, p: Pid, a: Agent)
    requires Evolves(s, s') && AgentOk(cfg, s.db, s.issued, s.receipts, p, a)
          && (a.Publisher? || a.Confirmed? || a.Releasing?)
    ensures AgentOk(cfg, s'.db, s'.issued, s'.receipts, p, a)
  {
    hide RowEvolves, AttemptEvolves;
    assert EventEvolves(s.db.outbox[a.row], s'.db.outbox[a.row], s.issued);
  }

  /** What an agent holds stays a legal snapshot whatever the others do. */
  lemma AgentKept(cfg: Config, s: State, s': State, p: Pid, a: Agent)
    requires Evolves(s, s') && AgentOk(cfg, s.db, s.issued, s.receipts, p, a)
    requires DbFence(cfg, s.db, s.hist, s.issued, s.receipts)
    ensures AgentOk(cfg, s'.db, s'.issued, s'.receipts, p, a)
  {
    hide DbFence, EventEvolves, AttemptEvolves, PlanOk, Since;
    match a
    case Started(_, id, _) => GenerationKept(s, s', id);
    case Loaded(_, n) => SnapshotKept(s, s', n);
    case Due(_, n) => SnapshotKept(s, s', n);
    case Checked(_, n, _, _, _) => SnapshotKept(s, s', n);
    case Deferring(n, _) => SnapshotKept(s, s', n);
    case Admitted(_, n, _, _) => SnapshotKept(s, s', n);
    case Claimed(_, n, _, _) => SnapshotKept(s, s', n);
    case Delivering(_, n, _, _, _) => SnapshotKept(s, s', n);
    case Decided(n, _) => SnapshotKept(s, s', n);
    case Ready(n, _, _) => SnapshotKept(s, s', n);
    case Publisher(_, _, _, _, _, _, _) => DispatcherKept(cfg, s, s', p, a);
    case Confirmed(_, _) => DispatcherKept(cfg, s, s', p, a);
    case Releasing(_, _) => DispatcherKept(cfg, s, s', p, a);
    case Swept =>
    case Sweeping(rest) => RestKept(s, s', rest);
    case Recovering(n, _, _, rest) => SnapshotKept(s, s', n); RestKept(s, s', rest);
  }

  lemma GenerationKept(s: State, s': State, id: Id)
    requires Evolves(s, s') && id in s.db.tasks
    ensures id in s'.db.tasks && s.db.tasks[id].generation <= s'.db.tasks[id].generation
  {
    assert RowEvolves(s.db.tasks[id], s'.db.tasks[id], s.issued);
  }

  lemma RestKept(s: State, s': State, rest: seq<Task>)
    requires Evolves(s, s') && forall i :: 0 <= i < |rest| ==> LeaseSnapshot(s.db, s.issued, rest[i])
    ensures forall i :: 0 <= i < |rest| ==> LeaseSnapshot(s'.db, s'.issued, rest[i])
  {
    forall i | 0 <= i < |rest| ensures LeaseSnapshot(s'.db, s'.issued, rest[i]) {
      SnapshotKept(s, s', rest[i]);
    }
  }

  /** A step that keeps the tables fenced and evolves them keeps everything fenced, given that the
      agents it moved and the messages it sent are in order. */
  lemma FenceKept(cfg: Config, s: State, s': State, who: set<Pid>)
    requires Fence(cfg, s) && Evolves(s, s') && DbFence(cfg, s'.db, s'.hist, s'.issued, s'.receipts)
    requires forall p :: p in s'.agents && p !in who ==> p in s.agents && s'.agents[p] == s.agents[p]
    requires forall p :: p in s'.agents && p in who ==> AgentOk(cfg, s'.db, s'.issued, s'.receipts, p, s'.agents[p])
    requires forall m :: m in s'.broker ==> m in s.broker || MessageOk(s'.db.tasks, m)
    ensures Fence(cfg, s')
  {
    forall p | p in s'.agents ensures AgentOk(cfg, s'.db, s'.issued, s'.receipts, p, s'.agents[p]) {
      if p !in who { AgentKept(cfg, s, s', p, s.agents[p]); }
    }
    forall m | m in s'.broker ensures MessageOk(s'.db.tasks, m) {
      if m in s.broker { assert RowEvolves(s.db.tasks[m.id], s'.db.tasks[m.id], s.issued); }
    }
  }

  /** The tables stay fenced when one task row changes, or is inserted, in step with its ledgers. */
  lemma TaskChange(cfg: Config, s: State, s': State, id: Id)
    requires DbFence(cfg, s.db, s.hist, s.issued, s.receipts) && id in s'.db.tasks && id in s'.hist
    requires s'.db.tasks == s.db.tasks[id := s'.db.tasks[id]] && s'.hist == s.hist[id := s'.hist[id]]
    requires s'.db.tasks[id].id == id && TaskOk(cfg, s'.db.tasks[id], s'.hist[id], s'.issued)
    requires id in s.db.tasks ==> RowEvolves(s.db.tasks[id], s'.db.tasks[id], s.issued)
    requires AttemptLedger(s'.db.tasks, s'.db.attempts) && OutboxLedger(s'.db.tasks, s'.db.outbox, s'.hist)
    requires forall k :: k in s.issued ==> k in s'.issued && s'.issued[k] == s.issued[k]
    requires forall x :: x in s'.db.attempts ==> s'.db.attempts[x].token in s'.issued
    requires forall x :: x in s.db.attempts ==>
          x in s'.db.attempts && AttemptEvolves(s.db.attempts[x], s'.db.attempts[x])
    requires s'.db.outbox == s.db.outbox || exists g: nat, r: Route, a: Time, c: Time ::
          s'.db.outbox == s.db.outbox + [NewEvent(id, g, r, a, c)]
    requires s'.receipts == s.receipts
    ensures DbFence(cfg, s'.db, s'.hist, s'.issued, s'.receipts) && Evolves(s, s')
  {
    hide AttemptLedger, OutboxLedger, TaskOk;
    forall o | o in s'.db.tasks ensures s'.db.tasks[o].id == o && TaskOk(cfg, s'.db.tasks[o], s'.hist[o], s'.issued) {
      if o != id { TaskOkKept(cfg, s.db.tasks[o], s.hist[o], s.issued, s'.issued); }
    }
    forall o | o in s.db.tasks ensures o in s'.db.tasks && RowEvolves(s.db.tasks[o], s'.db.tasks[o], s.issued) {
    }
    forall i | 0 <= i < |s'.db.outbox| ensures RowFence(s'.db.outbox[i], s'.issued, s'.receipts) {
      if i < |s.db.outbox| { assert RowFence(s.db.outbox[i], s.issued, s.receipts); }
    }
  }

  lemma TaskOkKept(cfg: Config, t: Task, h: History, issued: map<Token, Pid>, issued': map<Token, Pid>)
    requires TaskOk(cfg, t, h, issued) && forall k :: k in issued ==> k in issued'
    ensures TaskOk(cfg, t, h, issued')
  {
  }

  // ---- transactions on tasks ----------------------------------------------------------------------

  lemma SubmitFenced(cfg: Config, s: State, now: Time, n: Task)
    requires Fence(cfg, s) && Insertable(s.db, n) && Known(cfg, n)
    requires n.status == Pending && n.attempts == 0 && n.cycle == 0 && n.generation == 1 && n.lease.None?
    ensures Fence(cfg, DoSubmit(s, now, n)) && Evolves(s, DoSubmit(s, now, n))
  {
    hide AttemptLedger, OutboxLedger, AgentOk;
    var s' := DoSubmit(s, now, n);
    AttemptsAfterInsert(s.db.tasks, s.db.attempts, n);
    OutboxAfterAppend(s.db.tasks, s.db.outbox, s.hist, n.id, n, NO_HISTORY, Dispatch, n.next, now);
    TaskChange(cfg, s, s', n.id);
    FenceKept(cfg, s, s', {});
  }

  /** A task that is not in flight moves on to its next generation with a new outbox row: a deferral, a
      reconciliation or a manual retry. */
  lemma MoveFenced(cfg: Config, s: State, s': State, id: Id, t: Task, h: History, route: Route, available: Time,
      now: Time)
    requires DbFence(cfg, s.db, s.hist, s.issued, s.receipts) && id in s.db.tasks
    requires s.db.tasks[id].status == Pending || s.db.tasks[id].status == Failed
    requires SameIdentity(s.db.tasks[id], t) && t.status == Pending && t.lease.None?
    requires t.generation == s.db.tasks[id].generation + 1 && t.attempts == s.db.tasks[id].attempts
    requires h.failedRecoveries == s.hist[id].failedRecoveries && TaskOk(cfg, t, h, s.issued) && ValidRoute(route)
    requires s'.db.tasks == s.db.tasks[id := t] && s'.db.attempts == s.db.attempts
    requires s'.db.outbox == s.db.outbox + [NewEvent(id, t.generation, route, available, now)]
    requires s'.hist == s.hist[id := h] && s'.issued == s.issued && s'.receipts == s.receipts
    ensures DbFence(cfg, s'.db, s'.hist, s'.issued, s'.receipts) && Evolves(s, s')
  {
    hide AttemptLedger, OutboxLedger;
    assert TaskOk(cfg, s.db.tasks[id], s.hist[id], s.issued);
    AttemptsAfterMove(s.db.tasks, s.db.attempts, id, t);
    OutboxAfterAppend(s.db.tasks, s.db.outbox, s.hist, id, t, h, route, available, now);
    TaskChange(cfg, s, s', id);
  }

  lemma RetryByHandFenced(cfg: Config, s: State, now: Time, id: Id, client: string, generation: nat)
    requires Fence(cfg, s) && Retriable(s.db, id, client, generation)
    ensures id in s.hist && Known(cfg, s.db.tasks[id])
    ensures var s' := DoRetryByHand(cfg, s, now, id); Fence(cfg, s') && Evolves(s, s')
  {
    hide AttemptLedger, OutboxLedger, AgentOk;
    var t := s.db.tasks[id];
    assert TaskOk(cfg, t, s.hist[id], s.issued);
    var s' := DoRetryByHand(cfg, s, now, id);
    BudgetStep(s.hist[id].manualRetries, Retries(cfg, t));
    MoveFenced(cfg, s, s', id, s'.db.tasks[id], s'.hist[id], Dispatch, now, now);
    FenceKept(cfg, s, s', {});
  }

  lemma DeferFenced(cfg: Config, s: State, now: Time, p: Pid, n: Task)
    requires Fence(cfg, s)
    ensures var s' := DoDefer(s, now, p, n); Fence(cfg, s') && Evolves(s, s')
  {
    hide AttemptLedger, OutboxLedger, AgentOk;
    var s' := DoDefer(s, now, p, n);
    if Deferrable(s.db, n.id, n.generation) {
      assert TaskOk(cfg, s.db.tasks[n.id], s.hist[n.id], s.issued);
      MoveFenced(cfg, s, s', n.id, s'.db.tasks[n.id], s'.hist[n.id], Dispatch, now + DEFER_DELAY, now);
    }
    FenceKept(cfg, s, s', {p});
  }

  lemma ReconcileTaskFenced(cfg: Config, s: State, now: Time, id: Id)
    requires Fence(cfg, s) && id in s.db.tasks && s.db.tasks[id].status == Pending
    ensures id in s.hist
    ensures var s' := ReconcileTask(s, now, id); Fence(cfg, s') && Evolves(s, s')
  {
    hide AttemptLedger, OutboxLedger, AgentOk;
    assert TaskOk(cfg, s.db.tasks[id], s.hist[id], s.issued);
    var s' := ReconcileTask(s, now, id);
    MoveFenced(cfg, s, s', id, s'.db.tasks[id], s'.hist[id], Dispatch, now, now);
    FenceKept(cfg, s, s', {});
  }

  lemma {:induction false} ReconcileAllFenced(cfg: Config, s: State, now: Time, ids: seq<Id>)
    requires Fence(cfg, s)
    requires forall i :: 0 <= i < |ids| ==>
          ids[i] in s.db.tasks && s.db.tasks[ids[i]].status == Pending && ids[i] in s.hist
    ensures var s' := ReconcileAll(s, now, ids); Fence(cfg, s') && Evolves(s, s') && s'.agents == s.agents
    decreases |ids|
  {
    hide Evolves, AgentsOk, AttemptLedger, OutboxLedger;
    if ids != [] {
      ReconcileTaskFenced(cfg, s, now, ids[0]);
      var s1 := ReconcileTask(s, now, ids[0]);
      assert forall i :: 0 <= i < |ids[1..]| ==> ids[1..][i] == ids[i + 1];
      ReconcileAllFenced(cfg, s1, now, ids[1..]);
      assert ReconcileAll(s, now, ids) == ReconcileAll(s1, now, ids[1..]);
      EvolvesTransitive(cfg, s, s1, ReconcileAll(s1, now, ids[1..]));
    } else {
      EvolvesReflexive(s);
    }
  }

  lemma ClaimedTask(cfg: Config, t: Task, h: History, issued: map<Token, Pid>, now: Time, p: Pid, token: Token)
    requires TaskOk(cfg, t, h, issued) && t.status == Pending && token !in issued
    ensures var n, issued' := ClaimedRow(t, now, token), issued[token := p];
            TaskOk(cfg, n, h, issued') && RowEvolves(t, n, issued)
  {
  }

  lemma ClaimKeepsTables(cfg: Config, s: State, s': State, now: Time, id: Id, p: Pid, token: Token)
    requires DbFence(cfg, s.db, s.hist, s.issued, s.receipts) && id in s.db.tasks
          && Claimable(s.db, now, id, s.db.tasks[id].generation)
    requires s'.db == Claim(s.db, now, token, id) && s'.hist == s.hist && token !in s.issued
          && s'.issued == s.issued[token := p] && s'.receipts == s.receipts
    ensures DbFence(cfg, s'.db, s'.hist, s'.issued, s'.receipts) && Evolves(s, s')
          && ClaimSnapshot(s'.db, s'.issued, s'.db.tasks[id], p)
  {
    hide AttemptLedger, OutboxLedger, TaskOk, RowEvolves;
    assert TaskOk(cfg, s.db.tasks[id], s.hist[id], s.issued);
    ClaimedTask(cfg, s.db.tasks[id], s.hist[id], s.issued, now, p, token);
    AttemptsAfterClaim(s.db.tasks, s.db.attempts, id, now, token);
    OutboxAfterSame(s.db.tasks, s.db.outbox, s.hist, id, s'.db.tasks[id], s.hist[id]);
    assert s.hist[id := s.hist[id]] == s.hist;
    TaskChange(cfg, s, s', id);
  }

  lemma ClaimFenced(cfg: Config, s: State, now: Time, p: Pid, a: Agent, token: Token)
    requires Fence(cfg, s) && a.Admitted? && token !in s.issued
    ensures var s' := DoClaim(s, now, p, a, token); Fence(cfg, s') && Evolves(s, s')
  {
    hide DbFence, Evolves, AgentsOk, ClaimSnapshot, PendingSnapshot, LeaseSnapshot;
    var s' := DoClaim(s, now, p, a, token);
    if Claimable(s.db, now, a.n.id, a.n.generation) {
      ClaimKeepsTables(cfg, s, s', now, a.n.id, p, token);
    } else {
      EvolvesReflexive(s);
      EvolvesSame(s, s');
    }
    FenceKept(cfg, s, s', {p});
  }

  lemma EvolvesSame(s: State, s': State)
    requires Evolves(s, s) && s'.db == s.db && s'.issued == s.issued && s'.receipts == s.receipts
    ensures Evolves(s, s')
  {
  }

  lemma OpenAttempt(tasks: map<Id, Task>, attempts: map<(Id, nat), Attempt>, id: Id)
    requires AttemptLedger(tasks, attempts) && id in tasks && tasks[id].status == InFlight && 1 <= tasks[id].attempts
    ensures (id, tasks[id].attempts) in attempts && attempts[(id, tasks[id].attempts)].finished.None?
  {
    assert TaskAttempts(tasks[id], attempts);
  }

  /** Closing the attempt in flight, by `Finish` or by `RecoverLease`. */
  lemma CloseFenced(cfg: Config, s: State, s': State, n: Task, t: Task, h: History, r: Result, onlyOpen: bool,
      route: Route, now: Time)
    requires DbFence(cfg, s.db, s.hist, s.issued, s.receipts)
    requires n.id in s.db.tasks && s.db.tasks[n.id] == n && n.status == InFlight && n.lease.Some?
    requires SameIdentity(n, t) && t.status != InFlight && t.lease.None? && t.attempts == n.attempts
          && ValidRoute(route)
    requires t.generation == n.generation || t.generation == n.generation + 1
    requires t.generation == n.generation ==> t.status != Pending && t.next == n.next && t.deadline == n.deadline
    requires h.failedRecoveries - s.hist[n.id].failedRecoveries == if t.status == Pending then 0
          else t.generation - n.generation
    requires TaskOk(cfg, t, h, s.issued)
    requires s'.db.tasks == s.db.tasks[n.id := t] && s'.db.attempts == CloseAttempt(s.db.attempts, n, now, r, onlyOpen)
    requires s'.db.outbox == if t.status == Pending then
          s.db.outbox + [NewEvent(n.id, t.generation, route, now, now)] else s.db.outbox
    requires s'.hist == s.hist[n.id := h] && s'.issued == s.issued && s'.receipts == s.receipts
    ensures DbFence(cfg, s'.db, s'.hist, s'.issued, s'.receipts) && Evolves(s, s')
  {
    hide AttemptLedger, OutboxLedger, CloseAttempt;
    assert TaskOk(cfg, n, s.hist[n.id], s.issued);
    AttemptsAfterClose(s.db.tasks, s.db.attempts, n.id, t, now, r, onlyOpen);
    OpenAttempt(s.db.tasks, s.db.attempts, n.id);
    if t.status == Pending {
      OutboxAfterAppend(s.db.tasks, s.db.outbox, s.hist, n.id, t, h, route, now, now);
    } else {
      OutboxAfterSame(s.db.tasks, s.db.outbox, s.hist, n.id, t, h);
    }
    TaskChange(cfg, s, s', n.id);
  }

  lemma FinishFenced(cfg: Config, s: State, now: Time, p: Pid, n: Task, plan: Plan, at: Time)
    requires Fence(cfg, s) && ClaimSnapshot(s.db, s.issued, n, p) && PlanOk(cfg, n, plan, at)
    ensures var s' := DoFinish(s, now, p, n, plan); Fence(cfg, s') && Evolves(s, s')
  {
    hide AttemptLedger, OutboxLedger, AgentOk;
    var s' := DoFinish(s, now, p, n, plan);
    if Finishable(s.db, now, n) {
      assert TaskOk(cfg, n, s.hist[n.id], s.issued);
      assert s.hist[n.id := s.hist[n.id]] == s.hist;
      var route := if plan.decision.verdict == Retry then plan.route else Dispatch;
      CloseFenced(cfg, s, s', n, s'.db.tasks[n.id], s.hist[n.id], ResultDecided(plan.decision.verdict), false, route,
          now);
    }
    FenceKept(cfg, s, s', {p});
  }

  lemma RecoverRowFenced(cfg: Config, s: State, s': State, now: Time, n: Task, plan: Plan, at: Time)
    requires DbFence(cfg, s.db, s.hist, s.issued, s.receipts) && LeaseSnapshot(s.db, s.issued, n)
          && PlanOk(cfg, n, plan, at)
    requires Recoverable(s.db, now, n) && s'.db == RecoverLease(s.db, now, n, plan.decision.verdict, plan.next,
          plan.route)
    requires var h := s.hist[n.id];
             s'.hist == s.hist[n.id := if plan.decision.verdict == Retry then h
                 else h.(failedRecoveries := h.failedRecoveries + 1)]
    requires s'.issued == s.issued && s'.receipts == s.receipts
    ensures DbFence(cfg, s'.db, s'.hist, s'.issued, s'.receipts) && Evolves(s, s')
  {
    hide AttemptLedger, OutboxLedger, AgentOk;
    assert TaskOk(cfg, n, s.hist[n.id], s.issued);
    var route := if plan.decision.verdict == Retry then plan.route else Dispatch;
    CloseFenced(cfg, s, s', n, s'.db.tasks[n.id], s'.hist[n.id], ResultUnknown, true, route, now);
  }

  lemma RecoverFenced(cfg: Config, s: State, now: Time, p: Pid, a: Agent)
    requires Fence(cfg, s) && a.Recovering? && AgentOk(cfg, s.db, s.issued, s.receipts, p, a)
    ensures var s' := DoRecover(s, now, p, a); Fence(cfg, s') && Evolves(s, s')
  {
    hide DbFence, Evolves, LeaseSnapshot, PlanOk, RecoverLease;
    var s' := DoRecover(s, now, p, a);
    assert s.db.tasks.Keys == s.hist.Keys by { TablesKeyed(cfg, s); }
    if Recoverable(s.db, now, a.n) {
      RecoverRowFenced(cfg, s, s', now, a.n, a.plan, a.at);
    } else {
      AgentMoveFenced(cfg, s, s', p);
    }
    RestKept(s, s', a.rest);
    FenceKept(cfg, s, s', {p});
  }

  lemma TablesKeyed(cfg: Config, s: State)
    requires DbFence(cfg, s.db, s.hist, s.issued, s.receipts)
    ensures s.db.tasks.Keys == s.hist.Keys
  {
  }

  // ---- transactions on outbox rows ----------------------------------------------------------------

  lemma RowsFenced(cfg: Config, s: State, s': State, who: set<Pid>)
    requires Fence(cfg, s) && s'.db == s.db.(outbox := s'.db.outbox) && s'.hist == s.hist && s'.broker == s.broker
    requires |s'.db.outbox| == |s.db.outbox| && s'.receipts == s.receipts
    requires forall k :: k in s.issued ==> k in s'.issued && s'.issued[k] == s.issued[k]
    requires forall i :: 0 <= i < |s.db.outbox| ==>
               && EventEvolves(s.db.outbox[i], s'.db.outbox[i], s.issued)
               && EventOk(s.db.tasks, s'.db.outbox[i]) && RowFence(s'.db.outbox[i], s'.issued, s'.receipts)
    requires forall p :: p in s'.agents && p !in who ==> p in s.agents && s'.agents[p] == s.agents[p]
    requires forall p :: p in s'.agents && p in who ==> AgentOk(cfg, s'.db, s'.issued, s'.receipts, p, s'.agents[p])
    ensures Fence(cfg, s') && Evolves(s, s')
  {
    hide AttemptLedger, AgentOk;
    OutboxAfterRows(s.db.tasks, s.db.outbox, s'.db.outbox, s.hist);
    forall id | id in s.db.tasks ensures TaskOk(cfg, s.db.tasks[id], s.hist[id], s'.issued) {
      assert TaskOk(cfg, s.db.tasks[id], s.hist[id], s.issued);
    }
    FenceKept(cfg, s, s', who);
  }

  lemma OneRowFenced(cfg: Config, s: State, s': State, p: Pid, row: nat, e: Event)
    requires Fence(cfg, s) && row < |s.db.outbox|
    requires s'.db == s.db.(outbox := s.db.outbox[row := e]) && s'.hist == s.hist && s'.broker == s.broker
          && s'.receipts == s.receipts
    requires forall k :: k in s.issued ==> k in s'.issued && s'.issued[k] == s.issued[k]
    requires EventEvolves(s.db.outbox[row], e, s.issued) && EventOk(s.db.tasks, e)
          && RowFence(e, s'.issued, s'.receipts)
    requires forall q :: q in s'.agents && q != p ==> q in s.agents && s'.agents[q] == s.agents[q]
    requires p in s'.agents ==> AgentOk(cfg, s'.db, s'.issued, s'.receipts, p, s'.agents[p])
    ensures Fence(cfg, s') && Evolves(s, s')
  {
    hide AttemptLedger, AgentOk;
    forall i | 0 <= i < |s.db.outbox|
      ensures EventEvolves(s.db.outbox[i], s'.db.outbox[i], s.issued) && EventOk(s.db.tasks, s'.db.outbox[i])
            && RowFence(s'.db.outbox[i], s'.issued, s'.receipts)
    {
      assert EventOk(s.db.tasks, s.db.outbox[i]) && RowFence(s.db.outbox[i], s.issued, s.receipts);
    }
    RowsFenced(cfg, s, s', {p});
  }

  lemma TakeFenced(cfg: Config, s: State, now: Time, p: Pid, row: nat, token: Token, locked: set<nat>)
    requires Fence(cfg, s) && token !in s.issued && FirstReady(s.db.outbox, now, row, locked)
    ensures var s' := DoTake(s, now, p, row, token); Fence(cfg, s') && Evolves(s, s')
  {
    hide AttemptLedger, OneRowPerGeneration, TaskRows;
    var e := s.db.outbox[row];
    assert EventOk(s.db.tasks, e) && RowFence(e, s.issued, s.receipts);
    OneRowFenced(cfg, s, DoTake(s, now, p, row, token), p, row, ClaimedEvent(e, now, token));
  }

  lemma PublishedFenced(cfg: Config, s: State, now: Time, p: Pid, row: nat, token: Token)
    requires Fence(cfg, s) && AgentOk(cfg, s.db, s.issued, s.receipts, p, Confirmed(row, token))
    ensures var s' := DoPublished(s, now, p, row, token); Fence(cfg, s') && Evolves(s, s')
  {
    hide AttemptLedger, OneRowPerGeneration, TaskRows, TaskOk, AgentsOk;
    var s' := DoPublished(s, now, p, row, token);
    if Confirmable(s.db.outbox[row], now, token) {
      assert EventOk(s.db.tasks, s.db.outbox[row]);
      assert WasAcked(s.receipts, s.db.outbox[row].notification, s.db.outbox[row].generation);
      OneRowFenced(cfg, s, s', p, row, PublishedEvent(s.db.outbox[row], now));
    } else {
      FenceKept(cfg, s, s', {p});
    }
  }

  lemma ReleaseFenced(cfg: Config, s: State, now: Time, p: Pid, row: nat, token: Token)
    requires Fence(cfg, s)
    ensures var s' := DoRelease(s, now, p, row, token); Fence(cfg, s') && Evolves(s, s')
  {
    hide AttemptLedger, OneRowPerGeneration, TaskRows, AgentOk;
    var s' := DoRelease(s, now, p, row, token);
    if row < |s.db.outbox| && HoldsRow(s.db.outbox[row], token) {
      assert EventOk(s.db.tasks, s.db.outbox[row]);
      OneRowFenced(cfg, s, s', p, row, ReleasedEvent(s.db.outbox[row], now));
    } else {
      FenceKept(cfg, s, s', {p});
    }
  }

  lemma SweepOutboxFenced(cfg: Config, s: State, now: Time, p: Pid, rows: set<nat>)
    requires Fence(cfg, s) && AbandonedRows(s.db.outbox, now, rows)
    ensures var s' := DoSweepOutbox(s, p, rows); Fence(cfg, s') && Evolves(s, s')
  {
    hide AttemptLedger, OneRowPerGeneration, TaskRows;
    var s' := DoSweepOutbox(s, p, rows);
    forall i | 0 <= i < |s.db.outbox|
      ensures EventEvolves(s.db.outbox[i], s'.db.outbox[i], s.issued) && EventOk(s.db.tasks, s'.db.outbox[i])
            && RowFence(s'.db.outbox[i], s'.issued, s'.receipts)
    {
      assert EventOk(s.db.tasks, s.db.outbox[i]) && RowFence(s.db.outbox[i], s.issued, s.receipts);
    }
    RowsFenced(cfg, s, s', {p});
  }

  // ---- steps --------------------------------------------------------------------------------------

  /** A step that moves agent p, or drops it, and touches nothing else. */
  lemma AgentMoveFenced(cfg: Config, s: State, s': State, p: Pid)
    requires Fence(cfg, s)
    requires s' == s.(agents := s'.agents)
    requires forall q :: q in s'.agents && q != p ==> q in s.agents && s'.agents[q] == s.agents[q]
    requires p in s'.agents ==> AgentOk(cfg, s.db, s.issued, s.receipts, p, s'.agents[p])
    ensures Fence(cfg, s') && Evolves(s, s')
  {
    hide AttemptLedger, OutboxLedger, AgentOk;
    FenceKept(cfg, s, s', {p});
  }

  lemma LoadFenced(cfg: Config, s: State, p: Pid, start: Time, id: Id, generation: nat)
    requires Fence(cfg, s)
    ensures var s' := DoLoad(s, p, start, id, generation); Fence(cfg, s') && Evolves(s, s')
  {
    hide AttemptLedger, OutboxLedger;
    if id in s.db.tasks { assert TaskOk(cfg, s.db.tasks[id], s.hist[id], s.issued); }
    AgentMoveFenced(cfg, s, DoLoad(s, p, start, id, generation), p);
  }

  lemma PlanForOk(cfg: Config, now: Time, n: Task, d: Decision)
    requires Known(cfg, n)
    ensures PlanOk(cfg, n, PlanFor(cfg, now, n, d), now)
  {
    var c := cfg[(n.revision, n.target)];
    if d.verdict == Retry { ScheduleBounds(now, n.cycle, n.deadline, c.target, c.retry, d); }
  }

  lemma EventOfRow(tasks: map<Id, Task>, outbox: seq<Event>, hist: map<Id, History>, row: nat)
    requires OutboxLedger(tasks, outbox, hist) && row < |outbox|
    ensures EventOk(tasks, outbox[row])
  {
  }

  lemma RowFenceGrows(e: Event, issued: map<Token, Pid>, receipts: set<Receipt>, more: set<Receipt>)
    requires RowFence(e, issued, receipts) && receipts <= more
    ensures RowFence(e, issued, more)
  {
    if e.status == Published {
      var token :| Acked(token, e.notification, e.generation) in receipts;
      assert Acked(token, e.notification, e.generation) in more;
    }
  }

  /** A further receipt, and agent p moves. */
  lemma ReceiptFenced(cfg: Config, s: State, s': State, p: Pid, r: Receipt)
    requires Fence(cfg, s) && s'.db == s.db && s'.hist == s.hist && s'.issued == s.issued
          && s'.receipts == s.receipts + {r}
    requires r.Acked? ==> Shipped(r.token, r.id, r.generation) in s.receipts
    requires forall m :: m in s'.broker ==> m in s.broker || MessageOk(s.db.tasks, m)
    requires forall q :: q in s'.agents && q != p ==> q in s.agents && s'.agents[q] == s.agents[q]
    requires p in s'.agents ==> AgentOk(cfg, s.db, s.issued, s'.receipts, p, s'.agents[p])
    ensures Fence(cfg, s') && Evolves(s, s')
  {
    hide AttemptLedger, OutboxLedger, AgentOk, TaskOk;
    forall i | 0 <= i < |s.db.outbox| ensures RowFence(s.db.outbox[i], s.issued, s'.receipts) {
      RowFenceGrows(s.db.outbox[i], s.issued, s.receipts, s'.receipts);
    }
    FenceKept(cfg, s, s', {p});
  }

  lemma SendFenced(cfg: Config, s: State, now: Time, p: Pid)
    requires Fence(cfg, s) && p in s.agents && s.agents[p].Publisher?
    ensures var s' := DoSend(s, now, p, s.agents[p]); Fence(cfg, s') && Evolves(s, s')
  {
    hide AttemptLedger, OutboxLedger;
    var s' := DoSend(s, now, p, s.agents[p]);
    var a := s.agents[p];
    assert AgentOk(cfg, s.db, s.issued, s.receipts, p, a);
    EventOfRow(s.db.tasks, s.db.outbox, s.hist, a.row);
    ReceiptFenced(cfg, s, s', p, Shipped(a.token, a.id, a.generation));
  }

  lemma ReadExpiredFenced(cfg: Config, s: State, now: Time, p: Pid, ns: seq<Task>)
    requires Fence(cfg, s) && ExpiredList(s.db, now, ns)
    ensures var s' := Put(s, p, Sweeping(ns)); Fence(cfg, s') && Evolves(s, s')
  {
    hide AttemptLedger, OutboxLedger;
    forall i | 0 <= i < |ns| ensures LeaseSnapshot(s.db, s.issued, ns[i]) {
      assert TaskOk(cfg, s.db.tasks[ns[i].id], s.hist[ns[i].id], s.issued);
    }
    AgentMoveFenced(cfg, s, Put(s, p, Sweeping(ns)), p);
  }

  lemma ReconcileFenced(cfg: Config, s: State, now: Time, p: Pid, ids: seq<Id>, locked: set<Id>)
    requires Fence(cfg, s) && StaleList(s.db, now, ids, locked)
    requires forall i :: 0 <= i < |ids| ==> ids[i] in s.hist
    ensures var s' := Drop(ReconcileAll(s, now, ids), p); Fence(cfg, s') && Evolves(s, s')
  {
    hide AttemptLedger, OutboxLedger, AgentOk, LiveTrigger;
    forall i | 0 <= i < |ids| ensures ids[i] in s.db.tasks && s.db.tasks[ids[i]].status == Pending {
      assert IsStale(s.db, now, ids[i]);
    }
    ReconcileAllFenced(cfg, s, now, ids);
    var r := ReconcileAll(s, now, ids);
    AgentMoveFenced(cfg, r, Drop(r, p), p);
    EvolvesTransitive(cfg, s, r, Drop(r, p));
  }

  lemma GuardFenced(cfg: Config, s: State, now: Time, a: Step)
    requires Fence(cfg, s) && Enabled(cfg, s, now, a)
    requires a.NotBefore? || a.Check? || a.LockRefused? || a.Gate?
    ensures Fence(cfg, Apply(cfg, s, now, a)) && Evolves(s, Apply(cfg, s, now, a))
  {
    hide DbFence, Evolves, PendingSnapshot;
    assert AgentOk(cfg, s.db, s.issued, s.receipts, a.p, s.agents[a.p]);
    AgentMoveFenced(cfg, s, Apply(cfg, s, now, a), a.p);
  }

  lemma DecideOk(cfg: Config, s: State, now: Time, p: Pid, a: Agent, secretOk: bool, late: Decision)
    requires a.Claimed? && AgentOk(cfg, s.db, s.issued, s.receipts, p, a)
    ensures AgentOk(cfg, s.db, s.issued, s.receipts, p, AfterDecide(a, now, secretOk, late))
  {
    hide ClaimSnapshot;
  }

  lemma CallFenced(cfg: Config, s: State, now: Time, a: Step)
    requires Fence(cfg, s) && Enabled(cfg, s, now, a)
    requires a.Decide? || a.Return? || a.PlanRetry?
    ensures Fence(cfg, Apply(cfg, s, now, a)) && Evolves(s, Apply(cfg, s, now, a))
  {
    hide DbFence, Evolves, ClaimSnapshot, PlanOk, PlanFor, AfterDecide;
    var x := s.agents[a.p];
    assert AgentOk(cfg, s.db, s.issued, s.receipts, a.p, x);
    if a.Decide? { DecideOk(cfg, s, now, a.p, x, a.secretOk, a.late); }
    if a.PlanRetry? && Known(cfg, x.n) { PlanForOk(cfg, now, x.n, x.d); }
    AgentMoveFenced(cfg, s, Apply(cfg, s, now, a), a.p);
  }

  lemma ConfirmFenced(cfg: Config, s: State, p: Pid)
    requires Fence(cfg, s) && p in s.agents && s.agents[p].Publisher? && s.agents[p].sent
    ensures var s' := DoConfirm(s, p, s.agents[p]); Fence(cfg, s') && Evolves(s, s')
  {
    hide DbFence, Evolves;
    var x := s.agents[p];
    assert AgentOk(cfg, s.db, s.issued, s.receipts, p, x);
    ReceiptFenced(cfg, s, DoConfirm(s, p, x), p, Acked(x.token, x.id, x.generation));
  }

  lemma UnconfirmedFenced(cfg: Config, s: State, p: Pid)
    requires Fence(cfg, s) && p in s.agents && s.agents[p].Publisher?
    ensures var s' := Put(s, p, Releasing(s.agents[p].row, s.agents[p].token)); Fence(cfg, s') && Evolves(s, s')
  {
    hide DbFence, Evolves;
    assert AgentOk(cfg, s.db, s.issued, s.receipts, p, s.agents[p]);
    AgentMoveFenced(cfg, s, Put(s, p, Releasing(s.agents[p].row, s.agents[p].token)), p);
  }

  lemma PublishEndFenced(cfg: Config, s: State, now: Time, a: Step)
    requires Fence(cfg, s) && Enabled(cfg, s, now, a)
    requires a.Confirm? || a.Unconfirmed?
    ensures Fence(cfg, Apply(cfg, s, now, a)) && Evolves(s, Apply(cfg, s, now, a))
  {
    hide Fence, Evolves, DoConfirm;
    if a.Confirm? { ConfirmFenced(cfg, s, a.p); } else { UnconfirmedFenced(cfg, s, a.p); }
  }

  lemma TriggerFenced(cfg: Config, s: State, now: Time, a: Step)
    requires Fence(cfg, s) && Enabled(cfg, s, now, a)
    requires a.Receive? || a.Proxy?
    ensures Fence(cfg, Apply(cfg, s, now, a)) && Evolves(s, Apply(cfg, s, now, a))
  {
    hide DbFence, Evolves;
    if a.Receive? { assert MessageOk(s.db.tasks, a.m); } else { GenerationPositive(cfg, s, a.id); }
    AgentMoveFenced(cfg, s, Apply(cfg, s, now, a), a.p);
  }

  lemma WorkerFenced(cfg: Config, s: State, now: Time, a: Step)
    requires Fence(cfg, s) && Enabled(cfg, s, now, a)
    requires a.Load? || a.DeferTx? || a.ClaimTx? || a.FinishTx?
    ensures Fence(cfg, Apply(cfg, s, now, a)) && Evolves(s, Apply(cfg, s, now, a))
  {
    hide DbFence, Evolves, PendingSnapshot, ClaimSnapshot, PlanOk, DoDefer, DoFinish, DoLoad, DoClaim;
    var p := a.p;
    assert AgentOk(cfg, s.db, s.issued, s.receipts, p, s.agents[p]);
    match a
    case Load(_) => LoadFenced(cfg, s, p, s.agents[p].start, s.agents[p].id, s.agents[p].generation);
    case DeferTx(_) => DeferFenced(cfg, s, now, p, s.agents[p].n);
    case ClaimTx(_, token) => ClaimFenced(cfg, s, now, p, s.agents[p], token);
    case FinishTx(_) => FinishFenced(cfg, s, now, p, s.agents[p].n, s.agents[p].plan, s.agents[p].at);
  }

  lemma GenerationPositive(cfg: Config, s: State, id: Id)
    requires Fence(cfg, s) && id in s.db.tasks
    ensures 1 <= s.db.tasks[id].generation
  {
    assert TaskOk(cfg, s.db.tasks[id], s.hist[id], s.issued);
  }

  lemma DispatcherFenced(cfg: Config, s: State, now: Time, a: Step)
    requires Fence(cfg, s) && Enabled(cfg, s, now, a)
    requires a.Take? || a.Send? || a.PublishedTx? || a.ReleaseTx?
    ensures Fence(cfg, Apply(cfg, s, now, a)) && Evolves(s, Apply(cfg, s, now, a))
  {
    hide DbFence, Evolves, FirstReady, DoTake, DoSend, DoPublished, DoRelease;
    var p := a.p;
    match a
    case Take(_, row, token, locked) => TakeFenced(cfg, s, now, p, row, token, locked);
    case Send(_) => SendFenced(cfg, s, now, p);
    case PublishedTx(_) =>
      assert AgentOk(cfg, s.db, s.issued, s.receipts, p, s.agents[p]);
      PublishedFenced(cfg, s, now, p, s.agents[p].row, s.agents[p].token);
    case ReleaseTx(_) => ReleaseFenced(cfg, s, now, p, s.agents[p].row, s.agents[p].token);
  }

  lemma PlanRecoveryFenced(cfg: Config, s: State, now: Time, a: Step)
    requires Fence(cfg, s) && Enabled(cfg, s, now, a) && a.PlanRecovery?
    ensures Fence(cfg, Apply(cfg, s, now, a)) && Evolves(s, Apply(cfg, s, now, a))
  {
    hide DbFence, Evolves, LeaseSnapshot, PlanOk, PlanFor;
    assert AgentOk(cfg, s.db, s.issued, s.receipts, a.p, s.agents[a.p]);
    var rest := s.agents[a.p].rest;
    if Known(cfg, rest[0]) { PlanForOk(cfg, now, rest[0], LEASE_EXPIRED); }
    AgentMoveFenced(cfg, s, Apply(cfg, s, now, a), a.p);
  }

  lemma LoopFenced(cfg: Config, s: State, now: Time, a: Step)
    requires Fence(cfg, s) && Enabled(cfg, s, now, a)
    requires a.ReadExpired? || a.PlanRecovery? || a.RecoverTx?
    ensures Fence(cfg, Apply(cfg, s, now, a)) && Evolves(s, Apply(cfg, s, now, a))
  {
    hide DbFence, Evolves, LeaseSnapshot, PlanOk, PlanFor, ExpiredList, DoRecover;
    var p := a.p;
    assert AgentOk(cfg, s.db, s.issued, s.receipts, p, s.agents[p]);
    match a
    case ReadExpired(_, ns) => ReadExpiredFenced(cfg, s, now, p, ns);
    case PlanRecovery(_) => PlanRecoveryFenced(cfg, s, now, a);
    case RecoverTx(_) => RecoverFenced(cfg, s, now, p, s.agents[p]);
  }

  lemma SweepFenced(cfg: Config, s: State, now: Time, a: Step)
    requires Fence(cfg, s) && Enabled(cfg, s, now, a)
    requires a.SweepOutbox? || a.ReconcileTx?
    ensures Fence(cfg, Apply(cfg, s, now, a)) && Evolves(s, Apply(cfg, s, now, a))
  {
    hide Fence, Evolves, StaleList, AbandonedRows, DoSweepOutbox, ReconcileAll;
    match a
    case SweepOutbox(p, rows) => SweepOutboxFenced(cfg, s, now, p, rows);
    case ReconcileTx(p, ids, locked) => ReconcileFenced(cfg, s, now, p, ids, locked);
  }

  /** Time passes or a message is lost. */
  lemma EnvironmentFenced(cfg: Config, s: State, s': State)
    requires Fence(cfg, s) && s' == s.(clock := s'.clock, broker := s'.broker) && s'.broker <= s.broker
    ensures Fence(cfg, s') && Evolves(s, s')
  {
    hide AttemptLedger, OutboxLedger, AgentOk;
    FenceKept(cfg, s, s', {});
  }

  lemma OtherFenced(cfg: Config, s: State, now: Time, a: Step)
    requires Fence(cfg, s) && Enabled(cfg, s, now, a)
    requires a.Submit? || a.RetryByHand? || a.Crash? || a.Lose? || a.Tick?
    ensures Fence(cfg, Apply(cfg, s, now, a)) && Evolves(s, Apply(cfg, s, now, a))
  {
    hide Fence, Evolves, DoSubmit, DoRetryByHand;
    match a
    case Submit(id, client, key, hash, target, revision, at) =>
      SubmitFenced(cfg, s, now, NewTask(id, client, key, hash, target, revision, at,
          cfg[(revision, target)].retry.maxDuration));
    case RetryByHand(id, client, generation) => RetryByHandFenced(cfg, s, now, id, client, generation);
    case Crash(p) => AgentMoveFenced(cfg, s, Apply(cfg, s, now, a), p);
    case Lose(m) => EnvironmentFenced(cfg, s, Apply(cfg, s, now, a));
    case Tick(to) => EnvironmentFenced(cfg, s, Apply(cfg, s, now, a));
  }

  /** Every step, with any clock reading, keeps the fences and evolves the tables. */
  lemma StepFenced(cfg: Config, s: State, now: Time, a: Step)
    requires Fence(cfg, s) && Enabled(cfg, s, now, a)
    ensures Fence(cfg, Apply(cfg, s, now, a)) && Evolves(s, Apply(cfg, s, now, a))
  {
    hide Fence, Evolves, Apply, Enabled;
    if a.Submit? || a.RetryByHand? || a.Crash? || a.Lose? || a.Tick? {
      OtherFenced(cfg, s, now, a);
    } else if a.Take? || a.Send? || a.PublishedTx? || a.ReleaseTx? {
      DispatcherFenced(cfg, s, now, a);
    } else if a.NotBefore? || a.Check? || a.LockRefused? || a.Gate? {
      GuardFenced(cfg, s, now, a);
    } else if a.Decide? || a.Return? || a.PlanRetry? {
      CallFenced(cfg, s, now, a);
    } else if a.Confirm? || a.Unconfirmed? {
      PublishEndFenced(cfg, s, now, a);
    } else if a.Receive? || a.Proxy? {
      TriggerFenced(cfg, s, now, a);
    } else if a.ReadExpired? || a.PlanRecovery? || a.RecoverTx? {
      LoopFenced(cfg, s, now, a);
    } else if a.SweepOutbox? || a.ReconcileTx? {
      SweepFenced(cfg, s, now, a);
    } else {
      WorkerFenced(cfg, s, now, a);
    }
  }

  // ---- runs ---------------------------------------------------------------------------------------

  lemma InitialFenced(cfg: Config, s: State)
    requires Initial(s)
    ensures Fence(cfg, s)
  {
  }

  /** From a fenced state every run, with arbitrary clock readings, stays fenced and evolves the tables. */
  lemma {:induction false} RunFenced(cfg: Config, s: State, script: seq<Move>)
    requires Fence(cfg, s) && Legal(cfg, s, script)
    ensures Fence(cfg, Run(cfg, s, script)) && Evolves(s, Run(cfg, s, script))
    decreases |script|
  {
    hide AgentsOk, Enabled, Apply, AttemptLedger, OutboxLedger, Evolves;
    if script == [] {
      EvolvesReflexive(s);
    } else {
      var s1 := Apply(cfg, s, script[0].now, script[0].step);
      StepFenced(cfg, s, script[0].now, script[0].step);
      RunFenced(cfg, s1, script[1..]);
      EvolvesTransitive(cfg, s, s1, Run(cfg, s1, script[1..]));
    }
  }

  ghost predicate Reachable(cfg: Config, s: State) {
    exists s0: State, script: seq<Move> :: Initial(s0) && Legal(cfg, s0, script) && Run(cfg, s0, script) == s
  }

  lemma ReachableFenced(cfg: Config, s: State)
    requires Reachable(cfg, s)
    ensures Fence(cfg, s)
  {
    hide Fence, Run, Legal, Evolves;
    var s0: State, script: seq<Move> :| Initial(s0) && Legal(cfg, s0, script) && Run(cfg, s0, script) == s;
    InitialFenced(cfg, s0);
    RunFenced(cfg, s0, script);
  }
}
