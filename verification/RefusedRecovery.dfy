/** What becomes of a task whose lease expired: the guard that decides between `pending` with a new trigger
    and `failed` without one, and what that means for whole runs. */
module RefusedRecovery {
  import opened Domain
  import opened RetrySchedule
  import opened Transactions
  import opened Ledger
  import opened Protocol
  import opened Fencing
  import opened Frames
  import opened Guarantees
  import Programs
  import Recoverability

  /** Every retry policy has passed the configuration validator. */
  ghost predicate ValidConfig(cfg: Config) { forall k :: k in cfg ==> ValidPolicy(cfg[k].retry) }

  /** The guards of `retry.Schedule` for an expired lease, read off the row, its pinned configuration and the
      clock before the recovery is tried. */
  predicate MayReturn(c: Pinned, n: Task, at: Time) {
    && c.target.retryEnabled && UncertainAllowed(c.target)
    && 1 <= n.cycle <= |c.retry.delays|
    && at + c.retry.delays[n.cycle - 1] < n.deadline
  }

  lemma PlanReturnsIff(cfg: Config, n: Task, at: Time)
    requires Known(cfg, n) && ValidPolicy(cfg[(n.revision, n.target)].retry)
    ensures PlanFor(cfg, at, n, LEASE_EXPIRED).decision.verdict == Retry
          <==> MayReturn(cfg[(n.revision, n.target)], n, at)
  {
    var c := cfg[(n.revision, n.target)];
    if 1 <= n.cycle <= |c.retry.delays| {
      var delay := c.retry.delays[n.cycle - 1];
      hide Schedule, LeastBucket, ValidPolicy;
      assert delay in BUCKETS by { DelayIsBucket(c.retry, n.cycle); }
      IsOwnBucket(delay);
      GrantedIff(at, n, c, delay);
      RetryIffGranted(at, n, c, delay);
    } else {
      hide ValidPolicy;
    }
  }

  /** A delay of the table is its own bucket. */
  lemma IsOwnBucket(delay: Duration)
    requires delay in BUCKETS
    ensures LeastBucket(delay, delay)
  {
  }

  lemma GrantedIff(at: Time, n: Task, c: Pinned, delay: Duration)
    requires 1 <= n.cycle <= |c.retry.delays| && delay == c.retry.delays[n.cycle - 1] && LeastBucket(delay, delay)
    ensures Granted(at, n.cycle, n.deadline, c.target, c.retry, LEASE_EXPIRED, delay) <==> MayReturn(c, n, at)
  {
    hide LeastBucket;
  }

  lemma RetryIffGranted(at: Time, n: Task, c: Pinned, delay: Duration)
    requires ValidPolicy(c.retry) && 1 <= n.cycle <= |c.retry.delays| && delay == c.retry.delays[n.cycle - 1]
    requires LeastBucket(delay, delay)
    ensures Schedule(at, n.cycle, n.deadline, c.target, c.retry, LEASE_EXPIRED).decision.verdict == Retry
            <==> Granted(at, n.cycle, n.deadline, c.target, c.retry, LEASE_EXPIRED, delay)
  {
    hide Schedule, LeastBucket, ValidPolicy;
    var plan := Schedule(at, n.cycle, n.deadline, c.target, c.retry, LEASE_EXPIRED);
    ScheduleExact(at, n.cycle, n.deadline, c.target, c.retry, LEASE_EXPIRED, delay);
    if plan.route.Delayed? {
      ScheduleExact(at, n.cycle, n.deadline, c.target, c.retry, LEASE_EXPIRED, plan.route.ttl);
      if plan.decision.verdict == Retry { LeastBucketUnique(plan.route.ttl, delay, delay); }
    }
  }

  /** A recovered lease goes back to `pending` with exactly one new outbox row, that of its next generation,
      if and only if the guard holds; otherwise it ends in `failed`, a generation further, and the outbox
      stays as it was. */
  lemma RecoveredLeaseReturnsIff(cfg: Config, db: Db, at: Time, now: Time, n: Task)
    requires Known(cfg, n) && ValidPolicy(cfg[(n.revision, n.target)].retry) && Recoverable(db, now, n)
    ensures var plan := PlanFor(cfg, at, n, LEASE_EXPIRED);
            var z := RecoverLease(db, now, n, plan.decision.verdict, plan.next, plan.route);
            && n.id in z.tasks && z.tasks[n.id].generation == db.tasks[n.id].generation + 1
            && (if MayReturn(cfg[(n.revision, n.target)], n, at) then
                  && z.tasks[n.id].status == Pending && |z.outbox| == |db.outbox| + 1
                      && z.outbox[..|db.outbox|] == db.outbox
                  && Triggers(z.outbox[|db.outbox|], n.id, z.tasks[n.id].generation)
                else
                  z.tasks[n.id].status == Failed && z.outbox == db.outbox)
  {
    PlanReturnsIff(cfg, n, at);
    hide PlanFor;
    var plan := PlanFor(cfg, at, n, LEASE_EXPIRED);
    var z := RecoverLease(db, now, n, plan.decision.verdict, plan.next, plan.route);
    assert |z.outbox| > |db.outbox| ==> z.outbox[..|db.outbox|] == db.outbox;
  }

  // ---- whole runs -------------------------------------------------------------------------------------

  /** Move m recovers an expired lease of task id that the guard does not let return. */
  ghost predicate Refuses(cfg: Config, s: State, m: Move, id: Id) {
    && m.step.RecoverTx? && At(s, m.step.p) && s.agents[m.step.p].Recovering?
    && var x := s.agents[m.step.p];
    && x.n.id == id && Recoverable(s.db, m.now, x.n) && Known(cfg, x.n)
    && !MayReturn(cfg[(x.n.revision, x.n.target)], x.n, x.at)
  }

  ghost predicate NeverRefused(cfg: Config, s: State, script: seq<Move>, id: Id)
    requires Legal(cfg, s, script)
    decreases |script|
  {
    script == [] || (!Refuses(cfg, s, script[0], id)
                     && NeverRefused(cfg, Apply(cfg, s, script[0].now, script[0].step), script[1..], id))
  }

  ghost function FailedOf(s: State, id: Id): nat { if id in s.hist then s.hist[id].failedRecoveries else 0 }

  lemma TransactionsKeepFailed(cfg: Config, s: State, m: Move, id: Id)
    requires s.db.tasks.Keys == s.hist.Keys && Enabled(cfg, s, m.now, m.step)
    requires OnTasks(m.step) && !m.step.RecoverTx? && !m.step.ReconcileTx?
    ensures FailedOf(Apply(cfg, s, m.now, m.step), id) == FailedOf(s, id)
  {
    hide Claim, Finish, PlanFor;
  }

  lemma OthersKeepFailed(cfg: Config, s: State, m: Move, id: Id)
    requires Fence(cfg, s) && Enabled(cfg, s, m.now, m.step) && !m.step.RecoverTx?
    ensures FailedOf(Apply(cfg, s, m.now, m.step), id) == FailedOf(s, id)
  {
    TablesKeyed(cfg, s);
    hide Fence, Enabled, Apply;
    if m.step.ReconcileTx? {
      ReconcileReady(cfg, s, m.now, m.step);
      ReconcileAllKeeps(s, m.now, m.step.ids);
      if id in s.hist { ReconcileKeepsRow(s, m.now, m.step.ids, id); }
    } else if OnTasks(m.step) {
      TransactionsKeepFailed(cfg, s, m, id);
    } else {
      StepFramed(cfg, s, m.now, m.step);
    }
  }

  lemma RecoverCounts(cfg: Config, s: State, now: Time, p: Pid, id: Id)
    requires ValidConfig(cfg) && Fence(cfg, s) && p in s.agents && s.agents[p].Recovering?
    ensures FailedOf(DoRecover(s, now, p, s.agents[p]), id) == FailedOf(s, id) + if Refuses(cfg, s,
          On(now, RecoverTx(p)), id) then 1 else 0
  {
    hide DbFence, PlanFor, MayReturn, RecoverLease, LeaseSnapshot;
    var x := s.agents[p];
    assert AgentOk(cfg, s.db, s.issued, s.receipts, p, x);
    PlanReturnsIff(cfg, x.n, x.at);
    TablesKeyed(cfg, s);
  }

  /** The history counts exactly the refused recoveries. */
  lemma StepCounts(cfg: Config, s: State, m: Move, id: Id)
    requires ValidConfig(cfg) && Fence(cfg, s) && Enabled(cfg, s, m.now, m.step)
    ensures FailedOf(Apply(cfg, s, m.now, m.step), id) == FailedOf(s, id) + if Refuses(cfg, s, m, id) then 1 else 0
  {
    if m.step.RecoverTx? {
      hide Fence, DoRecover;
      RecoverCounts(cfg, s, m.now, m.step.p, id);
    } else {
      hide Enabled, Apply, Fence;
      OthersKeepFailed(cfg, s, m, id);
    }
  }

  lemma {:induction false} RunCounts(cfg: Config, s: State, script: seq<Move>, id: Id)
    requires ValidConfig(cfg) && Fence(cfg, s) && Legal(cfg, s, script)
    ensures FailedOf(s, id) <= FailedOf(Run(cfg, s, script), id)
    ensures FailedOf(Run(cfg, s, script), id) == FailedOf(s, id) <==> NeverRefused(cfg, s, script, id)
    decreases |script|
  {
    hide Fence, Enabled, Apply, Refuses, FailedOf, ValidConfig;
    if script != [] {
      StepCounts(cfg, s, script[0], id);
      StepFenced(cfg, s, script[0].now, script[0].step);
      RunCounts(cfg, Apply(cfg, s, script[0].now, script[0].step), script[1..], id);
    }
  }

  /** Over every run from the empty system: every generation of a task has had its outbox row if and only if
      no recovery of one of its leases was refused by the guard. */
  lemma EveryGenerationHasARowIff(cfg: Config, s: State, script: seq<Move>, id: Id)
    requires ValidConfig(cfg) && Initial(s) && Legal(cfg, s, script) && id in Run(cfg, s, script).db.tasks
    ensures var z := Run(cfg, s, script);
            (forall g: nat :: 1 <= g <= z.db.tasks[id].generation ==> HasTrigger(z.db.outbox, id, g))
                <==> NeverRefused(cfg, s, script, id)
  {
    hide Legal, Run, NeverRefused, Fence;
    InitialFenced(cfg, s);
    RunCounts(cfg, s, script, id);
    assert Reachable(cfg, Run(cfg, s, script));
    RowsAndFailures(cfg, Run(cfg, s, script), id);
  }

  // ---- a run in which it happens ----------------------------------------------------------------------

  const NO_RETRIES: Config :=
    map[(0, "t") := Pinned(Target(false, "unsupported", None), RetryPolicy([5 * SECOND], 600 * SECOND, false))]

  const EMPTY: State := State(Db(map[], map[], []), map[], map[], map[], {}, {}, 0)

  const ROW: Task := NewTask(0, "c", "k", 0, "t", 0, 0, 600 * SECOND)

  const CLAIMED: Task := ClaimedRow(ROW, 0, 0)

  /** A run under the shared clock, whatever steps it consists of. */
  ghost predicate Goes(cfg: Config, s: State, script: seq<Move>, z: State) {
    Timed(cfg, s, script) && Legal(cfg, s, script) && Run(cfg, s, script) == z
  }

  lemma GoOn(cfg: Config, s: State, script: seq<Move>, z: State, a: Step) returns (longer: seq<Move>, next: State)
    requires Goes(cfg, s, script, z) && Enabled(cfg, z, z.clock, a)
    ensures Goes(cfg, s, longer, next) && next == Apply(cfg, z, z.clock, a)
  {
    hide Enabled, Apply;
    var m := On(z.clock, a);
    next := Apply(cfg, z, z.clock, a);
    assert [m][1..] == [];
    assert Timed(cfg, next, [m][1..]) && Legal(cfg, next, [m][1..]) && Run(cfg, next, [m][1..]) == next;
    Recoverability.TimedConcat(cfg, s, script, [m]);
    longer := script + [m];
  }

  lemma SubmitStep(cfg: Config, s: State, now: Time, a: Step)
    requires a.Submit? && (a.revision, a.target) in cfg && a.at <= now && s.db.tasks == map[]
    ensures Enabled(cfg, s, now, a)
    ensures Apply(cfg, s, now, a) == DoSubmit(s, now, NewTask(a.id, a.client, a.key, a.hash, a.target, a.revision, a.at,
                                                              cfg[(a.revision, a.target)].retry.maxDuration))
  {
  }

  lemma ProxyStep(cfg: Config, s: State, now: Time, p: Pid, id: Id)
    requires !At(s, p) && id in s.db.tasks
    ensures Enabled(cfg, s, now, Proxy(p, id)) && Apply(cfg, s, now, Proxy(p, id)) == Put(s, p, Started(now, id, 1))
  {
  }

  lemma CrashStep(cfg: Config, s: State, now: Time, p: Pid)
    requires At(s, p)
    ensures Enabled(cfg, s, now, Crash(p)) && Apply(cfg, s, now, Crash(p)) == Drop(s, p)
  {
  }

  lemma TickStep(cfg: Config, s: State, now: Time, to: Time)
    requires s.agents == map[] && s.clock <= to
    ensures Enabled(cfg, s, now, Tick(to)) && Apply(cfg, s, now, Tick(to)) == s.(clock := to)
  {
  }

  lemma SweepStep(cfg: Config, s: State, now: Time, p: Pid)
    requires s.agents == map[] && forall i :: 0 <= i < |s.db.outbox| ==> !IsAbandoned(s.db.outbox[i], now)
    ensures Enabled(cfg, s, now, SweepOutbox(p, {})) && Apply(cfg, s, now, SweepOutbox(p, {})) == Put(s, p, Swept)
  {
    assert ResetRows(s.db.outbox, {}) == s.db.outbox;
  }

  lemma ReadStep(cfg: Config, s: State, now: Time, p: Pid, ns: seq<Task>)
    requires At(s, p) && s.agents[p].Swept? && ExpiredList(s.db, now, ns)
    ensures Enabled(cfg, s, now, ReadExpired(p, ns)) && Apply(cfg, s, now, ReadExpired(p, ns)) == Put(s, p,
          Sweeping(ns))
  {
  }

  lemma PlanOneStep(cfg: Config, s: State, now: Time, p: Pid, n: Task)
    requires At(s, p) && s.agents[p] == Sweeping([n]) && Known(cfg, n)
    ensures Enabled(cfg, s, now, PlanRecovery(p))
    ensures Apply(cfg, s, now, PlanRecovery(p)) == Put(s, p,
          Recovering(n, PlanFor(cfg, now, n, LEASE_EXPIRED), now, []))
  {
    assert [n][1..] == [];
  }

  lemma RecoverStep(cfg: Config, s: State, now: Time, p: Pid)
    requires At(s, p) && s.agents[p].Recovering?
    ensures Enabled(cfg, s, now, RecoverTx(p)) && Apply(cfg, s, now, RecoverTx(p)) == DoRecover(s, now, p, s.agents[p])
  {
  }

  /** A submission is claimed through the proxy, and the worker dies. */
  lemma ClaimAndDie() returns (script: seq<Move>, z: State)
    ensures Goes(NO_RETRIES, EMPTY, script, z) && z.clock == 0 && z.agents == map[] && z.issued == map[0 := 0]
    ensures z.db == Db(map[0 := CLAIMED], map[(0, 1) := Attempt(1, 0, 0, None, ResultStarted)],
          [NewEvent(0, 1, Dispatch, 0, 0)])
    ensures z.hist == map[0 := NO_HISTORY]
  {
    hide Goes, Enabled, Apply;
    var cfg := NO_RETRIES;
    script, z := [], EMPTY;
    Nothing();
    SubmitStep(cfg, z, 0, Submit(0, "c", "k", 0, "t", 0, 0));
    script, z := GoOn(cfg, EMPTY, script, z, Submit(0, "c", "k", 0, "t", 0, 0));
    assert z.db == Db(map[0 := ROW], map[], [NewEvent(0, 1, Dispatch, 0, 0)]);
    ProxyStep(cfg, z, 0, 0, 0);
    script, z := GoOn(cfg, EMPTY, script, z, Proxy(0, 0));
    script, z := Work(script, z);
    CrashStep(cfg, z, 0, 0);
    script, z := GoOn(cfg, EMPTY, script, z, Crash(0));
  }

  lemma Work(past: seq<Move>, now: State) returns (script: seq<Move>, z: State)
    requires Goes(NO_RETRIES, EMPTY, past, now) && now.clock == 0 && now.agents == map[0 := Started(0, 0, 1)]
    requires now.db.tasks == map[0 := ROW] && now.db.attempts == map[] && now.issued == map[]
    ensures Goes(NO_RETRIES, EMPTY, script, z) && z.clock == 0 && z.agents.Keys == {0} && z.issued == map[0 := 0]
          && z.hist == now.hist
    ensures z.db == Db(map[0 := CLAIMED], map[(0, 1) := Attempt(1, 0, 0, None, ResultStarted)], now.db.outbox)
  {
    hide Goes, Enabled, Apply;
    var cfg := NO_RETRIES;
    script, z := past, now;
    Programs.LoadStep(cfg, z, 0, 0);
    script, z := GoOn(cfg, EMPTY, script, z, Load(0));
    Programs.NotBeforeStep(cfg, z, 0, 0);
    script, z := GoOn(cfg, EMPTY, script, z, NotBefore(0));
    Programs.CheckStep(cfg, z, 0, 0, true);
    script, z := GoOn(cfg, EMPTY, script, z, Check(0, true));
    Programs.GateStep(cfg, z, 0, 0, true);
    script, z := GoOn(cfg, EMPTY, script, z, Gate(0, true));
    Programs.ClaimStep(cfg, z, 0, 0, 0);
    script, z := GoOn(cfg, EMPTY, script, z, ClaimTx(0, 0));
  }

  lemma Nothing()
    ensures Goes(NO_RETRIES, EMPTY, [], EMPTY)
  {
  }

  lemma OneExpired(db: Db, now: Time)
    requires db.tasks == map[0 := CLAIMED] && LEASE_TTL < now
    ensures ExpiredList(db, now, [CLAIMED])
  {
    assert [CLAIMED][0].id == 0;
  }

  /** A refused recovery happens: with automatic retries off, a claim whose worker dies is recovered after
      its lease into `failed`, and its second generation never gets an outbox row. */
  lemma RefusalHappens() returns (script: seq<Move>, z: State)
    ensures ValidConfig(NO_RETRIES) && Initial(EMPTY) && Timed(NO_RETRIES, EMPTY, script)
          && Legal(NO_RETRIES, EMPTY, script)
    ensures z == Run(NO_RETRIES, EMPTY, script) && 0 in z.db.tasks && 0 in z.hist
    ensures z.db.tasks[0].status == Failed && z.db.tasks[0].generation == 2 && z.hist[0].failedRecoveries == 1
    ensures !HasTrigger(z.db.outbox, 0, 2) && !NeverRefused(NO_RETRIES, EMPTY, script, 0)
  {
    hide Goes, NeverRefused, PlanFor, ExpiredList, Fence, ValidPolicy, Enabled, Apply;
    var cfg := NO_RETRIES;
    PolicyIsValid();
    script, z := ClaimAndDie();
    TickStep(cfg, z, 0, LEASE_TTL + 1);
    script, z := GoOn(cfg, EMPTY, script, z, Tick(LEASE_TTL + 1));
    SweepStep(cfg, z, z.clock, 1);
    script, z := GoOn(cfg, EMPTY, script, z, SweepOutbox(1, {}));
    OneExpired(z.db, z.clock);
    ReadStep(cfg, z, z.clock, 1, [CLAIMED]);
    script, z := GoOn(cfg, EMPTY, script, z, ReadExpired(1, [CLAIMED]));
    PlanOneStep(cfg, z, z.clock, 1, CLAIMED);
    script, z := GoOn(cfg, EMPTY, script, z, PlanRecovery(1));
    PlanReturnsIff(cfg, CLAIMED, z.clock);
    RecoverStep(cfg, z, z.clock, 1);
    script, z := GoOn(cfg, EMPTY, script, z, RecoverTx(1));
    GoesIs(script, z);
    InitialFenced(cfg, EMPTY);
    RunCounts(cfg, EMPTY, script, 0);
  }

  lemma GoesIs(script: seq<Move>, z: State)
    requires Goes(NO_RETRIES, EMPTY, script, z)
    ensures Timed(NO_RETRIES, EMPTY, script) && Legal(NO_RETRIES, EMPTY, script) && Run(NO_RETRIES, EMPTY, script) == z
  {
  }

  lemma PolicyIsValid()
    ensures ValidConfig(NO_RETRIES)
  {
    assert BUCKETS[0] == 5 * SECOND;
  }
}
