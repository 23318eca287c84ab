/** The delivery protocol as one transition system: the tables, a broker that may lose and duplicate
    messages, and any number of workers, dispatchers and recovery loops. Each agent is a program counter
    with the values its Go function holds at that point, stale snapshots included. Agents interleave at
    every transaction, clock reading and external call, and may crash between any two steps. */
module Protocol {
  import opened Domain
  import opened RetrySchedule
  import opened Transactions
  import opened Ledger

  type Pid = nat

  /** A trigger in the broker, deliverable from `readyAt` on, any number of times. */
  datatype Message = Message(id: Id, generation: nat, readyAt: Time)

  datatype Agent =
    // Worker.Process
    | Started(start: Time, id: Id, generation: nat)
    | Loaded(start: Time, n: Task)
    | Due(start: Time, n: Task)
    | Checked(start: Time, n: Task, policyOk: bool, expired: bool, at: Time)
    | Deferring(n: Task, at: Time)
    | Admitted(start: Time, n: Task, policyOk: bool, gated: bool)
    | Claimed(start: Time, n: Task, policyOk: bool, gated: bool)
    | Delivering(start: Time, n: Task, policyOk: bool, gated: bool, at: Time)
    | Decided(n: Task, d: Decision)
    | Ready(n: Task, plan: Plan, at: Time)
    // Dispatcher.Run
    | Publisher(start: Time, row: nat, token: Token, id: Id, generation: nat, route: Route, sent: bool)
    | Confirmed(row: nat, token: Token)
    | Releasing(row: nat, token: Token)
    // Loop.step
    | Swept
    | Sweeping(rest: seq<Task>)
    | Recovering(n: Task, plan: Plan, at: Time, rest: seq<Task>)

  /** What happened to a claimed outbox row outside the database: under `token` the message was handed to
      the broker, or the broker confirmed it. */
  datatype Receipt =
    | Shipped(token: Token, id: Id, generation: nat)
    | Acked(token: Token, id: Id, generation: nat)

  /** `issued` maps every token handed out by `NewID` to the agent that asked for it; `receipts` is
      what the broker was sent and what it confirmed. */
  datatype State = State(
    db: Db,
    hist: map<Id, History>,
    issued: map<Token, Pid>,
    agents: map<Pid, Agent>,
    broker: set<Message>,
    receipts: set<Receipt>,
    clock: Time)

  datatype Step =
    | Submit(id: Id, client: string, key: string, hash: nat, target: string, revision: nat, at: Time)
    | RetryByHand(id: Id, client: string, generation: nat)
    | Receive(p: Pid, m: Message)
    | Proxy(p: Pid, id: Id)
    | Load(p: Pid)
    | NotBefore(p: Pid)
    | Check(p: Pid, policyOk: bool)
    | LockRefused(p: Pid)
    | Gate(p: Pid, granted: bool)
    | DeferTx(p: Pid)
    | ClaimTx(p: Pid, token: Token)
    | Decide(p: Pid, secretOk: bool, late: Decision)
    | Return(p: Pid, d: Decision)
    | PlanRetry(p: Pid)
    | FinishTx(p: Pid)
    | Take(p: Pid, row: nat, token: Token, lockedRows: set<nat>)
    | Send(p: Pid)
    | Confirm(p: Pid)
    | Unconfirmed(p: Pid)
    | PublishedTx(p: Pid)
    | ReleaseTx(p: Pid)
    | SweepOutbox(p: Pid, rows: set<nat>)
    | ReadExpired(p: Pid, ns: seq<Task>)
    | PlanRecovery(p: Pid)
    | RecoverTx(p: Pid)
    | ReconcileTx(p: Pid, ids: seq<Id>, locked: set<Id>)
    | Crash(p: Pid)
    | Lose(m: Message)
    | Tick(to: Time)

  function Put(s: State, p: Pid, a: Agent): State { s.(agents := s.agents[p := a]) }

  function Drop(s: State, p: Pid): State { s.(agents := s.agents - {p}) }

  predicate Known(cfg: Config, n: Task) { (n.revision, n.target) in cfg }

  function Blocked(reason: string): Decision { Decision(Fail, reason, false, Absent) }

  const LEASE_EXPIRED := Decision(Retry, "lease_expired", true, Absent)

  function PlanFor(cfg: Config, now: Time, n: Task, d: Decision): Plan
    requires Known(cfg, n)
  {
    var c := cfg[(n.revision, n.target)];
    if d.verdict == Retry then Schedule(now, n.cycle, n.deadline, c.target, c.retry, d) else Plan(d, None, Dispatch)
  }

  // ---- clients ------------------------------------------------------------------------------------

  function DoSubmit(s: State, now: Time, n: Task): State {
    s.(db := Accept(s.db, now, n), hist := s.hist[n.id := NO_HISTORY])
  }

  function DoRetryByHand(cfg: Config, s: State, now: Time, id: Id): State
    requires id in s.db.tasks && id in s.hist && Known(cfg, s.db.tasks[id])
  {
    var t := s.db.tasks[id];
    var h := s.hist[id];
    s.(db := ManualRetry(s.db, now, id, cfg[(t.revision, t.target)].retry.maxDuration),
       hist := s.hist[id := h.(manualRetries := h.manualRetries + 1, defers := 0)])
  }

  // ---- worker -------------------------------------------------------------------------------------

  function DoLoad(s: State, p: Pid, start: Time, id: Id, generation: nat): State {
    if id in s.db.tasks && s.db.tasks[id].generation == generation && s.db.tasks[id].status == Pending
    then Put(s, p, Loaded(start, s.db.tasks[id])) else Drop(s, p)
  }

  function AfterGate(a: Agent, granted: bool): Agent
    requires a.Checked?
  {
    if !a.policyOk || a.expired then Admitted(a.start, a.n, a.policyOk, false)
    else if granted then Admitted(a.start, a.n, a.policyOk, true)
    else Deferring(a.n, a.at)
  }

  function DoDefer(s: State, now: Time, p: Pid, n: Task): State {
    if Deferrable(s.db, n.id, n.generation) && n.id in s.hist then
      var h := s.hist[n.id];
      Drop(s, p).(db := Defer(s.db, now, n.id, DEFER_DELAY), hist := s.hist[n.id := h.(defers := h.defers + 1)])
    else Drop(s, p)
  }

  function DoClaim(s: State, now: Time, p: Pid, a: Agent, token: Token): State
    requires a.Admitted?
  {
    if Claimable(s.db, now, a.n.id, a.n.generation) then
      Put(s, p, Claimed(a.start, ClaimedRow(s.db.tasks[a.n.id], now, token), a.policyOk, a.gated))
        .(db := Claim(s.db, now, token, a.n.id), issued := s.issued[token := p])
    else Drop(s, p)
  }

  /** Once its context has expired, `Adapter.Deliver` returns some decision, `late`, without a call. */
  function AfterDecide(a: Agent, now: Time, secretOk: bool, late: Decision): Agent
    requires a.Claimed?
  {
    if !a.policyOk then Decided(a.n, Blocked("target_policy_blocked"))
    else if !secretOk then Decided(a.n, Blocked("secret_unavailable"))
    else if a.n.deadline <= now then Decided(a.n, Blocked("retry_deadline_exceeded"))
    else if a.start + PROCESS_TIMEOUT < now then Decided(a.n, late)
    else Delivering(a.start, a.n, a.policyOk, a.gated, now)
  }

  function DoFinish(s: State, now: Time, p: Pid, n: Task, plan: Plan): State {
    if Finishable(s.db, now, n) then
      Drop(s, p).(db := Finish(s.db, now, n, plan.decision.verdict, plan.next, plan.route))
    else Drop(s, p)
  }

  // ---- dispatcher ---------------------------------------------------------------------------------

  function WithRow(s: State, row: nat, e: Event): State
    requires row < |s.db.outbox|
  {
    s.(db := s.db.(outbox := s.db.outbox[row := e]))
  }

  function DoTake(s: State, now: Time, p: Pid, row: nat, token: Token): State
    requires row < |s.db.outbox|
  {
    var e := s.db.outbox[row];
    Put(WithRow(s, row, ClaimedEvent(e, now, token)), p,
        Publisher(now, row, token, e.notification, e.generation, e.route, false))
      .(issued := s.issued[token := p])
  }

  function DoSend(s: State, now: Time, p: Pid, a: Agent): State
    requires a.Publisher?
  {
    Put(s, p, a.(sent := true)).(broker := s.broker + {Message(a.id, a.generation, now + QueueTtl(a.route))},
                                 receipts := s.receipts + {Shipped(a.token, a.id, a.generation)})
  }

  function DoConfirm(s: State, p: Pid, a: Agent): State
    requires a.Publisher?
  {
    Put(s, p, Confirmed(a.row, a.token)).(receipts := s.receipts + {Acked(a.token, a.id, a.generation)})
  }

  function DoPublished(s: State, now: Time, p: Pid, row: nat, token: Token): State {
    if row < |s.db.outbox| && Confirmable(s.db.outbox[row], now, token)
    then Drop(WithRow(s, row, PublishedEvent(s.db.outbox[row], now)), p) else Drop(s, p)
  }

  function DoRelease(s: State, now: Time, p: Pid, row: nat, token: Token): State {
    if row < |s.db.outbox| && HoldsRow(s.db.outbox[row], token)
    then Drop(WithRow(s, row, ReleasedEvent(s.db.outbox[row], now)), p) else Drop(s, p)
  }

  // ---- recovery loop ------------------------------------------------------------------------------

  function DoSweepOutbox(s: State, p: Pid, rows: set<nat>): State {
    Put(s, p, Swept).(db := s.db.(outbox := ResetRows(s.db.outbox, rows)))
  }

  function DoRecover(s: State, now: Time, p: Pid, a: Agent): State
    requires a.Recovering?
  {
    if Recoverable(s.db, now, a.n) && a.n.id in s.hist then
      var h := s.hist[a.n.id];
      var v := a.plan.decision.verdict;
      Put(s, p, Sweeping(a.rest))
        .(db := RecoverLease(s.db, now, a.n, v, a.plan.next, a.plan.route),
          hist := s.hist[a.n.id := if v == Retry then h else h.(failedRecoveries := h.failedRecoveries + 1)])
    else Put(s, p, Sweeping(a.rest))
  }

  /** One turn of the loop in `Reconcile`. */
  function ReconcileTask(s: State, now: Time, id: Id): State
    requires id in s.db.tasks && id in s.hist
  {
    s.(db := ReconcileOne(s.db, now, id), hist := s.hist[id := s.hist[id].(lastReconcile := Some(now))])
  }

  function ReconcileAll(s: State, now: Time, ids: seq<Id>): State
    requires forall i :: 0 <= i < |ids| ==> ids[i] in s.db.tasks && ids[i] in s.hist
    decreases |ids|
  {
    if ids == [] then s
    else
      var s1 := ReconcileTask(s, now, ids[0]);
      assert forall i :: 0 <= i < |ids[1..]| ==> ids[1..][i] == ids[i + 1];
      ReconcileAll(s1, now, ids[1..])
  }

  /** The fold over the state changes the tables exactly as the transaction `Reconcile` does. */
  lemma {:induction false} ReconcileAllIsReconcile(s: State, now: Time, ids: seq<Id>)
    requires forall i :: 0 <= i < |ids| ==> ids[i] in s.db.tasks && ids[i] in s.hist
    ensures ReconcileAll(s, now, ids).db == Reconcile(s.db, now, ids)
    decreases |ids|
  {
    if ids != [] {
      var s1 := ReconcileTask(s, now, ids[0]);
      assert forall i :: 0 <= i < |ids[1..]| ==> ids[1..][i] == ids[i + 1];
      ReconcileAllIsReconcile(s1, now, ids[1..]);
    }
  }

  /** A reconciliation leaves everything but generations, triggers and its own mark alone. */
  lemma {:induction false} ReconcileAllKeeps(s: State, now: Time, ids: seq<Id>)
    requires forall i :: 0 <= i < |ids| ==> ids[i] in s.db.tasks && ids[i] in s.hist
    ensures var z := ReconcileAll(s, now, ids);
            && z == s.(db := z.db, hist := z.hist) && s.db.outbox <= z.db.outbox && z.db.attempts == s.db.attempts
            && z.hist.Keys == s.hist.Keys && z.db.tasks.Keys == s.db.tasks.Keys
    decreases |ids|
  {
    if ids != [] {
      assert forall i :: 0 <= i < |ids[1..]| ==> ids[1..][i] == ids[i + 1];
      ReconcileAllKeeps(ReconcileTask(s, now, ids[0]), now, ids[1..]);
    }
  }

  lemma {:induction false} ReconcileKeepsRow(s: State, now: Time, ids: seq<Id>, id: Id)
    requires forall i :: 0 <= i < |ids| ==> ids[i] in s.db.tasks && ids[i] in s.hist
    requires id in s.db.tasks && id in s.hist
    ensures var z := ReconcileAll(s, now, ids);
            && id in z.db.tasks && id in z.hist
            && z.db.tasks[id] == s.db.tasks[id].(generation := z.db.tasks[id].generation)
            && z.hist[id] == s.hist[id].(lastReconcile := z.hist[id].lastReconcile)
    decreases |ids|
  {
    if ids != [] {
      assert forall i :: 0 <= i < |ids[1..]| ==> ids[1..][i] == ids[i + 1];
      ReconcileKeepsRow(ReconcileTask(s, now, ids[0]), now, ids[1..], id);
    }
  }

  // ---- the transition system ----------------------------------------------------------------------

  predicate At(s: State, p: Pid) { p in s.agents }

  /** The contexts of running HTTP calls and publishes do not let the clock pass their deadlines. */
  ghost predicate ContextsAllow(s: State, to: Time) {
    forall p :: p in s.agents ==>
      && (s.agents[p].Delivering? ==> to <= s.agents[p].start + PROCESS_TIMEOUT)
      && (s.agents[p].Publisher? ==> to <= s.agents[p].start + PUBLISH_TIMEOUT)
  }

  ghost predicate Enabled(cfg: Config, s: State, now: Time, a: Step) {
    match a
    case Submit(id, client, key, hash, target, revision, at) =>
      (revision, target) in cfg && Insertable(s.db, NewTask(id, client, key, hash, target, revision, at, 0))
          && at <= now
    case RetryByHand(id, client, generation) =>
      Retriable(s.db, id, client, generation) && id in s.hist && Known(cfg, s.db.tasks[id])
    case Receive(p, m) => !At(s, p) && m in s.broker && m.readyAt <= now
    case Proxy(p, id) => !At(s, p) && id in s.db.tasks
    case Load(p) => At(s, p) && s.agents[p].Started?
    case NotBefore(p) => At(s, p) && s.agents[p].Loaded?
    case Check(p, _) => At(s, p) && s.agents[p].Due?
    case LockRefused(p) => At(s, p) && s.agents[p].Checked?
    case Gate(p, _) => At(s, p) && s.agents[p].Checked?
    case DeferTx(p) => At(s, p) && s.agents[p].Deferring?
    case ClaimTx(p, token) => At(s, p) && s.agents[p].Admitted? && token !in s.issued
    case Decide(p, _, _) => At(s, p) && s.agents[p].Claimed?
    case Return(p, _) => At(s, p) && s.agents[p].Delivering?
    case PlanRetry(p) => At(s, p) && s.agents[p].Decided?
    case FinishTx(p) => At(s, p) && s.agents[p].Ready?
    case Take(p, row, token, locked) => !At(s, p) && token !in s.issued && FirstReady(s.db.outbox, now, row, locked)
    case Send(p) => At(s, p) && s.agents[p].Publisher?
    case Confirm(p) => At(s, p) && s.agents[p].Publisher? && s.agents[p].sent
    case Unconfirmed(p) => At(s, p) && s.agents[p].Publisher?
    case PublishedTx(p) => At(s, p) && s.agents[p].Confirmed?
    case ReleaseTx(p) => At(s, p) && s.agents[p].Releasing?
    case SweepOutbox(p, rows) => !At(s, p) && AbandonedRows(s.db.outbox, now, rows)
    case ReadExpired(p, ns) => At(s, p) && s.agents[p].Swept? && ExpiredList(s.db, now, ns)
    case PlanRecovery(p) => At(s, p) && s.agents[p].Sweeping? && s.agents[p].rest != []
    case RecoverTx(p) => At(s, p) && s.agents[p].Recovering?
    case ReconcileTx(p, ids, locked) =>
      At(s, p) && s.agents[p] == Sweeping([]) && StaleList(s.db, now, ids, locked) && forall i :: 0 <= i < |ids| ==>
          ids[i] in s.hist
    case Crash(p) => At(s, p)
    case Lose(m) => m in s.broker
    case Tick(to) => s.clock <= to && ContextsAllow(s, to)
  }

  ghost function Apply(cfg: Config, s: State, now: Time, a: Step): State
    requires Enabled(cfg, s, now, a)
  {
    match a
    case Submit(id, client, key, hash, target, revision, at) =>
      DoSubmit(s, now, NewTask(id, client, key, hash, target, revision, at, cfg[(revision, target)].retry.maxDuration))
    case RetryByHand(id, client, generation) => DoRetryByHand(cfg, s, now, id)
    case Receive(p, m) => Put(s, p, Started(now, m.id, m.generation))
    case Proxy(p, id) => Put(s, p, Started(now, id, 1))
    case Load(p) => DoLoad(s, p, s.agents[p].start, s.agents[p].id, s.agents[p].generation)
    case NotBefore(p) => if now < s.agents[p].n.next then Drop(s, p)
        else Put(s, p, Due(s.agents[p].start, s.agents[p].n))
    case Check(p, policyOk) =>
      var x := s.agents[p];
      if Known(cfg, x.n) then Put(s, p, Checked(x.start, x.n, policyOk, x.n.deadline <= now, now)) else Drop(s, p)
    case LockRefused(p) => Drop(s, p)
    case Gate(p, granted) => Put(s, p, AfterGate(s.agents[p], granted))
    case DeferTx(p) => DoDefer(s, now, p, s.agents[p].n)
    case ClaimTx(p, token) => DoClaim(s, now, p, s.agents[p], token)
    case Decide(p, secretOk, late) => Put(s, p, AfterDecide(s.agents[p], now, secretOk, late))
    case Return(p, d) => Put(s, p, Decided(s.agents[p].n, d))
    case PlanRetry(p) =>
      var x := s.agents[p];
      if Known(cfg, x.n) then Put(s, p, Ready(x.n, PlanFor(cfg, now, x.n, x.d), now)) else Drop(s, p)
    case FinishTx(p) => DoFinish(s, now, p, s.agents[p].n, s.agents[p].plan)
    case Take(p, row, token, locked) => DoTake(s, now, p, row, token)
    case Send(p) => DoSend(s, now, p, s.agents[p])
    case Confirm(p) => DoConfirm(s, p, s.agents[p])
    case Unconfirmed(p) => Put(s, p, Releasing(s.agents[p].row, s.agents[p].token))
    case PublishedTx(p) => DoPublished(s, now, p, s.agents[p].row, s.agents[p].token)
    case ReleaseTx(p) => DoRelease(s, now, p, s.agents[p].row, s.agents[p].token)
    case SweepOutbox(p, rows) => DoSweepOutbox(s, p, rows)
    case ReadExpired(p, ns) => Put(s, p, Sweeping(ns))
    case PlanRecovery(p) =>
      var rest := s.agents[p].rest;
      if Known(cfg, rest[0]) then Put(s, p, Recovering(rest[0], PlanFor(cfg, now, rest[0], LEASE_EXPIRED), now,
          rest[1..])) else Drop(s, p)
    case RecoverTx(p) => DoRecover(s, now, p, s.agents[p])
    case ReconcileTx(p, ids, locked) => Drop(ReconcileAll(s, now, ids), p)
    case Crash(p) => Drop(s, p)
    case Lose(m) => s.(broker := s.broker - {m})
    case Tick(to) => s.(clock := to)
  }

  ghost predicate Initial(s: State) {
    s == State(Db(map[], map[], []), map[], map[], map[], {}, {}, s.clock)
  }

  /** A step together with the clock reading its transaction uses. */
  datatype Move = On(now: Time, step: Step)

  /** The script can be executed from s. Clock readings are arbitrary. */
  ghost predicate Legal(cfg: Config, s: State, script: seq<Move>)
    decreases |script|
  {
    script == [] || (Enabled(cfg, s, script[0].now, script[0].step)
                     && Legal(cfg, Apply(cfg, s, script[0].now, script[0].step), script[1..]))
  }

  ghost function Run(cfg: Config, s: State, script: seq<Move>): State
    requires Legal(cfg, s, script)
    decreases |script|
  {
    if script == [] then s else Run(cfg, Apply(cfg, s, script[0].now, script[0].step), script[1..])
  }

  lemma {:induction false} LegalAppend(cfg: Config, s: State, script: seq<Move>, m: Move)
    requires Legal(cfg, s, script) && Enabled(cfg, Run(cfg, s, script), m.now, m.step)
    ensures Legal(cfg, s, script + [m]) && Run(cfg, s, script + [m]) == Apply(cfg, Run(cfg, s, script), m.now, m.step)
    decreases |script|
  {
    hide Enabled, Apply;
    var l := script + [m];
    if script == [] {
      assert l[1..] == [];
    } else {
      assert l[0] == script[0] && l[1..] == script[1..] + [m];
      LegalAppend(cfg, Apply(cfg, s, script[0].now, script[0].step), script[1..], m);
    }
  }

  /** As `Legal`, with one shared clock: every step reads the clock of the state. */
  ghost predicate Timed(cfg: Config, s: State, script: seq<Move>)
    decreases |script|
  {
    script == [] || (script[0].now == s.clock && Enabled(cfg, s, s.clock, script[0].step)
                     && Timed(cfg, Apply(cfg, s, s.clock, script[0].step), script[1..]))
  }

  lemma {:induction false} TimedIsLegal(cfg: Config, s: State, script: seq<Move>)
    requires Timed(cfg, s, script)
    ensures Legal(cfg, s, script)
    decreases |script|
  {
    if script != [] { TimedIsLegal(cfg, Apply(cfg, s, s.clock, script[0].step), script[1..]); }
  }
}
