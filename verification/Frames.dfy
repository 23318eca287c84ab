/** What a step of the transition system leaves alone: the agents that do not take it, and, for most kinds of
    step, the tables of tasks and attempts. */
module Frames {
  import opened Domain
  import opened Transactions
  import opened Ledger
  import opened Protocol

  /** The agent that takes a step, if there is one. */
  function Actor(a: Step): set<Pid> {
    match a
    case Submit(_, _, _, _, _, _, _) => {}
    case RetryByHand(_, _, _) => {}
    case Lose(_) => {}
    case Tick(_) => {}
    case _ => {a.p}
  }

  /** The seven transactions on tasks. */
  predicate OnTasks(a: Step) {
    a.Submit? || a.RetryByHand? || a.DeferTx? || a.ClaimTx? || a.FinishTx? || a.RecoverTx? || a.ReconcileTx?
  }

  /** Steps of a worker outside its transactions. */
  predicate OfWorker(a: Step) {
    || a.Receive? || a.Proxy? || a.Load? || a.NotBefore? || a.Check? || a.LockRefused? || a.Gate?
    || a.Decide? || a.Return? || a.PlanRetry? || a.Crash?
  }

  predicate OfDispatcher(a: Step) {
    a.Take? || a.Send? || a.Confirm? || a.Unconfirmed? || a.PublishedTx? || a.ReleaseTx?
  }

  ghost predicate SameTasks(s: State, s': State) {
    s'.db.tasks == s.db.tasks && s'.db.attempts == s.db.attempts && s'.hist == s.hist
  }

  ghost predicate SameAgentsBut(s: State, s': State, who: set<Pid>) {
    forall q :: q !in who ==> (q in s'.agents <==> q in s.agents) && (q in s.agents ==> s'.agents[q] == s.agents[q])
  }

  ghost predicate Framed(s: State, s': State, a: Step) {
    && SameAgentsBut(s, s', Actor(a)) && s.clock <= s'.clock
    && (!OnTasks(a) ==> SameTasks(s, s')) && (OfWorker(a) ==> s'.db == s.db)
    && (!a.Submit? ==> s'.db.tasks.Keys == s.db.tasks.Keys)
  }

  lemma ReconcileReady(cfg: Config, s: State, now: Time, a: Step)
    requires Enabled(cfg, s, now, a) && a.ReconcileTx?
    ensures forall i :: 0 <= i < |a.ids| ==>
          a.ids[i] in s.db.tasks && a.ids[i] in s.hist && IsStale(s.db, now, a.ids[i])
    ensures Apply(cfg, s, now, a) == Drop(ReconcileAll(s, now, a.ids), a.p)
  {
    forall i | 0 <= i < |a.ids| ensures a.ids[i] in s.db.tasks { assert IsStale(s.db, now, a.ids[i]); }
  }

  lemma WorkerFramed(cfg: Config, s: State, now: Time, a: Step)
    requires Enabled(cfg, s, now, a) && OfWorker(a)
    ensures Framed(s, Apply(cfg, s, now, a), a)
  {
    hide PlanFor;
  }

  lemma PublishingFramed(cfg: Config, s: State, now: Time, a: Step)
    requires Enabled(cfg, s, now, a) && (a.Take? || a.Send? || a.Confirm? || a.Unconfirmed?)
    ensures Framed(s, Apply(cfg, s, now, a), a)
  {
    if a.Take? { ReadyRow(s.db.outbox, now, a.row, a.lockedRows); }
    hide FirstReady;
  }

  lemma PublishedFramed(cfg: Config, s: State, now: Time, a: Step)
    requires Enabled(cfg, s, now, a) && (a.PublishedTx? || a.ReleaseTx?)
    ensures Framed(s, Apply(cfg, s, now, a), a)
  {
    hide HoldsRow;
  }

  lemma ReadyRow(outbox: seq<Event>, now: Time, row: nat, locked: set<nat>)
    requires FirstReady(outbox, now, row, locked)
    ensures row < |outbox| && IsReady(outbox[row], now)
  {
  }

  lemma ClientFramed(cfg: Config, s: State, now: Time, a: Step)
    requires Enabled(cfg, s, now, a) && (a.Submit? || a.RetryByHand?)
    ensures Framed(s, Apply(cfg, s, now, a), a)
  {
  }

  lemma LeaseFramed(cfg: Config, s: State, now: Time, a: Step)
    requires Enabled(cfg, s, now, a) && (a.DeferTx? || a.ClaimTx? || a.FinishTx? || a.RecoverTx?)
    ensures Framed(s, Apply(cfg, s, now, a), a)
  {
    hide CloseAttempt, SameLease;
  }

  lemma ReconcileFramed(cfg: Config, s: State, now: Time, a: Step)
    requires Enabled(cfg, s, now, a) && a.ReconcileTx?
    ensures Framed(s, Apply(cfg, s, now, a), a)
  {
    ReconcileReady(cfg, s, now, a);
    hide Enabled, Apply;
    ReconcileAllKeeps(s, now, a.ids);
  }

  lemma OtherFramed(cfg: Config, s: State, now: Time, a: Step)
    requires Enabled(cfg, s, now, a) && !OnTasks(a) && !OfWorker(a) && !OfDispatcher(a)
    ensures Framed(s, Apply(cfg, s, now, a), a)
  {
    hide AbandonedRows, ExpiredList, PlanFor, ContextsAllow;
  }

  lemma StepFramed(cfg: Config, s: State, now: Time, a: Step)
    requires Enabled(cfg, s, now, a)
    ensures Framed(s, Apply(cfg, s, now, a), a)
  {
    hide Enabled, Apply, Framed;
    if OfWorker(a) {
      WorkerFramed(cfg, s, now, a);
    } else if a.PublishedTx? || a.ReleaseTx? {
      PublishedFramed(cfg, s, now, a);
    } else if OfDispatcher(a) {
      PublishingFramed(cfg, s, now, a);
    } else if a.Submit? || a.RetryByHand? {
      ClientFramed(cfg, s, now, a);
    } else if a.ReconcileTx? {
      ReconcileFramed(cfg, s, now, a);
    } else if OnTasks(a) {
      LeaseFramed(cfg, s, now, a);
    } else {
      OtherFramed(cfg, s, now, a);
    }
  }
}
