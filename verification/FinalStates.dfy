/** What the status of a task says about its last attempt, in every reachable state. */
module FinalStates {
  import opened Domain
  import opened Transactions
  import opened Ledger
  import opened Protocol
  import opened Fencing
  import opened Frames
  import RetrySchedule

  /** Only the last attempt can have succeeded, and its result determines the status up to recoveries and
      manual retries. */
  ghost predicate OutcomeOk(t: Task, attempts: map<(Id, nat), Attempt>, h: History) {
    && (t.attempts == 0 ==> t.status == Pending)
    && (forall k: nat :: (t.id, k) in attempts && k != t.attempts ==>
        attempts[(t.id, k)].result != ResultDecided(Success))
    && ((t.id, t.attempts) in attempts ==>
          match attempts[(t.id, t.attempts)].result
          case ResultStarted => t.status == InFlight
          case ResultUnknown => t.status == Pending || (t.status == Failed && h.failedRecoveries > 0)
          case ResultDecided(Success) => t.status == Delivered
          case ResultDecided(Retry) => t.status == Pending
          case ResultDecided(Fail) => t.status == Failed || (t.status == Pending && h.manualRetries > 0))
  }

  ghost predicate Outcomes(s: State) {
    s.db.tasks.Keys == s.hist.Keys && forall id :: id in s.db.tasks ==>
        OutcomeOk(s.db.tasks[id], s.db.attempts, s.hist[id])
  }

  /** One task changes, with its history and its attempts. */
  lemma OneOutcome(s: State, s': State, id: Id)
    requires Outcomes(s) && (forall o :: o in s.db.tasks ==> s.db.tasks[o].id == o) && id in s'.db.tasks
          && id in s'.hist
    requires s'.db.tasks == s.db.tasks[id := s'.db.tasks[id]] && s'.hist == s.hist[id := s'.hist[id]]
    requires forall x: (Id, nat) :: x.0 != id ==> (x in s'.db.attempts <==> x in s.db.attempts)
    requires forall x: (Id, nat) :: x.0 != id && x in s.db.attempts ==> s'.db.attempts[x] == s.db.attempts[x]
    requires OutcomeOk(s'.db.tasks[id], s'.db.attempts, s'.hist[id])
    ensures Outcomes(s')
  {
    forall o | o in s'.db.tasks ensures OutcomeOk(s'.db.tasks[o], s'.db.attempts, s'.hist[o]) {
      if o != id {
        assert OutcomeOk(s.db.tasks[o], s.db.attempts, s.hist[o]);
        assert (o, s.db.tasks[o].attempts).0 != id;
      }
    }
  }

  ghost predicate Ledgered(s: State) {
    && AttemptLedger(s.db.tasks, s.db.attempts)
    && forall id :: id in s.db.tasks ==> s.db.tasks[id].id == id && TaskAttempts(s.db.tasks[id], s.db.attempts)
  }

  lemma FenceLedgers(cfg: Config, s: State)
    requires Fence(cfg, s)
    ensures Ledgered(s) && s.db.tasks.Keys == s.hist.Keys
  {
  }

  /** A move to `pending` without an attempt: a deferral, or a manual retry. */
  lemma MoveOutcome(t: Task, t': Task, attempts: map<(Id, nat), Attempt>, h: History, h': History)
    requires OutcomeOk(t, attempts, h) && TaskAttempts(t, attempts) && t'.id == t.id && t'.attempts == t.attempts
    requires t'.status == Pending && h.manualRetries <= h'.manualRetries
    requires t.status == Pending || (t.status == Failed && h'.manualRetries > 0)
    ensures OutcomeOk(t', attempts, h')
  {
  }

  lemma SubmitOutcomes(s: State, now: Time, n: Task)
    requires Ledgered(s) && Outcomes(s) && n.id !in s.db.tasks && n.attempts == 0 && n.status == Pending
    ensures Outcomes(DoSubmit(s, now, n))
  {
    var s' := DoSubmit(s, now, n);
    assert forall k: nat :: (n.id, k) in s.db.attempts ==> (n.id, k).0 in s.db.tasks;
    OneOutcome(s, s', n.id);
  }

  lemma RetryOutcomes(cfg: Config, s: State, now: Time, id: Id, client: string, generation: nat)
    requires Ledgered(s) && Outcomes(s) && Retriable(s.db, id, client, generation) && id in s.hist
          && Known(cfg, s.db.tasks[id])
    ensures Outcomes(DoRetryByHand(cfg, s, now, id))
  {
    hide AttemptLedger, TaskAttempts, OutcomeOk;
    var s' := DoRetryByHand(cfg, s, now, id);
    MoveOutcome(s.db.tasks[id], s'.db.tasks[id], s.db.attempts, s.hist[id], s'.hist[id]);
    OneOutcome(s, s', id);
  }

  lemma DeferOutcomes(s: State, now: Time, p: Pid, n: Task)
    requires Ledgered(s) && Outcomes(s)
    ensures Outcomes(DoDefer(s, now, p, n))
  {
    hide AttemptLedger, TaskAttempts, OutcomeOk;
    var s' := DoDefer(s, now, p, n);
    if Deferrable(s.db, n.id, n.generation) && n.id in s.hist {
      MoveOutcome(s.db.tasks[n.id], s'.db.tasks[n.id], s.db.attempts, s.hist[n.id], s'.hist[n.id]);
      OneOutcome(s, s', n.id);
    }
  }

  lemma ClaimOutcome(t: Task, attempts: map<(Id, nat), Attempt>, h: History, now: Time, token: Token)
    requires OutcomeOk(t, attempts, h) && TaskAttempts(t, attempts) && t.status == Pending
    ensures var n := ClaimedRow(t, now, token);
            OutcomeOk(n, attempts[(t.id, n.attempts) := Attempt(n.generation, token, now, None, ResultStarted)], h)
  {
  }

  lemma ClaimOutcomes(s: State, now: Time, p: Pid, a: Agent, token: Token)
    requires Ledgered(s) && Outcomes(s) && a.Admitted?
    ensures Outcomes(DoClaim(s, now, p, a, token))
  {
    hide AttemptLedger, TaskAttempts, OutcomeOk;
    var s' := DoClaim(s, now, p, a, token);
    if Claimable(s.db, now, a.n.id, a.n.generation) {
      var id := a.n.id;
      ClaimOutcome(s.db.tasks[id], s.db.attempts, s.hist[id], now, token);
      assert s.hist[id := s.hist[id]] == s.hist;
      OneOutcome(s, s', id);
    }
  }

  /** The attempt in flight is closed with result r. */
  lemma CloseOutcome(t: Task, t': Task, attempts: map<(Id, nat), Attempt>, h: History, h': History, now: Time,
      r: Result, onlyOpen: bool)
    requires OutcomeOk(t, attempts, h) && TaskAttempts(t, attempts) && t.status == InFlight && t.lease.Some?
    requires t'.id == t.id && t'.attempts == t.attempts && h.manualRetries <= h'.manualRetries
    requires match r
             case ResultStarted => false
             case ResultUnknown => t'.status == Pending || (t'.status == Failed && h'.failedRecoveries > 0)
             case ResultDecided(v) => t'.status == StatusAfter(v)
    ensures OutcomeOk(t', CloseAttempt(attempts, t, now, r, onlyOpen), h')
    ensures forall x: (Id, nat) :: x.0 != t.id ==> (x in CloseAttempt(attempts, t, now, r, onlyOpen) <==> x in attempts)
    ensures forall x: (Id, nat) :: x.0 != t.id && x in attempts ==>
          CloseAttempt(attempts, t, now, r, onlyOpen)[x] == attempts[x]
  {
    var k := t.attempts;
    assert k == 0 ==> t.status == Pending;
    assert (t.id, k) in attempts && AttemptOk(t, k, attempts[(t.id, k)]);
  }

  lemma FinishOutcomes(s: State, now: Time, p: Pid, n: Task, plan: RetrySchedule.Plan)
    requires Ledgered(s) && Outcomes(s) && Snapshot(s.db, n)
    ensures Outcomes(DoFinish(s, now, p, n, plan))
  {
    hide AttemptLedger, TaskAttempts, OutcomeOk, CloseAttempt;
    var s' := DoFinish(s, now, p, n, plan);
    if Finishable(s.db, now, n) {
      assert s.db.tasks[n.id] == n && s.hist[n.id := s.hist[n.id]] == s.hist;
      CloseOutcome(n, s'.db.tasks[n.id], s.db.attempts, s.hist[n.id], s.hist[n.id], now,
          ResultDecided(plan.decision.verdict), false);
      OneOutcome(s, s', n.id);
    }
  }

  lemma RecoverOutcomes(s: State, now: Time, p: Pid, a: Agent)
    requires Ledgered(s) && Outcomes(s) && a.Recovering? && Snapshot(s.db, a.n)
    ensures Outcomes(DoRecover(s, now, p, a))
  {
    hide AttemptLedger, TaskAttempts, OutcomeOk, CloseAttempt;
    var s' := DoRecover(s, now, p, a);
    var n := a.n;
    if Recoverable(s.db, now, n) {
      assert s.db.tasks[n.id] == n && n.id in s.hist && s.hist[n.id := s.hist[n.id]] == s.hist;
      CloseOutcome(n, s'.db.tasks[n.id], s.db.attempts, s.hist[n.id], s'.hist[n.id], now, ResultUnknown, true);
      OneOutcome(s, s', n.id);
    }
  }

  lemma ReconcileOutcomes(s: State, now: Time, ids: seq<Id>)
    requires Outcomes(s) && (forall o :: o in s.db.tasks ==> s.db.tasks[o].id == o)
    requires forall i :: 0 <= i < |ids| ==> ids[i] in s.db.tasks && ids[i] in s.hist
    ensures Outcomes(ReconcileAll(s, now, ids))
  {
    var z := ReconcileAll(s, now, ids);
    ReconcileAllKeeps(s, now, ids);
    forall id | id in z.db.tasks ensures OutcomeOk(z.db.tasks[id], z.db.attempts, z.hist[id]) {
      ReconcileKeepsRow(s, now, ids, id);
      assert OutcomeOk(s.db.tasks[id], s.db.attempts, s.hist[id]);
    }
  }

  lemma SameOutcomes(s: State, s': State)
    requires Outcomes(s) && SameTasks(s, s')
    ensures Outcomes(s')
  {
  }

  // ---- steps --------------------------------------------------------------------------------------------

  lemma ClientOutcomes(cfg: Config, s: State, now: Time, a: Step)
    requires Fence(cfg, s) && Outcomes(s) && Enabled(cfg, s, now, a) && (a.Submit? || a.RetryByHand?)
    ensures Outcomes(Apply(cfg, s, now, a))
  {
    FenceLedgers(cfg, s);
    hide Fence, Outcomes, Ledgered, DoSubmit, DoRetryByHand;
    if a.Submit? {
      SubmitOutcomes(s, now, NewTask(a.id, a.client, a.key, a.hash, a.target, a.revision, a.at,
                                     cfg[(a.revision, a.target)].retry.maxDuration));
    } else {
      RetryOutcomes(cfg, s, now, a.id, a.client, a.generation);
    }
  }

  lemma StartApplies(cfg: Config, s: State, now: Time, a: Step)
    requires Enabled(cfg, s, now, a) && (a.DeferTx? || a.ClaimTx?)
    ensures At(s, a.p)
    ensures a.DeferTx? ==> s.agents[a.p].Deferring? && Apply(cfg, s, now, a) == DoDefer(s, now, a.p, s.agents[a.p].n)
    ensures a.ClaimTx? ==> s.agents[a.p].Admitted? && Apply(cfg, s, now, a) == DoClaim(s, now, a.p, s.agents[a.p],
          a.token)
  {
  }

  lemma EndApplies(cfg: Config, s: State, now: Time, a: Step)
    requires Enabled(cfg, s, now, a) && (a.FinishTx? || a.RecoverTx?)
    ensures At(s, a.p)
    ensures a.FinishTx? ==>
              s.agents[a.p].Ready? && Apply(cfg, s, now, a) == DoFinish(s, now, a.p, s.agents[a.p].n,
                  s.agents[a.p].plan)
    ensures a.RecoverTx? ==> s.agents[a.p].Recovering? && Apply(cfg, s, now, a) == DoRecover(s, now, a.p, s.agents[a.p])
  {
  }

  lemma HoldsSnapshot(cfg: Config, s: State, p: Pid)
    requires Fence(cfg, s) && At(s, p) && (s.agents[p].Ready? || s.agents[p].Recovering?)
    ensures Snapshot(s.db, s.agents[p].n)
  {
    hide DbFence, Snapshot;
    assert AgentOk(cfg, s.db, s.issued, s.receipts, p, s.agents[p]);
  }

  lemma LeaseOutcomes(cfg: Config, s: State, now: Time, a: Step)
    requires Fence(cfg, s) && Outcomes(s) && Enabled(cfg, s, now, a)
    requires a.DeferTx? || a.ClaimTx? || a.FinishTx? || a.RecoverTx?
    ensures Outcomes(Apply(cfg, s, now, a))
  {
    FenceLedgers(cfg, s);
    hide Enabled, Apply, Fence, Outcomes, Ledgered, DoDefer, DoClaim, DoFinish, DoRecover, Snapshot;
    if a.DeferTx? || a.ClaimTx? {
      StartApplies(cfg, s, now, a);
      if a.DeferTx? {
        DeferOutcomes(s, now, a.p, s.agents[a.p].n);
      } else {
        ClaimOutcomes(s, now, a.p, s.agents[a.p], a.token);
      }
    } else {
      EndApplies(cfg, s, now, a);
      HoldsSnapshot(cfg, s, a.p);
      if a.FinishTx? {
        FinishOutcomes(s, now, a.p, s.agents[a.p].n, s.agents[a.p].plan);
      } else {
        RecoverOutcomes(s, now, a.p, s.agents[a.p]);
      }
    }
  }

  lemma StepOutcomes(cfg: Config, s: State, now: Time, a: Step)
    requires Fence(cfg, s) && Outcomes(s) && Enabled(cfg, s, now, a)
    ensures Outcomes(Apply(cfg, s, now, a))
  {
    hide Enabled, Apply, Fence, Outcomes, SameTasks, SameAgentsBut;
    if a.Submit? || a.RetryByHand? {
      ClientOutcomes(cfg, s, now, a);
    } else if a.ReconcileTx? {
      FenceLedgers(cfg, s);
      ReconcileReady(cfg, s, now, a);
      ReconcileOutcomes(s, now, a.ids);
      SameOutcomesAfter(ReconcileAll(s, now, a.ids), a.p);
    } else if OnTasks(a) {
      LeaseOutcomes(cfg, s, now, a);
    } else {
      StepFramed(cfg, s, now, a);
      SameOutcomes(s, Apply(cfg, s, now, a));
    }
  }

  lemma SameOutcomesAfter(s: State, p: Pid)
    requires Outcomes(s)
    ensures Outcomes(Drop(s, p))
  {
  }

  lemma {:induction false} RunOutcomes(cfg: Config, s: State, script: seq<Move>)
    requires Fence(cfg, s) && Outcomes(s) && Legal(cfg, s, script)
    ensures Outcomes(Run(cfg, s, script))
    decreases |script|
  {
    hide Fence, Outcomes, Enabled, Apply, Evolves;
    if script != [] {
      StepOutcomes(cfg, s, script[0].now, script[0].step);
      StepFenced(cfg, s, script[0].now, script[0].step);
      RunOutcomes(cfg, Apply(cfg, s, script[0].now, script[0].step), script[1..]);
    }
  }

  // ---- results ------------------------------------------------------------------------------------------

  /** A task is `delivered` if and only if its last attempt was finished with the decision success, and no
      earlier attempt ever was. It is `failed` only if its last attempt was finished with the decision fail,
      which a refused retry is recorded as, or ended unknown and a recovery of the row was refused; and a last
      attempt finished with fail leaves the task failed unless a manual retry made it pending. It is in flight
      if and only if its last attempt is still open. */
  lemma StatusTellsTheOutcome(cfg: Config, s: State, id: Id)
    requires Reachable(cfg, s) && id in s.db.tasks
    ensures id in s.hist
    ensures var t := s.db.tasks[id]; var last := (id, t.attempts);
            && (t.status == Delivered <==>
                last in s.db.attempts && s.db.attempts[last].result == ResultDecided(Success))
            && (forall k: nat :: (id, k) in s.db.attempts && s.db.attempts[(id, k)].result == ResultDecided(Success) ==>
                  k == t.attempts)
            && (t.status == Failed ==>
                  && last in s.db.attempts
                  && (s.db.attempts[last].result == ResultDecided(Fail)
                      || (s.db.attempts[last].result == ResultUnknown && s.hist[id].failedRecoveries > 0)))
            && (last in s.db.attempts && s.db.attempts[last].result == ResultDecided(Fail) ==>
                  t.status == Failed || (t.status == Pending && s.hist[id].manualRetries > 0))
            && (t.status == InFlight <==> last in s.db.attempts && s.db.attempts[last].result == ResultStarted)
  {
    hide Fence, Reachable, AttemptLedger, TaskAttempts, OutcomeOk;
    ReachableFenced(cfg, s);
    ReachableOutcomes(cfg, s);
    FenceLedgers(cfg, s);
    LastTells(s.db.tasks[id], s.db.attempts, s.hist[id]);
  }

  lemma LastTells(t: Task, attempts: map<(Id, nat), Attempt>, h: History)
    requires TaskAttempts(t, attempts) && OutcomeOk(t, attempts, h)
    ensures var last := (t.id, t.attempts);
            && (t.status == Delivered <==> last in attempts && attempts[last].result == ResultDecided(Success))
            && (forall k: nat :: (t.id, k) in attempts && attempts[(t.id, k)].result == ResultDecided(Success) ==>
                  k == t.attempts)
            && (t.status == Failed ==>
                  && last in attempts
                  && (attempts[last].result == ResultDecided(Fail)
                      || (attempts[last].result == ResultUnknown && h.failedRecoveries > 0)))
            && (last in attempts && attempts[last].result == ResultDecided(Fail) ==>
                  t.status == Failed || (t.status == Pending && h.manualRetries > 0))
            && (t.status == InFlight <==> last in attempts && attempts[last].result == ResultStarted)
  {
  }

  lemma ReachableOutcomes(cfg: Config, s: State)
    requires Reachable(cfg, s)
    ensures Outcomes(s)
  {
    hide Run, Legal, Fence;
    var s0: State, script: seq<Move> :| Initial(s0) && Legal(cfg, s0, script) && Run(cfg, s0, script) == s;
    InitialFenced(cfg, s0);
    RunOutcomes(cfg, s0, script);
  }
}
