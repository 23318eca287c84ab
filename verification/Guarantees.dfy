/** What the fences guarantee over every run, with arbitrary clock readings: who may change a leased row,
    the attempt and outbox ledgers, one claim per generation, bounded work and final states. */
module Guarantees {
  import opened Domain
  import opened Transactions
  import opened Ledger
  import opened Protocol
  import opened Fencing
  import opened Frames
  import opened Selection

  /** A lease that was taken from agent `issued[token]` is used by a step of `who`, or has expired. */
  ghost predicate LeaseUsed(l: Lease, issued: map<Token, Pid>, now: Time, who: set<Pid>) {
    || (l.token in issued && issued[l.token] in who && now < l.until)
    || l.until < now
  }

  /** A leased task row changes only by `Finish` of the agent that claimed it, before the lease ends, or
      by a recovery after it. */
  ghost predicate TaskEffect(t: Task, t': Task, issued: map<Token, Pid>, now: Time, who: set<Pid>) {
    t' != t && t.lease.Some? ==> LeaseUsed(t.lease.value, issued, now, who)
  }

  /** A leased outbox row changes only through its holder or after its lease; it becomes `published` only
      through its holder, before the lease ends. */
  ghost predicate EventEffect(e: Event, e': Event, issued: map<Token, Pid>, now: Time, who: set<Pid>) {
    && (e' != e && e.lease.Some? ==>
          || (e.lease.value.token in issued && issued[e.lease.value.token] in who) || e.lease.value.until < now)
    && (e.status != Published && e'.status == Published ==>
          && e.lease.Some? && now < e.lease.value.until
          && e.lease.value.token in issued && issued[e.lease.value.token] in who)
  }

  ghost predicate Effect(s: State, s': State, now: Time, who: set<Pid>) {
    && |s.db.outbox| <= |s'.db.outbox|
    && (forall id :: id in s.db.tasks ==>
        id in s'.db.tasks && TaskEffect(s.db.tasks[id], s'.db.tasks[id], s.issued, now, who))
    && (forall i :: 0 <= i < |s.db.outbox| ==> EventEffect(s.db.outbox[i], s'.db.outbox[i], s.issued, now, who))
  }

  lemma LeaseOfRow(cfg: Config, s: State, id: Id)
    requires Fence(cfg, s) && id in s.db.tasks
    ensures s.db.tasks[id].status == InFlight <==> s.db.tasks[id].lease.Some?
    ensures s.db.tasks[id].id == id && id in s.hist
  {
    assert TaskOk(cfg, s.db.tasks[id], s.hist[id], s.issued);
  }

  lemma LeaseOfEvent(cfg: Config, s: State, row: nat)
    requires Fence(cfg, s) && row < |s.db.outbox|
    ensures s.db.outbox[row].status == Publishing <==> s.db.outbox[row].lease.Some?
    ensures s.db.outbox[row].status == Published <==> s.db.outbox[row].publishedAt.Some?
    ensures s.db.outbox[row].notification in s.db.tasks
  {
    EventOfRow(s.db.tasks, s.db.outbox, s.hist, row);
  }

  lemma {:induction false} ReconcileEffect(s: State, now: Time, ids: seq<Id>)
    requires forall i :: 0 <= i < |ids| ==> ids[i] in s.db.tasks && s.db.tasks[ids[i]].lease.None? && ids[i] in s.hist
    ensures var s' := ReconcileAll(s, now, ids);
            && s.db.outbox <= s'.db.outbox && s'.db.tasks.Keys == s.db.tasks.Keys
            && forall id :: id in s.db.tasks && s.db.tasks[id].lease.Some? ==> s'.db.tasks[id] == s.db.tasks[id]
    decreases |ids|
  {
    if ids != [] {
      var s1 := ReconcileTask(s, now, ids[0]);
      assert forall i :: 0 <= i < |ids[1..]| ==> ids[1..][i] == ids[i + 1];
      ReconcileEffect(s1, now, ids[1..]);
    }
  }

  lemma StartEffect(cfg: Config, s: State, now: Time, a: Step)
    requires Fence(cfg, s) && Enabled(cfg, s, now, a) && (a.DeferTx? || a.ClaimTx?)
    ensures Effect(s, Apply(cfg, s, now, a), now, {a.p})
  {
    hide Fence;
    var x := s.agents[a.p];
    if x.n.id in s.db.tasks { LeaseOfRow(cfg, s, x.n.id); }
  }

  lemma FinishEffect(cfg: Config, s: State, now: Time, a: Step)
    requires Fence(cfg, s) && Enabled(cfg, s, now, a) && a.FinishTx?
    ensures Effect(s, Apply(cfg, s, now, a), now, {a.p})
  {
    hide DbFence, Since, PlanOk;
    assert AgentOk(cfg, s.db, s.issued, s.receipts, a.p, s.agents[a.p]);
  }

  lemma RecoverEffect(cfg: Config, s: State, now: Time, a: Step)
    requires Fence(cfg, s) && Enabled(cfg, s, now, a) && a.RecoverTx?
    ensures Effect(s, Apply(cfg, s, now, a), now, {a.p})
  {
    hide DbFence, Since, PlanOk;
    assert AgentOk(cfg, s.db, s.issued, s.receipts, a.p, s.agents[a.p]);
  }

  lemma TakeEffect(cfg: Config, s: State, now: Time, a: Step)
    requires Fence(cfg, s) && Enabled(cfg, s, now, a) && a.Take?
    ensures Effect(s, Apply(cfg, s, now, a), now, {a.p})
  {
    hide DbFence, AgentsOk, FirstReady;
    ReadyRow(s.db.outbox, now, a.row, a.lockedRows);
    LeaseOfEvent(cfg, s, a.row);
  }

  lemma PublishedEffect(cfg: Config, s: State, now: Time, a: Step)
    requires Fence(cfg, s) && Enabled(cfg, s, now, a) && a.PublishedTx?
    ensures Effect(s, Apply(cfg, s, now, a), now, {a.p})
  {
    hide DbFence;
    assert AgentOk(cfg, s.db, s.issued, s.receipts, a.p, s.agents[a.p]);
  }

  lemma ReleaseEffect(cfg: Config, s: State, now: Time, a: Step)
    requires Fence(cfg, s) && Enabled(cfg, s, now, a) && a.ReleaseTx?
    ensures Effect(s, Apply(cfg, s, now, a), now, {a.p})
  {
    hide DbFence;
    assert AgentOk(cfg, s.db, s.issued, s.receipts, a.p, s.agents[a.p]);
  }

  lemma SweepEffect(cfg: Config, s: State, now: Time, a: Step)
    requires Enabled(cfg, s, now, a) && a.SweepOutbox?
    ensures Effect(s, Apply(cfg, s, now, a), now, {a.p})
  {
  }

  lemma OtherEffect(cfg: Config, s: State, now: Time, a: Step)
    requires Fence(cfg, s) && Enabled(cfg, s, now, a)
    requires a.Submit? || a.RetryByHand? || a.ReconcileTx?
    ensures Effect(s, Apply(cfg, s, now, a), now, Actor(a))
  {
    hide DbFence, AgentOk, LiveTrigger;
    match a
    case Submit(_, _, _, _, _, _, _) =>
    case RetryByHand(id, _, _) => LeaseOfRow(cfg, s, id);
    case ReconcileTx(_, ids, locked) =>
      forall i | 0 <= i < |ids| ensures ids[i] in s.db.tasks && s.db.tasks[ids[i]].lease.None? {
        assert IsStale(s.db, now, ids[i]);
        LeaseOfRow(cfg, s, ids[i]);
      }
      ReconcileEffect(s, now, ids);
  }

  lemma StepEffect(cfg: Config, s: State, now: Time, a: Step)
    requires Fence(cfg, s) && Enabled(cfg, s, now, a)
    ensures Effect(s, Apply(cfg, s, now, a), now, Actor(a))
  {
    if a.DeferTx? || a.ClaimTx? {
      hide Fence, Effect, Enabled, Apply;
      StartEffect(cfg, s, now, a);
    } else if a.FinishTx? {
      hide Fence, Effect, Enabled, Apply;
      FinishEffect(cfg, s, now, a);
    } else if a.RecoverTx? {
      hide Fence, Effect, Enabled, Apply;
      RecoverEffect(cfg, s, now, a);
    } else if a.Take? {
      hide Fence, Effect, Enabled, Apply;
      TakeEffect(cfg, s, now, a);
    } else if a.PublishedTx? {
      hide Fence, Effect, Enabled, Apply;
      PublishedEffect(cfg, s, now, a);
    } else if a.ReleaseTx? {
      hide Fence, Effect, Enabled, Apply;
      ReleaseEffect(cfg, s, now, a);
    } else if a.SweepOutbox? {
      hide Fence, Effect, Enabled, Apply;
      SweepEffect(cfg, s, now, a);
    } else if a.Submit? || a.RetryByHand? || a.ReconcileTx? {
      hide Fence, Effect, Enabled, Apply;
      OtherEffect(cfg, s, now, a);
    } else {
      hide Fence, Enabled;
      assert Apply(cfg, s, now, a).db == s.db;
    }
  }

  // ---- the attempt ledger -------------------------------------------------------------------------

  /** Attempts of a task are numbered 1..attempt_count. The unfinished one exists exactly while the task is
      in flight, is the last one, and carries the lease token of the task. */
  lemma AttemptLedgerKept(cfg: Config, s: State, id: Id, k: nat)
    requires Reachable(cfg, s) && id in s.db.tasks
    ensures var t := s.db.tasks[id];
            && ((id, k) in s.db.attempts <==> 1 <= k <= t.attempts)
            && ((id, k) in s.db.attempts && s.db.attempts[(id, k)].finished.None?
                <==> t.status == InFlight && k == t.attempts && 1 <= k)
            && (t.status == InFlight <==> t.lease.Some?)
            && (t.status == InFlight ==>
                (id, t.attempts) in s.db.attempts && s.db.attempts[(id, t.attempts)].token == t.lease.value.token)
  {
    ReachableFenced(cfg, s);
    assert TaskOk(cfg, s.db.tasks[id], s.hist[id], s.issued);
    assert TaskAttempts(s.db.tasks[id], s.db.attempts);
  }

  /** The outcome of an attempt is written at most once in any continuation, so no stale result ever
      overwrites another. */
  lemma OutcomeWrittenOnce(cfg: Config, s: State, script: seq<Move>, x: (Id, nat))
    requires Reachable(cfg, s) && Legal(cfg, s, script) && x in s.db.attempts && s.db.attempts[x].finished.Some?
    ensures var s' := Run(cfg, s, script); x in s'.db.attempts && s'.db.attempts[x] == s.db.attempts[x]
  {
    ReachableFenced(cfg, s);
    RunFenced(cfg, s, script);
    assert AttemptEvolves(s.db.attempts[x], Run(cfg, s, script).db.attempts[x]);
  }

  /** No step but the two that end an attempt touches a row of the attempt table. */
  lemma OtherStepsKeepAttempts(cfg: Config, s: State, now: Time, a: Step, x: (Id, nat))
    requires Enabled(cfg, s, now, a) && x in s.db.attempts && !a.FinishTx? && !a.RecoverTx?
    ensures var s' := Apply(cfg, s, now, a); x in s'.db.attempts && s'.db.attempts[x] == s.db.attempts[x]
  {
    if a.ReconcileTx? {
      ReconcileReady(cfg, s, now, a);
      hide Enabled, Apply;
      ReconcileAllKeeps(s, now, a.ids);
    } else if OnTasks(a) {
      hide Insertable, Retriable;
    } else {
      hide Enabled, Apply;
      StepFramed(cfg, s, now, a);
    }
  }

  lemma FinishCloses(cfg: Config, s: State, now: Time, a: Step, x: (Id, nat))
    requires Fence(cfg, s) && Enabled(cfg, s, now, a) && a.FinishTx?
    requires x in s.db.attempts && x in Apply(cfg, s, now, a).db.attempts
          && Apply(cfg, s, now, a).db.attempts[x] != s.db.attempts[x]
    ensures x.0 in s.db.tasks && s.db.tasks[x.0].lease.Some?
    ensures var l := s.db.tasks[x.0].lease.value; var z := Apply(cfg, s, now, a).db.attempts[x];
            && l.token == s.db.attempts[x].token && l.token in s.issued && s.issued[l.token] == a.p
            && now < l.until && z.result.ResultDecided? && z.finished == Some(now)
  {
    hide DbFence, PlanOk;
    assert AgentOk(cfg, s.db, s.issued, s.receipts, a.p, s.agents[a.p]);
  }

  lemma RecoverCloses(cfg: Config, s: State, now: Time, a: Step, x: (Id, nat))
    requires Fence(cfg, s) && Enabled(cfg, s, now, a) && a.RecoverTx?
    requires x in s.db.attempts && x in Apply(cfg, s, now, a).db.attempts
          && Apply(cfg, s, now, a).db.attempts[x] != s.db.attempts[x]
    ensures x.0 in s.db.tasks && s.db.tasks[x.0].lease.Some?
    ensures var l := s.db.tasks[x.0].lease.value; var z := Apply(cfg, s, now, a).db.attempts[x];
            l.token == s.db.attempts[x].token && l.until < now && z.result == ResultUnknown && z.finished == Some(now)
  {
    hide DbFence, PlanOk, PlanFor;
    assert AgentOk(cfg, s.db, s.issued, s.receipts, a.p, s.agents[a.p]);
  }

  /** An attempt is closed by `Finish` of the agent that claimed it, before its lease ends and with the
      decision as result, or by `RecoverLease` after its lease with the result `unknown`; never both. */
  lemma WhoClosesAnAttempt(cfg: Config, s: State, now: Time, a: Step, x: (Id, nat))
    requires Reachable(cfg, s) && Enabled(cfg, s, now, a) && x in s.db.attempts && s.db.attempts[x].finished.None?
    requires var s' := Apply(cfg, s, now, a); x in s'.db.attempts && s'.db.attempts[x].finished.Some?
    ensures x.0 in s.db.tasks && s.db.tasks[x.0].lease.Some?
    ensures s.db.tasks[x.0].lease.value.token == s.db.attempts[x].token
    ensures var l := s.db.tasks[x.0].lease.value; var z := Apply(cfg, s, now, a).db.attempts[x];
            && z.finished == Some(now)
            && ((a.FinishTx? && now < l.until && l.token in s.issued && s.issued[l.token] == a.p
                && z.result.ResultDecided?)
                || (a.RecoverTx? && l.until < now && z.result == ResultUnknown))
  {
    hide Enabled, Apply, Fence, Reachable;
    ReachableFenced(cfg, s);
    if a.FinishTx? {
      FinishCloses(cfg, s, now, a, x);
    } else if a.RecoverTx? {
      RecoverCloses(cfg, s, now, a, x);
    } else {
      OtherStepsKeepAttempts(cfg, s, now, a, x);
    }
  }

  lemma EffectOnTask(s: State, s': State, now: Time, who: set<Pid>, id: Id)
    requires Effect(s, s', now, who) && id in s.db.tasks
    ensures id in s'.db.tasks && TaskEffect(s.db.tasks[id], s'.db.tasks[id], s.issued, now, who)
  {
  }

  /** Each (notification, generation) is claimed at most once: generations strictly increase with the
      attempt number, and a pending task is ahead of all its attempts. */
  lemma OneClaimPerGeneration(cfg: Config, s: State, id: Id, i: nat, j: nat)
    requires Reachable(cfg, s) && (id, i) in s.db.attempts && (id, j) in s.db.attempts
    ensures i < j ==> s.db.attempts[(id, i)].generation < s.db.attempts[(id, j)].generation
    ensures id in s.db.tasks && s.db.attempts[(id, i)].generation <= s.db.tasks[id].generation
    ensures s.db.tasks[id].status == Pending ==> s.db.attempts[(id, i)].generation < s.db.tasks[id].generation
  {
    ReachableFenced(cfg, s);
    assert (id, i).0 in s.db.tasks;
    assert TaskAttempts(s.db.tasks[id], s.db.attempts);
  }

  /** `delivered` is absorbing, generations never fall and the identity of a task never changes. */
  lemma TasksOnlyAdvance(cfg: Config, s: State, script: seq<Move>, id: Id)
    requires Reachable(cfg, s) && Legal(cfg, s, script) && id in s.db.tasks
    ensures var s' := Run(cfg, s, script);
            && id in s'.db.tasks
            && SameIdentity(s.db.tasks[id], s'.db.tasks[id])
            && s.db.tasks[id].generation <= s'.db.tasks[id].generation
            && s.db.tasks[id].attempts <= s'.db.tasks[id].attempts
            && (s.db.tasks[id].status == Delivered ==> s'.db.tasks[id] == s.db.tasks[id])
  {
    ReachableFenced(cfg, s);
    RunFenced(cfg, s, script);
    assert RowEvolves(s.db.tasks[id], Run(cfg, s, script).db.tasks[id], s.issued);
  }

  /** Of any number of manual retries of one failed state exactly one wins: the first makes the row
      pending in the next generation, and whatever happens after it a second one is refused. */
  lemma OneManualRetryWins(cfg: Config, s: State, now: Time, id: Id, client: string, generation: nat, script: seq<Move>)
    requires Reachable(cfg, s) && Retriable(s.db, id, client, generation)
    ensures Enabled(cfg, s, now, RetryByHand(id, client, generation))
    ensures var s1 := Apply(cfg, s, now, RetryByHand(id, client, generation));
            && s1.db.tasks[id].status == Pending && s1.db.tasks[id].generation == generation + 1
            && (Legal(cfg, s1, script) ==> forall c :: !Retriable(Run(cfg, s1, script).db, id, c, generation))
  {
    ReachableFenced(cfg, s);
    RetryByHandFenced(cfg, s, now, id, client, generation);
    var s1 := Apply(cfg, s, now, RetryByHand(id, client, generation));
    if Legal(cfg, s1, script) {
      RunFenced(cfg, s1, script);
      assert RowEvolves(s1.db.tasks[id], Run(cfg, s1, script).db.tasks[id], s1.issued);
    }
  }

  // ---- the outbox ledger --------------------------------------------------------------------------

  /** A pending task has exactly one outbox row for its generation, no (notification, generation) has two,
      no row is ahead of its task, and the generations without a row are exactly the lease recoveries that
      ended in `failed`. */
  lemma OutboxLedgerKept(cfg: Config, s: State, id: Id)
    requires Reachable(cfg, s) && id in s.db.tasks
    ensures id in s.hist && s.db.tasks[id].generation == RowsOf(s.db.outbox, id) + s.hist[id].failedRecoveries
    ensures s.db.tasks[id].status == Pending ==> HasTrigger(s.db.outbox, id, s.db.tasks[id].generation)
    ensures OneRowPerGeneration(s.db.outbox)
    ensures forall i :: 0 <= i < |s.db.outbox| && s.db.outbox[i].notification == id ==>
              1 <= s.db.outbox[i].generation <= s.db.tasks[id].generation
  {
    ReachableFenced(cfg, s);
    assert TaskRows(s.db.tasks[id], s.db.outbox, s.hist[id]);
    forall i | 0 <= i < |s.db.outbox| && s.db.outbox[i].notification == id
      ensures 1 <= s.db.outbox[i].generation <= s.db.tasks[id].generation
    {
      EventOfRow(s.db.tasks, s.db.outbox, s.hist, i);
    }
  }

  ghost function RowGenerations(outbox: seq<Event>, id: Id): set<nat> {
    set i | 0 <= i < |outbox| && outbox[i].notification == id :: outbox[i].generation
  }

  /** The last row adds its own generation, which no earlier row has. */
  lemma LastRowGeneration(outbox: seq<Event>, id: Id)
    requires OneRowPerGeneration(outbox) && outbox != []
    ensures var rest, e := outbox[..|outbox| - 1], outbox[|outbox| - 1];
            if e.notification == id then
              RowGenerations(outbox, id) == RowGenerations(rest, id) + {e.generation}
              && e.generation !in RowGenerations(rest, id)
            else RowGenerations(outbox, id) == RowGenerations(rest, id)
  {
    var last := |outbox| - 1;
    assert outbox == outbox[..last] + [outbox[last]];
    forall i | 0 <= i < last && outbox[i].notification == id == outbox[last].notification
      ensures outbox[i].generation != outbox[last].generation
    {
      assert Triggers(outbox[i], outbox[last].notification, outbox[last].generation) ==> i == last;
    }
  }

  lemma {:induction false} RowsAreGenerations(outbox: seq<Event>, id: Id)
    requires OneRowPerGeneration(outbox)
    ensures RowsOf(outbox, id) == |RowGenerations(outbox, id)|
    decreases |outbox|
  {
    if outbox != [] {
      RowsAreGenerations(outbox[..|outbox| - 1], id);
      LastRowGeneration(outbox, id);
      hide RowGenerations;
    }
  }

  ghost function UpTo(n: nat): (s: set<nat>)
    ensures |s| == n && forall k: nat :: k in s <==> 1 <= k <= n
  {
    if n == 0 then {} else UpTo(n - 1) + {n}
  }

  /** Every generation of a task has had its outbox row exactly when none of its lease recoveries ended in
      `failed`. `RefusedRecovery` says when they do. */
  lemma RowsAndFailures(cfg: Config, s: State, id: Id)
    requires Reachable(cfg, s) && id in s.db.tasks
    ensures id in s.hist
    ensures (forall g: nat :: 1 <= g <= s.db.tasks[id].generation ==> HasTrigger(s.db.outbox, id, g))
          <==> s.hist[id].failedRecoveries == 0
  {
    hide Reachable, RowsOf;
    OutboxLedgerKept(cfg, s, id);
    var all, rows := UpTo(s.db.tasks[id].generation), RowGenerations(s.db.outbox, id);
    RowsAreGenerations(s.db.outbox, id);
    assert rows <= all;
    SubsetCount(rows, all);
    assert rows == all <==> s.hist[id].failedRecoveries == 0;
    forall g: nat ensures g in rows <==> HasTrigger(s.db.outbox, id, g) {
      if g in rows {
        var i :| 0 <= i < |s.db.outbox| && s.db.outbox[i].notification == id && s.db.outbox[i].generation == g;
        assert Triggers(s.db.outbox[i], id, g);
      }
    }
  }

  /** At the very instant a lease ends its task belongs to nobody: the claimer's `Finish` needs an earlier
      clock and recovery a later one, so no clock reading allows both. */
  lemma FinishExcludesRecovery(cfg: Config, s: State, now: Time, n: Task)
    requires Reachable(cfg, s) && n.id in s.db.tasks && s.db.tasks[n.id] == n && n.status == InFlight
    ensures n.lease.Some?
    ensures Finishable(s.db, now, n) <==> now < n.lease.value.until
    ensures Recoverable(s.db, now, n) <==> n.lease.value.until < now
  {
    hide Reachable;
    ReachableFenced(cfg, s);
    LeaseOfRow(cfg, s, n.id);
  }

  // ---- publisher fencing --------------------------------------------------------------------------

  lemma DispatcherPublishes(cfg: Config, s: State, now: Time, a: Step, row: nat)
    requires Enabled(cfg, s, now, a) && OfDispatcher(a) && !a.PublishedTx?
    requires row < |s.db.outbox| && s.db.outbox[row].status != Published
    ensures var s' := Apply(cfg, s, now, a); row < |s'.db.outbox| && s'.db.outbox[row].status != Published
  {
    if a.Take? { ReadyRow(s.db.outbox, now, a.row, a.lockedRows); }
    hide FirstReady;
  }

  lemma TransactionPublishes(cfg: Config, s: State, now: Time, a: Step, row: nat)
    requires Enabled(cfg, s, now, a) && OnTasks(a) && row < |s.db.outbox|
    ensures var s' := Apply(cfg, s, now, a); row < |s'.db.outbox| && s'.db.outbox[row] == s.db.outbox[row]
  {
    if a.ReconcileTx? {
      ReconcileReady(cfg, s, now, a);
      hide Enabled, Apply;
      ReconcileAllKeeps(s, now, a.ids);
    } else {
      hide Insertable, Retriable, PlanFor, CloseAttempt;
    }
  }

  /** No step but `Published` makes a row published. */
  lemma OnlyPublishedTxPublishes(cfg: Config, s: State, now: Time, a: Step, row: nat)
    requires Enabled(cfg, s, now, a) && !a.PublishedTx? && row < |s.db.outbox| && s.db.outbox[row].status != Published
    ensures var s' := Apply(cfg, s, now, a); row < |s'.db.outbox| && s'.db.outbox[row].status != Published
  {
    if OfWorker(a) {
      hide Enabled, Apply;
      StepFramed(cfg, s, now, a);
    } else if OfDispatcher(a) {
      hide Enabled, Apply;
      DispatcherPublishes(cfg, s, now, a, row);
    } else if OnTasks(a) {
      hide Enabled, Apply;
      TransactionPublishes(cfg, s, now, a, row);
    } else {
      hide AbandonedRows, ExpiredList, PlanFor, ContextsAllow;
    }
  }

  /** A row becomes `published` only by `Published` of the dispatcher that holds its current token, before
      its lease ends, and after the broker confirmed this row's message to that dispatcher under that very
      token; and then the row never changes again. */
  lemma PublishedIsConfirmedAndFinal(cfg: Config, s: State, now: Time, a: Step, row: nat, script: seq<Move>)
    requires Reachable(cfg, s) && Enabled(cfg, s, now, a) && row < |s.db.outbox| && s.db.outbox[row].status != Published
    requires var s' := Apply(cfg, s, now, a); row < |s'.db.outbox| && s'.db.outbox[row].status == Published
    ensures a.PublishedTx? && s.db.outbox[row].lease.Some?
    ensures var e := s.db.outbox[row]; var token := e.lease.value.token;
            && s.agents[a.p] == Confirmed(row, token) && now < e.lease.value.until
            && token in s.issued && s.issued[token] == a.p
            && Shipped(token, e.notification, e.generation) in s.receipts
            && Acked(token, e.notification, e.generation) in s.receipts
    ensures var s' := Apply(cfg, s, now, a); var e' := s'.db.outbox[row];
            Legal(cfg, s', script) ==> var z := Run(cfg, s', script); row < |z.db.outbox| && z.db.outbox[row] == e'
  {
    if !a.PublishedTx? { OnlyPublishedTxPublishes(cfg, s, now, a, row); }
    PublishedApplies(cfg, s, now, a);
    hide Enabled, Apply, Fence, Reachable;
    ReachableFenced(cfg, s);
    PublishedByHolder(cfg, s, now, a.p, row);
    var s' := Apply(cfg, s, now, a);
    StepFenced(cfg, s, now, a);
    if Legal(cfg, s', script) {
      RunFenced(cfg, s', script);
      assert EventEvolves(s'.db.outbox[row], Run(cfg, s', script).db.outbox[row], s'.issued);
    }
  }

  lemma PublishedByHolder(cfg: Config, s: State, now: Time, p: Pid, row: nat)
    requires Fence(cfg, s) && p in s.agents && s.agents[p].Confirmed? && row < |s.db.outbox|
          && s.db.outbox[row].status != Published
    requires var s' := DoPublished(s, now, p, s.agents[p].row, s.agents[p].token);
             row < |s'.db.outbox| && s'.db.outbox[row].status == Published
    ensures s.db.outbox[row].lease.Some?
    ensures var e := s.db.outbox[row]; var token := e.lease.value.token;
            && s.agents[p] == Confirmed(row, token) && now < e.lease.value.until
            && token in s.issued && s.issued[token] == p
            && Shipped(token, e.notification, e.generation) in s.receipts
            && Acked(token, e.notification, e.generation) in s.receipts
  {
    hide AttemptLedger, OutboxLedger, TaskOk, RowFence;
    assert AgentOk(cfg, s.db, s.issued, s.receipts, p, s.agents[p]);
    var x := s.agents[p];
    assert x.row == row;
    assert Acked(x.token, s.db.outbox[row].notification, s.db.outbox[row].generation) in s.receipts;
  }

  lemma PublishedApplies(cfg: Config, s: State, now: Time, a: Step)
    requires Enabled(cfg, s, now, a) && a.PublishedTx?
    ensures a.p in s.agents && s.agents[a.p].Confirmed?
    ensures Apply(cfg, s, now, a) == DoPublished(s, now, a.p, s.agents[a.p].row, s.agents[a.p].token)
  {
  }

  /** A receipt is written only by the step it tells of: the broker's confirmation reaches the dispatcher
      that asked for the token, after it sent the message. */
  lemma AckIsTheHolders(cfg: Config, s: State, now: Time, a: Step, r: Receipt)
    requires Reachable(cfg, s) && Enabled(cfg, s, now, a) && r.Acked?
    requires r !in s.receipts && r in Apply(cfg, s, now, a).receipts
    ensures a.Confirm? && r.token in s.issued && s.issued[r.token] == a.p
    ensures s.agents[a.p].Publisher? && s.agents[a.p].sent && s.agents[a.p].token == r.token
    ensures s.agents[a.p].row < |s.db.outbox| && Triggers(s.db.outbox[s.agents[a.p].row], r.id, r.generation)
  {
    if !a.Confirm? { OtherReceipts(cfg, s, now, a, r); }
    ReachableFenced(cfg, s);
    hide DbFence;
    assert AgentOk(cfg, s.db, s.issued, s.receipts, a.p, s.agents[a.p]);
  }

  lemma OtherReceipts(cfg: Config, s: State, now: Time, a: Step, r: Receipt)
    requires Enabled(cfg, s, now, a) && !a.Confirm? && r.Acked?
    ensures r in Apply(cfg, s, now, a).receipts <==> r in s.receipts
  {
    if a.ReconcileTx? {
      ReconcileReady(cfg, s, now, a);
      hide Enabled, Apply;
      ReconcileAllKeeps(s, now, a.ids);
    } else {
      hide Insertable, Retriable, PlanFor, FirstReady, AbandonedRows, ExpiredList, ContextsAllow;
    }
  }

  /** Once a dispatcher's token is off its row, by release, expiry or a new claim, it stays off in every
      continuation, and then neither its `Published` nor its `ReleaseOutbox` changes the tables. */
  lemma StaleDispatcherChangesNothing(cfg: Config, s: State, script: seq<Move>, now: Time, p: Pid, row: nat,
      token: Token)
    requires Reachable(cfg, s) && Legal(cfg, s, script)
    requires token in s.issued && row < |s.db.outbox| && !HoldsRow(s.db.outbox[row], token)
    ensures var z := Run(cfg, s, script);
            && row < |z.db.outbox| && !HoldsRow(z.db.outbox[row], token)
            && DoPublished(z, now, p, row, token).db == z.db
            && DoRelease(z, now, p, row, token).db == z.db
  {
    hide Run, Legal, AttemptLedger, AgentsOk;
    ReachableFenced(cfg, s);
    RunFenced(cfg, s, script);
    assert EventEvolves(s.db.outbox[row], Run(cfg, s, script).db.outbox[row], s.issued);
    LeaseOfEvent(cfg, s, row);
  }

  // ---- bounded work -------------------------------------------------------------------------------

  /** Within a cycle a pending task has used at most len(Delays) attempts and any task at most one more, so
      all attempts together are at most (1 + manual retries) * (len(Delays) + 1). */
  lemma BoundedWork(cfg: Config, s: State, id: Id)
    requires Reachable(cfg, s) && id in s.db.tasks
    ensures id in s.hist && Known(cfg, s.db.tasks[id])
    ensures var t := s.db.tasks[id]; var retries := Retries(cfg, t);
            && t.cycle <= retries + 1 && (t.status == Pending ==> t.cycle <= retries)
            && t.attempts <= (1 + s.hist[id].manualRetries) * (retries + 1)
  {
    ReachableFenced(cfg, s);
    assert TaskOk(cfg, s.db.tasks[id], s.hist[id], s.issued);
    BudgetStep(s.hist[id].manualRetries, Retries(cfg, s.db.tasks[id]));
  }

  /** Deferrals and reconciliations consume no attempt. */
  lemma DefersConsumeNothing(cfg: Config, s: State, now: Time, a: Step, id: Id)
    requires Reachable(cfg, s) && Enabled(cfg, s, now, a) && (a.DeferTx? || a.ReconcileTx?) && id in s.db.tasks
    ensures var s' := Apply(cfg, s, now, a);
            && s'.db.attempts == s.db.attempts && id in s'.db.tasks
            && s'.db.tasks[id].attempts == s.db.tasks[id].attempts && s'.db.tasks[id].cycle == s.db.tasks[id].cycle
  {
    if a.ReconcileTx? {
      assert id in s.hist by { ReachableFenced(cfg, s); LeaseOfRow(cfg, s, id); }
      ReconcileReady(cfg, s, now, a);
      hide Enabled, Apply, Reachable;
      ReconcileAllKeeps(s, now, a.ids);
      ReconcileKeepsRow(s, now, a.ids, id);
    }
  }
}
