/** `Worker.Process` and one turn of `Dispatcher.Run` as they are written, over the store. Undisturbed, each
    is a run of the transition system: the script it returns, executed from the state in which it began,
    leads to the tables it leaves. `Protocol` interleaves these same steps. */
module Programs {
  import opened Domain
  import opened RetrySchedule
  import opened Transactions
  import opened Protocol
  import opened Fencing
  import Store

  /** `script` leads from s to z. */
  ghost predicate Leads(cfg: Config, s: State, script: seq<Move>, z: State) {
    Legal(cfg, s, script) && Run(cfg, s, script) == z
  }

  lemma Extend(cfg: Config, s: State, script: seq<Move>, z: State, now: Time, step: Step)
      returns (longer: seq<Move>, next: State)
    requires Leads(cfg, s, script, z) && Enabled(cfg, z, now, step)
    ensures Leads(cfg, s, longer, next) && next == Apply(cfg, z, now, step)
  {
    hide Enabled, Apply, Legal, Run;
    LegalAppend(cfg, s, script, On(now, step));
    longer, next := script + [On(now, step)], Apply(cfg, z, now, step);
  }

  lemma NoMoves(cfg: Config, s: State)
    ensures Leads(cfg, s, [], s)
  {
  }

  // ---- the worker -------------------------------------------------------------------------------------

  /** What one call of `Process` reads from outside: its clock readings, and the answers of the policy
      check, the lock, the gate, the secret store and the adapter. */
  datatype World = World(due: Time, checked: Time, claimed: Time, decided: Time, planned: Time, finished: Time,
                         policyOk: bool, locked: bool, granted: bool, secretOk: bool, answer: Decision, token: Token)

  datatype Outcome = Dropped | Broken | Deferred | Stale | Finished(verdict: Verdict)

  class Worker {
    const store: Store.Store
    const config: Config
    var delivered: nat
    var failed: nat
    var retried: nat

    constructor (store: Store.Store, config: Config)
      ensures this.store == store && this.config == config && delivered == failed == retried == 0
    {
      this.store, this.config, delivered, failed, retried := store, config, 0, 0, 0;
    }

    /** The guards of `Process`, up to and including the gate. */
    method Guards(id: Id, generation: nat, w: World, ghost s: State, ghost p: Pid)
      returns (out: Option<Outcome>, ghost script: seq<Move>, ghost z: State)
      requires store.Contents() == s.db && At(s, p) && Fence(config, s)
      requires s.agents[p].Started? && s.agents[p].id == id && s.agents[p].generation == generation
      modifies store
      ensures Leads(config, s, script, z) && store.Contents() == z.db
      ensures out.Some? ==>
            p !in z.agents && (out.value == Deferred || (out.value in {Dropped, Broken} && z.db == s.db))
      ensures out.None? ==>
            z.db == s.db && z.issued == s.issued && At(z, p) && id in s.db.tasks && Known(config, s.db.tasks[id])
      ensures out.None? ==> exists gated :: z.agents[p] == Admitted(s.agents[p].start, s.db.tasks[id], w.policyOk,
            gated)
      ensures out.None? ==> s.db.tasks[id].generation == generation && w.due >= s.db.tasks[id].next
    {
      hide Fence, Leads, Enabled, Apply;
      NoMoves(config, s);
      KeysOf(config, s);
      script, z := [], s;
      LoadStep(config, s, p, w.due);
      script, z := Extend(config, s, script, z, w.due, Load(p));
      if id !in store.tasks || store.tasks[id].generation != generation || store.tasks[id].status != Pending {
        return Some(Dropped), script, z;
      }
      var n := store.tasks[id];
      NotBeforeStep(config, z, p, w.due);
      script, z := Extend(config, s, script, z, w.due, NotBefore(p));
      if w.due < n.next { return Some(Dropped), script, z; }
      CheckStep(config, z, p, w.checked, w.policyOk);
      script, z := Extend(config, s, script, z, w.checked, Check(p, w.policyOk));
      if (n.revision, n.target) !in config { return Some(Broken), script, z; }
      var expired := n.deadline <= w.checked;
      GateStep(config, z, p, w.checked, w.granted);
      if w.locked {
        script, z := Extend(config, s, script, z, w.checked, LockRefused(p));
        return Some(Dropped), script, z;
      }
      script, z := Extend(config, s, script, z, w.checked, Gate(p, w.granted));
      if w.policyOk && !expired && !w.granted {
        DeferStep(config, z, p, w.checked);
        script, z := Extend(config, s, script, z, w.checked, DeferTx(p));
        var r := store.DeferPending(n.id, n.generation, DEFER_DELAY, w.checked);
        return Some(Deferred), script, z;
      }
      return None, script, z;
    }

    /** From the claim to the end of the attempt; `script` is what led here. */
    method Attempt(id: Id, generation: nat, w: World, ghost s: State, ghost past: seq<Move>, ghost now: State,
        ghost p: Pid)
      returns (out: Outcome, ghost script: seq<Move>, ghost z: State)
      requires Leads(config, s, past, now) && store.Contents() == now.db && At(now, p) && now.agents[p].Admitted?
      requires now.agents[p].policyOk == w.policyOk && now.agents[p].n.id == id
            && now.agents[p].n.generation == generation
      requires id in now.db.tasks && now.db.tasks[id].id == id && Known(config, now.db.tasks[id])
            && w.token !in now.issued
      modifies store
      ensures Leads(config, s, script, z) && store.Contents() == z.db && p !in z.agents
      ensures out == Dropped ==> store.Contents() == old(store.Contents())
      ensures out == Dropped || out == Stale || (out.Finished? && id in store.tasks
            && store.tasks[id].status == StatusAfter(out.verdict))
    {
      hide Leads, Enabled, Apply, Schedule, Claimable, Finishable;
      script, z := past, now;
      ClaimStep(config, z, p, w.claimed, w.token);
      script, z := Extend(config, s, script, z, w.claimed, ClaimTx(p, w.token));
      var claim := store.Claim(id, generation, w.token, w.claimed);
      if claim.Err? { return Dropped, script, z; }
      var n := claim.value;
      DecideStep(config, z, p, w.decided, w.secretOk, w.answer);
      script, z := Extend(config, s, script, z, w.decided, Decide(p, w.secretOk, w.answer));
      var d := Blocked("target_policy_blocked");
      if w.policyOk {
        if !w.secretOk {
          d := Blocked("secret_unavailable");
        } else if n.deadline <= w.decided {
          d := Blocked("retry_deadline_exceeded");
        } else {
          d := w.answer;
          if z.agents[p].Delivering? {
            ReturnStep(config, z, p, w.decided, d);
            script, z := Extend(config, s, script, z, w.decided, Return(p, d));
          }
        }
      }
      assert z.agents[p] == Decided(n, d) && z.db == store.Contents();
      out, script, z := Conclude(n, d, w, s, script, z, p);
    }

    /** The plan for a retry, and the end of the attempt. */
    method Conclude(n: Task, d: Decision, w: World, ghost s: State, ghost past: seq<Move>, ghost now: State,
        ghost p: Pid)
      returns (out: Outcome, ghost script: seq<Move>, ghost z: State)
      requires Leads(config, s, past, now) && store.Contents() == now.db && At(now, p) && now.agents[p] == Decided(n, d)
      requires Known(config, n)
      modifies store
      ensures Leads(config, s, script, z) && store.Contents() == z.db && p !in z.agents
      ensures out == Stale || (out.Finished? && n.id in store.tasks
            && store.tasks[n.id].status == StatusAfter(out.verdict))
    {
      hide Leads, Enabled, Apply, Schedule;
      script, z := past, now;
      PlanStep(config, z, p, w.planned);
      script, z := Extend(config, s, script, z, w.planned, PlanRetry(p));
      var plan := Plan(d, None, Dispatch);
      if d.verdict == Retry {
        var c := config[(n.revision, n.target)];
        plan := ScheduleRetry(w.planned, n.cycle, n.deadline, c.target, c.retry, d);
      }
      script, z := FinishedEnd(config, s, script, z, p, w.finished);
      var r := store.Finish(n, plan.decision.verdict, plan.next, plan.route, w.finished);
      if r.Err? { return Stale, script, z; }
      return Finished(plan.decision.verdict), script, z;
    }

    /** `Process`: undisturbed, it is a run of the transition system, and each counter counts exactly the
        attempts that it finished with that result. */
    method Process(id: Id, generation: nat, w: World, ghost s: State, ghost p: Pid)
      returns (out: Outcome, ghost script: seq<Move>, ghost z: State)
      requires store.Contents() == s.db && At(s, p) && Fence(config, s) && w.token !in s.issued
      requires s.agents[p].Started? && s.agents[p].id == id && s.agents[p].generation == generation
      modifies this, store
      ensures Leads(config, s, script, z) && store.Contents() == z.db && p !in z.agents
      ensures out in {Dropped, Broken} ==> store.Contents() == old(store.Contents())
      ensures out.Finished? ==> id in store.tasks && store.tasks[id].status == StatusAfter(out.verdict)
      ensures delivered == old(delivered) + (if out == Finished(Success) then 1 else 0)
      ensures retried == old(retried) + (if out == Finished(Retry) then 1 else 0)
      ensures failed == old(failed) + (if out == Finished(Fail) then 1 else 0)
    {
      hide Leads, Fence;
      var guarded;
      guarded, script, z := Guards(id, generation, w, s, p);
      if guarded.Some? { return guarded.value, script, z; }
      KeysOf(config, s);
      out, script, z := Attempt(id, generation, w, s, script, z, p);
      if out.Finished? {
        match out.verdict
        case Success => delivered := delivered + 1;
        case Retry => retried := retried + 1;
        case Fail => failed := failed + 1;
      }
    }
  }

  lemma FinishedEnd(cfg: Config, s: State, past: seq<Move>, now: State, p: Pid, at: Time)
      returns (script: seq<Move>, z: State)
    requires Leads(cfg, s, past, now) && At(now, p) && now.agents[p].Ready?
    ensures Leads(cfg, s, script, z) && !At(z, p)
    ensures var n, plan := now.agents[p].n, now.agents[p].plan;
            z.db == if Finishable(now.db, at, n) then Transactions.Finish(now.db, at, n, plan.decision.verdict,
                plan.next, plan.route) else now.db
  {
    hide Leads, Enabled, Apply, Finishable;
    FinishStep(cfg, now, p, at);
    script, z := Extend(cfg, s, past, now, at, FinishTx(p));
  }

  lemma KeysOf(cfg: Config, s: State)
    requires Fence(cfg, s)
    ensures s.db.tasks.Keys == s.hist.Keys && forall id :: id in s.db.tasks ==> s.db.tasks[id].id == id
  {
  }

  lemma LoadStep(cfg: Config, s: State, p: Pid, now: Time)
    requires At(s, p) && s.agents[p].Started?
    ensures Enabled(cfg, s, now, Load(p))
    ensures Apply(cfg, s, now, Load(p)) == DoLoad(s, p, s.agents[p].start, s.agents[p].id, s.agents[p].generation)
  {
  }

  lemma NotBeforeStep(cfg: Config, s: State, p: Pid, now: Time)
    requires At(s, p) && s.agents[p].Loaded?
    ensures Enabled(cfg, s, now, NotBefore(p))
    ensures Apply(cfg, s, now, NotBefore(p)) == if now < s.agents[p].n.next then Drop(s, p)
          else Put(s, p, Due(s.agents[p].start, s.agents[p].n))
  {
  }

  lemma CheckStep(cfg: Config, s: State, p: Pid, now: Time, policyOk: bool)
    requires At(s, p) && s.agents[p].Due?
    ensures Enabled(cfg, s, now, Check(p, policyOk))
    ensures var x := s.agents[p];
            Apply(cfg, s, now, Check(p, policyOk))
            == if Known(cfg, x.n) then Put(s, p, Checked(x.start, x.n, policyOk, x.n.deadline <= now, now))
                else Drop(s, p)
  {
  }

  lemma GateStep(cfg: Config, s: State, p: Pid, now: Time, granted: bool)
    requires At(s, p) && s.agents[p].Checked?
    ensures Enabled(cfg, s, now, LockRefused(p)) && Apply(cfg, s, now, LockRefused(p)) == Drop(s, p)
    ensures Enabled(cfg, s, now, Gate(p, granted)) && Apply(cfg, s, now, Gate(p, granted)) == Put(s, p,
          AfterGate(s.agents[p], granted))
  {
  }

  lemma DeferStep(cfg: Config, s: State, p: Pid, now: Time)
    requires At(s, p) && s.agents[p].Deferring?
    ensures Enabled(cfg, s, now, DeferTx(p)) && Apply(cfg, s, now, DeferTx(p)) == DoDefer(s, now, p, s.agents[p].n)
  {
  }

  lemma ClaimStep(cfg: Config, s: State, p: Pid, now: Time, token: Token)
    requires At(s, p) && s.agents[p].Admitted? && token !in s.issued
    ensures Enabled(cfg, s, now, ClaimTx(p, token)) && Apply(cfg, s, now, ClaimTx(p, token)) == DoClaim(s, now, p,
          s.agents[p], token)
  {
  }

  lemma DecideStep(cfg: Config, s: State, p: Pid, now: Time, secretOk: bool, late: Decision)
    requires At(s, p) && s.agents[p].Claimed?
    ensures Enabled(cfg, s, now, Decide(p, secretOk, late))
    ensures Apply(cfg, s, now, Decide(p, secretOk, late)) == Put(s, p, AfterDecide(s.agents[p], now, secretOk, late))
  {
  }

  lemma ReturnStep(cfg: Config, s: State, p: Pid, now: Time, d: Decision)
    requires At(s, p) && s.agents[p].Delivering?
    ensures Enabled(cfg, s, now, Return(p, d)) && Apply(cfg, s, now, Return(p, d)) == Put(s, p,
          Decided(s.agents[p].n, d))
  {
  }

  lemma PlanStep(cfg: Config, s: State, p: Pid, now: Time)
    requires At(s, p) && s.agents[p].Decided? && Known(cfg, s.agents[p].n)
    ensures Enabled(cfg, s, now, PlanRetry(p))
    ensures Apply(cfg, s, now, PlanRetry(p)) == Put(s, p,
          Ready(s.agents[p].n, PlanFor(cfg, now, s.agents[p].n, s.agents[p].d), now))
  {
  }

  lemma FinishStep(cfg: Config, s: State, p: Pid, now: Time)
    requires At(s, p) && s.agents[p].Ready?
    ensures Enabled(cfg, s, now, FinishTx(p)) && Apply(cfg, s, now, FinishTx(p)) == DoFinish(s, now, p,
          s.agents[p].n, s.agents[p].plan)
  {
  }

  // ---- the dispatcher ---------------------------------------------------------------------------------

  class Dispatcher {
    const store: Store.Store
    var publishFailures: nat

    constructor (store: Store.Store)
      ensures this.store == store && publishFailures == 0
    {
      this.store, publishFailures := store, 0;
    }

    /** The part of a turn after the claim: publish, then mark the row or give it back. */
    method Publish(cfg: Config, r: nat, token: Token, sent: bool, confirmed: bool, sentAt: Time, endedAt: Time,
                   ghost s: State, ghost past: seq<Move>, ghost now: State, ghost p: Pid)
      returns (ghost script: seq<Move>, ghost z: State)
      requires Leads(cfg, s, past, now) && store.Contents() == now.db && (confirmed ==> sent)
      requires At(now, p) && now.agents[p].Publisher? && now.agents[p].row == r < |now.db.outbox|
            && now.agents[p].token == token
      requires HoldsRow(now.db.outbox[r], token)
      modifies `publishFailures, store
      ensures Leads(cfg, s, script, z) && store.Contents() == z.db && !At(z, p)
      ensures var e := now.db.outbox[r];
              z.db == now.db.(outbox := now.db.outbox[r := if !confirmed then ReleasedEvent(e, endedAt)
                                                           else if endedAt < e.lease.value.until then
                                                               PublishedEvent(e, endedAt) else e])
      ensures publishFailures == old(publishFailures) + (if confirmed then 0 else 1)
    {
      hide Leads, Enabled, Apply;
      script, z := past, now;
      if sent {
        SendStep(cfg, z, p, sentAt);
        script, z := Extend(cfg, s, script, z, sentAt, Send(p));
      }
      if confirmed {
        script, z := ConfirmedEnd(cfg, s, script, z, p, endedAt);
        var ok := store.Published(r, token, endedAt);
      } else {
        publishFailures := publishFailures + 1;
        script, z := UnconfirmedEnd(cfg, s, script, z, p, endedAt);
        store.ReleaseOutbox(r, token, endedAt);
      }
    }

    /** One turn of `Run`: `sent` tells whether the message reached the broker, and `confirmed` whether
        the broker's confirmation came back. Undisturbed, a confirmed row ends up published provided its
        lease still runs, and a row without confirmation goes back. */
    method Turn(cfg: Config, token: Token, sent: bool, confirmed: bool, claimedAt: Time, sentAt: Time, endedAt: Time,
        ghost s: State, ghost p: Pid)
      returns (row: Option<nat>, ghost script: seq<Move>, ghost z: State)
      requires store.Contents() == s.db && !At(s, p) && token !in s.issued && (confirmed ==> sent)
      modifies this, store
      ensures Leads(cfg, s, script, z) && store.Contents() == z.db && !At(z, p)
      ensures row.None? ==> z == s && forall i :: 0 <= i < |s.db.outbox| ==> !IsReady(s.db.outbox[i], claimedAt)
      ensures row.Some? ==>
                && FirstReady(s.db.outbox, claimedAt, row.value, {})
                && z.db == s.db.(outbox := s.db.outbox[row.value := AfterTurn(s.db.outbox[row.value], token,
                    confirmed, claimedAt, endedAt)])
      ensures publishFailures == old(publishFailures) + (if row.Some? && !confirmed then 1 else 0)
    {
      hide Leads, Enabled, Apply, FirstReady, IsReady;
      NoMoves(cfg, s);
      script, z := [], s;
      row := store.ClaimOutbox(token, claimedAt);
      if row.None? { return; }
      InRange(s, claimedAt, row.value);
      TakeStep(cfg, s, p, claimedAt, row.value, token);
      script, z := Extend(cfg, s, script, z, claimedAt, Take(p, row.value, token, {}));
      script, z := Publish(cfg, row.value, token, sent, confirmed, sentAt, endedAt, s, script, z, p);
    }
  }

  /** What a turn makes of the row it claimed. */
  function AfterTurn(e: Event, token: Token, confirmed: bool, claimedAt: Time, endedAt: Time): Event {
    var c := ClaimedEvent(e, claimedAt, token);
    if !confirmed then ReleasedEvent(c, endedAt)
    else if endedAt < claimedAt + PUBLISH_LEASE then PublishedEvent(c, endedAt) else c
  }

  lemma ConfirmedEnd(cfg: Config, s: State, past: seq<Move>, now: State, p: Pid, at: Time)
      returns (script: seq<Move>, z: State)
    requires Leads(cfg, s, past, now) && At(now, p) && now.agents[p].Publisher? && now.agents[p].sent
    ensures Leads(cfg, s, script, z) && !At(z, p)
    ensures var row, token := now.agents[p].row, now.agents[p].token; var o := now.db.outbox;
            z.db == now.db.(outbox := if row < |o| && Confirmable(o[row], at, token) then
                o[row := PublishedEvent(o[row], at)] else o)
  {
    hide Leads, Enabled, Apply, Confirmable;
    ConfirmStep(cfg, now, p, at);
    script, z := Extend(cfg, s, past, now, at, Confirm(p));
    PublishedStep(cfg, z, p, at);
    script, z := Extend(cfg, s, script, z, at, PublishedTx(p));
  }

  lemma UnconfirmedEnd(cfg: Config, s: State, past: seq<Move>, now: State, p: Pid, at: Time)
      returns (script: seq<Move>, z: State)
    requires Leads(cfg, s, past, now) && At(now, p) && now.agents[p].Publisher?
    ensures Leads(cfg, s, script, z) && !At(z, p)
    ensures var row, token := now.agents[p].row, now.agents[p].token; var o := now.db.outbox;
            z.db == now.db.(outbox := if row < |o| && HoldsRow(o[row], token) then
                o[row := ReleasedEvent(o[row], at)] else o)
  {
    hide Leads, Enabled, Apply, HoldsRow, Confirmable;
    UnconfirmedStep(cfg, now, p, at);
    script, z := Extend(cfg, s, past, now, at, Unconfirmed(p));
    ReleaseStep(cfg, z, p, at);
    script, z := Extend(cfg, s, script, z, at, ReleaseTx(p));
  }

  lemma InRange(s: State, now: Time, r: nat)
    requires FirstReady(s.db.outbox, now, r, {})
    ensures r < |s.db.outbox|
  {
  }

  lemma TakeStep(cfg: Config, s: State, p: Pid, now: Time, row: nat, token: Token)
    requires !At(s, p) && token !in s.issued && row < |s.db.outbox| && FirstReady(s.db.outbox, now, row, {})
    ensures Enabled(cfg, s, now, Take(p, row, token, {}))
          && Apply(cfg, s, now, Take(p, row, token, {})) == DoTake(s, now, p, row, token)
  {
  }

  lemma SendStep(cfg: Config, s: State, p: Pid, now: Time)
    requires At(s, p) && s.agents[p].Publisher?
    ensures Enabled(cfg, s, now, Send(p)) && Apply(cfg, s, now, Send(p)) == DoSend(s, now, p, s.agents[p])
  {
  }

  lemma ConfirmStep(cfg: Config, s: State, p: Pid, now: Time)
    requires At(s, p) && s.agents[p].Publisher? && s.agents[p].sent
    ensures Enabled(cfg, s, now, Confirm(p)) && Apply(cfg, s, now, Confirm(p)) == DoConfirm(s, p, s.agents[p])
  {
  }

  lemma UnconfirmedStep(cfg: Config, s: State, p: Pid, now: Time)
    requires At(s, p) && s.agents[p].Publisher?
    ensures Enabled(cfg, s, now, Unconfirmed(p)) && Apply(cfg, s, now, Unconfirmed(p)) == Put(s, p,
          Releasing(s.agents[p].row, s.agents[p].token))
  {
  }

  lemma PublishedStep(cfg: Config, s: State, p: Pid, now: Time)
    requires At(s, p) && s.agents[p].Confirmed?
    ensures Enabled(cfg, s, now, PublishedTx(p)) && Apply(cfg, s, now, PublishedTx(p)) == DoPublished(s, now, p,
          s.agents[p].row, s.agents[p].token)
  {
  }

  lemma ReleaseStep(cfg: Config, s: State, p: Pid, now: Time)
    requires At(s, p) && s.agents[p].Releasing?
    ensures Enabled(cfg, s, now, ReleaseTx(p)) && Apply(cfg, s, now, ReleaseTx(p)) == DoRelease(s, now, p,
          s.agents[p].row, s.agents[p].token)
  {
  }
}
