/** No task is ever stuck: from every reachable state, whatever the broker lost and whichever agents
    died, clock ticks, recovery sweeps, dispatcher steps and worker steps alone can bring a task that is
    not final to its next claim or to a final state. The lemmas build such a script. */
module Recoverability {
  import opened Domain
  import opened RetrySchedule
  import opened Transactions
  import opened Ledger
  import opened Protocol
  import opened Fencing
  import opened Frames
  import opened Guarantees
  import opened Timing
  import opened Selection

  /** The steps a repair may use: no client, no refusal by the lock or the gate, no crash. */
  predicate IsRepair(a: Step) {
    match a
    case Tick(_) => true
    case SweepOutbox(_, _) => true
    case ReadExpired(_, _) => true
    case PlanRecovery(_) => true
    case RecoverTx(_) => true
    case ReconcileTx(_, _, _) => true
    case Take(_, _, _, _) => true
    case Send(_) => true
    case Confirm(_) => true
    case Unconfirmed(_) => true
    case PublishedTx(_) => true
    case Receive(_, _) => true
    case Load(_) => true
    case NotBefore(_) => true
    case Check(_, _) => true
    case Gate(_, granted) => granted
    case ClaimTx(_, _) => true
    case Return(_, _) => true
    case _ => false
  }

  ghost predicate Good(cfg: Config, s: State) { Fence(cfg, s) && Timely(cfg, s) }

  /** The script consists of repair steps and leads from s to s' under the shared clock. */
  ghost predicate Leads(cfg: Config, s: State, script: seq<Move>, s': State) {
    && (forall i :: 0 <= i < |script| ==> IsRepair(script[i].step))
    && Timed(cfg, s, script) && Legal(cfg, s, script) && Run(cfg, s, script) == s'
  }

  lemma {:induction false} TimedConcat(cfg: Config, s: State, x: seq<Move>, y: seq<Move>)
    requires Timed(cfg, s, x) && Legal(cfg, s, x) && Timed(cfg, Run(cfg, s, x), y)
    ensures Timed(cfg, s, x + y) && Legal(cfg, s, x + y) && Legal(cfg, Run(cfg, s, x), y)
    ensures Run(cfg, s, x + y) == Run(cfg, Run(cfg, s, x), y)
    decreases |x|
  {
    hide Enabled, Apply;
    TimedIsLegal(cfg, Run(cfg, s, x), y);
    if x == [] {
      assert x + y == y;
    } else {
      assert (x + y)[1..] == x[1..] + y;
      TimedConcat(cfg, Apply(cfg, s, s.clock, x[0].step), x[1..], y);
    }
  }

  lemma Then(cfg: Config, s: State, x: seq<Move>, s1: State, y: seq<Move>, s2: State)
    requires Leads(cfg, s, x, s1) && Leads(cfg, s1, y, s2)
    ensures Leads(cfg, s, x + y, s2)
  {
    hide Timed, Legal, Run;
    TimedConcat(cfg, s, x, y);
  }

  lemma Stay(cfg: Config, s: State)
    ensures Leads(cfg, s, [], s)
  {
  }

  lemma One(cfg: Config, s: State, a: Step) returns (script: seq<Move>, s': State)
    requires Good(cfg, s) && Enabled(cfg, s, s.clock, a) && IsRepair(a)
    ensures s' == Apply(cfg, s, s.clock, a) && Leads(cfg, s, script, s') && Good(cfg, s')
  {
    hide Fence, Timely, Enabled, Apply, Evolves;
    s' := Apply(cfg, s, s.clock, a);
    script := [On(s.clock, a)];
    assert script[1..] == [];
    assert Timed(cfg, s', script[1..]) && Legal(cfg, s', script[1..]) && Run(cfg, s', script[1..]) == s';
    StepFenced(cfg, s, s.clock, a);
    StepTimely(cfg, s, a);
  }

  /** No call and no publish is under way, so nothing holds the clock back. */
  ghost predicate Quiet(s: State) {
    forall p :: p in s.agents ==> !s.agents[p].Delivering? && !s.agents[p].Publisher?
  }

  // ---- ending calls -------------------------------------------------------------------------------

  ghost function Busy(s: State): set<Pid> {
    set p | p in s.agents && (s.agents[p].Delivering? || s.agents[p].Publisher?)
  }

  const CALL_FAILED := Decision(Fail, "call_failed", false, Absent)

  /** Calls under way return and publishes under way end; the tables stay as they are. */
  lemma {:induction false} Quiesce(cfg: Config, s: State) returns (script: seq<Move>, s': State)
    requires Good(cfg, s)
    ensures Leads(cfg, s, script, s') && Good(cfg, s') && Quiet(s') && s'.db == s.db && s'.clock == s.clock
    decreases |Busy(s)|
  {
    hide Good, Leads;
    if Busy(s) == {} {
      script, s' := [], s;
      Stay(cfg, s);
      assert forall p :: p in s.agents && (s.agents[p].Delivering? || s.agents[p].Publisher?) ==> p in Busy(s);
    } else {
      var p :| p in Busy(s);
      var x, s1 := One(cfg, s, if s.agents[p].Delivering? then Return(p, CALL_FAILED) else Unconfirmed(p));
      assert Busy(s1) == Busy(s) - {p};
      var y;
      y, s' := Quiesce(cfg, s1);
      Then(cfg, s, x, s1, y, s');
      script := x + y;
    }
  }

  lemma TickTo(cfg: Config, s: State, to: Time) returns (script: seq<Move>, s': State)
    requires Good(cfg, s) && Quiet(s) && s.clock <= to
    ensures Leads(cfg, s, script, s') && Good(cfg, s') && s' == s.(clock := to) && Quiet(s')
  {
    hide Good, Leads;
    script, s' := One(cfg, s, Tick(to));
  }

  // ---- dispatching --------------------------------------------------------------------------------

  ghost function ReadyRows(outbox: seq<Event>, now: Time): set<nat> {
    set i: nat | i < |outbox| && IsReady(outbox[i], now)
  }

  lemma {:induction false} FirstReadyUpTo(outbox: seq<Event>, now: Time, n: nat) returns (row: nat)
    requires n <= |outbox| && exists i :: 0 <= i < n && IsReady(outbox[i], now)
    ensures row < n && FirstReady(outbox[..n], now, row, {})
    decreases n
  {
    if exists i :: 0 <= i < n - 1 && IsReady(outbox[i], now) {
      row := FirstReadyUpTo(outbox, now, n - 1);
      assert forall i :: 0 <= i < n - 1 ==> outbox[..n][i] == outbox[..n - 1][i];
      if IsReady(outbox[n - 1], now) && outbox[n - 1].available < outbox[row].available { row := n - 1; }
    } else {
      row := n - 1;
    }
  }

  lemma FreshPid(s: State) returns (p: Pid)
    ensures p !in s.agents
  {
    p := FreshExists(s.agents.Keys);
  }

  lemma FreshToken(s: State) returns (t: Token)
    ensures t !in s.issued
  {
    t := FreshExists(s.issued.Keys);
  }

  /** The first ready row is claimed and its trigger reaches the broker. */
  lemma TakeAndSend(cfg: Config, s: State, row: nat, p: Pid, token: Token) returns (script: seq<Move>, s': State)
    requires Good(cfg, s) && FirstReady(s.db.outbox, s.clock, row, {}) && p !in s.agents && token !in s.issued
    ensures Leads(cfg, s, script, s') && Good(cfg, s')
    ensures s' == DoSend(DoTake(s, s.clock, p, row, token), s.clock, p, DoTake(s, s.clock, p, row, token).agents[p])
  {
    hide Good, Leads, FirstReady;
    assert row < |s.db.outbox| by { ReadyRow(s.db.outbox, s.clock, row, {}); }
    var x1, s1 := One(cfg, s, Take(p, row, token, {}));
    var x2, s2 := One(cfg, s1, Send(p));
    Then(cfg, s, x1, s1, x2, s2);
    script, s' := x1 + x2, s2;
  }

  lemma ConfirmAndMark(cfg: Config, s: State, p: Pid) returns (script: seq<Move>, s': State)
    requires Good(cfg, s) && p in s.agents && s.agents[p].Publisher? && s.agents[p].sent
    ensures Leads(cfg, s, script, s') && Good(cfg, s')
    ensures s' == DoPublished(DoConfirm(s, p, s.agents[p]), s.clock, p, s.agents[p].row, s.agents[p].token)
  {
    hide Good, Leads;
    var x1, s1 := One(cfg, s, Confirm(p));
    var x2, s2 := One(cfg, s1, PublishedTx(p));
    Then(cfg, s, x1, s1, x2, s2);
    script, s' := x1 + x2, s2;
  }

  /** One turn of a dispatcher: the first ready row is claimed, published, confirmed and marked. */
  lemma PublishOne(cfg: Config, s: State, row: nat) returns (script: seq<Move>, s': State)
    requires Good(cfg, s) && FirstReady(s.db.outbox, s.clock, row, {})
    ensures Leads(cfg, s, script, s') && Good(cfg, s') && s'.agents == s.agents && s'.clock == s.clock
    ensures s'.db == s.db.(outbox := s'.db.outbox) && |s'.db.outbox| == |s.db.outbox| && row < |s.db.outbox|
    ensures s'.db.outbox == s.db.outbox[row := s'.db.outbox[row]] && s'.db.outbox[row].status == Published
    ensures var e := s.db.outbox[row];
            Message(e.notification, e.generation, s.clock + QueueTtl(e.route)) in s'.broker
  {
    hide Good, Leads, FirstReady, Enabled, Apply;
    assert row < |s.db.outbox| by { ReadyRow(s.db.outbox, s.clock, row, {}); }
    var p := FreshPid(s);
    var token := FreshToken(s);
    var x1, s1 := TakeAndSend(cfg, s, row, p, token);
    var x2, s2 := ConfirmAndMark(cfg, s1, p);
    Then(cfg, s, x1, s1, x2, s2);
    script, s' := x1 + x2, s2;
    assert s'.agents == s.agents;
  }

  /** Dispatchers drain the ready rows in order until the given one has reached the broker. */
  lemma {:induction false} DrainTo(cfg: Config, s: State, row: nat) returns (script: seq<Move>, s': State)
    requires Good(cfg, s) && row < |s.db.outbox| && IsReady(s.db.outbox[row], s.clock)
    ensures Leads(cfg, s, script, s') && Good(cfg, s') && s'.agents == s.agents && s'.clock == s.clock
          && s'.db.tasks == s.db.tasks
    ensures exists m :: m in s'.broker
              && m.id == s.db.outbox[row].notification && m.generation == s.db.outbox[row].generation
    decreases |ReadyRows(s.db.outbox, s.clock)|
  {
    hide Good, Leads, Enabled, Apply;
    var first := FirstReadyUpTo(s.db.outbox, s.clock, |s.db.outbox|);
    assert s.db.outbox[..|s.db.outbox|] == s.db.outbox;
    script, s' := PublishOne(cfg, s, first);
    if first != row {
      assert ReadyRows(s'.db.outbox, s'.clock) == ReadyRows(s.db.outbox, s.clock) - {first};
      assert first in ReadyRows(s.db.outbox, s.clock);
      var y, s2 := DrainTo(cfg, s', row);
      Then(cfg, s, script, s', y, s2);
      script, s' := script + y, s2;
    }
  }

  lemma RowFacts(cfg: Config, s: State, id: Id)
    requires Good(cfg, s) && id in s.db.tasks
    ensures s.db.tasks[id].id == id && id in s.hist && Known(cfg, s.db.tasks[id])
    ensures s.db.tasks[id].status == InFlight <==> s.db.tasks[id].lease.Some?
  {
    hide Timely, AgentsOk, OutboxLedger, AttemptLedger;
    assert TaskOk(cfg, s.db.tasks[id], s.hist[id], s.issued);
  }

  // ---- claiming -----------------------------------------------------------------------------------

  /** A worker that takes the trigger of the current generation, when it is due, claims the task. */
  lemma WorkerClaims(cfg: Config, s: State, m: Message) returns (script: seq<Move>, s': State)
    requires Good(cfg, s) && m in s.broker && m.readyAt <= s.clock && m.id in s.db.tasks
    requires var t := s.db.tasks[m.id]; t.status == Pending && t.generation == m.generation && t.next <= s.clock
    ensures Leads(cfg, s, script, s') && Good(cfg, s')
    ensures m.id in s'.db.tasks && s'.db.tasks[m.id].attempts == s.db.tasks[m.id].attempts + 1
  {
    hide Good, Leads;
    RowFacts(cfg, s, m.id);
    var p := FreshPid(s);
    var t := s.db.tasks[m.id];
    var x1, s1 := One(cfg, s, Receive(p, m));
    var x2, s2 := One(cfg, s1, Load(p));
    assert s2 == Put(s, p, Loaded(s.clock, t));
    Then(cfg, s, x1, s1, x2, s2);
    var y, s3 := LoadedClaims(cfg, s2, p);
    Then(cfg, s, x1 + x2, s2, y, s3);
    script, s' := x1 + x2 + y, s3;
  }

  lemma LoadedClaims(cfg: Config, s: State, p: Pid) returns (script: seq<Move>, s': State)
    requires Good(cfg, s) && p in s.agents && s.agents[p].Loaded?
    requires var n := s.agents[p].n;
          n.id in s.db.tasks && s.db.tasks[n.id] == n && n.status == Pending && n.next <= s.clock
    ensures Leads(cfg, s, script, s') && Good(cfg, s')
    ensures var n := s.agents[p].n; n.id in s'.db.tasks && s'.db.tasks[n.id].attempts == n.attempts + 1
  {
    hide Good, Leads;
    var n := s.agents[p].n;
    ClaimKeyFree(cfg, s, n);
    var x1, s1 := One(cfg, s, NotBefore(p));
    var x2, s2 := One(cfg, s1, Check(p, true));
    Then(cfg, s, x1, s1, x2, s2);
    var x3, s3 := One(cfg, s2, Gate(p, true));
    Then(cfg, s, x1 + x2, s2, x3, s3);
    assert s3.db == s.db && s3.clock == s.clock && s3.agents[p].Admitted? && s3.agents[p].n == n;
    var y, s4 := AdmittedClaims(cfg, s3, p);
    Then(cfg, s, x1 + x2 + x3, s3, y, s4);
    script, s' := x1 + x2 + x3 + y, s4;
  }

  lemma ClaimKeyFree(cfg: Config, s: State, n: Task)
    requires Good(cfg, s) && n.id in s.db.tasks && s.db.tasks[n.id] == n
    ensures (n.id, n.attempts + 1) !in s.db.attempts && Known(cfg, n)
  {
    hide Timely, AgentsOk, OutboxLedger;
    assert TaskOk(cfg, n, s.hist[n.id], s.issued);
    assert TaskAttempts(n, s.db.attempts);
  }

  lemma AdmittedClaims(cfg: Config, s: State, p: Pid) returns (script: seq<Move>, s': State)
    requires Good(cfg, s) && p in s.agents && s.agents[p].Admitted?
    requires var n := s.agents[p].n;
          n.id in s.db.tasks && s.db.tasks[n.id] == n && n.status == Pending && n.next <= s.clock
    ensures Leads(cfg, s, script, s') && Good(cfg, s')
    ensures var n := s.agents[p].n; n.id in s'.db.tasks && s'.db.tasks[n.id].attempts == n.attempts + 1
  {
    hide Good, Leads;
    ClaimKeyFree(cfg, s, s.agents[p].n);
    var token := FreshToken(s);
    script, s' := One(cfg, s, ClaimTx(p, token));
  }

  // ---- lease recovery -----------------------------------------------------------------------------

  ghost function IdsOf(ns: seq<Task>): set<Id> { set i | 0 <= i < |ns| :: ns[i].id }

  /** The rows are different, as they are now, and had expired at time t. */
  ghost predicate RowsExpired(db: Db, ns: seq<Task>, t: Time) {
    && (forall i :: 0 <= i < |ns| ==> ns[i].id in db.tasks && db.tasks[ns[i].id] == ns[i] && IsExpired(ns[i], t))
    && (forall i, j :: 0 <= i < j < |ns| ==> ns[i].id != ns[j].id)
  }

  /** The outbox grew, and of its old rows only abandoned ones changed: they wait again. */
  ghost predicate OnlyResets(a: seq<Event>, b: seq<Event>, now: Time) {
    && |a| <= |b|
    && forall i :: 0 <= i < |a| ==> b[i] == a[i] || (IsAbandoned(a[i], now) && b[i] == ResetEvent(a[i]))
  }

  /** One turn of the loop in `Loop.step`: the row leaves `in_flight`. */
  lemma RecoverOne(cfg: Config, s: State, p: Pid, n: Task, rest: seq<Task>) returns (script: seq<Move>, s': State)
    requires Good(cfg, s) && p in s.agents && s.agents[p] == Sweeping([n] + rest)
    requires n.id in s.db.tasks && s.db.tasks[n.id] == n && IsExpired(n, s.clock)
    ensures Leads(cfg, s, script, s') && Good(cfg, s') && s'.clock == s.clock
    ensures s'.agents == s.agents[p := Sweeping(rest)]
    ensures s'.db.tasks.Keys == s.db.tasks.Keys && (s'.db.tasks[n.id].status == Pending
          || s'.db.tasks[n.id].status == Failed)
    ensures s'.db.tasks[n.id].attempts == n.attempts && s.db.outbox <= s'.db.outbox
    ensures forall id :: id in s.db.tasks && id != n.id ==> s'.db.tasks[id] == s.db.tasks[id]
  {
    hide Good, Leads, PlanFor;
    RowFacts(cfg, s, n.id);
    assert ([n] + rest)[1..] == rest;
    var x1, s1 := One(cfg, s, PlanRecovery(p));
    assert s1 == Put(s, p, Recovering(n, PlanFor(cfg, s.clock, n, LEASE_EXPIRED), s.clock, rest));
    var x2, s2 := One(cfg, s1, RecoverTx(p));
    Then(cfg, s, x1, s1, x2, s2);
    script, s' := x1 + x2, s2;
    assert s2.agents == s.agents[p := Sweeping(rest)];
  }

  lemma NoIds()
    ensures IdsOf([]) == {}
  {
  }

  lemma IdsOfCons(n: Task, rest: seq<Task>)
    ensures IdsOf([n] + rest) == {n.id} + IdsOf(rest)
  {
    var ns := [n] + rest;
    assert forall i :: 0 <= i < |rest| ==> ns[i + 1] == rest[i];
    assert forall i :: 0 < i < |ns| ==> ns[i] == rest[i - 1];
    assert ns[0].id in IdsOf(ns);
    assert forall x :: x in IdsOf(rest) ==> exists i :: 0 <= i < |rest| && rest[i].id == x && ns[i + 1].id == x;
  }

  /** The whole loop over the expired list: each row of it leaves `in_flight`. */
  lemma {:induction false} RecoverList(cfg: Config, s: State, p: Pid, ns: seq<Task>)
      returns (script: seq<Move>, s': State)
    requires Good(cfg, s) && p in s.agents && s.agents[p] == Sweeping(ns) && RowsExpired(s.db, ns, s.clock)
    ensures Leads(cfg, s, script, s') && Good(cfg, s') && s'.clock == s.clock
          && s'.agents == s.agents[p := Sweeping([])]
    ensures s'.db.tasks.Keys == s.db.tasks.Keys && s.db.outbox <= s'.db.outbox
    ensures forall id :: id in IdsOf(ns) ==>
          id in s.db.tasks && (s'.db.tasks[id].status == Pending || s'.db.tasks[id].status == Failed)
    ensures forall id :: id in s.db.tasks && id !in IdsOf(ns) ==> s'.db.tasks[id] == s.db.tasks[id]
    ensures forall id :: id in s.db.tasks ==> s'.db.tasks[id].attempts == s.db.tasks[id].attempts
    decreases |ns|
  {
    hide Good, Leads, IdsOf, IsExpired;
    if ns == [] {
      script, s' := [], s;
      Stay(cfg, s);
      NoIds();
    } else {
      var n, rest := ns[0], ns[1..];
      assert ns == [n] + rest;
      IdsOfCons(n, rest);
      var x1, s1 := RecoverOne(cfg, s, p, n, rest);
      assert forall i :: 0 <= i < |rest| ==> rest[i] == ns[i + 1];
      var x2, s2 := RecoverList(cfg, s1, p, rest);
      Then(cfg, s, x1, s1, x2, s2);
      script, s' := x1 + x2, s2;
      assert s'.agents == s.agents[p := Sweeping([])];
    }
  }

  lemma RowsOfIds(db: Db, ids: seq<Id>)
    requires (forall i :: 0 <= i < |ids| ==> ids[i] in db.tasks) && forall id :: id in db.tasks ==>
          db.tasks[id].id == id
    requires forall i, j :: 0 <= i < j < |ids| ==> ids[i] != ids[j]
    ensures IdsOf(RowsAt(db, ids)) == (set i | 0 <= i < |ids| :: ids[i]) && |IdsOf(RowsAt(db, ids))| == |ids|
    ensures forall i, j :: 0 <= i < j < |ids| ==> RowsAt(db, ids)[i].id != RowsAt(db, ids)[j].id
  {
    var ns := RowsAt(db, ids);
    assert forall i :: 0 <= i < |ns| ==> ns[i].id == ids[i];
    DistinctCount(ids);
    assert IdsOf(ns) == set i | 0 <= i < |ids| :: ids[i];
  }

  /** There is a result of the query behind `Expired`. */
  lemma ExpiredListExists(cfg: Config, s: State) returns (ns: seq<Task>)
    requires Good(cfg, s)
    ensures ExpiredList(s.db, s.clock, ns) && RowsExpired(s.db, ns, s.clock)
    ensures |ns| == Min(100, |ExpiredIds(s.db, s.clock)|) && IdsOf(ns) <= ExpiredIds(s.db, s.clock)
          && |IdsOf(ns)| == |ns|
  {
    hide Good, ExpiredList, IsExpired, IdsOf;
    forall id | id in s.db.tasks ensures s.db.tasks[id].id == id { RowFacts(cfg, s, id); }
    var ids := FirstExists(ExpiredIds(s.db, s.clock), LeaseEnds(s.db, s.clock), 100);
    FirstIsExpiredList(s.db, s.clock, ids);
    ns := RowsAt(s.db, ids);
    RowsOfIds(s.db, ids);
  }

  lemma {:induction false} DistinctCount(ids: seq<Id>)
    requires forall i, j :: 0 <= i < j < |ids| ==> ids[i] != ids[j]
    ensures |(set i | 0 <= i < |ids| :: ids[i])| == |ids|
    decreases |ids|
  {
    if ids != [] {
      var rest := ids[..|ids| - 1];
      DistinctCount(rest);
      assert (set i | 0 <= i < |ids| :: ids[i]) == (set i | 0 <= i < |rest| :: rest[i]) + {ids[|ids| - 1]};
    }
  }

  ghost function AbandonedIds(outbox: seq<Event>, now: Time): set<nat> {
    set i: nat | i < |outbox| && IsAbandoned(outbox[i], now)
  }

  lemma SweepRows(cfg: Config, s: State, p: Pid) returns (script: seq<Move>, s': State)
    requires Good(cfg, s) && p !in s.agents
    ensures Leads(cfg, s, script, s') && Good(cfg, s') && s'.clock == s.clock && s'.agents == s.agents[p := Swept]
    ensures s'.db == s.db.(outbox := s'.db.outbox) && |s'.db.outbox| == |s.db.outbox|
    ensures OnlyResets(s.db.outbox, s'.db.outbox, s.clock)
    ensures |AbandonedIds(s'.db.outbox, s.clock)| == |AbandonedIds(s.db.outbox, s.clock)| - Min(1000,
          |AbandonedIds(s.db.outbox, s.clock)|)
  {
    hide Good, Leads, AbandonedRows, AbandonedIds, OnlyResets, IsAbandoned, ResetRows;
    var rows := SubsetExists(AbandonedIds(s.db.outbox, s.clock), 1000);
    AllAbandoned(s.db.outbox, s.clock, rows);
    ResetCount(s.db.outbox, s.clock, rows);
    script, s' := One(cfg, s, SweepOutbox(p, rows));
    assert s' == DoSweepOutbox(s, p, rows);
  }

  /** `RecoverOutbox` and `Expired` of one sweep: the loop holds the list of expired leases. */
  lemma StartSweep(cfg: Config, s: State, p: Pid, ns: seq<Task>) returns (script: seq<Move>, s': State)
    requires Good(cfg, s) && p !in s.agents && ExpiredList(s.db, s.clock, ns)
    ensures Leads(cfg, s, script, s') && Good(cfg, s') && s'.clock == s.clock
          && s'.agents == s.agents[p := Sweeping(ns)]
    ensures s'.db == s.db.(outbox := s'.db.outbox) && |s'.db.outbox| == |s.db.outbox|
    ensures OnlyResets(s.db.outbox, s'.db.outbox, s.clock)
    ensures |AbandonedIds(s'.db.outbox, s.clock)| == |AbandonedIds(s.db.outbox, s.clock)| - Min(1000,
          |AbandonedIds(s.db.outbox, s.clock)|)
  {
    hide Good, Leads, ExpiredList, AbandonedIds, OnlyResets;
    var x1, s1 := SweepRows(cfg, s, p);
    SameExpired(s.db, s1.db, s.clock, ns);
    var x2, s2 := One(cfg, s1, ReadExpired(p, ns));
    Then(cfg, s, x1, s1, x2, s2);
    script, s' := x1 + x2, s2;
    assert s'.agents == s.agents[p := Sweeping(ns)];
  }

  lemma ResetCount(outbox: seq<Event>, now: Time, rows: set<nat>)
    requires rows <= AbandonedIds(outbox, now)
    ensures |AbandonedIds(ResetRows(outbox, rows), now)| == |AbandonedIds(outbox, now)| - |rows|
    ensures OnlyResets(outbox, ResetRows(outbox, rows), now)
  {
    assert AbandonedIds(ResetRows(outbox, rows), now) == AbandonedIds(outbox, now) - rows;
  }

  lemma AllAbandoned(outbox: seq<Event>, now: Time, rows: set<nat>)
    requires rows <= AbandonedIds(outbox, now) && |rows| == Min(1000, |AbandonedIds(outbox, now)|)
    ensures AbandonedRows(outbox, now, rows)
  {
    if |rows| < 1000 { SubsetCount(rows, AbandonedIds(outbox, now)); }
    forall i | 0 <= i < |outbox| && IsAbandoned(outbox[i], now) && |rows| < 1000 ensures i in rows {
      assert i in AbandonedIds(outbox, now);
    }
  }

  lemma SameExpired(a: Db, b: Db, now: Time, ns: seq<Task>)
    requires ExpiredList(a, now, ns) && b.tasks == a.tasks
    ensures ExpiredList(b, now, ns)
  {
  }

  // ---- what every sweep does --------------------------------------------------------------------------

  /** A step of the lease sweep of agent p, or the clock moving on meanwhile. */
  predicate IsSweepOf(p: Pid, a: Step) { a == PlanRecovery(p) || a == RecoverTx(p) || a.Tick? }

  /** The rows a sweeping agent has still to recover. */
  function Left(a: Agent): seq<Task> {
    if a.Sweeping? then a.rest else if a.Recovering? then [a.n] + a.rest else []
  }

  /** Agent p is in the middle of a sweep whose rows had expired at time t. */
  ghost predicate MidSweep(s: State, p: Pid, t: Time) {
    && p in s.agents && (s.agents[p].Sweeping? || s.agents[p].Recovering?) && t <= s.clock
    && RowsExpired(s.db, Left(s.agents[p]), t)
  }

  lemma FirstRecovered(db: Db, db': Db, ns: seq<Task>, r: Task, t: Time)
    requires ns != [] && RowsExpired(db, ns, t) && db'.tasks == db.tasks[ns[0].id := r] && r.lease.None?
    ensures RowsExpired(db', ns[1..], t) && ExpiredIds(db', t) == ExpiredIds(db, t) - {ns[0].id}
  {
    assert forall i :: 0 <= i < |ns[1..]| ==> ns[1..][i] == ns[i + 1];
    assert ns[0].id in db.tasks;
  }

  lemma PlanMoves(cfg: Config, s: State, p: Pid)
    requires Enabled(cfg, s, s.clock, PlanRecovery(p))
    ensures At(s, p) && s.agents[p].Sweeping? && s.agents[p].rest != []
    ensures var rest := s.agents[p].rest;
            Apply(cfg, s, s.clock, PlanRecovery(p)) ==
              if Known(cfg, rest[0]) then Put(s, p, Recovering(rest[0],
                  PlanFor(cfg, s.clock, rest[0], LEASE_EXPIRED), s.clock, rest[1..]))
              else Drop(s, p)
  {
  }

  lemma RecoverMoves(cfg: Config, s: State, p: Pid)
    requires Enabled(cfg, s, s.clock, RecoverTx(p))
    ensures At(s, p) && s.agents[p].Recovering? && Apply(cfg, s, s.clock, RecoverTx(p)) == DoRecover(s, s.clock, p,
          s.agents[p])
  {
  }

  lemma TickMoves(cfg: Config, s: State, a: Step)
    requires Enabled(cfg, s, s.clock, a) && a.Tick?
    ensures s.clock <= a.to && Apply(cfg, s, s.clock, a) == s.(clock := a.to)
  {
  }

  lemma PlanKeepsSweep(cfg: Config, s: State, p: Pid, t: Time)
    requires Good(cfg, s) && MidSweep(s, p, t) && Enabled(cfg, s, s.clock, PlanRecovery(p))
    ensures var s' := Apply(cfg, s, s.clock, PlanRecovery(p));
          MidSweep(s', p, t) && Left(s'.agents[p]) == Left(s.agents[p]) && s'.db == s.db
  {
    hide Good, PlanFor, Enabled, Apply, IsExpired;
    PlanMoves(cfg, s, p);
    var rest := s.agents[p].rest;
    assert rest[0].id in s.db.tasks && s.db.tasks[rest[0].id] == rest[0];
    RowFacts(cfg, s, rest[0].id);
    assert rest == [rest[0]] + rest[1..];
  }

  lemma RecoverKeepsSweep(cfg: Config, s: State, p: Pid, t: Time)
    requires Good(cfg, s) && MidSweep(s, p, t) && Enabled(cfg, s, s.clock, RecoverTx(p))
    ensures var s' := Apply(cfg, s, s.clock, RecoverTx(p)); var ns := Left(s.agents[p]);
            && MidSweep(s', p, t) && ns != [] && Left(s'.agents[p]) == ns[1..]
            && ExpiredIds(s'.db, t) == ExpiredIds(s.db, t) - {ns[0].id}
  {
    hide Good, Enabled, Apply, CloseAttempt, ExpiredIds;
    RecoverMoves(cfg, s, p);
    var x := s.agents[p];
    var ns := Left(x);
    assert ns[0] == x.n && ns[1..] == x.rest && s.db.tasks[x.n.id] == x.n && IsExpired(x.n, t);
    RowFacts(cfg, s, x.n.id);
    assert Recoverable(s.db, s.clock, x.n);
    var s' := DoRecover(s, s.clock, p, x);
    FirstRecovered(s.db, s'.db, ns, s'.db.tasks[x.n.id], t);
  }

  lemma LessOne(all: set<Id>, ns: seq<Task>)
    requires ns != [] && forall i, j :: 0 <= i < j < |ns| ==> ns[i].id != ns[j].id
    ensures (all - {ns[0].id}) - IdsOf(ns[1..]) == all - IdsOf(ns)
  {
    assert ns == [ns[0]] + ns[1..];
    IdsOfCons(ns[0], ns[1..]);
  }

  lemma SweepStepLowers(cfg: Config, s: State, p: Pid, t: Time, a: Step)
    requires Good(cfg, s) && MidSweep(s, p, t) && IsSweepOf(p, a) && Enabled(cfg, s, s.clock, a)
    ensures var s' := Apply(cfg, s, s.clock, a);
            Good(cfg, s') && MidSweep(s', p, t)
            && ExpiredIds(s'.db, t) - IdsOf(Left(s'.agents[p])) == ExpiredIds(s.db, t) - IdsOf(Left(s.agents[p]))
  {
    hide Fence, Timely, Enabled, Apply, ExpiredIds, IdsOf, Left, Evolves, NextKept, IsExpired;
    StepFenced(cfg, s, s.clock, a);
    StepTimely(cfg, s, a);
    if a.PlanRecovery? {
      PlanKeepsSweep(cfg, s, p, t);
    } else if a.RecoverTx? {
      RecoverKeepsSweep(cfg, s, p, t);
      LessOne(ExpiredIds(s.db, t), Left(s.agents[p]));
    } else {
      TickMoves(cfg, s, a);
    }
  }

  lemma {:induction false} SweepRunLowers(cfg: Config, s: State, p: Pid, t: Time, script: seq<Move>)
    requires Good(cfg, s) && MidSweep(s, p, t) && Timed(cfg, s, script) && Legal(cfg, s, script)
    requires forall i :: 0 <= i < |script| ==> IsSweepOf(p, script[i].step)
    ensures var z := Run(cfg, s, script);
            && MidSweep(z, p, t)
            && ExpiredIds(z.db, t) - IdsOf(Left(z.agents[p])) == ExpiredIds(s.db, t) - IdsOf(Left(s.agents[p]))
    decreases |script|
  {
    hide Good, MidSweep, Enabled, Apply, ExpiredIds, IdsOf, Left;
    if script != [] {
      SweepStepLowers(cfg, s, p, t, script[0].step);
      SweepRunLowers(cfg, Apply(cfg, s, s.clock, script[0].step), p, t, script[1..]);
    }
  }

  lemma DistinctRows(ns: seq<Task>)
    requires forall i, j :: 0 <= i < j < |ns| ==> ns[i].id != ns[j].id
    ensures |IdsOf(ns)| == |ns|
  {
    var ids := seq(|ns|, i requires 0 <= i < |ns| => ns[i].id);
    DistinctCount(ids);
    assert forall i :: 0 <= i < |ns| ==> ids[i] == ns[i].id;
    assert IdsOf(ns) == set i | 0 <= i < |ids| :: ids[i];
  }

  lemma ListIsExpired(s: State, ns: seq<Task>)
    requires ExpiredList(s.db, s.clock, ns)
    ensures IdsOf(ns) <= ExpiredIds(s.db, s.clock) && |IdsOf(ns)| == |ns| == Min(100, |ExpiredIds(s.db, s.clock)|)
    ensures RowsExpired(s.db, ns, s.clock)
  {
    DistinctRows(ns);
    SubsetCount(IdsOf(ns), ExpiredIds(s.db, s.clock));
    if |ns| < 100 {
      forall id | id in ExpiredIds(s.db, s.clock) ensures id in IdsOf(ns) {
        assert exists i :: 0 <= i < |ns| && ns[i].id == id;
      }
      assert IdsOf(ns) == ExpiredIds(s.db, s.clock);
    }
  }

  /** Every sweep, whatever its list is, however its steps and the clock alternate and whatever else is in
      the tables: when it is through, the number of leases that had expired at its query is lower by exactly
      min(100, count). */
  lemma EverySweepLowers(cfg: Config, s: State, p: Pid, ns: seq<Task>, script: seq<Move>)
    requires TimedReachable(cfg, s) && Enabled(cfg, s, s.clock, ReadExpired(p, ns))
    requires var s1 := Apply(cfg, s, s.clock, ReadExpired(p, ns)); Timed(cfg, s1, script) && Legal(cfg, s1, script)
    requires forall i :: 0 <= i < |script| ==> IsSweepOf(p, script[i].step)
    requires var z := Run(cfg, Apply(cfg, s, s.clock, ReadExpired(p, ns)), script);
          p in z.agents && z.agents[p] == Sweeping([])
    ensures var z := Run(cfg, Apply(cfg, s, s.clock, ReadExpired(p, ns)), script);
          var before := |ExpiredIds(s.db, s.clock)|;
            |ExpiredIds(z.db, s.clock)| == before - Min(100, before)
  {
    TimedReachableInvariant(cfg, s);
    ReadMoves(cfg, s, p, ns);
    hide Fence, Timely, Enabled, Apply, Run, Legal, Timed, TimedReachable, IsExpired, ExpiredList, Evolves, NextKept;
    var s1 := Apply(cfg, s, s.clock, ReadExpired(p, ns));
    StepFenced(cfg, s, s.clock, ReadExpired(p, ns));
    StepTimely(cfg, s, ReadExpired(p, ns));
    ListIsExpired(s, ns);
    SweepRunLowers(cfg, s1, p, s.clock, script);
    NoIds();
    hide ExpiredIds, IdsOf;
    var z := Run(cfg, s1, script);
    assert ExpiredIds(z.db, s.clock) - IdsOf([]) == ExpiredIds(z.db, s.clock);
    SubsetCount(IdsOf(ns), ExpiredIds(s.db, s.clock));
  }

  lemma ReadMoves(cfg: Config, s: State, p: Pid, ns: seq<Task>)
    requires Enabled(cfg, s, s.clock, ReadExpired(p, ns))
    ensures ExpiredList(s.db, s.clock, ns) && Apply(cfg, s, s.clock, ReadExpired(p, ns)) == Put(s, p, Sweeping(ns))
  {
  }

  lemma SweptCount(a: Db, b: Db, now: Time, swept: set<Id>)
    requires swept <= ExpiredIds(a, now) && b.tasks.Keys == a.tasks.Keys
    requires forall id :: id in swept ==> id in b.tasks && b.tasks[id].status != InFlight
    requires forall id :: id in a.tasks && id !in swept ==> b.tasks[id] == a.tasks[id]
    ensures |ExpiredIds(b, now)| == |ExpiredIds(a, now)| - |swept|
  {
    assert ExpiredIds(b, now) == ExpiredIds(a, now) - swept;
  }

  /** One sweep over the leases: it lowers the number of expired leases by exactly min(100, count). */
  lemma SweepLeases(cfg: Config, s: State) returns (script: seq<Move>, s': State, p: Pid)
    requires Good(cfg, s) && Quiet(s)
    ensures Leads(cfg, s, script, s') && Good(cfg, s') && Quiet(s') && s'.clock == s.clock
    ensures p !in s.agents && s'.agents == s.agents[p := Sweeping([])]
    ensures s'.db.tasks.Keys == s.db.tasks.Keys && OnlyResets(s.db.outbox, s'.db.outbox, s.clock)
    ensures forall id :: id in s.db.tasks ==>
              && s'.db.tasks[id].attempts == s.db.tasks[id].attempts
              && (s'.db.tasks[id] == s.db.tasks[id]
                  || (IsExpired(s.db.tasks[id], s.clock)
                      && (s'.db.tasks[id].status == Pending || s'.db.tasks[id].status == Failed)))
    ensures |ExpiredIds(s'.db, s.clock)| == |ExpiredIds(s.db, s.clock)| - Min(100, |ExpiredIds(s.db, s.clock)|)
  {
    hide Good, Leads, ExpiredList, IdsOf, IsExpired;
    p := FreshPid(s);
    var ns := ExpiredListExists(cfg, s);
    var x1, s1 := StartSweep(cfg, s, p, ns);
    var x2, s2 := RecoverList(cfg, s1, p, ns);
    Then(cfg, s, x1, s1, x2, s2);
    script, s' := x1 + x2, s2;
    assert s'.agents == s.agents[p := Sweeping([])];
    SweptCount(s.db, s'.db, s.clock, IdsOf(ns));
  }

  /** Repeated sweeps drain the expired leases. */
  lemma {:induction false} DrainLeases(cfg: Config, s: State) returns (script: seq<Move>, s': State)
    requires Good(cfg, s) && Quiet(s)
    ensures Leads(cfg, s, script, s') && Good(cfg, s') && Quiet(s') && s'.clock == s.clock
    ensures s'.db.tasks.Keys == s.db.tasks.Keys && ExpiredIds(s'.db, s.clock) == {}
          && OnlyResets(s.db.outbox, s'.db.outbox, s.clock)
    ensures forall id :: id in s.db.tasks ==>
              && s'.db.tasks[id].attempts == s.db.tasks[id].attempts
              && (s'.db.tasks[id] == s.db.tasks[id]
                  || (IsExpired(s.db.tasks[id], s.clock)
                      && (s'.db.tasks[id].status == Pending || s'.db.tasks[id].status == Failed)))
    decreases |ExpiredIds(s.db, s.clock)|
  {
    hide Good, Leads;
    if ExpiredIds(s.db, s.clock) == {} {
      script, s' := [], s;
      Stay(cfg, s);
    } else {
      var x1, s1, p := SweepLeases(cfg, s);
      var x2, s2 := DrainLeases(cfg, s1);
      Then(cfg, s, x1, s1, x2, s2);
      script, s' := x1 + x2, s2;
    }
  }

  // ---- outbox recovery and reconciliation ---------------------------------------------------------

  /** Loops that find no expired lease reset the abandoned rows, a thousand at a time, until none is left. */
  lemma {:induction false} DrainAbandoned(cfg: Config, s: State) returns (script: seq<Move>, s': State)
    requires Good(cfg, s) && Quiet(s) && ExpiredIds(s.db, s.clock) == {}
    ensures Leads(cfg, s, script, s') && Good(cfg, s') && Quiet(s') && s'.clock == s.clock
    ensures s'.db == s.db.(outbox := s'.db.outbox) && |s'.db.outbox| == |s.db.outbox|
    ensures AbandonedIds(s'.db.outbox, s.clock) == {}
    ensures OnlyResets(s.db.outbox, s'.db.outbox, s.clock)
    decreases |AbandonedIds(s.db.outbox, s.clock)|
  {
    hide Good, Leads, ExpiredList, AbandonedIds;
    if AbandonedIds(s.db.outbox, s.clock) == {} {
      script, s' := [], s;
      Stay(cfg, s);
    } else {
      var p := FreshPid(s);
      var ns := ExpiredListExists(cfg, s);
      var x1, s1 := StartSweep(cfg, s, p, ns);
      assert ExpiredIds(s1.db, s1.clock) == ExpiredIds(s.db, s.clock);
      var x2, s2 := DrainAbandoned(cfg, s1);
      Then(cfg, s, x1, s1, x2, s2);
      script, s' := x1 + x2, s2;
    }
  }

  /** There is a result of the query in `Reconcile`. */
  lemma StaleListExists(cfg: Config, s: State) returns (ids: seq<Id>)
    requires Good(cfg, s)
    ensures StaleList(s.db, s.clock, ids, {}) && |ids| == Min(100, |StaleIds(s.db, s.clock)|)
    ensures forall id :: id in ids ==> id in StaleIds(s.db, s.clock)
    ensures forall i :: 0 <= i < |ids| ==> ids[i] in s.db.tasks && ids[i] in s.hist
    ensures forall i, j :: 0 <= i < j < |ids| ==> ids[i] != ids[j]
  {
    hide Good, IsStale, StaleList;
    ids := FirstExists(StaleIds(s.db, s.clock), NextTimes(s.db, s.clock), 100);
    FirstIsStaleList(s.db, s.clock, ids);
    forall i | 0 <= i < |ids| ensures ids[i] in s.db.tasks && ids[i] in s.hist {
      assert ids[i] in StaleIds(s.db, s.clock);
      RowFacts(cfg, s, ids[i]);
    }
  }

  /** A loop with no expired lease: its `Reconcile` gives the first hundred stale tasks a new trigger. */
  lemma ReconcileOnce(cfg: Config, s: State) returns (script: seq<Move>, s': State, ids: seq<Id>)
    requires Good(cfg, s) && Quiet(s) && ExpiredIds(s.db, s.clock) == {} && AbandonedIds(s.db.outbox, s.clock) == {}
    ensures Leads(cfg, s, script, s') && Good(cfg, s') && Quiet(s') && s'.clock == s.clock
    ensures |ids| == Min(100, |StaleIds(s.db, s.clock)|) && forall id :: id in ids ==> id in StaleIds(s.db, s.clock)
    ensures Reconciled(s.db, s'.db, s.clock, ids)
  {
    hide Good, Leads, ExpiredList, AbandonedIds, IsStale, StaleList, StaleIds;
    var p := FreshPid(s);
    var ns := ExpiredListExists(cfg, s);
    var x1, s1 := StartSweep(cfg, s, p, ns);
    assert s1.db == s.db by { NothingReset(s, s1); }
    ids := StaleListExists(cfg, s1);
    var x2, s2 := One(cfg, s1, ReconcileTx(p, ids, {}));
    Then(cfg, s, x1, s1, x2, s2);
    script, s' := x1 + x2, s2;
    ReconcileAllIsReconcile(s1, s.clock, ids);
    ReconcileAllKeeps(s1, s.clock, ids);
    ReconcileRows(s1.db, s.clock, ids);
  }

  lemma NothingReset(s: State, s1: State)
    requires AbandonedIds(s.db.outbox, s.clock) == {} && |s1.db.outbox| == |s.db.outbox|
    requires s1.db == s.db.(outbox := s1.db.outbox)
    requires OnlyResets(s.db.outbox, s1.db.outbox, s.clock)
    ensures s1.db == s.db
  {
    forall i | 0 <= i < |s.db.outbox| ensures s1.db.outbox[i] == s.db.outbox[i] {
      assert i !in AbandonedIds(s.db.outbox, s.clock);
    }
    assert s1.db.outbox == s.db.outbox;
  }

  /** Reconciliations drain the stale tasks in order until the given one has a new trigger. */
  lemma {:induction false} DrainStaleTo(cfg: Config, s: State, id: Id) returns (script: seq<Move>, s': State)
    requires Good(cfg, s) && Quiet(s) && ExpiredIds(s.db, s.clock) == {} && AbandonedIds(s.db.outbox, s.clock) == {}
    requires id in StaleIds(s.db, s.clock)
    ensures Leads(cfg, s, script, s') && Good(cfg, s') && Quiet(s') && s'.clock == s.clock
    ensures id in s'.db.tasks && s'.db.tasks[id] == s.db.tasks[id].(generation := s.db.tasks[id].generation + 1)
    ensures NewEvent(id, s.db.tasks[id].generation + 1, Dispatch, s.clock, s.clock) in s'.db.outbox
    decreases |StaleIds(s.db, s.clock)|
  {
    hide Good, Leads, IsStale;
    forall o | o in s.db.tasks ensures s.db.tasks[o].id == o { RowFacts(cfg, s, o); }
    var ids;
    script, s', ids := ReconcileOnce(cfg, s);
    if id !in ids {
      StaleAfter(s.db, s'.db, s.clock, ids);
      assert ids[0] in StaleIds(s.db, s.clock) && ids[0] !in StaleIds(s'.db, s.clock)
          && StaleIds(s'.db, s.clock) <= StaleIds(s.db, s.clock);
      SubsetCount(StaleIds(s'.db, s.clock), StaleIds(s.db, s.clock));
      NothingNew(s, s', ids);
      var y, s2 := DrainStaleTo(cfg, s', id);
      Then(cfg, s, script, s', y, s2);
      script, s' := script + y, s2;
    }
  }

  lemma NothingNew(s: State, s': State, ids: seq<Id>)
    requires ExpiredIds(s.db, s.clock) == {} && AbandonedIds(s.db.outbox, s.clock) == {}
    requires Reconciled(s.db, s'.db, s.clock, ids)
    ensures ExpiredIds(s'.db, s.clock) == {} && AbandonedIds(s'.db.outbox, s.clock) == {}
  {
    forall i: nat | i < |s'.db.outbox| ensures !IsAbandoned(s'.db.outbox[i], s.clock) {
      if i < |s.db.outbox| { assert i !in AbandonedIds(s.db.outbox, s.clock) && s'.db.outbox[i] == s.db.outbox[i]; }
    }
    forall id | id in s'.db.tasks ensures !IsExpired(s'.db.tasks[id], s.clock) {
      assert id in ids || id !in ids;
      assert id !in ExpiredIds(s.db, s.clock);
    }
  }

  // ---- no task is stuck ---------------------------------------------------------------------------

  /** A pending task whose current row waits in the outbox is claimed. */
  lemma WaitingClaims(cfg: Config, s: State, id: Id, row: nat) returns (script: seq<Move>, s': State)
    requires Good(cfg, s) && Quiet(s) && id in s.db.tasks && s.db.tasks[id].status == Pending
    requires row < |s.db.outbox| && s.db.outbox[row].status == Waiting
          && Triggers(s.db.outbox[row], id, s.db.tasks[id].generation)
    ensures Leads(cfg, s, script, s') && id in s'.db.tasks && s'.db.tasks[id].attempts == s.db.tasks[id].attempts + 1
  {
    hide Good, Leads;
    var t := s.db.tasks[id];
    var x1, s1 := TickTo(cfg, s, Max(s.clock, s.db.outbox[row].available));
    var x2, s2 := DrainTo(cfg, s1, row);
    Then(cfg, s, x1, s1, x2, s2);
    var m :| m in s2.broker && m.id == id && m.generation == t.generation;
    var x3, s3 := TickTo(cfg, s2, Max(s2.clock, Max(m.readyAt, t.next)));
    Then(cfg, s, x1 + x2, s2, x3, s3);
    var x4, s4 := WorkerClaims(cfg, s3, m);
    Then(cfg, s, x1 + x2 + x3, s3, x4, s4);
    script, s' := x1 + x2 + x3 + x4, s4;
  }

  lemma RowExists(cfg: Config, s: State, id: Id) returns (row: nat)
    requires Good(cfg, s) && id in s.db.tasks && s.db.tasks[id].status == Pending
    ensures row < |s.db.outbox| && Triggers(s.db.outbox[row], id, s.db.tasks[id].generation)
    ensures forall i :: 0 <= i < |s.db.outbox| && Triggers(s.db.outbox[i], id, s.db.tasks[id].generation) ==> i == row
    ensures s.db.outbox[row].status == Publishing <==> s.db.outbox[row].lease.Some?
    ensures s.db.outbox[row].status == Published <==> s.db.outbox[row].publishedAt.Some?
  {
    hide Timely, AgentsOk, AttemptLedger, TaskOk;
    assert TaskRows(s.db.tasks[id], s.db.outbox, s.hist[id]);
    row :| 0 <= row < |s.db.outbox| && Triggers(s.db.outbox[row], id, s.db.tasks[id].generation);
    EventOfRow(s.db.tasks, s.db.outbox, s.hist, row);
  }

  /** When the trigger of the current generation is nowhere to be found any more, time and sweeps bring it
      back into the outbox. */
  lemma TriggerReturns(cfg: Config, s: State, id: Id, row: nat) returns (script: seq<Move>, s': State, row': nat)
    requires Good(cfg, s) && Quiet(s) && id in s.db.tasks && s.db.tasks[id].status == Pending
    requires row < |s.db.outbox| && Triggers(s.db.outbox[row], id, s.db.tasks[id].generation)
          && s.db.outbox[row].status != Waiting
    requires forall i :: 0 <= i < |s.db.outbox| && Triggers(s.db.outbox[i], id, s.db.tasks[id].generation) ==> i == row
    requires s.db.outbox[row].status == Publishing <==> s.db.outbox[row].lease.Some?
    requires s.db.outbox[row].status == Published <==> s.db.outbox[row].publishedAt.Some?
    ensures Leads(cfg, s, script, s') && Good(cfg, s') && Quiet(s')
    ensures id in s'.db.tasks && s'.db.tasks[id].status == Pending
          && s'.db.tasks[id].attempts == s.db.tasks[id].attempts
    ensures row' < |s'.db.outbox| && s'.db.outbox[row'].status == Waiting
          && Triggers(s'.db.outbox[row'], id, s'.db.tasks[id].generation)
  {
    hide Good, Leads, IsStale, StaleIds;
    var e := s.db.outbox[row];
    var since := if e.status == Publishing then e.lease.value.until else e.publishedAt.value;
    var x1, s1 := TickTo(cfg, s, Max(s.clock, Max(since, s.db.tasks[id].next)) + STALE_AFTER + 1);
    var x2, s2 := DrainLeases(cfg, s1);
    Then(cfg, s, x1, s1, x2, s2);
    var x3, s3 := DrainAbandoned(cfg, s2);
    Then(cfg, s, x1 + x2, s2, x3, s3);
    assert s3.db.tasks[id] == s.db.tasks[id];
    script, s', row' := x1 + x2 + x3, s3, row;
    if e.status == Publishing {
      assert row !in AbandonedIds(s3.db.outbox, s3.clock);
    } else {
      assert s3.db.outbox[row] == e;
      PublishedIsStale(cfg, s3, id, row);
      var x4, s4 := DrainStaleTo(cfg, s3, id);
      Then(cfg, s, x1 + x2 + x3, s3, x4, s4);
      row' :| 0 <= row' < |s4.db.outbox| && s4.db.outbox[row'] == NewEvent(id, s.db.tasks[id].generation + 1,
          Dispatch, s3.clock, s3.clock);
      script, s' := x1 + x2 + x3 + x4, s4;
    }
  }

  lemma PublishedIsStale(cfg: Config, s: State, id: Id, row: nat)
    requires Good(cfg, s) && id in s.db.tasks && s.db.tasks[id].status == Pending
          && s.db.tasks[id].next < s.clock - STALE_AFTER
    requires row < |s.db.outbox| && Triggers(s.db.outbox[row], id, s.db.tasks[id].generation)
    requires s.db.outbox[row].status == Published && s.db.outbox[row].publishedAt.Some?
    requires s.db.outbox[row].publishedAt.value <= s.clock - STALE_AFTER
    ensures id in StaleIds(s.db, s.clock)
  {
    hide Good;
    RowFacts(cfg, s, id);
    var r := RowExists(cfg, s, id);
    assert r == row;
    forall i | 0 <= i < |s.db.outbox| ensures !LiveTrigger(s.db.outbox[i], s.db.tasks[id], s.clock) {
      if Triggers(s.db.outbox[i], id, s.db.tasks[id].generation) { assert i == row; }
    }
  }

  lemma PendingClaims(cfg: Config, s: State, id: Id) returns (script: seq<Move>, s': State)
    requires Good(cfg, s) && Quiet(s) && id in s.db.tasks && s.db.tasks[id].status == Pending
    ensures Leads(cfg, s, script, s') && id in s'.db.tasks && s'.db.tasks[id].attempts == s.db.tasks[id].attempts + 1
  {
    hide Good, Leads;
    var row := RowExists(cfg, s, id);
    if s.db.outbox[row].status == Waiting {
      script, s' := WaitingClaims(cfg, s, id, row);
    } else {
      var x, s1, r := TriggerReturns(cfg, s, id, row);
      var y, s2 := WaitingClaims(cfg, s1, id, r);
      Then(cfg, s, x, s1, y, s2);
      script, s' := x + y, s2;
    }
  }

  /** The task has been claimed once more, or is final. */
  ghost predicate Progressed(s: State, s': State, id: Id) {
    && id in s.db.tasks && id in s'.db.tasks
    && (s'.db.tasks[id].attempts > s.db.tasks[id].attempts || s'.db.tasks[id].status == Delivered
        || s'.db.tasks[id].status == Failed)
  }

  lemma Progress(cfg: Config, s: State, id: Id) returns (script: seq<Move>, s': State)
    requires Good(cfg, s) && id in s.db.tasks
    ensures Leads(cfg, s, script, s') && Progressed(s, s', id)
  {
    hide Good, Leads;
    var x0, s0 := Quiesce(cfg, s);
    RowFacts(cfg, s0, id);
    match s0.db.tasks[id].status
    case Delivered => script, s' := x0, s0;
    case Failed => script, s' := x0, s0;
    case Pending =>
      var y, s1 := PendingClaims(cfg, s0, id);
      Then(cfg, s, x0, s0, y, s1);
      script, s' := x0 + y, s1;
    case InFlight =>
      var x1, s1 := TickTo(cfg, s0, Max(s0.clock, s0.db.tasks[id].lease.value.until) + 1);
      Then(cfg, s, x0, s0, x1, s1);
      var x2, s2 := DrainLeases(cfg, s1);
      Then(cfg, s, x0 + x1, s1, x2, s2);
      script, s' := x0 + x1 + x2, s2;
      assert id !in ExpiredIds(s2.db, s2.clock);
      if s2.db.tasks[id].status == Pending {
        var y, s3 := PendingClaims(cfg, s2, id);
        Then(cfg, s, x0 + x1 + x2, s2, y, s3);
        script, s' := x0 + x1 + x2 + y, s3;
      }
  }

  /** From every reachable state each task can reach its next claim or a final state by clock ticks,
      recovery sweeps, dispatcher steps and worker steps alone. */
  lemma NoTaskIsStuck(cfg: Config, s: State, id: Id) returns (script: seq<Move>, s': State)
    requires TimedReachable(cfg, s) && id in s.db.tasks
    ensures Leads(cfg, s, script, s') && Progressed(s, s', id)
  {
    hide Fence, Timely, Leads, TimedReachable;
    TimedReachableInvariant(cfg, s);
    script, s' := Progress(cfg, s, id);
  }

  /** The same after a disaster: the broker lost every message and every agent died. */
  lemma NoTaskIsStuckAfterDisaster(cfg: Config, s: State, id: Id) returns (script: seq<Move>, s': State)
    requires TimedReachable(cfg, s) && id in s.db.tasks
    ensures var z := s.(agents := map[], broker := {}); Leads(cfg, z, script, s') && Progressed(z, s', id)
  {
    hide AttemptLedger, OutboxLedger, EventTimely, TaskTimely, Leads, TimedReachable;
    TimedReachableInvariant(cfg, s);
    var z := s.(agents := map[], broker := {});
    assert Good(cfg, z);
    script, s' := Progress(cfg, z, id);
  }

  /** The whole way once: in an empty system a submission is accepted, published, consumed and claimed. */
  lemma FirstSubmissionIsClaimed(cfg: Config, clock: Time, a: Step) returns (script: seq<Move>, s': State)
    requires a.Submit? && (a.revision, a.target) in cfg && a.at <= clock
    ensures var s := State(Db(map[], map[], []), map[], map[], map[], {}, {}, clock);
            && Timed(cfg, s, script) && Legal(cfg, s, script) && Run(cfg, s, script) == s'
            && a.id in s'.db.tasks && s'.db.tasks[a.id].attempts == 1
  {
    var s := State(Db(map[], map[], []), map[], map[], map[], {}, {}, clock);
    InitialFenced(cfg, s);
    assert Good(cfg, s) && Enabled(cfg, s, clock, a);
    var s1 := Apply(cfg, s, clock, a);
    assert Quiet(s1) && s1.db.tasks[a.id].attempts == 0 && s1.db.tasks[a.id].status == Pending;
    hide Fence, Timely, Enabled, Apply, Evolves, Quiet;
    StepFenced(cfg, s, clock, a);
    StepTimely(cfg, s, a);
    var rest, z := PendingClaims(cfg, s1, a.id);
    s' := z;
    script := [On(clock, a)] + rest;
    assert script[1..] == rest;
  }
}
