/** The distributed concurrency cap over runs of the delivery protocol: the gate's answers are those of the
    egress script, and every agent that passed it holds a token in Redis until a release, a minute's expiry
    or neither, since releases may be lost. */
module ConcurrencyCap {
  import opened Domain
  import opened Transactions
  import opened Protocol
  import opened Fencing
  import opened Frames
  import opened Timing
  import opened QuotaScripts
  import opened Selection

  const GLOBAL := "notify:{quota}:concurrency:global"
  const TARGET := "notify:{quota}:concurrency:target:"
  const RATE_TARGET := "notify:{quota}:egress:target:"
  const RATE_CLIENT := "notify:{quota}:egress:client_target:"

  /** Fixed limits, the global one and that of each target. */
  datatype Caps = Caps(global: int, target: string -> int)

  ghost predicate Positive(c: Caps) { c.global > 0 && forall t :: c.target(t) > 0 }

  /** KEYS and ARGV of `egressScript`. */
  function Rates(client: string, target: string, rate: int, clientRate: int): seq<Limit> {
    [Limit(RATE_TARGET + target, rate), Limit(RATE_CLIENT + client + ":" + target, clientRate)]
  }

  function Slots(caps: Caps, target: string): seq<Limit> {
    [Limit(GLOBAL, caps.global), Limit(TARGET + target, caps.target(target))]
  }

  /** The protocol, the calls Redis has served, the token of each agent that passed the gate, and all tokens
      ever used. */
  datatype World = World(p: State, calls: seq<Call>, tokens: map<Pid, Token>, used: set<Token>)

  /** `Ask` runs the egress script; `Refuse` is a gate that is skipped, or refused by the local limiter;
      `GiveBack` is a release that reaches Redis. A crash and a lost release are no step of Redis at all. */
  datatype Act =
    | Other(step: Step)
    | Refuse(q: Pid)
    | Ask(q: Pid, token: Token, rate: int, clientRate: int)
    | GiveBack(token: Token, target: string)

  /** Server time in microseconds. */
  function Micros(s: State): nat
    requires 0 <= s.clock
  {
    s.clock / 1000
  }

  /** Agents between the gate and the end of their HTTP call. */
  predicate PastGate(a: Agent) { (a.Admitted? || a.Claimed? || a.Delivering?) && a.gated }

  ghost predicate Able(cfg: Config, w: World, a: Act) {
    match a
    case Other(step) => !step.Gate? && Enabled(cfg, w.p, w.p.clock, step)
    case Refuse(q) => Enabled(cfg, w.p, w.p.clock, Gate(q, false))
    case Ask(q, token, _, _) =>
      && Enabled(cfg, w.p, w.p.clock, Gate(q, true)) && token !in w.used
      && w.p.agents[q].policyOk && !w.p.agents[q].expired
    case GiveBack(token, _) =>
      token in w.used && forall q :: q in w.p.agents && q in w.tokens && PastGate(w.p.agents[q]) ==>
          w.tokens[q] != token
  }

  ghost function AskCall(caps: Caps, w: World, a: Act): Call
    requires a.Ask? && a.q in w.p.agents && w.p.agents[a.q].Checked? && 0 <= w.p.clock
  {
    var n := w.p.agents[a.q].n;
    Acquire(Micros(w.p), Rates(n.client, n.target, a.rate, a.clientRate), Slots(caps, n.target), a.token)
  }

  ghost function Perform(cfg: Config, caps: Caps, w: World, a: Act): World
    requires Able(cfg, w, a) && 0 <= w.p.clock
  {
    match a
    case Other(step) => w.(p := Apply(cfg, w.p, w.p.clock, step))
    case Refuse(q) => w.(p := Apply(cfg, w.p, w.p.clock, Gate(q, false)))
    case Ask(q, token, _, _) =>
      var calls := w.calls + [AskCall(caps, w, a)];
      var granted := LastAdmitted(calls);
      World(Apply(cfg, w.p, w.p.clock, Gate(q, granted)), calls,
            if granted then w.tokens[q := token] else w.tokens, w.used + {token})
    case GiveBack(token, target) => w.(calls := w.calls + [Free(Micros(w.p), [GLOBAL, TARGET + target], token)])
  }

  ghost predicate Possible(cfg: Config, caps: Caps, w: World, acts: seq<Act>)
    decreases |acts|
  {
    0 <= w.p.clock && (acts == [] || (Able(cfg, w, acts[0])
        && Possible(cfg, caps, Perform(cfg, caps, w, acts[0]), acts[1..])))
  }

  ghost function Play(cfg: Config, caps: Caps, w: World, acts: seq<Act>): World
    requires Possible(cfg, caps, w, acts)
    decreases |acts|
  {
    if acts == [] then w else Play(cfg, caps, Perform(cfg, caps, w, acts[0]), acts[1..])
  }

  // ---- the invariant ----------------------------------------------------------------------------------

  /** A call takes its slots from the caps, and its token is known. */
  ghost predicate CallOk(caps: Caps, used: set<Token>, c: Call) {
    c.token in used && (c.Acquire? ==> exists t :: c.slots == Slots(caps, t))
  }

  ghost predicate CallsOk(caps: Caps, w: World) {
    && 0 <= w.p.clock && Ordered(w.calls) && NoLaterThan(w.calls, Micros(w.p))
    && forall i :: 0 <= i < |w.calls| ==> CallOk(caps, w.used, w.calls[i])
  }

  /** Token x is in both slots of the target from now on until a minute after `start`. */
  ghost predicate Keeps(calls: seq<Call>, now: nat, start: Time, target: string, x: Token) {
    forall t: nat :: now <= t && Millis(t) < start / 1_000_000 + TOKEN_TTL ==>
      x in Held(calls, GLOBAL, t) && x in Held(calls, TARGET + target, t)
  }

  ghost predicate HolderOk(w: World, q: Pid)
    requires 0 <= w.p.clock
  {
    q in w.p.agents && PastGate(w.p.agents[q]) ==>
      q in w.tokens && w.tokens[q] in w.used && Keeps(w.calls, Micros(w.p), w.p.agents[q].start,
          w.p.agents[q].n.target, w.tokens[q])
  }

  ghost predicate HoldersOk(w: World)
    requires 0 <= w.p.clock
  {
    && (forall q :: q in w.p.agents ==> HolderOk(w, q))
    && (forall q, r :: q in w.p.agents && r in w.p.agents && q != r && PastGate(w.p.agents[q])
                       && PastGate(w.p.agents[r]) ==>
          q in w.tokens && r in w.tokens && w.tokens[q] != w.tokens[r])
  }

  ghost predicate Sound(cfg: Config, caps: Caps, w: World) {
    CallsOk(caps, w) && HoldersOk(w) && Fence(cfg, w.p) && Timely(cfg, w.p)
  }

  // ---- steps of the protocol --------------------------------------------------------------------------

  /** Agent q is past the gate in s' only if it was in s, with the same context and target. */
  ghost predicate GateKept(s: State, s': State, q: Pid) {
    q in s'.agents && PastGate(s'.agents[q]) ==>
      && q in s.agents && PastGate(s.agents[q])
      && s'.agents[q].start == s.agents[q].start && s'.agents[q].n.target == s.agents[q].n.target
  }

  lemma ClaimKeepsGate(cfg: Config, s: State, now: Time, p: Pid, token: Token)
    requires Fence(cfg, s) && p in s.agents && s.agents[p].Admitted?
    ensures GateKept(s, DoClaim(s, now, p, s.agents[p], token), p)
  {
    hide DbFence;
    assert AgentOk(cfg, s.db, s.issued, s.receipts, p, s.agents[p]);
  }

  lemma WorkerKeepsGate(cfg: Config, s: State, now: Time, a: Step)
    requires Enabled(cfg, s, now, a) && OfWorker(a) && !a.Gate?
    ensures GateKept(s, Apply(cfg, s, now, a), a.p)
  {
    hide PlanFor;
  }

  lemma OthersKeepGate(cfg: Config, s: State, now: Time, a: Step)
    requires Enabled(cfg, s, now, a) && !OfWorker(a) && !a.ClaimTx? && !a.ReconcileTx? && Actor(a) != {}
    ensures GateKept(s, Apply(cfg, s, now, a), a.p)
  {
    hide PlanFor, FirstReady, AbandonedRows, ExpiredList, Finish, RecoverLease;
    if a.Take? { ReadyRow(s.db.outbox, now, a.row, a.lockedRows); }
  }

  lemma ClaimApplies(cfg: Config, s: State, now: Time, a: Step)
    requires Enabled(cfg, s, now, a) && a.ClaimTx?
    ensures At(s, a.p) && s.agents[a.p].Admitted? && Apply(cfg, s, now, a) == DoClaim(s, now, a.p, s.agents[a.p],
          a.token)
  {
  }

  /** Only the gate lets an agent past the gate; behind it context and target stay. */
  lemma OnlyGateAdmits(cfg: Config, s: State, a: Step, q: Pid)
    requires Fence(cfg, s) && Enabled(cfg, s, s.clock, a) && !a.Gate?
    ensures GateKept(s, Apply(cfg, s, s.clock, a), q)
  {
    hide Fence, Enabled, Apply, GateKept, OnTasks;
    StepFramed(cfg, s, s.clock, a);
    if q !in Actor(a) {
      SameAgentKeepsGate(s, Apply(cfg, s, s.clock, a), q);
    } else if a.ClaimTx? {
      ClaimApplies(cfg, s, s.clock, a);
      ClaimKeepsGate(cfg, s, s.clock, a.p, a.token);
    } else if a.ReconcileTx? {
      ReconcileReady(cfg, s, s.clock, a);
      GoneKeepsGate(s, Apply(cfg, s, s.clock, a), q);
    } else if OfWorker(a) {
      WorkerKeepsGate(cfg, s, s.clock, a);
    } else {
      OthersKeepGate(cfg, s, s.clock, a);
    }
  }

  lemma SameAgentKeepsGate(s: State, s': State, q: Pid)
    requires (q in s'.agents <==> q in s.agents) && (q in s.agents ==> s'.agents[q] == s.agents[q])
    ensures GateKept(s, s', q)
  {
  }

  lemma GoneKeepsGate(s: State, s': State, q: Pid)
    requires q !in s'.agents
    ensures GateKept(s, s', q)
  {
  }

  lemma OtherSound(cfg: Config, caps: Caps, w: World, step: Step)
    requires Sound(cfg, caps, w) && !step.Gate? && Enabled(cfg, w.p, w.p.clock, step)
    ensures Sound(cfg, caps, w.(p := Apply(cfg, w.p, w.p.clock, step)))
  {
    hide Fence, Timely, Enabled, Apply, Held, CallOk, NextKept, Evolves, OnTasks, SameAgentsBut, SameTasks;
    var w' := w.(p := Apply(cfg, w.p, w.p.clock, step));
    StepFenced(cfg, w.p, w.p.clock, step);
    StepTimely(cfg, w.p, step);
    StepFramed(cfg, w.p, w.p.clock, step);
    assert Micros(w.p) <= Micros(w'.p);
    forall q | q in w'.p.agents && PastGate(w'.p.agents[q])
      ensures q in w.p.agents && PastGate(w.p.agents[q]) && w'.p.agents[q].start == w.p.agents[q].start
              && w'.p.agents[q].n.target == w.p.agents[q].n.target
    {
      OnlyGateAdmits(cfg, w.p, step, q);
    }
    forall q | q in w'.p.agents ensures HolderOk(w', q) {
      if PastGate(w'.p.agents[q]) { assert HolderOk(w, q); }
    }
  }

  // ---- calls of the scripts ---------------------------------------------------------------------------

  lemma RateKeysDistinct(client: string, target: string, rate: int, clientRate: int)
    ensures DistinctKeys(Rates(client, target, rate, clientRate))
  {
    var a, b := RATE_TARGET + target, RATE_CLIENT + client + ":" + target;
    assert a[22] == RATE_TARGET[22] && b[22] == RATE_CLIENT[22];
  }

  lemma SlotKeysDistinct(caps: Caps, target: string)
    ensures DistinctKeys(Slots(caps, target))
  {
    var a := TARGET + target;
    assert a[27] == TARGET[27] && GLOBAL[27] != TARGET[27];
  }

  /** A further call leaves the tokens of others held as they were. */
  lemma HeldByOthers(calls: seq<Call>, c: Call, k: string, t: nat, x: Token)
    requires c.token != x
    ensures x in Held(calls + [c], k, t) <==> x in Held(calls, k, t)
  {
    assert (calls + [c])[..|calls|] == calls;
  }

  lemma OthersKeep(calls: seq<Call>, c: Call, now: nat, start: Time, target: string, x: Token)
    requires c.token != x && Keeps(calls, now, start, target, x)
    ensures Keeps(calls + [c], now, start, target, x)
  {
    hide Held;
    forall t: nat | now <= t && Millis(t) < start / 1_000_000 + TOKEN_TTL
      ensures x in Held(calls + [c], GLOBAL, t) && x in Held(calls + [c], TARGET + target, t)
    {
      HeldByOthers(calls, c, GLOBAL, t, x);
      HeldByOthers(calls, c, TARGET + target, t, x);
    }
  }

  /** An admitted call holds its token from its own time on. */
  lemma GateHolds(caps: Caps, calls: seq<Call>, c: Call, target: string, t: nat)
    requires Positive(caps) && c.Acquire? && c.slots == Slots(caps, target)
    requires LastAdmitted(calls + [c]) && Millis(t) < Millis(c.at) + TOKEN_TTL
    ensures c.token in Held(calls + [c], GLOBAL, t) && c.token in Held(calls + [c], TARGET + target, t)
  {
    assert (calls + [c])[..|calls|] == calls;
    assert c.slots[0].key == GLOBAL && c.slots[1].key == TARGET + target;
    assert Charges(c.slots, GLOBAL) && Charges(c.slots, TARGET + target);
  }

  lemma AdmittedKeeps(caps: Caps, calls: seq<Call>, c: Call, now: Time, start: Time, target: string)
    requires Positive(caps) && c.Acquire? && c.slots == Slots(caps, target) && LastAdmitted(calls + [c])
    requires start <= now && 0 <= now && c.at == now / 1000
    ensures Keeps(calls + [c], c.at, start, target, c.token)
  {
    hide Held, LastAdmitted;
    forall t: nat | c.at <= t && Millis(t) < start / 1_000_000 + TOKEN_TTL
      ensures c.token in Held(calls + [c], GLOBAL, t) && c.token in Held(calls + [c], TARGET + target, t)
    {
      GateHolds(caps, calls, c, target, t);
    }
  }

  lemma CallsGrow(caps: Caps, w: World, w': World, c: Call)
    requires CallsOk(caps, w) && w'.p.clock == w.p.clock && w'.calls == w.calls + [c] && w.used <= w'.used
    requires c.at == Micros(w.p) && CallOk(caps, w'.used, c)
    requires c.Acquire? ==> DistinctKeys(c.rates) && DistinctKeys(c.slots)
    ensures CallsOk(caps, w')
  {
    forall i | 0 <= i < |w'.calls| ensures CallOk(caps, w'.used, w'.calls[i]) {
      if i < |w.calls| { assert CallOk(caps, w.used, w.calls[i]); }
    }
  }

  lemma GiveBackSound(cfg: Config, caps: Caps, w: World, a: Act)
    requires Sound(cfg, caps, w) && a.GiveBack? && Able(cfg, w, a)
    ensures Sound(cfg, caps, Perform(cfg, caps, w, a))
  {
    hide Fence, Timely, Held, Keeps, CallsOk;
    ClockIsSound(cfg, caps, w);
    var w' := Perform(cfg, caps, w, a);
    var c := w'.calls[|w.calls|];
    CallsGrow(caps, w, w', c);
    forall q | q in w'.p.agents ensures HolderOk(w', q) {
      assert HolderOk(w, q);
      if PastGate(w.p.agents[q]) {
        OthersKeep(w.calls, c, Micros(w.p), w.p.agents[q].start, w.p.agents[q].n.target, w.tokens[q]);
      }
    }
  }

  lemma ClockIsSound(cfg: Config, caps: Caps, w: World)
    requires Sound(cfg, caps, w)
    ensures 0 <= w.p.clock
  {
  }

  lemma GateMoves(cfg: Config, s: State, q: Pid, granted: bool)
    requires Enabled(cfg, s, s.clock, Gate(q, granted))
    ensures At(s, q) && s.agents[q].Checked?
    ensures Apply(cfg, s, s.clock, Gate(q, granted)) == Put(s, q, AfterGate(s.agents[q], granted))
  {
  }

  lemma RefuseSound(cfg: Config, caps: Caps, w: World, q: Pid)
    requires Sound(cfg, caps, w) && Enabled(cfg, w.p, w.p.clock, Gate(q, false))
    ensures Sound(cfg, caps, w.(p := Apply(cfg, w.p, w.p.clock, Gate(q, false))))
  {
    hide Fence, Timely, Enabled, Apply, Held, Keeps, CallOk, NextKept, Evolves;
    StepFenced(cfg, w.p, w.p.clock, Gate(q, false));
    StepTimely(cfg, w.p, Gate(q, false));
    GateMoves(cfg, w.p, q, false);
    var w' := w.(p := Apply(cfg, w.p, w.p.clock, Gate(q, false)));
    forall r | r in w'.p.agents ensures HolderOk(w', r) {
      if r != q { assert HolderOk(w, r); }
    }
  }

  /** Passing the gate: the new token is held for a minute from the start of the context on. */
  lemma AskKeepsHolders(caps: Caps, w: World, w': World, q: Pid, c: Call)
    requires Positive(caps) && CallsOk(caps, w) && HoldersOk(w)
    requires q in w.p.agents && w.p.agents[q].Checked? && w.p.agents[q].start <= w.p.clock
    requires c.Acquire? && c.at == Micros(w.p) && c.slots == Slots(caps, w.p.agents[q].n.target) && c.token !in w.used
    requires var granted := LastAdmitted(w.calls + [c]);
             w' == World(Put(w.p, q, AfterGate(w.p.agents[q], granted)), w.calls + [c],
                         if granted then w.tokens[q := c.token] else w.tokens, w.used + {c.token})
    ensures HoldersOk(w')
  {
    hide Held, Keeps, LastAdmitted, CallsOk, Slots;
    var x := w.p.agents[q];
    if LastAdmitted(w.calls + [c]) { AdmittedKeeps(caps, w.calls, c, w.p.clock, x.start, x.n.target); }
    forall r | r in w'.p.agents ensures HolderOk(w', r) {
      if r != q {
        assert HolderOk(w, r);
        if PastGate(w.p.agents[r]) {
          OthersKeep(w.calls, c, Micros(w.p), w.p.agents[r].start, w.p.agents[r].n.target, w.tokens[r]);
        }
      }
    }
  }

  lemma AskSound(cfg: Config, caps: Caps, w: World, a: Act)
    requires Positive(caps) && Sound(cfg, caps, w) && a.Ask? && Able(cfg, w, a)
    ensures 0 <= w.p.clock && Sound(cfg, caps, Perform(cfg, caps, w, a))
  {
    AskIsAtGate(cfg, w, a);
    StartIsPast(cfg, w.p, a.q);
    ClockIsSound(cfg, caps, w);
    hide Fence, Timely, Enabled, Apply, Held, NextKept, Evolves, LastAdmitted, CallsOk, Rates, Slots, HoldersOk;
    var x := w.p.agents[a.q];
    var c := AskCall(caps, w, a);
    var granted := LastAdmitted(w.calls + [c]);
    AnyAnswer(cfg, w.p, a.q, granted);
    StepFenced(cfg, w.p, w.p.clock, Gate(a.q, granted));
    StepTimely(cfg, w.p, Gate(a.q, granted));
    GateMoves(cfg, w.p, a.q, granted);
    var w' := Perform(cfg, caps, w, a);
    RateKeysDistinct(x.n.client, x.n.target, a.rate, a.clientRate);
    SlotKeysDistinct(caps, x.n.target);
    CallsGrow(caps, w, w', c);
    AskKeepsHolders(caps, w, w', a.q, c);
  }

  lemma AskIsAtGate(cfg: Config, w: World, a: Act)
    requires a.Ask? && Able(cfg, w, a)
    ensures a.q in w.p.agents && w.p.agents[a.q].Checked? && Enabled(cfg, w.p, w.p.clock, Gate(a.q, true))
    ensures a.token !in w.used
  {
  }

  lemma StartIsPast(cfg: Config, s: State, q: Pid)
    requires Timely(cfg, s) && q in s.agents && s.agents[q].Checked?
    ensures s.agents[q].start <= s.clock
  {
    assert AgentTimely(s, s.agents[q]);
  }

  lemma StepSound(cfg: Config, caps: Caps, w: World, a: Act)
    requires Positive(caps) && Sound(cfg, caps, w) && Able(cfg, w, a)
    ensures 0 <= w.p.clock && Sound(cfg, caps, Perform(cfg, caps, w, a))
  {
    ClockIsSound(cfg, caps, w);
    hide Sound;
    match a
    case Other(step) => OtherSound(cfg, caps, w, step);
    case Refuse(q) => RefuseSound(cfg, caps, w, q);
    case Ask(_, _, _, _) => AskSound(cfg, caps, w, a);
    case GiveBack(_, _) => GiveBackSound(cfg, caps, w, a);
  }

  lemma {:induction false} PlaySound(cfg: Config, caps: Caps, w: World, acts: seq<Act>)
    requires Positive(caps) && Sound(cfg, caps, w) && Possible(cfg, caps, w, acts)
    ensures Sound(cfg, caps, Play(cfg, caps, w, acts))
    decreases |acts|
  {
    hide Sound, Able, Perform;
    if acts != [] {
      StepSound(cfg, caps, w, acts[0]);
      PlaySound(cfg, caps, Perform(cfg, caps, w, acts[0]), acts[1..]);
    }
  }

  // ---- the cap ----------------------------------------------------------------------------------------

  /** The agents whose HTTP call is under way. */
  ghost function Calling(s: State): set<Pid> { set q | q in s.agents && s.agents[q].Delivering? }

  ghost function CallingTo(s: State, target: string): set<Pid> {
    set q | q in s.agents && s.agents[q].Delivering? && s.agents[q].n.target == target
  }

  lemma SlotsFixed(caps: Caps, w: World, target: string)
    requires Positive(caps) && CallsOk(caps, w)
    ensures FixedSlots(w.calls, GLOBAL, caps.global) && FixedSlots(w.calls, TARGET + target, caps.target(target))
  {
    forall i, j | 0 <= i < |w.calls| && w.calls[i].Acquire? && 0 <= j < |w.calls[i].slots|
      ensures w.calls[i].slots[j].key == GLOBAL ==> w.calls[i].slots[j].max == caps.global
      ensures w.calls[i].slots[j].key == TARGET + target ==> w.calls[i].slots[j].max == caps.target(target)
    {
      assert CallOk(caps, w.used, w.calls[i]);
      var t :| w.calls[i].slots == Slots(caps, t);
      SlotKeysDistinct(caps, t);
      SlotKeysDistinct(caps, target);
      assert (TARGET + t)[|TARGET|..] == t && (TARGET + target)[|TARGET|..] == target;
    }
  }

  ghost function TokensOf(tokens: map<Pid, Token>, s: set<Pid>): set<Token> {
    set q | q in s && q in tokens :: tokens[q]
  }

  lemma {:induction false} AsManyTokens(tokens: map<Pid, Token>, s: set<Pid>)
    requires forall q :: q in s ==> q in tokens
    requires forall q, r :: q in s && r in s && q != r ==> tokens[q] != tokens[r]
    ensures |TokensOf(tokens, s)| == |s|
    decreases |s|
  {
    if s != {} {
      var q :| q in s;
      AsManyTokens(tokens, s - {q});
      assert TokensOf(tokens, s) == TokensOf(tokens, s - {q}) + {tokens[q]};
    } else {
      assert TokensOf(tokens, s) == {};
    }
  }

  /** A call under way holds its token: its context ends fifteen seconds before the token does. */
  lemma CallerHolds(cfg: Config, caps: Caps, w: World, q: Pid)
    requires Sound(cfg, caps, w) && q in Calling(w.p)
    ensures q in w.tokens && PastGate(w.p.agents[q])
    ensures w.tokens[q] in Held(w.calls, GLOBAL, Micros(w.p))
    ensures w.tokens[q] in Held(w.calls, TARGET + w.p.agents[q].n.target, Micros(w.p))
  {
    hide Fence, Held, CallsOk;
    assert AgentTimely(w.p, w.p.agents[q]);
    assert 0 <= w.p.clock by { ClockIsSound(cfg, caps, w); }
    assert HolderOk(w, q);
  }

  lemma SoundIsCapped(cfg: Config, caps: Caps, w: World, target: string)
    requires Positive(caps) && Sound(cfg, caps, w)
    ensures |Calling(w.p)| <= caps.global && |CallingTo(w.p, target)| <= caps.target(target)
  {
    ClockIsSound(cfg, caps, w);
    assert CallsOk(caps, w) && HoldersOk(w);
    hide Sound, Held, Fence, Timely, CallOk;
    var now := Micros(w.p);
    var all, some := Calling(w.p), CallingTo(w.p, target);
    forall q | q in all
      ensures q in w.tokens && PastGate(w.p.agents[q]) && w.tokens[q] in Held(w.calls, GLOBAL, now)
              && w.tokens[q] in Held(w.calls, TARGET + w.p.agents[q].n.target, now)
    {
      CallerHolds(cfg, caps, w, q);
    }
    AsManyTokens(w.tokens, all);
    AsManyTokens(w.tokens, some);
    SlotsFixed(caps, w, target);
    SlotsAreCapped(w.calls, GLOBAL, caps.global, now);
    SlotsAreCapped(w.calls, TARGET + target, caps.target(target), now);
    SubsetCount(TokensOf(w.tokens, all), Held(w.calls, GLOBAL, now));
    SubsetCount(TokensOf(w.tokens, some), Held(w.calls, TARGET + target, now));
  }

  /** In every run of the protocol whose gate asks the egress script, the `Adapter.Deliver` calls under way
      at once stay within the limits, for each target and globally, whatever crashes and whatever releases
      are lost. */
  lemma DeliveriesAreCapped(cfg: Config, caps: Caps, w: World, acts: seq<Act>, target: string)
    requires Positive(caps) && Initial(w.p) && w == World(w.p, [], map[], {}) && Possible(cfg, caps, w, acts)
    ensures var z := Play(cfg, caps, w, acts).p;
          |Calling(z)| <= caps.global && |CallingTo(z, target)| <= caps.target(target)
  {
    InitialFenced(cfg, w.p);
    assert Sound(cfg, caps, w);
    hide Possible, Play;
    PlaySound(cfg, caps, w, acts);
    SoundIsCapped(cfg, caps, Play(cfg, caps, w, acts), target);
  }

  lemma Prepend(cfg: Config, s: State, a: Step, rest: seq<Move>)
    requires Enabled(cfg, s, s.clock, a) && Timed(cfg, Apply(cfg, s, s.clock, a), rest)
          && Legal(cfg, Apply(cfg, s, s.clock, a), rest)
    ensures var script := [On(s.clock, a)] + rest;
            Timed(cfg, s, script) && Legal(cfg, s, script)
                && Run(cfg, s, script) == Run(cfg, Apply(cfg, s, s.clock, a), rest)
  {
    hide Enabled, Apply;
    assert ([On(s.clock, a)] + rest)[1..] == rest;
  }

  /** The protocol below is the timed one: its part of every such run is a run under the shared clock. */
  lemma {:induction false} PlayIsTimed(cfg: Config, caps: Caps, w: World, acts: seq<Act>) returns (script: seq<Move>)
    requires Possible(cfg, caps, w, acts)
    ensures Timed(cfg, w.p, script) && Legal(cfg, w.p, script) && Run(cfg, w.p, script) == Play(cfg, caps, w, acts).p
    decreases |acts|
  {
    hide Enabled, Apply;
    if acts == [] {
      script := [];
    } else {
      var w1 := Perform(cfg, caps, w, acts[0]);
      var rest := PlayIsTimed(cfg, caps, w1, acts[1..]);
      hide Timed, Legal, Run;
      match acts[0]
      case Other(step) =>
        Prepend(cfg, w.p, step, rest);
        script := [On(w.p.clock, step)] + rest;
      case Refuse(q) =>
        Prepend(cfg, w.p, Gate(q, false), rest);
        script := [On(w.p.clock, Gate(q, false))] + rest;
      case Ask(q, _, _, _) =>
        AskIsAtGate(cfg, w, acts[0]);
        var step := Gate(q, LastAdmitted(w.calls + [AskCall(caps, w, acts[0])]));
        AnyAnswer(cfg, w.p, q, step.granted);
        Prepend(cfg, w.p, step, rest);
        script := [On(w.p.clock, step)] + rest;
      case GiveBack(_, _) =>
        script := rest;
    }
  }

  lemma AnyAnswer(cfg: Config, s: State, q: Pid, granted: bool)
    requires Enabled(cfg, s, s.clock, Gate(q, true))
    ensures Enabled(cfg, s, s.clock, Gate(q, granted))
  {
  }
}
