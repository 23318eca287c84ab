/** The in-process half of `quota.Limiter`: counters on the heap that the map and the release closures
    share. */
module LocalLimiter {
  /** `localTarget`. */
  class Cell {
    var count: int
    constructor ()
      ensures count == 0
    {
      count := 0;
    }
  }

  /** A release closure: the cell it captured, and whether it is wrapped in `sync.Once`. */
  class Ticket {
    const cell: Cell
    const target: string
    const once: bool
    var spent: bool
    constructor (cell: Cell, target: string, once: bool)
      ensures this.cell == cell && this.target == target && this.once == once && !spent
    {
      this.cell, this.target, this.once, spent := cell, target, once, false;
    }
  }

  ghost function Of(tickets: set<Ticket>, target: string): set<Ticket> {
    set k | k in tickets && k.target == target
  }

  lemma OfAdd(tickets: set<Ticket>, k: Ticket, target: string)
    requires k !in tickets
    ensures |Of(tickets + {k}, target)| == |Of(tickets, target)| + if k.target == target then 1 else 0
  {
    assert Of(tickets + {k}, target) == Of(tickets, target) + if k.target == target then {k} else {};
  }

  /** What the egress script answered: an error, a refusal or an admission. */
  datatype Script = Broken | Refused | Admitted

  class Limiter {
    const maxGlobal: int
    const maxTarget: int
    var active: int
    var targets: map<string, Cell>
    /** The releases handed out and not called yet. */
    ghost var outstanding: set<Ticket>

    /** The invariant; while `local` works on it, the cell of z may still be at zero. */
    ghost predicate ValidBut(z: set<string>)
      reads this, targets.Values, outstanding
    {
      && (forall t, u :: t in targets && u in targets && t != u ==> targets[t] != targets[u])
      && (forall k :: k in outstanding ==> !k.spent && k.target in targets && targets[k.target] == k.cell)
      && (forall t :: t in targets ==> CellOk(t, z))
      && active == |outstanding| && (active == 0 || active <= maxGlobal)
    }

    ghost predicate CellOk(t: string, z: set<string>)
      requires t in targets
      reads this, targets[t]
    {
      && targets[t].count == |Of(outstanding, t)|
      && (0 < targets[t].count <= maxTarget || (t in z && targets[t].count == 0))
    }

    ghost predicate Valid()
      reads this, targets.Values, outstanding
    {
      ValidBut({})
    }

    constructor (global: int, target: int)
      ensures Valid() && maxGlobal == global && maxTarget == target && outstanding == {} && targets == map[]
    {
      maxGlobal, maxTarget, active, targets, outstanding := global, target, 0, map[], {};
    }

    function Count(target: string): int
      reads this, targets.Values
    {
      if target in targets then targets[target].count else 0
    }

    method CellFor(target: string) returns (t: Cell)
      requires Valid()
      modifies this`targets
      ensures ValidBut({target}) && target in targets && targets[target] == t
      ensures t.count == old(Count(target))
      ensures target in old(targets) ==> targets == old(targets) && t.count > 0
      ensures target !in old(targets) ==> targets == old(targets)[target := t] && t.count == 0 && fresh(t)
    {
      if target in targets { return targets[target]; }
      t := new Cell();
      targets := targets[target := t];
      assert Of(outstanding, target) == {};
    }

    method Take(k: Ticket)
      requires ValidBut({k.target}) && k.target in targets && targets[k.target] == k.cell
      requires active < maxGlobal && k.cell.count < maxTarget && k !in outstanding && !k.spent
      modifies this`active, this`outstanding, k.cell
      ensures Valid() && outstanding == old(outstanding) + {k}
    {
      hide Of;
      ghost var before := outstanding;
      active, outstanding := active + 1, outstanding + {k};
      k.cell.count := k.cell.count + 1;
      assert forall x :: x in before ==> !x.spent && x.target in targets && targets[x.target] == x.cell;
      forall u | u in targets ensures CellOk(u, {}) {
        assert old(CellOk(u, {k.target}));
        OfAdd(before, k, u);
      }
    }

    /** `local`: takes a slot, or refuses and leaves everything as it was. */
    method Local(target: string, once: bool) returns (k: Ticket?)
      requires Valid()
      modifies this, targets.Values
      ensures Valid()
      ensures (k != null) <==> old(active) < maxGlobal && old(Count(target)) < maxTarget
      ensures k == null ==> outstanding == old(outstanding) && targets == old(targets) && active == old(active)
      ensures k != null ==> fresh(k) && outstanding == old(outstanding) + {k} && k.target == target && k.once == once
      ensures k != null ==> targets == old(targets)[target := k.cell] && (target in old(targets) || fresh(k.cell))
    {
      hide ValidBut, Valid, CellOk, Of;
      var t := CellFor(target);
      if active >= maxGlobal || t.count >= maxTarget {
        if t.count == 0 { DropEmpty(t, target); } else { Settled(this, target); }
        assert targets == old(targets);
        return null;
      }
      k := new Ticket(t, target, once);
      assert k !in outstanding;
      Take(k);
    }

    /** `delete(l.targets, target)` for a cell that has come to zero. */
    method DropEmpty(t: Cell, target: string)
      requires ValidBut({target}) && target in targets && targets[target] == t && t.count == 0
      modifies this`targets
      ensures Valid() && targets == old(targets) - {target}
    {
      assert forall k :: k in outstanding && k.target == target ==> k in Of(outstanding, target);
      targets := targets - {target};
    }

    /** Calling a release. A second call of a guarded one is ignored; an unguarded one is called once. */
    method Release(k: Ticket)
      requires Valid() && (k in outstanding || (k.once && k.spent))
      modifies this, targets.Values, k
      ensures Valid() && outstanding == old(outstanding) - {k}
      ensures targets.Values <= old(targets.Values)
    {
      if k.once && k.spent { return; }
      GiveBack(k);
      if k.cell.count == 0 { DropEmpty(k.cell, k.target); }
    }

    method GiveBack(k: Ticket)
      requires Valid() && k in outstanding
      modifies this`active, this`outstanding, k.cell, k
      ensures ValidBut({k.target}) && outstanding == old(outstanding) - {k} && (k.cell.count > 0 ==> Valid())
    {
      k.spent := true;
      active := active - 1;
      assert k in Of(outstanding, k.target);
      k.cell.count := k.cell.count - 1;
      ghost var before := outstanding;
      outstanding := outstanding - {k};
      assert Of(outstanding, k.target) == Of(before, k.target) - {k};
      forall u | u in targets ensures CellOk(u, {k.target}) && (k.cell.count > 0 ==> CellOk(u, {})) {
        if u != k.target { assert Of(outstanding, u) == Of(before, u); }
      }
    }

    /** `Acquire`: every path that does not admit gives the local slot back. */
    method Acquire(target: string, script: Script, failOpen: bool) returns (k: Ticket?, ok: bool)
      requires Valid()
      modifies this, targets.Values
      ensures Valid()
      ensures ok <==>
            old(active) < maxGlobal && old(Count(target)) < maxTarget
            && (script == Admitted || (script == Broken && failOpen))
      ensures ok <==> k != null
      ensures !ok ==> outstanding == old(outstanding)
      ensures ok ==>
            fresh(k) && outstanding == old(outstanding) + {k} && k.target == target
            && k.once == (script == Admitted)
    {
      k := Local(target, script == Admitted);
      ok := false;
      if k == null { return; }
      if script == Admitted || (script == Broken && failOpen) { return k, true; }
      Release(k);
      k := null;
    }
  }

  lemma Settled(l: Limiter, target: string)
    requires l.ValidBut({target}) && target in l.targets && l.targets[target].count > 0
    ensures l.Valid()
  {
    forall u | u in l.targets ensures l.CellOk(u, {}) {
      assert l.CellOk(u, {target});
    }
  }

  // ---- the sum of the counters --------------------------------------------------------------------

  ghost function SumOf(tickets: set<Ticket>, keys: set<string>): nat
    decreases |keys|
  {
    if keys == {} then 0 else var t := Any(keys); |Of(tickets, t)| + SumOf(tickets, keys - {t})
  }

  ghost function Any(keys: set<string>): (t: string)
    requires keys != {}
    ensures t in keys
  {
    var t :| t in keys; t
  }

  ghost function In(tickets: set<Ticket>, keys: set<string>): set<Ticket> { set k | k in tickets && k.target in keys }

  lemma {:induction false} SumIsCount(tickets: set<Ticket>, keys: set<string>)
    ensures SumOf(tickets, keys) == |In(tickets, keys)|
    decreases |keys|
  {
    if keys != {} {
      var t := Any(keys);
      SumIsCount(tickets, keys - {t});
      assert In(tickets, keys) == In(tickets, keys - {t}) + Of(tickets, t);
      assert In(tickets, keys - {t}) !! Of(tickets, t);
    } else {
      assert In(tickets, keys) == {};
    }
  }

  ghost function CountSum(l: Limiter, keys: set<string>): int
    requires keys <= l.targets.Keys
    reads l, l.targets.Values
    decreases |keys|
  {
    if keys == {} then 0 else var t := Any(keys); l.targets[t].count + CountSum(l, keys - {t})
  }

  lemma {:induction false} CountSumIsSum(l: Limiter, keys: set<string>)
    requires l.Valid() && keys <= l.targets.Keys
    ensures CountSum(l, keys) == SumOf(l.outstanding, keys)
    decreases |keys|
  {
    if keys != {} { CountSumIsSum(l, keys - {Any(keys)}); }
  }

  /** In every state of the limiter, whatever the order of acquires and releases was: `active` is the sum of
      the counters and the number of outstanding releases; both bounds hold; and each outstanding release
      still captures the cell the map holds for its target. */
  lemma LimiterIsConsistent(l: Limiter)
    requires l.Valid()
    ensures l.active == CountSum(l, l.targets.Keys) == |l.outstanding|
    ensures l.active == 0 || l.active <= l.maxGlobal
    ensures forall t :: t in l.targets ==> 0 < l.targets[t].count <= l.maxTarget
    ensures forall k :: k in l.outstanding ==> k.target in l.targets && l.targets[k.target] == k.cell
  {
    CountSumIsSum(l, l.targets.Keys);
    SumIsCount(l.outstanding, l.targets.Keys);
    assert In(l.outstanding, l.targets.Keys) == l.outstanding;
  }
}
