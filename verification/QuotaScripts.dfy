/** The Redis side of the quota: fixed one-second windows and expiring concurrency tokens, as the three
    Lua scripts change them, and what they add up to over any sequence of calls. */
module QuotaScripts {
  import opened Domain
  import opened Selection

  /** Hash of one rate key and sorted set of one concurrency key, with the time (ms) the key expires. */
  datatype Counter = Counter(window: int, count: nat, expire: int)
  datatype Tokens = Tokens(scores: map<Token, int>, expire: int)
  datatype Data = Data(hashes: map<string, Counter>, zsets: map<string, Tokens>)

  /** A key with the limit passed for it; a limit that is not positive switches the key off. */
  datatype Limit = Limit(key: string, max: int)

  /** Server time in microseconds, and what `TIME` makes of it. */
  function Window(t: nat): int { t / 1_000_000 }
  function Millis(t: nat): int { t / 1000 }

  const WINDOW_TTL := 2000
  const TOKEN_TTL := 60_000
  const TOKENS_TTL := 65_000

  predicate DistinctKeys(ls: seq<Limit>) { forall i, j :: 0 <= i < j < |ls| ==> ls[i].key != ls[j].key }

  // ---- rate windows -------------------------------------------------------------------------------

  /** Count of key k in the window of time t; an expired or older hash counts as absent. */
  function CountAt(d: Data, k: string, t: nat): nat {
    if k in d.hashes && Millis(t) <= d.hashes[k].expire && d.hashes[k].window == Window(t) then d.hashes[k].count else 0
  }

  predicate RateAllowed(d: Data, ls: seq<Limit>, t: nat) {
    forall i :: 0 <= i < |ls| && ls[i].max > 0 ==> CountAt(d, ls[i].key, t) < ls[i].max
  }

  function Charge(d: Data, l: Limit, t: nat): Data {
    if l.max > 0
    then d.(hashes := d.hashes[l.key := Counter(Window(t), CountAt(d, l.key, t) + 1, Millis(t) + WINDOW_TTL)])
    else d
  }

  function ChargeAll(d: Data, ls: seq<Limit>, t: nat): Data {
    if ls == [] then d else Charge(ChargeAll(d, ls[..|ls| - 1], t), ls[|ls| - 1], t)
  }

  // ---- concurrency tokens -------------------------------------------------------------------------

  function Scores(d: Data, k: string, t: nat): map<Token, int> {
    if k in d.zsets && Millis(t) <= d.zsets[k].expire then d.zsets[k].scores else map[]
  }

  /** Tokens of key k that are alive at time t. */
  function Live(d: Data, k: string, t: nat): set<Token> {
    set x | x in Scores(d, k, t) && Scores(d, k, t)[x] > Millis(t)
  }

  /** ZREMRANGEBYSCORE -inf now. */
  function Sweep(d: Data, k: string, t: nat): Data {
    if k in d.zsets && Millis(t) <= d.zsets[k].expire
    then d.(zsets := d.zsets[k := d.zsets[k].(scores := map x | x in Live(d, k, t) :: d.zsets[k].scores[x])])
    else d
  }

  /** Sweeps the keys in turn and stops at the first one that is full. */
  function CheckSlots(d: Data, ls: seq<Limit>, t: nat): (bool, Data) {
    if ls == [] then (true, d)
    else
      var (ok, d1) := CheckSlots(d, ls[..|ls| - 1], t);
      if !ok then (false, d1)
      else
        var l := ls[|ls| - 1];
        var d2 := Sweep(d1, l.key, t);
        (!(l.max > 0 && |Scores(d2, l.key, t)| >= l.max), d2)
  }

  function AddToken(d: Data, l: Limit, token: Token, t: nat): Data {
    if l.max > 0
    then d.(zsets := d.zsets[l.key := Tokens(Scores(d, l.key, t)[token := Millis(t) + TOKEN_TTL],
        Millis(t) + TOKENS_TTL)])
    else d
  }

  function AddTokens(d: Data, ls: seq<Limit>, token: Token, t: nat): Data {
    if ls == [] then d else AddToken(AddTokens(d, ls[..|ls| - 1], token, t), ls[|ls| - 1], token, t)
  }

  /** `egressScript`, and with no slots `rateScript`. */
  function Admit(d: Data, rates: seq<Limit>, slots: seq<Limit>, token: Token, t: nat): (bool, Data) {
    if !RateAllowed(d, rates, t) then (false, d)
    else
      var (ok, d1) := CheckSlots(d, slots, t);
      if !ok then (false, d1) else (true, AddTokens(ChargeAll(d1, rates, t), slots, token, t))
  }

  function RemoveToken(d: Data, k: string, token: Token, t: nat): Data {
    if k in d.zsets && Millis(t) <= d.zsets[k].expire
    then d.(zsets := d.zsets[k := d.zsets[k].(scores := d.zsets[k].scores - {token})])
    else d
  }

  /** `releaseScript`. */
  function Release(d: Data, keys: seq<string>, token: Token, t: nat): Data {
    if keys == [] then d else RemoveToken(Release(d, keys[..|keys| - 1], token, t), keys[|keys| - 1], token, t)
  }

  // ---- the scripts as written ---------------------------------------------------------------------

  class Redis {
    var hashes: map<string, Counter>
    var zsets: map<string, Tokens>

    function Contents(): Data reads this { Data(hashes, zsets) }

    constructor ()
      ensures Contents() == Data(map[], map[])
    {
      hashes, zsets := map[], map[];
    }

    method RateCheck(ls: seq<Limit>, t: nat) returns (ok: bool)
      ensures ok <==> RateAllowed(Contents(), ls, t)
    {
      var i := 0;
      while i < |ls|
        invariant 0 <= i <= |ls|
        invariant forall j :: 0 <= j < i && ls[j].max > 0 ==> CountAt(Contents(), ls[j].key, t) < ls[j].max
      {
        if ls[i].max > 0 && CountAt(Contents(), ls[i].key, t) >= ls[i].max { return false; }
        i := i + 1;
      }
      return true;
    }

    method Increment(ls: seq<Limit>, t: nat)
      modifies this
      ensures Contents() == ChargeAll(old(Contents()), ls, t)
    {
      var i := 0;
      while i < |ls|
        invariant 0 <= i <= |ls|
        invariant Contents() == ChargeAll(old(Contents()), ls[..i], t)
      {
        assert ls[..i + 1][..i] == ls[..i];
        var k := ls[i].key;
        if ls[i].max > 0 {
          if !(k in hashes && Millis(t) <= hashes[k].expire) || hashes[k].window != Window(t) {
            hashes := hashes[k := Counter(Window(t), 0, Millis(t) + WINDOW_TTL)];
          }
          hashes := hashes[k := Counter(Window(t), hashes[k].count + 1, Millis(t) + WINDOW_TTL)];
        }
        i := i + 1;
      }
      assert ls[..i] == ls;
    }

    method RateScript(rates: seq<Limit>, t: nat) returns (ok: bool)
      modifies this
      ensures (ok, Contents()) == Admit(old(Contents()), rates, [], 0, t)
    {
      ok := RateCheck(rates, t);
      if ok { Increment(rates, t); }
    }

    method RemoveExpired(k: string, t: nat)
      modifies this
      ensures Contents() == Sweep(old(Contents()), k, t)
    {
      if k in zsets && Millis(t) <= zsets[k].expire {
        ghost var swept := Sweep(Contents(), k, t);
        zsets := zsets[k := zsets[k].(scores := map x | x in zsets[k].scores && zsets[k].scores[x] > Millis(t) ::
            zsets[k].scores[x])];
        assert zsets[k].scores == swept.zsets[k].scores;
        assert zsets == swept.zsets;
      }
    }

    method CheckTokens(slots: seq<Limit>, t: nat) returns (ok: bool)
      modifies this
      ensures (ok, Contents()) == CheckSlots(old(Contents()), slots, t)
    {
      var i := 0;
      while i < |slots|
        invariant 0 <= i <= |slots|
        invariant CheckSlots(old(Contents()), slots[..i], t) == (true, Contents())
      {
        assert slots[..i + 1][..i] == slots[..i];
        RemoveExpired(slots[i].key, t);
        if slots[i].max > 0 && |Scores(Contents(), slots[i].key, t)| >= slots[i].max {
          StopsAt(old(Contents()), slots, i + 1, t);
          return false;
        }
        i := i + 1;
      }
      assert slots[..i] == slots;
      return true;
    }

    method StoreTokens(slots: seq<Limit>, token: Token, t: nat)
      modifies this
      ensures Contents() == AddTokens(old(Contents()), slots, token, t)
    {
      var i := 0;
      while i < |slots|
        invariant 0 <= i <= |slots|
        invariant Contents() == AddTokens(old(Contents()), slots[..i], token, t)
      {
        assert slots[..i + 1][..i] == slots[..i];
        var k := slots[i].key;
        if slots[i].max > 0 {
          var scores := if k in zsets && Millis(t) <= zsets[k].expire then zsets[k].scores else map[];
          zsets := zsets[k := Tokens(scores[token := Millis(t) + TOKEN_TTL], Millis(t) + TOKENS_TTL)];
        }
        i := i + 1;
      }
      assert slots[..i] == slots;
    }

    method EgressScript(rates: seq<Limit>, slots: seq<Limit>, token: Token, t: nat) returns (ok: bool)
      modifies this
      ensures (ok, Contents()) == Admit(old(Contents()), rates, slots, token, t)
    {
      ok := RateCheck(rates, t);
      if !ok { return; }
      ok := CheckTokens(slots, t);
      if !ok { return; }
      Increment(rates, t);
      StoreTokens(slots, token, t);
    }

    method ReleaseScript(keys: seq<string>, token: Token, t: nat)
      modifies this
      ensures Contents() == Release(old(Contents()), keys, token, t)
    {
      var i := 0;
      while i < |keys|
        invariant 0 <= i <= |keys|
        invariant Contents() == Release(old(Contents()), keys[..i], token, t)
      {
        assert keys[..i + 1][..i] == keys[..i];
        var k := keys[i];
        if k in zsets && Millis(t) <= zsets[k].expire {
          zsets := zsets[k := zsets[k].(scores := zsets[k].scores - {token})];
        }
        i := i + 1;
      }
      assert keys[..i] == keys;
    }
  }

  /** Once a prefix of the slots is rejected, the rest is not looked at. */
  lemma {:induction false} StopsAt(d: Data, slots: seq<Limit>, i: nat, t: nat)
    requires i <= |slots| && !CheckSlots(d, slots[..i], t).0
    ensures CheckSlots(d, slots, t) == CheckSlots(d, slots[..i], t)
    decreases |slots|
  {
    if i < |slots| {
      var p := slots[..|slots| - 1];
      assert p[..i] == slots[..i];
      StopsAt(d, p, i, t);
    } else {
      assert slots[..i] == slots;
    }
  }

  // ---- what one call does -------------------------------------------------------------------------

  lemma {:induction false} ChargeAllEffect(d: Data, ls: seq<Limit>, t: nat, k: string, u: nat)
    requires DistinctKeys(ls) && t <= u
    ensures var r := ChargeAll(d, ls, t);
            && r.zsets == d.zsets
            && CountAt(r, k, u) == if Window(u) == Window(t) && Charges(ls, k) then CountAt(d, k, t) + 1
                                   else if Charges(ls, k) then 0 else CountAt(d, k, u)
    decreases |ls|
  {
    if ls != [] {
      var p, l := ls[..|ls| - 1], ls[|ls| - 1];
      ChargeAllEffect(d, p, t, k, u);
      ChargeAllEffect(d, p, t, l.key, t);
      assert Charges(ls, k) <==> Charges(p, k) || (l.key == k && l.max > 0);
    }
  }

  /** The call counts against rate key k. */
  predicate Charges(ls: seq<Limit>, k: string) { exists i :: 0 <= i < |ls| && ls[i].key == k && ls[i].max > 0 }

  /** Every token dies before the key that holds it, and at most a minute after t. */
  ghost predicate KeysOutliveTokens(d: Data, t: nat) {
    forall k, x :: k in d.zsets && x in d.zsets[k].scores ==>
      d.zsets[k].scores[x] < d.zsets[k].expire && d.zsets[k].scores[x] <= Millis(t) + TOKEN_TTL
  }

  lemma SweepKeeps(d: Data, k: string, t: nat, q: string, u: nat)
    requires t <= u
    ensures Live(Sweep(d, k, t), q, u) == Live(d, q, u)
    ensures Sweep(d, k, t).hashes == d.hashes
    ensures KeysOutliveTokens(d, t) ==> KeysOutliveTokens(Sweep(d, k, t), t)
    ensures k == q ==> Scores(Sweep(d, k, t), q, t).Keys == Live(d, q, t)
  {
  }

  /** Checking the slots never touches a counter or a live token, and succeeds exactly when no slot is full. */
  lemma {:induction false} CheckSlotsEffect(d: Data, ls: seq<Limit>, t: nat)
    ensures var (ok, r) := CheckSlots(d, ls, t);
            && r.hashes == d.hashes
            && (forall q, u :: t <= u ==> Live(r, q, u) == Live(d, q, u))
            && (KeysOutliveTokens(d, t) ==> KeysOutliveTokens(r, t))
            && (ok <==> forall i :: 0 <= i < |ls| && ls[i].max > 0 ==> |Live(d, ls[i].key, t)| < ls[i].max)
    decreases |ls|
  {
    if ls != [] {
      var p, l := ls[..|ls| - 1], ls[|ls| - 1];
      CheckSlotsEffect(d, p, t);
      var (ok, d1) := CheckSlots(d, p, t);
      forall q, u: nat | t <= u
        ensures Live(Sweep(d1, l.key, t), q, u) == Live(d1, q, u)
      {
        SweepKeeps(d1, l.key, t, q, u);
      }
      SweepKeeps(d1, l.key, t, l.key, t);
      assert |Scores(Sweep(d1, l.key, t), l.key, t)| == |Scores(Sweep(d1, l.key, t), l.key, t).Keys|;
      assert forall i :: 0 <= i < |p| ==> p[i] == ls[i];
    }
  }

  /** Adding the token makes it live for a minute in every key it was counted in, and never drops another. */
  lemma {:induction false} AddTokensEffect(d: Data, ls: seq<Limit>, token: Token, t: nat, q: string, u: nat)
    requires DistinctKeys(ls) && KeysOutliveTokens(d, t) && t <= u
    ensures var r := AddTokens(d, ls, token, t);
            && r.hashes == d.hashes && KeysOutliveTokens(r, t)
            && Live(r, q, u) == if !Charges(ls, q) then Live(d, q, u)
                                else if Millis(u) < Millis(t) + TOKEN_TTL then Live(d, q, u) + {token}
                                    else Live(d, q, u) - {token}
    decreases |ls|
  {
    if ls != [] {
      var p, l := ls[..|ls| - 1], ls[|ls| - 1];
      AddTokensEffect(d, p, token, t, q, u);
      assert Charges(ls, q) <==> Charges(p, q) || (l.key == q && l.max > 0);
      if l.key == q { assert !Charges(p, q); }
      AddTokenEffect(AddTokens(d, p, token, t), l, token, t, q, u);
    }
  }

  lemma AddTokenEffect(d: Data, l: Limit, token: Token, t: nat, q: string, u: nat)
    requires KeysOutliveTokens(d, t) && t <= u
    ensures var r := AddToken(d, l, token, t);
            && r.hashes == d.hashes && KeysOutliveTokens(r, t)
            && Live(r, q, u) == if l.key != q || l.max <= 0 then Live(d, q, u)
                                else if Millis(u) < Millis(t) + TOKEN_TTL then Live(d, q, u) + {token}
                                    else Live(d, q, u) - {token}
  {
  }

  lemma {:induction false} ReleaseEffect(d: Data, keys: seq<string>, token: Token, t: nat, q: string, u: nat)
    requires KeysOutliveTokens(d, t) && t <= u
    ensures var r := Release(d, keys, token, t);
            && r.hashes == d.hashes && KeysOutliveTokens(r, t)
            && Live(r, q, u) == if q in keys then Live(d, q, u) - {token} else Live(d, q, u)
    decreases |keys|
  {
    if keys != [] {
      var p, k := keys[..|keys| - 1], keys[|keys| - 1];
      ReleaseEffect(d, p, token, t, q, u);
      assert q in keys <==> q in p || q == k;
      RemoveEffect(Release(d, p, token, t), k, token, t, q, u);
    }
  }

  lemma RemoveEffect(d: Data, k: string, token: Token, t: nat, q: string, u: nat)
    requires KeysOutliveTokens(d, t) && t <= u
    ensures var r := RemoveToken(d, k, token, t);
            && r.hashes == d.hashes && KeysOutliveTokens(r, t)
            && Live(r, q, u) == if q == k then Live(d, q, u) - {token} else Live(d, q, u)
  {
  }

  /** A rejected call changes no counter and no live token, now or later. */
  lemma RejectedChangesNothing(d: Data, rates: seq<Limit>, slots: seq<Limit>, token: Token, t: nat, k: string, u: nat)
    requires t <= u && !Admit(d, rates, slots, token, t).0
    ensures var r := Admit(d, rates, slots, token, t).1;
            CountAt(r, k, u) == CountAt(d, k, u) && Live(r, k, u) == Live(d, k, u)
  {
    CheckSlotsEffect(d, slots, t);
  }

  /** An admitted call counts once against each of its rate keys and adds its token to each of its slots. */
  lemma AdmittedEffect(d: Data, rates: seq<Limit>, slots: seq<Limit>, token: Token, t: nat, k: string, u: nat)
    requires t <= u && DistinctKeys(rates) && DistinctKeys(slots) && KeysOutliveTokens(d, t)
    requires Admit(d, rates, slots, token, t).0
    ensures var r := Admit(d, rates, slots, token, t).1;
            && KeysOutliveTokens(r, t)
            && CountAt(r, k, u) == (if !Charges(rates, k) then CountAt(d, k, u)
                                    else if Window(u) == Window(t) then CountAt(d, k, t) + 1 else 0)
            && Live(r, k, u) == (if !Charges(slots, k) then Live(d, k, u)
                                 else if Millis(u) < Millis(t) + TOKEN_TTL then Live(d, k, u) + {token}
                                     else Live(d, k, u) - {token})
  {
    CheckSlotsEffect(d, slots, t);
    var d1 := CheckSlots(d, slots, t).1;
    ChargeAllEffect(d1, rates, t, k, u);
    var d2 := ChargeAll(d1, rates, t);
    assert KeysOutliveTokens(d2, t);
    AddTokensEffect(d2, slots, token, t, k, u);
    assert Live(d2, k, u) == Live(d1, k, u);
  }

  // ---- runs ---------------------------------------------------------------------------------------

  datatype Call =
    | Acquire(at: nat, rates: seq<Limit>, slots: seq<Limit>, token: Token)
    | Free(at: nat, keys: seq<string>, token: Token)

  /** Calls at nondecreasing server times, each naming a key once. */
  ghost predicate Ordered(calls: seq<Call>) {
    && (forall i, j :: 0 <= i < j < |calls| ==> calls[i].at <= calls[j].at)
    && (forall i :: 0 <= i < |calls| && calls[i].Acquire? ==>
        DistinctKeys(calls[i].rates) && DistinctKeys(calls[i].slots))
  }

  ghost function After(calls: seq<Call>): Data {
    if calls == [] then Data(map[], map[])
    else
      var d := After(calls[..|calls| - 1]);
      match calls[|calls| - 1]
      case Acquire(at, rates, slots, token) => Admit(d, rates, slots, token, at).1
      case Free(at, keys, token) => Release(d, keys, token, at)
  }

  /** The last call was an admitted one. */
  ghost predicate LastAdmitted(calls: seq<Call>)
    requires calls != []
  {
    var c := calls[|calls| - 1];
    c.Acquire? && Admit(After(calls[..|calls| - 1]), c.rates, c.slots, c.token, c.at).0
  }

  /** How many admitted calls charged rate key k at a time in [lo, hi): the meaning of the counters. */
  ghost function Charged(calls: seq<Call>, k: string, lo: int, hi: int): nat {
    if calls == [] then 0
    else
      var c := calls[|calls| - 1];
      Charged(calls[..|calls| - 1], k, lo, hi) +
      (if LastAdmitted(calls) && Charges(c.rates, k) && lo <= c.at < hi then 1 else 0)
  }

  /** Tokens of slot k at time t: admitted less than a minute ago and not given back. No key, no sweep and no
      expiry of keys occurs in this definition. */
  ghost function Held(calls: seq<Call>, k: string, t: nat): set<Token> {
    if calls == [] then {}
    else
      var c := calls[|calls| - 1];
      var h := Held(calls[..|calls| - 1], k, t);
      if c.Free? && k in c.keys then h - {c.token}
      else if LastAdmitted(calls) && Charges(c.slots, k) then
        if Millis(t) < Millis(c.at) + TOKEN_TTL then h + {c.token} else h - {c.token}
      else h
  }

  ghost predicate NoLaterThan(calls: seq<Call>, t: nat) { forall i :: 0 <= i < |calls| ==> calls[i].at <= t }

  lemma {:induction false} KeysOutlive(calls: seq<Call>, t: nat)
    requires Ordered(calls) && NoLaterThan(calls, t)
    ensures KeysOutliveTokens(After(calls), t)
    decreases |calls|
  {
    if calls != [] {
      var p, c := calls[..|calls| - 1], calls[|calls| - 1];
      KeysOutlive(p, c.at);
      var d := After(p);
      match c
      case Acquire(at, rates, slots, token) =>
        CheckSlotsEffect(d, slots, at);
        if LastAdmitted(calls) { AdmittedEffect(d, rates, slots, token, at, "", at); }
      case Free(at, keys, token) => ReleaseEffect(d, keys, token, at, "", at);
      LaterTime(After(calls), c.at, t);
    }
  }

  lemma LaterTime(d: Data, t: nat, u: nat)
    requires KeysOutliveTokens(d, t) && t <= u
    ensures KeysOutliveTokens(d, u)
  {
  }

  lemma {:induction false} NothingChargedLater(calls: seq<Call>, k: string, lo: int, hi: int, t: nat)
    requires NoLaterThan(calls, t) && t < lo
    ensures Charged(calls, k, lo, hi) == 0
    decreases |calls|
  {
    if calls != [] { NothingChargedLater(calls[..|calls| - 1], k, lo, hi, t); }
  }

  /** The counter of a key is the number of calls admitted in the current window: the two seconds a hash
      lives never lose one. */
  lemma {:induction false} CountersAreExact(calls: seq<Call>, k: string, t: nat)
    requires Ordered(calls) && NoLaterThan(calls, t)
    ensures CountAt(After(calls), k, t) == Charged(calls, k, Window(t) * 1_000_000, (Window(t) + 1) * 1_000_000)
    decreases |calls|
  {
    if calls != [] {
      var p, c := calls[..|calls| - 1], calls[|calls| - 1];
      var d := After(p);
      CountersAreExact(p, k, t);
      CountersAreExact(p, k, c.at);
      KeysOutlive(p, c.at);
      match c
      case Acquire(at, rates, slots, token) =>
        if LastAdmitted(calls) {
          AdmittedEffect(d, rates, slots, token, at, k, t);
          if Window(t) != Window(at) { NothingChargedLater(p, k, Window(t) * 1_000_000, (Window(t) + 1) * 1_000_000,
              at); }
        } else {
          RejectedChangesNothing(d, rates, slots, token, at, k, t);
        }
      case Free(at, keys, token) => ReleaseEffect(d, keys, token, at, k, t);
    }
  }

  /** The live tokens of a key are exactly the held ones: neither the sweep nor the expiry of the key after
      65 s ever forgets a live token. */
  lemma {:induction false} TokensAreExact(calls: seq<Call>, k: string, t: nat)
    requires Ordered(calls) && NoLaterThan(calls, t)
    ensures Live(After(calls), k, t) == Held(calls, k, t)
    decreases |calls|
  {
    if calls != [] {
      var p, c := calls[..|calls| - 1], calls[|calls| - 1];
      var d := After(p);
      TokensAreExact(p, k, t);
      KeysOutlive(p, c.at);
      match c
      case Acquire(at, rates, slots, token) =>
        if LastAdmitted(calls) {
          AdmittedEffect(d, rates, slots, token, at, k, t);
        } else {
          RejectedChangesNothing(d, rates, slots, token, at, k, t);
        }
      case Free(at, keys, token) => ReleaseEffect(d, keys, token, at, k, t);
    }
  }

  /** Every call that charges rate key k does so with the limit max. */
  ghost predicate FixedRate(calls: seq<Call>, k: string, max: int) {
    max > 0 && forall i, j :: 0 <= i < |calls| && calls[i].Acquire? && 0 <= j < |calls[i].rates|
                              && calls[i].rates[j].key == k ==>
      calls[i].rates[j].max == max
  }

  ghost predicate FixedSlots(calls: seq<Call>, k: string, max: int) {
    max > 0 && forall i, j :: 0 <= i < |calls| && calls[i].Acquire? && 0 <= j < |calls[i].slots|
                              && calls[i].slots[j].key == k ==>
      calls[i].slots[j].max == max
  }

  /** No one-second window ever admits more than the limit. */
  lemma {:induction false} WindowsAreCapped(calls: seq<Call>, k: string, max: int, w: int)
    requires Ordered(calls) && FixedRate(calls, k, max)
    ensures Charged(calls, k, w * 1_000_000, (w + 1) * 1_000_000) <= max
    decreases |calls|
  {
    if calls != [] {
      var p, c := calls[..|calls| - 1], calls[|calls| - 1];
      WindowsAreCapped(p, k, max, w);
      if LastAdmitted(calls) && Charges(c.rates, k) && w * 1_000_000 <= c.at < (w + 1) * 1_000_000 {
        assert Window(c.at) == w;
        CountersAreExact(p, k, c.at);
        var j :| 0 <= j < |c.rates| && c.rates[j].key == k && c.rates[j].max > 0;
        assert CountAt(After(p), c.rates[j].key, c.at) < c.rates[j].max;
      }
    }
  }

  lemma {:induction false} ChargedSplits(calls: seq<Call>, k: string, lo: int, mid: int, hi: int)
    requires lo <= mid <= hi
    ensures Charged(calls, k, lo, hi) == Charged(calls, k, lo, mid) + Charged(calls, k, mid, hi)
    decreases |calls|
  {
    if calls != [] { ChargedSplits(calls[..|calls| - 1], k, lo, mid, hi); }
  }

  /** No interval of up to one second, wherever it starts, admits more than twice the limit. */
  lemma IntervalsAreCapped(calls: seq<Call>, k: string, max: int, lo: nat, hi: nat)
    requires Ordered(calls) && FixedRate(calls, k, max) && lo <= hi <= lo + 1_000_000
    ensures Charged(calls, k, lo, hi) <= 2 * max
  {
    var w := Window(lo);
    WindowsAreCapped(calls, k, max, w);
    WindowsAreCapped(calls, k, max, w + 1);
    ChargedSplits(calls, k, w * 1_000_000, (w + 1) * 1_000_000, (w + 2) * 1_000_000);
    ChargedSplits(calls, k, w * 1_000_000, lo, (w + 2) * 1_000_000);
    ChargedSplits(calls, k, lo, hi, (w + 2) * 1_000_000);
  }

  lemma {:induction false} HeldShrinks(calls: seq<Call>, k: string, t: nat, u: nat)
    requires t <= u
    ensures Held(calls, k, u) <= Held(calls, k, t)
    decreases |calls|
  {
    if calls != [] { HeldShrinks(calls[..|calls| - 1], k, t, u); }
  }

  /** No slot ever holds more tokens than its limit. */
  lemma {:induction false} SlotsAreCapped(calls: seq<Call>, k: string, max: int, t: nat)
    requires Ordered(calls) && FixedSlots(calls, k, max) && NoLaterThan(calls, t)
    ensures |Held(calls, k, t)| <= max
    decreases |calls|
  {
    if calls != [] {
      var p, c := calls[..|calls| - 1], calls[|calls| - 1];
      SlotsAreCapped(p, k, max, t);
      SubsetCount(Held(p, k, t) - {c.token}, Held(p, k, t));
      if LastAdmitted(calls) && Charges(c.slots, k) {
        TokensAreExact(p, k, c.at);
        CheckSlotsEffect(After(p), c.slots, c.at);
        var j :| 0 <= j < |c.slots| && c.slots[j].key == k && c.slots[j].max > 0;
        assert |Live(After(p), c.slots[j].key, c.at)| < c.slots[j].max;
        HeldShrinks(p, k, c.at, t);
        SubsetCount(Held(p, k, t), Held(p, k, c.at));
      }
    }
  }
}
