/** The index updates of one block, forwards and backwards. */
module IndexSteps {
  import opened Accounts
  import opened Blocks
  import opened ChainIndexes

  // ---------------------------------------------------------- production counts

  function Incremented(c: Production, epoch: nat, creator: PublicKey): Production {
    var n := Lookup(c.pkEpoch, (epoch, creator));
    Production(
      c.pkEpoch[(epoch, creator) := n + 1],
      c.pkTotal[creator := Lookup(c.pkTotal, creator) + 1],
      c.epoch[epoch := Lookup(c.epoch, epoch) + 1],
      c.sort - {(epoch, n, creator)} + {(epoch, n + 1, creator)})
  }

  /** None of the three counters is zero. */
  predicate CanDecrement(c: Production, epoch: nat, creator: PublicKey) {
    Lookup(c.pkEpoch, (epoch, creator)) > 0 && Lookup(c.pkTotal, creator) > 0 && Lookup(c.epoch, epoch) > 0
  }

  function Decremented(c: Production, epoch: nat, creator: PublicKey): Production
    requires CanDecrement(c, epoch, creator)
  {
    var n := Lookup(c.pkEpoch, (epoch, creator));
    Production(
      c.pkEpoch[(epoch, creator) := n - 1],
      c.pkTotal[creator := Lookup(c.pkTotal, creator) - 1],
      c.epoch[epoch := Lookup(c.epoch, epoch) - 1],
      c.sort - {(epoch, n, creator)} + {(epoch, n - 1, creator)})
  }

  lemma {:induction false} IncrementExact(infos: Infos, chain: seq<StateHash>, h: StateHash, c: Production)
    requires h in infos && ProductionExact(infos, chain, c)
    ensures ProductionExact(infos, chain + [h], Incremented(c, infos[h].epoch, infos[h].creator))
  {
    forall e: nat, pk: PublicKey ensures CountsOk(infos, chain + [h],
                                                  Incremented(c, infos[h].epoch, infos[h].creator), e, pk) {
      assert CountsOk(infos, chain, c, e, pk);
      CountsPush(infos, chain, h, e, pk);
    }
  }

  lemma {:induction false} CountsPush(infos: Infos, chain: seq<StateHash>, h: StateHash, e: nat, pk: PublicKey)
    requires h in infos
    ensures Produced(infos, chain + [h], Some(e), Some(pk)) ==
            Produced(infos, chain, Some(e), Some(pk)) + if infos[h].epoch == e && infos[h].creator == pk then 1 else 0
    ensures Produced(infos, chain + [h], None, Some(pk)) ==
              Produced(infos, chain, None, Some(pk)) + if infos[h].creator == pk then 1 else 0
    ensures Produced(infos, chain + [h], Some(e), None) ==
              Produced(infos, chain, Some(e), None) + if infos[h].epoch == e then 1 else 0
  {
    ProducedPush(infos, chain, h, Some(e), Some(pk));
    ProducedPush(infos, chain, h, None, Some(pk));
    ProducedPush(infos, chain, h, Some(e), None);
  }

  /** The assertions of the decrement hold, and it undoes the increment. */
  lemma {:induction false} DecrementExact(infos: Infos, chain: seq<StateHash>, h: StateHash, c: Production)
    requires h in infos && ProductionExact(infos, chain + [h], c)
    ensures CanDecrement(c, infos[h].epoch, infos[h].creator)
    ensures ProductionExact(infos, chain, Decremented(c, infos[h].epoch, infos[h].creator))
  {
    var epoch, creator := infos[h].epoch, infos[h].creator;
    assert CountsOk(infos, chain + [h], c, epoch, creator);
    CountsPush(infos, chain, h, epoch, creator);
    forall e: nat, pk: PublicKey ensures CountsOk(infos, chain, Decremented(c, epoch, creator), e, pk) {
      assert CountsOk(infos, chain + [h], c, e, pk);
      CountsPush(infos, chain, h, e, pk);
    }
  }

  // ------------------------------------------------------------------ usernames

  function Pushed(t: Usernames, pk: PublicKey, name: Username): Usernames {
    var i := if pk in t.num then t.num[pk] + 1 else 0;
    Usernames(t.num[pk := i], t.index[(pk, i) := name])
  }

  /** A key without an entry is reported and passed over. */
  function Popped(t: Usernames, pk: PublicKey): Usernames {
    if pk !in t.num then t
    else
      var n := t.num[pk];
      Usernames(if n == 0 then t.num - {pk} else t.num[pk := n - 1], t.index - {(pk, n)})
  }

  lemma {:induction false} PushStack(t: Usernames, pk: PublicKey, name: Username, s: seq<Username>, other: PublicKey,
                                     s': seq<Username>)
    requires HoldsStack(t, pk, s)
    ensures HoldsStack(Pushed(t, pk, name), pk, s + [name])
    ensures other != pk && HoldsStack(t, other, s') ==> HoldsStack(Pushed(t, pk, name), other, s')
  {}

  lemma {:induction false} PopStack(t: Usernames, pk: PublicKey, name: Username, s: seq<Username>, other: PublicKey,
                                    s': seq<Username>)
    requires HoldsStack(t, pk, s + [name])
    ensures HoldsStack(Popped(t, pk), pk, s)
    ensures other != pk && HoldsStack(t, other, s') ==> HoldsStack(Popped(t, pk), other, s')
  {}

  /** `keys` are done as of `after`, the others as of `before`. */
  ghost predicate Between(infos: Infos, before: seq<StateHash>, after: seq<StateHash>, keys: set<PublicKey>,
                          t: Usernames) {
    forall pk: PublicKey {:trigger HalfWay(infos, before, after, keys, t, pk)} ::
        HalfWay(infos, before, after, keys, t, pk)
  }

  ghost predicate HalfWay(infos: Infos, before: seq<StateHash>, after: seq<StateHash>, keys: set<PublicKey>,
                          t: Usernames, pk: PublicKey) {
    HoldsStack(t, pk, Stack(infos, if pk in keys then after else before, pk))
  }

  lemma {:induction false} SameStack(infos: Infos, path: seq<StateHash>, h: StateHash, pk: PublicKey)
    requires h in infos && pk !in infos[h].usernames
    ensures Stack(infos, path + [h], pk) == Stack(infos, path, pk)
  {
    StackPush(infos, path, h, pk);
    assert Stack(infos, path, pk) + [] == Stack(infos, path, pk);
  }

  lemma {:induction false} NoneDone(infos: Infos, before: seq<StateHash>, after: seq<StateHash>, t: Usernames)
    requires UsernamesExact(infos, before, t)
    ensures Between(infos, before, after, {}, t)
  {
    forall pk: PublicKey ensures HalfWay(infos, before, after, {}, t, pk) { assert StackOk(infos, before, t, pk); }
  }

  lemma {:induction false} AllDone(infos: Infos, path: seq<StateHash>, h: StateHash, t: Usernames)
    requires h in infos
    ensures Between(infos, path, path + [h], infos[h].usernames.Keys, t) ==> UsernamesExact(infos, path + [h], t)
    ensures Between(infos, path + [h], path, infos[h].usernames.Keys, t) ==> UsernamesExact(infos, path, t)
  {
    forall pk: PublicKey
      ensures Between(infos, path, path + [h], infos[h].usernames.Keys, t) ==> StackOk(infos, path + [h], t, pk)
      ensures Between(infos, path + [h], path, infos[h].usernames.Keys, t) ==> StackOk(infos, path, t, pk)
    {
      assert HalfWay(infos, path, path + [h], infos[h].usernames.Keys, t, pk) ||
             !Between(infos, path, path + [h], infos[h].usernames.Keys, t);
      assert HalfWay(infos, path + [h], path, infos[h].usernames.Keys, t, pk) ||
             !Between(infos, path + [h], path, infos[h].usernames.Keys, t);
      if pk !in infos[h].usernames { SameStack(infos, path, h, pk); }
    }
  }

  lemma {:induction false} PushOne(infos: Infos, path: seq<StateHash>, h: StateHash, keys: set<PublicKey>, t: Usernames,
                                   pk: PublicKey)
    requires h in infos && pk in infos[h].usernames && pk !in keys && Between(infos, path, path + [h], keys, t)
    ensures Between(infos, path, path + [h], keys + {pk}, Pushed(t, pk, infos[h].usernames[pk]))
  {
    StackPush(infos, path, h, pk);
    forall other: PublicKey
      ensures HalfWay(infos, path, path + [h], keys + {pk}, Pushed(t, pk, infos[h].usernames[pk]), other)
    {
      assert HalfWay(infos, path, path + [h], keys, t, pk) && HalfWay(infos, path, path + [h], keys, t, other);
      PushStack(t, pk, infos[h].usernames[pk], Stack(infos, path, pk), other,
                Stack(infos, if other in keys then path + [h] else path, other));
    }
  }

  lemma {:induction false} PopOne(infos: Infos, path: seq<StateHash>, h: StateHash, keys: set<PublicKey>, t: Usernames,
                                  pk: PublicKey)
    requires h in infos && pk in infos[h].usernames && pk !in keys && Between(infos, path + [h], path, keys, t)
    ensures Between(infos, path + [h], path, keys + {pk}, Popped(t, pk))
  {
    StackPush(infos, path, h, pk);
    forall other: PublicKey
      ensures HalfWay(infos, path + [h], path, keys + {pk}, Popped(t, pk), other)
    {
      assert HalfWay(infos, path + [h], path, keys, t, pk) && HalfWay(infos, path + [h], path, keys, t, other);
      PopStack(t, pk, infos[h].usernames[pk], Stack(infos, path, pk), other,
               Stack(infos, if other in keys then path else path + [h], other));
    }
  }

  /** Pushes the usernames of a block, its keys in any order. */
  method PushUsernames(infos: Infos, ghost path: seq<StateHash>, h: StateHash, t: Usernames) returns (t': Usernames)
    requires h in infos && UsernamesExact(infos, path, t)
    ensures UsernamesExact(infos, path + [h], t')
  {
    var todo := infos[h].usernames.Keys;
    ghost var done: set<PublicKey> := {};
    t' := t;
    NoneDone(infos, path, path + [h], t);
    while todo != {}
      invariant todo <= infos[h].usernames.Keys && done == infos[h].usernames.Keys - todo
      invariant Between(infos, path, path + [h], done, t')
      decreases |todo|
    {
      var pk :| pk in todo;
      PushOne(infos, path, h, done, t', pk);
      t' := Pushed(t', pk, infos[h].usernames[pk]);
      todo, done := todo - {pk}, done + {pk};
    }
    assert done == infos[h].usernames.Keys;
    AllDone(infos, path, h, t');
  }

  /** Pops them again. */
  method PopUsernames(infos: Infos, ghost path: seq<StateHash>, h: StateHash, t: Usernames) returns (t': Usernames)
    requires h in infos && UsernamesExact(infos, path + [h], t)
    ensures UsernamesExact(infos, path, t')
  {
    var todo := infos[h].usernames.Keys;
    ghost var done: set<PublicKey> := {};
    t' := t;
    NoneDone(infos, path + [h], path, t);
    while todo != {}
      invariant todo <= infos[h].usernames.Keys && done == infos[h].usernames.Keys - todo
      invariant Between(infos, path + [h], path, done, t')
      decreases |todo|
    {
      var pk :| pk in todo;
      PopOne(infos, path, h, done, t', pk);
      t' := Popped(t', pk);
      todo, done := todo - {pk}, done + {pk};
    }
    assert done == infos[h].usernames.Keys;
    AllDone(infos, path, h, t');
  }

  // ----------------------------------------------------------- heights and slots

  ghost predicate StampOk(base: nat, m: map<nat, StateHash>, chain: seq<StateHash>, low: set<nat>, from: nat, cut: nat,
                          top: nat, n: nat) {
    && (n in m <==> n in low || (from <= n < base + |chain| && n <= cut) || (n == top && base + |chain| > cut + 1))
    && (n in low || (from <= n < base + |chain| && n <= cut) ==>
          base <= n < base + |chain| && n <= cut && m[n] == chain[n - base])
  }

  /** The entries `low` below height `from` are as they were.  From there on, blocks up to height
      `cut` are filed under their height; of the longer ones only the last, under `top`. */
  ghost predicate Stamped(base: nat, m: map<nat, StateHash>, chain: seq<StateHash>, low: set<nat>, from: nat, cut: nat,
                          top: nat) {
    && chain != []
    && (forall n: nat {:trigger StampOk(base, m, chain, low, from, cut, top, n)} ::
          StampOk(base, m, chain, low, from, cut, top, n))
    && (base + |chain| > cut + 1 ==> top in m && m[top] == chain[|chain| - 1])
  }

  lemma {:induction false} StampStart(base: nat, m: map<nat, StateHash>, chain: seq<StateHash>, cut: nat, top: nat)
    requires LengthSound(base, m, chain) && chain != [] && base + |chain| <= cut + 1
    ensures Stamped(base, m, chain, m.Keys, base + |chain|, cut, top)
  {
    var low, from := m.Keys, base + |chain|;
    forall n: nat ensures StampOk(base, m, chain, low, from, cut, top, n) { assert HeightOk(base, m, chain, n); }
  }

  lemma {:induction false} StampPush(base: nat, m: map<nat, StateHash>, chain: seq<StateHash>, h: StateHash,
                                     low: set<nat>, from: nat, cut: nat, top: nat)
    requires Stamped(base, m, chain, low, from, cut, top) && from <= base + |chain| <= top
    ensures Stamped(base, m[(if base + |chain| > cut then top else base + |chain|) := h], chain + [h], low,
                    from, cut, top)
  {
    var m' := m[(if base + |chain| > cut then top else base + |chain|) := h];
    forall n: nat ensures StampOk(base, m', chain + [h], low, from, cut, top, n) {
      assert StampOk(base, m, chain, low, from, cut, top, n);
    }
  }

  ghost predicate KeptAt(m: map<nat, StateHash>, m': map<nat, StateHash>, from: nat, cut: nat, top: nat, n: nat) {
    n in m' <==> (n in m && n < from) || from <= n <= cut || n == top
  }

  /** The heights filed after a reorg that leaves the chain below `from`: those that were filed
      there, all up to the old tip, and the new tip. */
  ghost predicate Kept(m: map<nat, StateHash>, m': map<nat, StateHash>, from: nat, cut: nat, top: nat) {
    forall n: nat {:trigger KeptAt(m, m', from, cut, top, n)} :: KeptAt(m, m', from, cut, top, n)
  }

  lemma {:induction false} StampedSound(base: nat, m: map<nat, StateHash>, chain: seq<StateHash>, low: set<nat>,
                                        from: nat, cut: nat, top: nat, before: map<nat, StateHash>)
    requires Stamped(base, m, chain, low, from, cut, top) && base + |chain| - 1 == top >= cut >= base && from <= top
    requires forall n: nat :: n in low <==> n < from && n in before
    ensures LengthSound(base, m, chain) && Kept(before, m, from, cut, top)
  {
    forall n: nat ensures HeightOk(base, m, chain, n) && KeptAt(before, m, from, cut, top, n) {
      assert StampOk(base, m, chain, low, from, cut, top, n);
    }
  }

  /** No height up to the old tip goes missing. */
  lemma {:induction false} KeptUpTo(base: nat, m: map<nat, StateHash>, m': map<nat, StateHash>, from: nat, cut: nat,
                                    top: nat, f: int)
    requires Kept(m, m', from, cut, top) && LengthsUpTo(base, m, f) && f <= cut
    ensures LengthsUpTo(base, m', f)
  {
    forall n: nat | base <= n <= f ensures n in m' { assert KeptAt(m, m', from, cut, top, n); }
  }

  /** The height index stays exact precisely if the tip rises by at most one. */
  lemma {:induction false} KeptExactIff(base: nat, m: map<nat, StateHash>, m': map<nat, StateHash>,
                                        chain': seq<StateHash>, from: nat, cut: nat, top: nat)
    requires Kept(m, m', from, cut, top) && LengthsUpTo(base, m, cut) && LengthSound(base, m', chain')
    requires base + |chain'| - 1 == top >= cut >= base && base <= from <= cut + 1
    ensures LengthExact(base, m', chain') <==> top <= cut + 1
  {
    LengthExactIff(base, m', chain');
    KeptUpTo(base, m, m', from, cut, top, cut);
    if top > cut + 1 {
      assert KeptAt(m, m', from, cut, top, cut + 1);
    } else {
      assert KeptAt(m, m', from, cut, top, top);
    }
  }

  /** A chain whose slots grow. */
  ghost predicate SlotsGrow(u: Universe, chain: seq<StateHash>) {
    forall i, j :: 0 <= i < j < |chain| ==> SlotOf(u, chain[i]) < SlotOf(u, chain[j])
  }

  lemma {:induction false} ChainSlotsGrow(u: Universe, genesis: StateHash, tip: StateHash)
    requires Consistent(u) && Ascending(u) && Descends(u, genesis, tip)
    ensures SlotsGrow(u, Chain(u, genesis, tip))
    decreases Len(u, tip)
  {
    ChainAt(u, genesis, tip);
    if tip != genesis {
      var p := u[tip].parentHash;
      assert HasParent(u, tip);
      ChainSlotsGrow(u, genesis, p);
      assert Chain(u, genesis, tip) == Chain(u, genesis, p) + [tip];
    }
  }

  lemma {:induction false} NextIsLater(u: Universe, chain: seq<StateHash>, k: nat)
    requires SlotsGrow(u, chain) && k < |chain|
    ensures LaterSlot(u, chain[..k], chain[k])
  {
    forall x ensures Earlier(u, chain[..k], chain[k], x) {}
  }
}
