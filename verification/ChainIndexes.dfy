/** What the indexes of the best chain should hold: each one as a recount over the chain,
    and what one block more or less does to it. */
module ChainIndexes {
  import opened Accounts
  import opened Blocks

  /** What the store knows of a block besides its place in the tree. */
  datatype BlockInfo = BlockInfo(
    creator: PublicKey,
    epoch: nat,
    usernames: map<PublicKey, Username>,
    snarks: nat,
    internalCommands: nat)

  type Infos = map<StateHash, BlockInfo>

  function Lookup<K(==)>(m: map<K, nat>, k: K): nat {
    if k in m then m[k] else 0
  }

  // ----------------------------------------------------------------- canonicity

  ghost predicate LengthOk(base: nat, m: map<nat, StateHash>, chain: seq<StateHash>, n: nat) {
    && (n in m <==> base <= n < base + |chain|)
    && (n in m ==> m[n] == chain[n - base])
  }

  /** One entry per height, from the height of the chain's first block on. */
  ghost predicate LengthExact(base: nat, m: map<nat, StateHash>, chain: seq<StateHash>) {
    forall n: nat {:trigger LengthOk(base, m, chain, n)} :: LengthOk(base, m, chain, n)
  }

  ghost predicate HeightOk(base: nat, m: map<nat, StateHash>, chain: seq<StateHash>, n: nat) {
    n in m ==> base <= n < base + |chain| && m[n] == chain[n - base]
  }

  /** Entries only for the blocks of the chain, each under its height; some may be missing. */
  ghost predicate LengthSound(base: nat, m: map<nat, StateHash>, chain: seq<StateHash>) {
    forall n: nat {:trigger HeightOk(base, m, chain, n)} :: HeightOk(base, m, chain, n)
  }

  /** No entry is missing up to height `top`. */
  ghost predicate LengthsUpTo(base: nat, m: map<nat, StateHash>, top: int) {
    forall n: nat :: base <= n <= top ==> n in m
  }

  lemma {:induction false} LengthExactIff(base: nat, m: map<nat, StateHash>, chain: seq<StateHash>)
    ensures LengthExact(base, m, chain) <==> LengthSound(base, m, chain) && LengthsUpTo(base, m, base + |chain| - 1)
  {
    if LengthExact(base, m, chain) {
      forall n: nat ensures HeightOk(base, m, chain, n) { assert LengthOk(base, m, chain, n); }
      forall n: nat | base <= n <= base + |chain| - 1 ensures n in m { assert LengthOk(base, m, chain, n); }
    }
    if LengthSound(base, m, chain) && LengthsUpTo(base, m, base + |chain| - 1) {
      forall n: nat ensures LengthOk(base, m, chain, n) { assert HeightOk(base, m, chain, n); }
    }
  }

  ghost function SlotOf(u: Universe, h: StateHash): nat {
    if h in u then u[h].slot else 0
  }

  ghost predicate SlotOk(u: Universe, m: map<nat, StateHash>, chain: seq<StateHash>, s: nat) {
    s in m ==> m[s] in chain && SlotOf(u, m[s]) == s
  }

  ghost predicate FiledBySlot(u: Universe, m: map<nat, StateHash>, chain: seq<StateHash>, h: StateHash) {
    h in chain ==> SlotOf(u, h) in m && m[SlotOf(u, h)] == h
  }

  /** The blocks of the chain, filed under their slots, and nothing else. */
  ghost predicate SlotExact(u: Universe, m: map<nat, StateHash>, chain: seq<StateHash>) {
    && (forall s: nat {:trigger SlotOk(u, m, chain, s)} :: SlotOk(u, m, chain, s))
    && (forall h {:trigger FiledBySlot(u, m, chain, h)} :: FiledBySlot(u, m, chain, h))
  }

  /** Slots grow from parent to child. */
  ghost predicate Ascending(u: Universe) {
    forall h {:trigger HasParent(u, h)} :: HasParent(u, h) ==> u[u[h].parentHash].slot < u[h].slot
  }

  ghost function Chain(u: Universe, genesis: StateHash, tip: StateHash): seq<StateHash> {
    [genesis] + Path(u, genesis, tip)
  }

  lemma {:induction false} ChainAt(u: Universe, genesis: StateHash, tip: StateHash)
    requires Consistent(u) && Ascending(u) && Descends(u, genesis, tip)
    ensures var chain := Chain(u, genesis, tip);
            && genesis in u && tip in u && |chain| == u[tip].length - u[genesis].length + 1
            && (forall i :: 0 <= i < |chain| ==> chain[i] in u && u[chain[i]].length == u[genesis].length + i)
            && (forall i :: 0 <= i < |chain| - 1 ==> u[chain[i]].slot < u[tip].slot)
            && chain[|chain| - 1] == tip
    decreases Len(u, tip)
  {
    DescendsLength(u, genesis, tip);
    if tip != genesis {
      var p := u[tip].parentHash;
      ChainAt(u, genesis, p);
      assert Chain(u, genesis, tip) == Chain(u, genesis, p) + [tip];
      assert HasParent(u, tip);
    }
  }

  lemma {:induction false} LengthPop(base: nat, m: map<nat, StateHash>, chain: seq<StateHash>, h: StateHash)
    requires LengthSound(base, m, chain + [h])
    ensures LengthSound(base, m - {base + |chain|}, chain)
  {
    var m' := m - {base + |chain|};
    forall n: nat ensures HeightOk(base, m', chain, n) { assert HeightOk(base, m, chain + [h], n); }
  }

  ghost predicate Earlier(u: Universe, chain: seq<StateHash>, h: StateHash, x: StateHash) {
    x in chain ==> SlotOf(u, x) < SlotOf(u, h)
  }

  /** `h` is later than every block of the chain. */
  ghost predicate LaterSlot(u: Universe, chain: seq<StateHash>, h: StateHash) {
    forall x {:trigger Earlier(u, chain, h, x)} :: Earlier(u, chain, h, x)
  }

  lemma {:induction false} SlotPop(u: Universe, m: map<nat, StateHash>, chain: seq<StateHash>, h: StateHash)
    requires SlotExact(u, m, chain + [h]) && LaterSlot(u, chain, h)
    ensures SlotExact(u, m - {SlotOf(u, h)}, chain)
  {
    var m', longer := m - {SlotOf(u, h)}, chain + [h];
    assert FiledBySlot(u, m, longer, h) && h in longer;
    forall s: nat ensures SlotOk(u, m', chain, s) { assert SlotOk(u, m, longer, s); }
    forall x ensures FiledBySlot(u, m', chain, x) { assert FiledBySlot(u, m, longer, x) && Earlier(u, chain, h, x); }
  }

  lemma {:induction false} SlotPush(u: Universe, m: map<nat, StateHash>, chain: seq<StateHash>, h: StateHash)
    requires SlotExact(u, m, chain) && LaterSlot(u, chain, h)
    ensures SlotExact(u, m[SlotOf(u, h) := h], chain + [h])
  {
    var m', longer := m[SlotOf(u, h) := h], chain + [h];
    forall s: nat ensures SlotOk(u, m', longer, s) { assert SlotOk(u, m, chain, s); }
    forall x ensures FiledBySlot(u, m', longer, x) { assert FiledBySlot(u, m, chain, x) && Earlier(u, chain, h, x); }
  }

  /** An extra entry leaves the height index sound precisely if it is the chain's block there. */
  lemma {:induction false} ExtraHeight(base: nat, m: map<nat, StateHash>, chain: seq<StateHash>, n: nat, h: StateHash)
    requires LengthSound(base, m, chain)
    ensures LengthSound(base, m[n := h], chain) <==> base <= n < base + |chain| && chain[n - base] == h
  {
    var m' := m[n := h];
    if LengthSound(base, m', chain) { assert HeightOk(base, m', chain, n); }
    if base <= n < base + |chain| && chain[n - base] == h {
      forall k: nat ensures HeightOk(base, m', chain, k) { assert HeightOk(base, m, chain, k); }
    }
  }

  /** An extra entry leaves an exact slot index exact only if it was there already. */
  lemma {:induction false} ExtraSlot(u: Universe, m: map<nat, StateHash>, chain: seq<StateHash>, n: nat, h: StateHash)
    requires SlotExact(u, m, chain)
    ensures SlotExact(u, m[n := h], chain) <==> h in chain && SlotOf(u, h) == n
  {
    var m' := m[n := h];
    assert FiledBySlot(u, m, chain, h);
    assert h in chain && SlotOf(u, h) == n ==> m' == m;
    if SlotExact(u, m', chain) { assert SlotOk(u, m', chain, n); }
  }

  // ---------------------------------------------------------- production counts

  ghost predicate Made(infos: Infos, h: StateHash, epoch: Option<nat>, pk: Option<PublicKey>) {
    && h in infos
    && (epoch.Some? ==> infos[h].epoch == epoch.value)
    && (pk.Some? ==> infos[h].creator == pk.value)
  }

  /** The number of blocks of the chain made in the epoch, by the creator. */
  ghost function Produced(infos: Infos, chain: seq<StateHash>, epoch: Option<nat>, pk: Option<PublicKey>): nat {
    if chain == [] then 0
    else Produced(infos, chain[..|chain| - 1], epoch, pk) + if Made(infos, chain[|chain| - 1], epoch, pk) then 1 else 0
  }

  lemma {:induction false} ProducedPush(infos: Infos, chain: seq<StateHash>, h: StateHash, epoch: Option<nat>,
                                        pk: Option<PublicKey>)
    ensures Produced(infos, chain + [h], epoch, pk) ==
              Produced(infos, chain, epoch, pk) + if Made(infos, h, epoch, pk) then 1 else 0
  {
    assert (chain + [h])[..|chain|] == chain;
  }

  type EpochPk = (nat, PublicKey)

  /** The four column families of canonical block production. */
  datatype Production = Production(
    pkEpoch: map<EpochPk, nat>,
    pkTotal: map<PublicKey, nat>,
    epoch: map<nat, nat>,
    sort: set<(nat, nat, PublicKey)>)

  ghost predicate CountsOk(infos: Infos, chain: seq<StateHash>, c: Production, e: nat, pk: PublicKey) {
    && Lookup(c.pkEpoch, (e, pk)) == Produced(infos, chain, Some(e), Some(pk))
    && Lookup(c.pkTotal, pk) == Produced(infos, chain, None, Some(pk))
    && Lookup(c.epoch, e) == Produced(infos, chain, Some(e), None)
    && (forall n: nat :: (e, n, pk) in c.sort <==> (e, pk) in c.pkEpoch && c.pkEpoch[(e, pk)] == n)
  }

  /** The counts are a recount over the chain, and the sort index has exactly one entry,
      the current count, per epoch and creator that ever had one. */
  ghost predicate ProductionExact(infos: Infos, chain: seq<StateHash>, c: Production) {
    forall e: nat, pk: PublicKey {:trigger CountsOk(infos, chain, c, e, pk)} :: CountsOk(infos, chain, c, e, pk)
  }

  // ------------------------------------------------------------------ usernames

  /** The usernames that a key took along the path, in order. */
  ghost function Stack(infos: Infos, path: seq<StateHash>, pk: PublicKey): seq<Username> {
    if path == [] then []
    else
      var h := path[|path| - 1];
      Stack(infos, path[..|path| - 1], pk) +
      if h in infos && pk in infos[h].usernames then [infos[h].usernames[pk]] else []
  }

  lemma {:induction false} StackPush(infos: Infos, path: seq<StateHash>, h: StateHash, pk: PublicKey)
    ensures Stack(infos, path + [h], pk) ==
            Stack(infos, path, pk) + if h in infos && pk in infos[h].usernames then [infos[h].usernames[pk]] else []
  {
    assert (path + [h])[..|path|] == path;
  }

  type PkIndex = (PublicKey, nat)

  /** The two column families of usernames: the index of the latest, and all by index. */
  datatype Usernames = Usernames(num: map<PublicKey, nat>, index: map<PkIndex, Username>)

  ghost predicate HoldsStack(t: Usernames, pk: PublicKey, s: seq<Username>) {
    && (pk in t.num <==> s != [])
    && (pk in t.num ==> t.num[pk] == |s| - 1)
    && (forall i: nat :: (pk, i) in t.index <==> i < |s|)
    && (forall i: nat :: i < |s| ==> t.index[(pk, i)] == s[i])
  }

  ghost predicate StackOk(infos: Infos, path: seq<StateHash>, t: Usernames, pk: PublicKey) {
    HoldsStack(t, pk, Stack(infos, path, pk))
  }

  ghost predicate UsernamesExact(infos: Infos, path: seq<StateHash>, t: Usernames) {
    forall pk: PublicKey {:trigger StackOk(infos, path, t, pk)} :: StackOk(infos, path, t, pk)
  }

  // --------------------------------------------------------------------- totals

  ghost function SnarkSum(infos: Infos, path: seq<StateHash>): nat {
    if path == [] then 0
    else var h := path[|path| - 1]; SnarkSum(infos, path[..|path| - 1]) + if h in infos then infos[h].snarks else 0
  }

  ghost function InternalSum(infos: Infos, path: seq<StateHash>): nat {
    if path == [] then 0
    else var h := path[|path| - 1];
      InternalSum(infos, path[..|path| - 1]) + if h in infos then infos[h].internalCommands else 0
  }

  lemma {:induction false} SumsPush(infos: Infos, path: seq<StateHash>, h: StateHash)
    requires h in infos
    ensures SnarkSum(infos, path + [h]) == SnarkSum(infos, path) + infos[h].snarks
    ensures InternalSum(infos, path + [h]) == InternalSum(infos, path) + infos[h].internalCommands
  {
    assert (path + [h])[..|path|] == path;
  }
}
