/** The store's best block and the indexes that follow it through reorgs. */
module IndexerStores {
  import opened Accounts
  import opened Blocks
  import opened Reorgs
  import opened ChainIndexes
  import opened IndexSteps

  datatype Canonicity = Canonical | Orphaned

  // ------------------------------------------------- the chain during an update

  ghost predicate OffAt(u: Universe, upd: DbBlockUpdate, r: seq<StateHash>, cut: nat, top: nat, i: nat) {
    i < |upd.unapply| == |r| ==> upd.unapply[i] == Entry(u, r[|r| - 1 - i], cut, top)
  }

  ghost predicate OnAt(u: Universe, upd: DbBlockUpdate, a: seq<StateHash>, cut: nat, top: nat, i: nat) {
    i < |upd.apply| == |a| ==> upd.apply[i] == Entry(u, a[i], cut, top)
  }

  /** The update takes off `r`, newest first, and puts on `a`, oldest first. */
  ghost predicate Swaps(u: Universe, upd: DbBlockUpdate, r: seq<StateHash>, a: seq<StateHash>, cut: nat, top: nat) {
    && |upd.unapply| == |r| && |upd.apply| == |a|
    && (forall i: nat {:trigger OffAt(u, upd, r, cut, top, i)} :: OffAt(u, upd, r, cut, top, i))
    && (forall i: nat {:trigger OnAt(u, upd, a, cut, top, i)} :: OnAt(u, upd, a, cut, top, i))
  }

  lemma {:induction false} ReorgSwaps(u: Universe, upd: DbBlockUpdate, r: seq<StateHash>, a: seq<StateHash>, cut: nat,
                                      top: nat)
    requires upd.unapply == Reverse(Entries(u, r, cut, top)) && upd.apply == Entries(u, a, cut, top)
    ensures Swaps(u, upd, r, a, cut, top)
  {
    forall i: nat ensures OffAt(u, upd, r, cut, top, i) {
      if i < |r| {
        ReverseAt(Entries(u, r, cut, top), i);
        EntriesAt(u, r, cut, top, |r| - 1 - i);
      }
    }
    forall i: nat ensures OnAt(u, upd, a, cut, top, i) {
      if i < |a| { EntriesAt(u, a, cut, top, i); }
    }
  }

  /** What is left of a sequence after dropping the last `i` elements. */
  ghost function Minus(s: seq<StateHash>, i: nat): seq<StateHash>
    requires i <= |s|
  {
    s[..|s| - i]
  }

  lemma {:induction false} UnapplyAt(u: Universe, upd: DbBlockUpdate, c: seq<StateHash>, r: seq<StateHash>,
                                     a: seq<StateHash>, cut: nat, top: nat, i: nat)
    requires Swaps(u, upd, r, a, cut, top) && i < |upd.unapply|
    ensures i < |r| && upd.unapply[i] == Entry(u, r[|r| - 1 - i], cut, top)
    ensures c + Minus(r, i) == (c + Minus(r, i + 1)) + [r[|r| - 1 - i]]
  {
    assert OffAt(u, upd, r, cut, top, i);
  }

  lemma {:induction false} ApplyAt(u: Universe, upd: DbBlockUpdate, c: seq<StateHash>, r: seq<StateHash>,
                                   a: seq<StateHash>, cut: nat, top: nat, i: nat)
    requires Swaps(u, upd, r, a, cut, top) && i < |upd.apply|
    ensures i < |a| && upd.apply[i] == Entry(u, a[i], cut, top)
    ensures c + a[..i + 1] == (c + a[..i]) + [a[i]]
  {
    assert OnAt(u, upd, a, cut, top, i);
  }

  lemma {:induction false} MinusEnds(c: seq<StateHash>, r: seq<StateHash>)
    ensures c + Minus(r, 0) == c + r && c + Minus(r, |r|) == c
  {}

  lemma {:induction false} TakeEnds(c: seq<StateHash>, a: seq<StateHash>)
    ensures c + a[..0] == c && c + a[..|a|] == c + a
  {}

  /** The old chain with the unapplied blocks taken off and the applied ones put on is the
      new chain, and no block is both. */
  lemma {:induction false} ReorgSwapsChains(u: Universe, genesis: StateHash, old_: StateHash, new_: StateHash,
                                            x: StateHash)
    requires Consistent(u) && Descends(u, genesis, x) && IsFork(u, old_, new_, x)
    ensures Path(u, genesis, old_) == Path(u, genesis, x) + Path(u, x, old_)
    ensures Path(u, genesis, new_) == Path(u, genesis, x) + Path(u, x, new_)
    ensures forall h :: h in Path(u, x, old_) ==> h !in Path(u, x, new_)
  {
    DescendsTransitive(u, genesis, x, old_);
    DescendsTransitive(u, genesis, x, new_);
    PathMembers(u, x, old_);
    PathMembers(u, x, new_);
    forall h | h in Path(u, x, old_) ensures h !in Path(u, x, new_) {
      if h in Path(u, x, new_) {
        DescendsLength(u, h, x);
        DescendsLength(u, x, h);
      }
    }
  }

  lemma {:induction false} PathKnown(u: Universe, g: StateHash, tip: StateHash)
    requires Consistent(u) && Descends(u, g, tip)
    ensures forall h :: h in Path(u, g, tip) ==> h in u
  {
    PathMembers(u, g, tip);
  }

  /** Storing another block does not change the chain of a stored one. */
  lemma {:induction false} PathGrows(u: Universe, u': Universe, g: StateHash, tip: StateHash)
    requires Consistent(u) && Consistent(u') && Descends(u, g, tip)
    requires forall h :: h in u ==> h in u' && u'[h] == u[h]
    ensures Descends(u', g, tip) && Path(u', g, tip) == Path(u, g, tip)
    decreases Len(u, tip)
  {
    assert Linked(u, tip) && Linked(u', tip);
    if tip != g { PathGrows(u, u', g, u[tip].parentHash); }
  }

  ghost predicate ClimbsTo(u: Universe, base: nat, chain: seq<StateHash>, k: nat) {
    k < |chain| ==> chain[k] in u && u[chain[k]].length == base + k && LaterSlot(u, chain[..k], chain[k])
  }

  /** `chain` starts at height `base`, every next block one higher and in a later slot. */
  ghost predicate Climbs(u: Universe, base: nat, chain: seq<StateHash>) {
    forall k: nat {:trigger ClimbsTo(u, base, chain, k)} :: ClimbsTo(u, base, chain, k)
  }

  lemma {:induction false} ChainClimbs(u: Universe, genesis: StateHash, tip: StateHash)
    requires Consistent(u) && Ascending(u) && Descends(u, genesis, tip)
    ensures genesis in u && Climbs(u, u[genesis].length, Chain(u, genesis, tip))
    ensures Len(u, tip) == u[genesis].length + |Chain(u, genesis, tip)| - 1
  {
    ChainAt(u, genesis, tip);
    ChainSlotsGrow(u, genesis, tip);
    var chain := Chain(u, genesis, tip);
    forall k: nat ensures ClimbsTo(u, u[genesis].length, chain, k) {
      if k < |chain| { NextIsLater(u, chain, k); }
    }
  }

  /** What the next block of a climbing chain is recorded with. */
  lemma {:induction false} ClimbsAt(u: Universe, base: nat, chain: seq<StateHash>, k: nat, cut: nat, top: nat)
    requires Climbs(u, base, chain) && k < |chain|
    ensures LaterSlot(u, chain[..k], chain[k]) && chain[k] in u
    ensures Entry(u, chain[k], cut, top) ==
              BlockUpdate(chain[k], if base + k > cut then top else base + k, SlotOf(u, chain[k]))
  {
    assert ClimbsTo(u, base, chain, k);
  }

  /** The reorg as a swap of chain ends: `c + r` is the old chain and `c + a` the new one. */
  method PlanReorg(u: Universe, genesis: StateHash, old_: StateHash, new_: StateHash)
    returns (upd: Option<DbBlockUpdate>, ghost x: StateHash, ghost c: seq<StateHash>, ghost r: seq<StateHash>,
             ghost a: seq<StateHash>)
    requires Consistent(u) && Ascending(u) && Descends(u, genesis, old_) && Descends(u, genesis, new_)
    ensures upd.Some? <==> Len(u, old_) <= Len(u, new_)
    ensures upd.Some? ==> IsFork(u, old_, new_, x) && Len(u, genesis) + |c| == Len(u, x) + 1
    ensures upd.Some? ==>
      && Swaps(u, upd.value, r, a, Len(u, old_), Len(u, new_))
      && c != [] && c + r == Chain(u, genesis, old_) && c + a == Chain(u, genesis, new_)
      && c[1..] + r == Path(u, genesis, old_) && c[1..] + a == Path(u, genesis, new_)
      && Climbs(u, Len(u, genesis), c + r) && Climbs(u, Len(u, genesis), c + a)
      && Len(u, genesis) + |c + r| == Len(u, old_) + 1 && Len(u, genesis) + |c + a| == Len(u, new_) + 1
      && (old_ != new_ ==> a != [])
      && (forall h :: h in r ==> h in u) && (forall h :: h in a ==> h in u)
  {
    upd, x := ReorgBlocks(u, genesis, old_, new_);
    c, r, a := [genesis] + Path(u, genesis, x), Path(u, x, old_), Path(u, x, new_);
    if upd.Some? {
      ReorgSwaps(u, upd.value, r, a, Len(u, old_), Len(u, new_));
      ReorgSwapsChains(u, genesis, old_, new_, x);
      BothClimb(u, genesis, old_, new_, x);
      assert c[1..] == Path(u, genesis, x);
      DescendsLength(u, genesis, x);
    }
  }

  /** The next block to take off, and the chain below it. */
  lemma {:induction false} NextOff(u: Universe, upd: DbBlockUpdate, base: nat, c: seq<StateHash>, r: seq<StateHash>,
                                   a: seq<StateHash>, cut: nat, top: nat, i: nat)
    requires Swaps(u, upd, r, a, cut, top) && Climbs(u, base, c + r) && base + |c + r| <= cut + 1 && i < |upd.unapply|
    ensures i < |r|
    ensures var e, below := upd.unapply[i], c + Minus(r, i + 1);
            && e.stateHash in u && c + Minus(r, i) == below + [e.stateHash]
            && e.length == base + |below| && e.slot == SlotOf(u, e.stateHash) && LaterSlot(u, below, e.stateHash)
  {
    UnapplyAt(u, upd, c, r, a, cut, top, i);
    var k := |c| + |r| - 1 - i;
    ClimbsAt(u, base, c + r, k, cut, top);
    assert (c + r)[..k] == c + Minus(r, i + 1) && (c + r)[k] == r[|r| - 1 - i];
  }

  /** The next block to put on, and the chain below it. */
  lemma {:induction false} NextOn(u: Universe, upd: DbBlockUpdate, base: nat, c: seq<StateHash>, r: seq<StateHash>,
                                  a: seq<StateHash>, cut: nat, top: nat, i: nat)
    requires Swaps(u, upd, r, a, cut, top) && Climbs(u, base, c + a) && base + |c + a| == top + 1 && i < |upd.apply|
    ensures i < |a|
    ensures var e, below := upd.apply[i], c + a[..i];
            && e.stateHash in u && c + a[..i + 1] == below + [e.stateHash] && base + |below| <= top
            && e.length == (if base + |below| > cut then top else base + |below|)
            && e.slot == SlotOf(u, e.stateHash) && LaterSlot(u, below, e.stateHash)
  {
    ApplyAt(u, upd, c, r, a, cut, top, i);
    var k := |c| + i;
    ClimbsAt(u, base, c + a, k, cut, top);
    assert (c + a)[..k] == c + a[..i] && (c + a)[k] == a[i];
  }

  /** Every index is a recount over the chain from genesis to the tip; usernames and totals
      leave genesis out. */
  ghost predicate Indexed(u: Universe, infos: Infos, g: StateHash, tip: StateHash, c: Production, t: Usernames,
                          snarks: nat, internals: nat) {
    && Descends(u, g, tip)
    && ProductionExact(infos, Chain(u, g, tip), c)
    && UsernamesExact(infos, Path(u, g, tip), t)
    && snarks == SnarkSum(infos, Path(u, g, tip))
    && internals == InternalSum(infos, Path(u, g, tip))
  }

  /** The store: stored blocks, the best tip and the indexes of the best chain. */
  class IndexerStore {
    const genesis: StateHash
    var blocks: Universe
    var infos: Infos
    var bestTip: Option<StateHash>
    var canonicityLength: map<nat, StateHash>
    var canonicitySlot: map<nat, StateHash>
    var production: Production
    var usernames: Usernames
    var snarkTotal: nat
    var internalTotal: nat

    // ------------------------------------------------------------- canonicity

    method UnapplyCanonicity(e: BlockUpdate, ghost base: nat, ghost chain: seq<StateHash>)
      requires e.stateHash in infos && ProductionExact(infos, chain + [e.stateHash], production)
      requires e.length == base + |chain| && e.slot == SlotOf(blocks, e.stateHash)
      requires LaterSlot(blocks, chain, e.stateHash)
      modifies this`canonicityLength, this`canonicitySlot, this`production
      ensures ProductionExact(infos, chain, production)
      ensures old(SlotExact(blocks, canonicitySlot, chain + [e.stateHash])) ==> SlotExact(blocks, canonicitySlot, chain)
      ensures old(LengthSound(base, canonicityLength, chain + [e.stateHash])) ==>
                LengthSound(base, canonicityLength, chain)
      ensures forall n: nat :: n in canonicityLength <==> n in old(canonicityLength) && n != e.length
    {
      ghost var h := e.stateHash;
      if SlotExact(blocks, canonicitySlot, chain + [h]) { SlotPop(blocks, canonicitySlot, chain, h); }
      if LengthSound(base, canonicityLength, chain + [h]) { LengthPop(base, canonicityLength, chain, h); }
      canonicityLength := canonicityLength - {e.length};
      canonicitySlot := canonicitySlot - {e.slot};
      DecrementExact(infos, chain, h, production);
      production := Decremented(production, infos[e.stateHash].epoch, infos[e.stateHash].creator);
    }

    method ApplyCanonicity(e: BlockUpdate, ghost base: nat, ghost chain: seq<StateHash>, ghost low: set<nat>,
                           ghost from: nat, ghost cut: nat, ghost top: nat)
      requires e.stateHash in infos && ProductionExact(infos, chain, production)
      requires e.slot == SlotOf(blocks, e.stateHash) && LaterSlot(blocks, chain, e.stateHash)
      requires from <= base + |chain| <= top && e.length == if base + |chain| > cut then top else base + |chain|
      modifies this`canonicityLength, this`canonicitySlot, this`production
      ensures ProductionExact(infos, chain + [e.stateHash], production)
      ensures old(SlotExact(blocks, canonicitySlot, chain)) ==> SlotExact(blocks, canonicitySlot, chain + [e.stateHash])
      ensures old(Stamped(base, canonicityLength, chain, low, from, cut, top)) ==>
                Stamped(base, canonicityLength, chain + [e.stateHash], low, from, cut, top)
    {
      ghost var h := e.stateHash;
      if SlotExact(blocks, canonicitySlot, chain) { SlotPush(blocks, canonicitySlot, chain, h); }
      if Stamped(base, canonicityLength, chain, low, from, cut, top) {
        StampPush(base, canonicityLength, chain, h, low, from, cut, top);
      }
      canonicityLength := canonicityLength[e.length := e.stateHash];
      canonicitySlot := canonicitySlot[e.slot := e.stateHash];
      IncrementExact(infos, chain, h, production);
      production := Incremented(production, infos[e.stateHash].epoch, infos[e.stateHash].creator);
    }

    method UnapplyCanonicities(upd: DbBlockUpdate, ghost base: nat, ghost c: seq<StateHash>, ghost r: seq<StateHash>,
                               ghost a: seq<StateHash>, ghost cut: nat, ghost top: nat)
      requires Swaps(blocks, upd, r, a, cut, top) && infos.Keys == blocks.Keys
      requires Climbs(blocks, base, c + r) && base + |c + r| <= cut + 1
      requires ProductionExact(infos, c + r, production)
      modifies this`canonicityLength, this`canonicitySlot, this`production
      ensures ProductionExact(infos, c, production)
      ensures old(SlotExact(blocks, canonicitySlot, c + r)) ==> SlotExact(blocks, canonicitySlot, c)
      ensures old(LengthSound(base, canonicityLength, c + r)) ==> LengthSound(base, canonicityLength, c)
      ensures forall n: nat :: n < base + |c| ==> (n in canonicityLength <==> n in old(canonicityLength))
    {
      ghost var slots, lengths := SlotExact(blocks, canonicitySlot, c + r), LengthSound(base, canonicityLength, c + r);
      MinusEnds(c, r);
      for i := 0 to |upd.unapply|
        invariant ProductionExact(infos, c + Minus(r, i), production)
        invariant slots ==> SlotExact(blocks, canonicitySlot, c + Minus(r, i))
        invariant lengths ==> LengthSound(base, canonicityLength, c + Minus(r, i))
        invariant forall n: nat :: n < base + |c| ==> (n in canonicityLength <==> n in old(canonicityLength))
      {
        NextOff(blocks, upd, base, c, r, a, cut, top, i);
        UnapplyCanonicity(upd.unapply[i], base, c + Minus(r, i + 1));
      }
    }

    method ApplyCanonicities(upd: DbBlockUpdate, ghost base: nat, ghost c: seq<StateHash>, ghost r: seq<StateHash>,
                             ghost a: seq<StateHash>, ghost low: set<nat>, ghost cut: nat, ghost top: nat)
      requires Swaps(blocks, upd, r, a, cut, top) && infos.Keys == blocks.Keys
      requires Climbs(blocks, base, c + a) && base + |c + a| == top + 1
      requires ProductionExact(infos, c, production)
      modifies this`canonicityLength, this`canonicitySlot, this`production
      ensures ProductionExact(infos, c + a, production)
      ensures old(SlotExact(blocks, canonicitySlot, c)) ==> SlotExact(blocks, canonicitySlot, c + a)
      ensures old(Stamped(base, canonicityLength, c, low, base + |c|, cut, top)) ==>
                Stamped(base, canonicityLength, c + a, low, base + |c|, cut, top)
    {
      ghost var slots := SlotExact(blocks, canonicitySlot, c);
      ghost var lengths := Stamped(base, canonicityLength, c, low, base + |c|, cut, top);
      TakeEnds(c, a);
      for i := 0 to |upd.apply|
        invariant ProductionExact(infos, c + a[..i], production)
        invariant slots ==> SlotExact(blocks, canonicitySlot, c + a[..i])
        invariant lengths ==> Stamped(base, canonicityLength, c + a[..i], low, base + |c|, cut, top)
      {
        NextOn(blocks, upd, base, c, r, a, cut, top, i);
        ApplyCanonicity(upd.apply[i], base, c + a[..i], low, base + |c|, cut, top);
      }
    }

    /** Takes the old blocks out of the canonicity maps and counts, newest first, then puts
        the new ones in. */
    method UpdateCanonicity(upd: DbBlockUpdate, ghost base: nat, ghost c: seq<StateHash>, ghost r: seq<StateHash>,
                            ghost a: seq<StateHash>, ghost cut: nat, ghost top: nat)
      requires Swaps(blocks, upd, r, a, cut, top) && infos.Keys == blocks.Keys && c != []
      requires Climbs(blocks, base, c + r) && Climbs(blocks, base, c + a)
      requires base + |c + r| == cut + 1 && base + |c + a| == top + 1 && a != [] && cut <= top
      requires ProductionExact(infos, c + r, production)
      modifies this`canonicityLength, this`canonicitySlot, this`production
      ensures ProductionExact(infos, c + a, production)
      ensures old(SlotExact(blocks, canonicitySlot, c + r)) ==> SlotExact(blocks, canonicitySlot, c + a)
      ensures old(LengthSound(base, canonicityLength, c + r)) ==>
                LengthSound(base, canonicityLength, c + a) &&
                  Kept(old(canonicityLength), canonicityLength, base + |c|, cut, top)
    {
      ghost var sound := LengthSound(base, canonicityLength, c + r);
      UnapplyCanonicities(upd, base, c, r, a, cut, top);
      ghost var low := canonicityLength.Keys;
      if sound {
        StampStart(base, canonicityLength, c, cut, top);
        LowIs(base, canonicityLength, c, old(canonicityLength));
      }
      ApplyCanonicities(upd, base, c, r, a, low, cut, top);
      if sound { StampedSound(base, canonicityLength, c + a, low, base + |c|, cut, top, old(canonicityLength)); }
    }

    // ---------------------------------------------------- usernames and totals

    /** Pops the usernames of the blocks taken off, newest first, and pushes those of the
        blocks put on. */
    method UpdateUsernames(upd: DbBlockUpdate, ghost c: seq<StateHash>, ghost r: seq<StateHash>,
                           ghost a: seq<StateHash>, ghost cut: nat, ghost top: nat)
      requires Swaps(blocks, upd, r, a, cut, top) && AllIn(infos, r) && AllIn(infos, a)
      requires UsernamesExact(infos, c + r, usernames)
      modifies this`usernames
      ensures UsernamesExact(infos, c + a, usernames)
    {
      MinusEnds(c, r);
      TakeEnds(c, a);
      for i := 0 to |upd.unapply|
        invariant UsernamesExact(infos, c + Minus(r, i), usernames)
      {
        UnapplyAt(blocks, upd, c, r, a, cut, top, i);
        usernames := PopUsernames(infos, c + Minus(r, i + 1), upd.unapply[i].stateHash, usernames);
      }
      for i := 0 to |upd.apply|
        invariant UsernamesExact(infos, c + a[..i], usernames)
      {
        ApplyAt(blocks, upd, c, r, a, cut, top, i);
        usernames := PushUsernames(infos, c + a[..i], upd.apply[i].stateHash, usernames);
      }
    }

    /** The saturating subtraction never has to stop at zero. */
    method UpdateSnarks(upd: DbBlockUpdate, ghost c: seq<StateHash>, ghost r: seq<StateHash>, ghost a: seq<StateHash>,
                        ghost cut: nat, ghost top: nat)
      requires Swaps(blocks, upd, r, a, cut, top) && AllIn(infos, r) && AllIn(infos, a)
      requires snarkTotal == SnarkSum(infos, c + r)
      modifies this`snarkTotal
      ensures snarkTotal == SnarkSum(infos, c + a)
    {
      MinusEnds(c, r);
      TakeEnds(c, a);
      for i := 0 to |upd.unapply|
        invariant snarkTotal == SnarkSum(infos, c + Minus(r, i))
      {
        UnapplyAt(blocks, upd, c, r, a, cut, top, i);
        SumsPush(infos, c + Minus(r, i + 1), upd.unapply[i].stateHash);
        var n := infos[upd.unapply[i].stateHash].snarks;
        assert snarkTotal >= n;
        snarkTotal := SaturatingSub(snarkTotal, n);
      }
      for i := 0 to |upd.apply|
        invariant snarkTotal == SnarkSum(infos, c + a[..i])
      {
        ApplyAt(blocks, upd, c, r, a, cut, top, i);
        SumsPush(infos, c + a[..i], upd.apply[i].stateHash);
        snarkTotal := snarkTotal + infos[upd.apply[i].stateHash].snarks;
      }
    }

    method UpdateInternalCommands(upd: DbBlockUpdate, ghost c: seq<StateHash>, ghost r: seq<StateHash>,
                                  ghost a: seq<StateHash>, ghost cut: nat, ghost top: nat)
      requires Swaps(blocks, upd, r, a, cut, top) && AllIn(infos, r) && AllIn(infos, a)
      requires internalTotal == InternalSum(infos, c + r)
      modifies this`internalTotal
      ensures internalTotal == InternalSum(infos, c + a)
    {
      MinusEnds(c, r);
      TakeEnds(c, a);
      for i := 0 to |upd.unapply|
        invariant internalTotal == InternalSum(infos, c + Minus(r, i))
      {
        UnapplyAt(blocks, upd, c, r, a, cut, top, i);
        SumsPush(infos, c + Minus(r, i + 1), upd.unapply[i].stateHash);
        var n := infos[upd.unapply[i].stateHash].internalCommands;
        assert internalTotal >= n;
        internalTotal := SaturatingSub(internalTotal, n);
      }
      for i := 0 to |upd.apply|
        invariant internalTotal == InternalSum(infos, c + a[..i])
      {
        ApplyAt(blocks, upd, c, r, a, cut, top, i);
        SumsPush(infos, c + a[..i], upd.apply[i].stateHash);
        internalTotal := internalTotal + infos[upd.apply[i].stateHash].internalCommands;
      }
    }

    // ------------------------------------------------------------------ best tip

    ghost function BestPath(): seq<StateHash>
      reads this
      requires bestTip.Some?
    {
      Path(blocks, genesis, bestTip.value)
    }

    ghost function BestChain(): seq<StateHash>
      reads this
      requires bestTip.Some?
    {
      Chain(blocks, genesis, bestTip.value)
    }

    /** The indexes that every run keeps exact. */
    ghost predicate Valid()
      reads this
    {
      && Consistent(blocks) && Ascending(blocks) && infos.Keys == blocks.Keys && bestTip.Some?
      && Indexed(blocks, infos, genesis, bestTip.value, production, usernames, snarkTotal, internalTotal)
    }

    ghost predicate HeightsExact()
      reads this
      requires bestTip.Some?
    {
      LengthExact(Len(blocks, genesis), canonicityLength, BestChain())
    }

    /** Every entry of the height index is the best chain's block at that height. */
    ghost predicate HeightsSound()
      reads this
      requires bestTip.Some?
    {
      LengthSound(Len(blocks, genesis), canonicityLength, BestChain())
    }

    /** No height up to `top` is missing. */
    ghost predicate HeightsUpTo(top: int)
      reads this
    {
      LengthsUpTo(Len(blocks, genesis), canonicityLength, top)
    }

    ghost predicate SlotsExact()
      reads this
      requires bestTip.Some?
    {
      SlotExact(blocks, canonicitySlot, BestChain())
    }

    /** All indexes are those of the best chain, but for heights above `top` that may be missing. */
    ghost predicate Filed(top: int)
      reads this
    {
      Valid() && SlotsExact() && HeightsSound() && HeightsUpTo(top)
    }

    /** Moves every index from the chain `c + r` to the chain `c + a`; `c` begins with
        genesis, which only the canonicity indexes count. */
    method FollowReorg(upd: DbBlockUpdate, ghost base: nat, ghost c: seq<StateHash>, ghost r: seq<StateHash>,
                       ghost a: seq<StateHash>, ghost cut: nat, ghost top: nat)
      requires Swaps(blocks, upd, r, a, cut, top) && infos.Keys == blocks.Keys && AllIn(infos, r) && AllIn(infos, a)
      requires c != [] && Climbs(blocks, base, c + r) && Climbs(blocks, base, c + a)
      requires base + |c + r| == cut + 1 && base + |c + a| == top + 1 && a != [] && cut <= top
      requires ProductionExact(infos, c + r, production) && UsernamesExact(infos, c[1..] + r, usernames)
      requires snarkTotal == SnarkSum(infos, c[1..] + r) && internalTotal == InternalSum(infos, c[1..] + r)
      modifies this`canonicityLength, this`canonicitySlot, this`production
      modifies this`usernames, this`snarkTotal, this`internalTotal
      ensures ProductionExact(infos, c + a, production) && UsernamesExact(infos, c[1..] + a, usernames)
      ensures snarkTotal == SnarkSum(infos, c[1..] + a) && internalTotal == InternalSum(infos, c[1..] + a)
      ensures old(SlotExact(blocks, canonicitySlot, c + r)) ==> SlotExact(blocks, canonicitySlot, c + a)
      ensures old(LengthSound(base, canonicityLength, c + r)) ==>
                LengthSound(base, canonicityLength, c + a) &&
                  Kept(old(canonicityLength), canonicityLength, base + |c|, cut, top)
    {
      UpdateCanonicity(upd, base, c, r, a, cut, top);
      UpdateSnarks(upd, c[1..], r, a, cut, top);
      UpdateUsernames(upd, c[1..], r, a, cut, top);
      UpdateInternalCommands(upd, c[1..], r, a, cut, top);
    }

    /** Moves the indexes and the best tip from the chain `c + r` to the chain `c + a`. */
    method SwapChains(upd: DbBlockUpdate, ghost c: seq<StateHash>, ghost r: seq<StateHash>, ghost a: seq<StateHash>,
                      new_: StateHash)
      requires Valid() && Descends(blocks, genesis, new_) && Len(blocks, bestTip.value) <= Len(blocks, new_)
      requires Swaps(blocks, upd, r, a, Len(blocks, bestTip.value), Len(blocks, new_)) && c != [] && a != []
      requires c + r == BestChain() && c + a == Chain(blocks, genesis, new_)
      requires c[1..] + r == BestPath() && c[1..] + a == Path(blocks, genesis, new_)
      requires Climbs(blocks, Len(blocks, genesis), c + r) && Climbs(blocks, Len(blocks, genesis), c + a)
      requires Len(blocks, genesis) + |c + r| == Len(blocks, bestTip.value) + 1
      requires Len(blocks, genesis) + |c + a| == Len(blocks, new_) + 1
      requires AllIn(infos, r) && AllIn(infos, a)
      modifies this`bestTip, this`canonicityLength, this`canonicitySlot, this`production
      modifies this`usernames, this`snarkTotal, this`internalTotal
      ensures Valid() && bestTip == Some(new_)
      ensures old(SlotsExact()) ==> SlotsExact()
      ensures old(HeightsSound()) ==> HeightsSound()
      ensures forall f: int {:trigger HeightsUpTo(f)} ::
                old(HeightsSound() && HeightsUpTo(f) && f <= Len(blocks, bestTip.value)) ==> HeightsUpTo(f)
      ensures old(HeightsExact()) ==>
                (HeightsExact() <==> Len(blocks, new_) <= old(Len(blocks, bestTip.value)) + 1)
      ensures old(HeightsSound()) ==>
                Kept(old(canonicityLength), canonicityLength, Len(blocks, genesis) + |c|,
                     old(Len(blocks, bestTip.value)), Len(blocks, new_))
    {
      ghost var base, cut, top := Len(blocks, genesis), Len(blocks, bestTip.value), Len(blocks, new_);
      FollowReorg(upd, base, c, r, a, cut, top);
      bestTip := Some(new_);
      HeightsFollow(base, old(canonicityLength), canonicityLength, c, r, a, cut, top);
    }

    /** Makes a stored block the best tip.  Fails, where the original panics, exactly if the
        block is shorter than the present best tip. */
    method SetBestBlock(new_: StateHash) returns (ok: bool, ghost x: StateHash)
      requires Valid() && Descends(blocks, genesis, new_)
      modifies this`bestTip, this`canonicityLength, this`canonicitySlot, this`production
      modifies this`usernames, this`snarkTotal, this`internalTotal
      ensures ok <==> old(Len(blocks, bestTip.value)) <= Len(blocks, new_)
      ensures Valid() && bestTip.value == if ok then new_ else old(bestTip.value)
      ensures old(SlotsExact()) ==> SlotsExact()
      ensures old(HeightsSound()) ==> HeightsSound()
      ensures forall f: int {:trigger HeightsUpTo(f)} ::
                old(HeightsSound() && HeightsUpTo(f) && f <= Len(blocks, bestTip.value)) ==> HeightsUpTo(f)
      ensures ok && old(HeightsExact()) ==>
                (HeightsExact() <==> Len(blocks, new_) <= old(Len(blocks, bestTip.value)) + 1)
      ensures !ok || new_ == old(bestTip.value) ==> canonicityLength == old(canonicityLength)
      ensures ok ==> IsFork(blocks, old(bestTip.value), new_, x)
      ensures ok && new_ != old(bestTip.value) && old(HeightsSound()) ==>
                Kept(old(canonicityLength), canonicityLength, Len(blocks, x) + 1, old(Len(blocks, bestTip.value)),
                     Len(blocks, new_))
    {
      var old_ := bestTip.value;
      x := new_;
      if old_ == new_ { return true, x; }
      var upd;
      ghost var c, r, a;
      upd, x, c, r, a := PlanReorg(blocks, genesis, old_, new_);
      if upd.None? { return false, x; }
      SwapChains(upd.value, c, r, a, new_);
      return true, x;
    }

    /** The production counts once more for a block that they count already. */
    method CountAgain(h: StateHash)
      requires Valid() && h in blocks
      modifies this`production
      ensures !Valid() && production == Incremented(old(production), infos[h].epoch, infos[h].creator)
    {
      assert CountsOk(infos, BestChain(), production, infos[h].epoch, infos[h].creator);
      production := Incremented(production, infos[h].epoch, infos[h].creator);
      assert !CountsOk(infos, BestChain(), production, infos[h].epoch, infos[h].creator);
    }

    method FileHeight(height: nat, h: StateHash)
      requires bestTip.Some?
      modifies this`canonicityLength
      ensures canonicityLength == old(canonicityLength)[height := h]
      ensures old(HeightsSound()) ==>
                (HeightsSound() <==>
                   0 <= height - Len(blocks, genesis) < |BestChain()| &&
                     BestChain()[height - Len(blocks, genesis)] == h)
    {
      if HeightsSound() { ExtraHeight(Len(blocks, genesis), canonicityLength, BestChain(), height, h); }
      canonicityLength := canonicityLength[height := h];
    }

    method FileSlot(slot: nat, h: StateHash)
      requires bestTip.Some?
      modifies this`canonicitySlot
      ensures canonicitySlot == old(canonicitySlot)[slot := h]
      ensures old(SlotsExact()) ==> (SlotsExact() <==> h in BestChain() && SlotOf(blocks, h) == slot)
    {
      if SlotsExact() { ExtraSlot(blocks, canonicitySlot, BestChain(), slot, h); }
      canonicitySlot := canonicitySlot[slot := h];
    }

    /** Files a block as canonical; a genesis block is also counted.  The maps stay exact
        precisely if the block is on the best chain at that height and slot, the counts
        precisely if it is not genesis once more. */
    method AddCanonicalBlock(height: nat, slot: nat, h: StateHash, genesisPrev: Option<StateHash>)
      requires Valid() && h in blocks
      modifies this`canonicityLength, this`canonicitySlot, this`production
      ensures canonicityLength == old(canonicityLength)[height := h]
      ensures canonicitySlot == old(canonicitySlot)[slot := h]
      ensures production == if h == genesis && genesisPrev.Some?
                            then Incremented(old(production), infos[h].epoch, infos[h].creator)
                            else old(production)
      ensures Valid() <==> !(h == genesis && genesisPrev.Some?)
      ensures old(HeightsSound()) ==>
                (HeightsSound() <==>
                   0 <= height - Len(blocks, genesis) < |BestChain()| &&
                     BestChain()[height - Len(blocks, genesis)] == h)
      ensures old(SlotsExact()) ==> (SlotsExact() <==> h in BestChain() && SlotOf(blocks, h) == slot)
    {
      if h == genesis && genesisPrev.Some? { CountAgain(h); }
      FileHeight(height, h);
      FileSlot(slot, h);
    }

    /** A store with the genesis block as best tip and canonical. */
    constructor (p: Pcb, info: BlockInfo)
      requires p.parentHash != p.stateHash
      ensures genesis == p.stateHash && blocks == map[p.stateHash := p] && bestTip == Some(p.stateHash)
      ensures infos == map[p.stateHash := info]
      ensures Valid() && HeightsExact() && SlotsExact()
    {
      genesis := p.stateHash;
      blocks := map[p.stateHash := p];
      infos := map[p.stateHash := info];
      bestTip := Some(p.stateHash);
      canonicityLength := map[p.length := p.stateHash];
      canonicitySlot := map[p.slot := p.stateHash];
      production := Incremented(Production(map[], map[], map[], {}), info.epoch, info.creator);
      usernames := Usernames(map[], map[]);
      snarkTotal, internalTotal := 0, 0;
      new;
      GenesisExact(blocks, infos, p, info);
    }

    /** Stores a block that is not stored yet; no index of the best chain changes. */
    method AddBlock(p: Pcb, info: BlockInfo)
      requires Valid()
      requires Consistent(blocks[p.stateHash := p]) && Ascending(blocks[p.stateHash := p])
      modifies this`blocks, this`infos
      ensures Valid() && p.stateHash in blocks && BestChain() == old(BestChain())
      ensures p.stateHash !in old(blocks) ==>
                blocks == old(blocks)[p.stateHash := p] && infos == old(infos)[p.stateHash := info]
      ensures p.stateHash in old(blocks) ==> blocks == old(blocks) && infos == old(infos)
      ensures canonicityLength == old(canonicityLength) && Len(blocks, genesis) == old(Len(blocks, genesis))
      ensures old(SlotsExact()) ==> SlotsExact()
    {
      if p.stateHash in blocks { return; }
      var more, moreInfos := blocks[p.stateHash := p], infos[p.stateHash := info];
      BlockAdded(blocks, more, infos, moreInfos, p, genesis, bestTip.value, production, usernames, snarkTotal,
                 internalTotal, canonicitySlot);
      blocks, infos := more, moreInfos;
    }

    /** Nothing is said of a block whose height is missing; any other stored block is canonical
        exactly if it lies on the best chain. */
    method GetBlockCanonicity(h: StateHash) returns (r: Option<Canonicity>)
      requires Valid() && HeightsSound()
      ensures r.None? <==> h !in blocks || blocks[h].length !in canonicityLength
      ensures r.Some? ==> (r == Some(Canonical) <==> h in BestChain())
      ensures HeightsExact() ==>
                (r.None? <==> h !in blocks || !(Len(blocks, genesis) <= Len(blocks, h) <= Len(blocks, bestTip.value)))
    {
      ChainAt(blocks, genesis, bestTip.value);
      if h !in blocks { return None; }
      var n := blocks[h].length;
      assert HeightOk(Len(blocks, genesis), canonicityLength, BestChain(), n);
      assert HeightsExact() ==> LengthOk(Len(blocks, genesis), canonicityLength, BestChain(), n);
      if n !in canonicityLength { return None; }
      r := Some(if canonicityLength[n] == h then Canonical else Orphaned);
    }

    /** The latest username that the key took on the best chain. */
    method GetUsername(pk: PublicKey) returns (r: Option<Username>)
      requires Valid()
      ensures var s := Stack(infos, BestPath(), pk); r == if s == [] then None else Some(s[|s| - 1])
    {
      assert StackOk(infos, BestPath(), usernames, pk);
      if pk !in usernames.num { return None; }
      var k: PkIndex := (pk, usernames.num[pk]);
      r := if k in usernames.index then Some(usernames.index[k]) else None;
    }
  }

  lemma {:induction false} LowIs(base: nat, m: map<nat, StateHash>, c: seq<StateHash>, before: map<nat, StateHash>)
    requires LengthSound(base, m, c) && forall n: nat :: n < base + |c| ==> (n in m <==> n in before)
    ensures forall n: nat :: n in m.Keys <==> n < base + |c| && n in before
  {
    forall n: nat ensures n in m.Keys <==> n < base + |c| && n in before { assert HeightOk(base, m, c, n); }
  }

  /** What a reorg from the chain `c + r` to the chain `c + a` does to the height index. */
  lemma {:induction false} HeightsFollow(base: nat, m: map<nat, StateHash>, m': map<nat, StateHash>, c: seq<StateHash>,
                                         r: seq<StateHash>, a: seq<StateHash>, cut: nat, top: nat)
    requires base + |c + r| == cut + 1 && base + |c + a| == top + 1 && cut <= top && c != []
    requires LengthSound(base, m, c + r) ==> LengthSound(base, m', c + a) && Kept(m, m', base + |c|, cut, top)
    ensures LengthSound(base, m, c + r) ==> forall f: int ::
              LengthsUpTo(base, m, f) && f <= cut ==> LengthsUpTo(base, m', f)
    ensures LengthExact(base, m, c + r) ==> (LengthExact(base, m', c + a) <==> top <= cut + 1)
  {
    LengthExactIff(base, m, c + r);
    if LengthSound(base, m, c + r) {
      forall f: int | LengthsUpTo(base, m, f) && f <= cut ensures LengthsUpTo(base, m', f) {
        KeptUpTo(base, m, m', base + |c|, cut, top, f);
      }
      if LengthsUpTo(base, m, cut) { KeptExactIff(base, m, m', c + a, base + |c|, cut, top); }
    }
  }

  lemma {:induction false} GenesisExact(u: Universe, infos: Infos, p: Pcb, info: BlockInfo)
    requires u == map[p.stateHash := p] && infos == map[p.stateHash := info] && p.parentHash != p.stateHash
    ensures Consistent(u) && Ascending(u) && Descends(u, p.stateHash, p.stateHash)
    ensures var g := p.stateHash;
            && Chain(u, g, g) == [g] && Path(u, g, g) == []
            && ProductionExact(infos, [g], Incremented(Production(map[], map[], map[], {}), info.epoch, info.creator))
            && UsernamesExact(infos, [], Usernames(map[], map[]))
            && LengthExact(p.length, map[p.length := g], [g]) && SlotExact(u, map[p.slot := g], [g])
  {
    var g, none := p.stateHash, Production(map[], map[], map[], {});
    assert forall h :: h in u ==> Linked(u, h);
    assert ProductionExact(infos, [], none) by {
      forall e: nat, pk: PublicKey ensures CountsOk(infos, [], none, e, pk) {}
    }
    IncrementExact(infos, [], g, none);
    assert [] + [g] == [g];
    forall pk: PublicKey ensures StackOk(infos, [], Usernames(map[], map[]), pk) {}
    var m, ms: map<nat, StateHash> := map[p.length := g], map[p.slot := g];
    forall n: nat ensures LengthOk(p.length, m, [g], n) {}
    forall n: nat ensures SlotOk(u, ms, [g], n) {}
    forall h ensures FiledBySlot(u, ms, [g], h) {}
  }

  /** A recount does not look at blocks off the chain. */
  lemma {:induction false} RecountGrows(infos: Infos, infos': Infos, path: seq<StateHash>)
    requires AllIn(infos, path) && forall h :: h in infos ==> h in infos' && infos'[h] == infos[h]
    ensures forall e, pk :: Produced(infos', path, e, pk) == Produced(infos, path, e, pk)
    ensures forall pk :: Stack(infos', path, pk) == Stack(infos, path, pk)
    ensures SnarkSum(infos', path) == SnarkSum(infos, path) && InternalSum(infos', path) == InternalSum(infos, path)
  {
    if path != [] {
      var init, h := path[..|path| - 1], path[|path| - 1];
      assert h in path && forall x :: x in init ==> x in path;
      RecountGrows(infos, infos', init);
    }
  }

  lemma {:induction false} IndexesGrow(infos: Infos, infos': Infos, path: seq<StateHash>, c: Production, t: Usernames)
    requires AllIn(infos, path) && forall h :: h in infos ==> h in infos' && infos'[h] == infos[h]
    ensures ProductionExact(infos, path, c) ==> ProductionExact(infos', path, c)
    ensures UsernamesExact(infos, path, t) ==> UsernamesExact(infos', path, t)
    ensures SnarkSum(infos', path) == SnarkSum(infos, path) && InternalSum(infos', path) == InternalSum(infos, path)
  {
    RecountGrows(infos, infos', path);
    if ProductionExact(infos, path, c) {
      forall e: nat, pk: PublicKey ensures CountsOk(infos', path, c, e, pk) { assert CountsOk(infos, path, c, e, pk); }
    }
    if UsernamesExact(infos, path, t) {
      forall pk: PublicKey ensures StackOk(infos', path, t, pk) { assert StackOk(infos, path, t, pk); }
    }
  }

  lemma {:induction false} SlotsGrowOn(u: Universe, u': Universe, m: map<nat, StateHash>, chain: seq<StateHash>)
    requires SlotExact(u, m, chain) && (forall h :: h in chain ==> h in u)
    requires forall h :: h in u ==> h in u' && u'[h] == u[h]
    ensures SlotExact(u', m, chain)
  {
    forall s: nat ensures SlotOk(u', m, chain, s) { assert SlotOk(u, m, chain, s); }
    forall h ensures FiledBySlot(u', m, chain, h) { assert FiledBySlot(u, m, chain, h); }
  }

  /** One more stored block changes neither the best chain nor any recount over it. */
  lemma {:induction false} BlockAdded(u: Universe, u': Universe, infos: Infos, infos': Infos, p: Pcb, g: StateHash,
                                      tip: StateHash, c: Production, t: Usernames, snarks: nat, internals: nat,
                                      slots: map<nat, StateHash>)
    requires Consistent(u) && infos.Keys == u.Keys && p.stateHash !in u && Consistent(u')
    requires Indexed(u, infos, g, tip, c, t, snarks, internals)
    requires u' == u[p.stateHash := p] && p.stateHash in infos' && infos' == infos[p.stateHash := infos'[p.stateHash]]
    ensures Indexed(u', infos', g, tip, c, t, snarks, internals)
    ensures Chain(u', g, tip) == Chain(u, g, tip) && Len(u', g) == Len(u, g) && infos'.Keys == u'.Keys
    ensures SlotExact(u, slots, Chain(u, g, tip)) ==> SlotExact(u', slots, Chain(u, g, tip))
  {
    var path := Path(u, g, tip);
    PathGrows(u, u', g, tip);
    PathKnown(u, g, tip);
    DescendsLength(u, g, tip);
    assert AllIn(infos, [g] + path);
    IndexesGrow(infos, infos', [g] + path, c, t);
    IndexesGrow(infos, infos', path, c, t);
    if SlotExact(u, slots, [g] + path) { SlotsGrowOn(u, u', slots, [g] + path); }
  }

  ghost predicate AllIn(infos: Infos, hs: seq<StateHash>) {
    forall h :: h in hs ==> h in infos
  }

  /** Both chains through the fork climb from genesis. */
  lemma {:induction false} BothClimb(u: Universe, genesis: StateHash, old_: StateHash, new_: StateHash, x: StateHash)
    requires Consistent(u) && Ascending(u) && Descends(u, genesis, x) && IsFork(u, old_, new_, x)
    ensures var c, r, a := [genesis] + Path(u, genesis, x), Path(u, x, old_), Path(u, x, new_);
            && genesis in u && c + r == Chain(u, genesis, old_) && c + a == Chain(u, genesis, new_)
            && Climbs(u, Len(u, genesis), c + r) && Climbs(u, Len(u, genesis), c + a)
            && Len(u, genesis) + |c + r| == Len(u, old_) + 1 && Len(u, genesis) + |c + a| == Len(u, new_) + 1
            && (forall h :: h in r || h in a ==> h in u)
  {
    ReorgSwapsChains(u, genesis, old_, new_, x);
    DescendsTransitive(u, genesis, x, old_);
    DescendsTransitive(u, genesis, x, new_);
    ChainClimbs(u, genesis, old_);
    ChainClimbs(u, genesis, new_);
    PathKnown(u, x, old_);
    PathKnown(u, x, new_);
  }
}
