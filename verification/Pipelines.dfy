/** The block pipeline: a block goes to the store, then to the witness tree; the tree's best
    tip becomes the store's, and newly canonical blocks are filed. */
module Pipelines {
  import opened Accounts
  import opened Blocks
  import opened Ledgers
  import opened NamedLedgers
  import opened RunningNames
  import opened WitnessTree
  import opened WitnessForest
  import opened WitnessRuns
  import opened WitnessOrder
  import opened BranchLists
  import opened CanonicalWalk
  import opened Extensions
  import opened ChainIndexes
  import opened IndexerStates
  import opened IndexerStores
  import opened StoredTrees

  /** Block `i` of a batch lies on the best chain, and is no more than one higher than the block
      before it, or than `below`. */
  ghost predicate FileableAt(b: Universe, g: StateHash, chain: seq<StateHash>, bs: seq<Block>, below: nat, i: nat) {
    i < |bs| ==>
      && bs[i].stateHash in b && bs[i].stateHash in chain && bs[i].slot == SlotOf(b, bs[i].stateHash)
      && 0 <= bs[i].length - Len(b, g) < |chain| && chain[bs[i].length - Len(b, g)] == bs[i].stateHash
      && bs[i].length <= 1 + if i == 0 then below else bs[i - 1].length
  }

  ghost predicate Fileable(b: Universe, g: StateHash, chain: seq<StateHash>, bs: seq<Block>, below: nat) {
    forall i: nat {:trigger FileableAt(b, g, chain, bs, below, i)} :: FileableAt(b, g, chain, bs, below, i)
  }

  lemma {:induction false} ReportFileable(c: Config, u: Universe, b: Universe, g: StateHash, e: State, bs: seq<Block>)
    requires Consistent(u) && Consistent(b) && Ascending(b) && RootSound(u, e) && Anchored(c, u, e)
    requires TreeStored(u, b, g, e)
    requires HashesOf(bs) == Report(c, u, e) && RealBlocks(u, bs)
    ensures Fileable(b, g, Chain(b, g, e.bestTip), bs, Len(u, e.canonicalRoot))
    ensures Len(u, RootAfter(c, u, e)) == if bs == [] then Len(u, e.canonicalRoot) else bs[|bs| - 1].length
  {
    var chain, below := Chain(b, g, e.bestTip), Len(u, e.canonicalRoot);
    forall i: nat ensures FileableAt(b, g, chain, bs, below, i) {
      if i < |bs| {
        ReportedHeight(c, u, e, bs, i);
        ReportedOnChain(c, u, b, g, e, bs[i].stateHash);
      }
    }
    LastReported(c, u, e, bs);
    if bs != [] { ReportedHeight(c, u, e, bs, |bs| - 1); }
  }

  lemma {:induction false} ReportedHeight(c: Config, u: Universe, e: State, bs: seq<Block>, i: nat)
    requires RootSound(u, e) && Anchored(c, u, e) && HashesOf(bs) == Report(c, u, e) && RealBlocks(u, bs) && i < |bs|
    ensures bs[i].stateHash in u && bs[i].stateHash in Report(c, u, e)
    ensures bs[i].length == Len(u, bs[i].stateHash) && bs[i].slot == SlotOf(u, bs[i].stateHash)
    ensures bs[i].length <= 1 + if i == 0 then Len(u, e.canonicalRoot) else bs[i - 1].length
  {
    var p := Report(c, u, e);
    assert RealAt(u, bs, i) && p[i] == bs[i].stateHash && p[i] in p;
    ReportHeights(c, u, e, i);
    if i > 0 {
      assert RealAt(u, bs, i - 1) && p[i - 1] == bs[i - 1].stateHash;
      ReportHeights(c, u, e, i - 1);
    }
  }

  lemma {:induction false} LastReported(c: Config, u: Universe, e: State, bs: seq<Block>)
    requires HashesOf(bs) == Report(c, u, e)
    ensures RootAfter(c, u, e) == if bs == [] then e.canonicalRoot else bs[|bs| - 1].stateHash
  {
    if bs != [] { assert HashesOf(bs)[|bs| - 1] == bs[|bs| - 1].stateHash; }
  }

  lemma {:induction false} StillExact(base: nat, m: map<nat, StateHash>, m': map<nat, StateHash>, chain: seq<StateHash>)
    requires LengthSound(base, m', chain) && forall n: nat :: n in m ==> n in m'
    ensures LengthExact(base, m, chain) ==> LengthExact(base, m', chain)
  {
    LengthExactIff(base, m, chain);
    LengthExactIff(base, m', chain);
  }

  /** What the stored blocks say of usernames. */
  ghost function SaysOf(infos: Infos): Says {
    h => if h in infos then infos[h].usernames else map[]
  }

  class Pipeline {
    const state: IndexerState
    const store: IndexerStore

    /** The usernames on the MINA accounts of the running ledger. */
    var names: Names

    /** The store has all that the tree in state `s` has and agrees with it on the best tip; its
        slot index is exact, and its height index has the best chain's blocks up to the canonical root
        at least. */
    ghost predicate InStep(u: Universe, s: State)
      reads store
    {
      store.Filed(Len(u, s.canonicalRoot)) && TreeStored(u, store.blocks, store.genesis, s) &&
        store.bestTip == Some(s.bestTip)
    }

    ghost predicate Valid(u: Universe)
      reads state, store
    {
      Ascending(u) && ValidConfig(state.Settings()) && state.Valid(u) && InStep(u, state.Abs())
    }

    /** Tree and store with the genesis block. */
    constructor (ghost u: Universe, step: Step, genesisLedger: Ledger, genesis: Pcb, info: BlockInfo,
                 transitionFrontierLength: nat, pruneInterval: nat, canonicalUpdateThreshold: nat)
      requires Consistent(u) && Ascending(u) && Known(u, genesis)
      requires ValidConfig(Config(transitionFrontierLength, pruneInterval * transitionFrontierLength,
                                  canonicalUpdateThreshold, CANONICAL_THRESHOLD))
      ensures Valid(u) && store.HeightsExact() && fresh(state) && fresh(store)
      ensures state.Abs() == Initial(u, genesis.stateHash, ApplyDiff(step, genesisLedger, genesis.diff))
      ensures store.genesis == genesis.stateHash && store.blocks == map[genesis.stateHash := genesis]
      ensures store.infos == map[genesis.stateHash := info] && names == map[]
      ensures state.step == step
      ensures state.Settings() == Config(transitionFrontierLength, pruneInterval * transitionFrontierLength,
                                         canonicalUpdateThreshold, CANONICAL_THRESHOLD)
    {
      assert Linked(u, genesis.stateHash);
      state := new IndexerState(u, step, genesisLedger, genesis, transitionFrontierLength, pruneInterval,
                                canonicalUpdateThreshold);
      store := new IndexerStore(genesis, info);
      names := map[];
      new;
      GenesisInStep(u, genesis, ApplyDiff(step, genesisLedger, genesis.diff));
    }

    /** A store with the genesis block alone is in step with a tree of that block. */
    lemma {:induction false} GenesisInStep(u: Universe, p: Pcb, l: Ledger)
      requires Consistent(u) && Ascending(u) && Known(u, p)
      requires store.genesis == p.stateHash && store.blocks == map[p.stateHash := p]
      requires store.bestTip == Some(p.stateHash) && store.Valid() && store.HeightsExact() && store.SlotsExact()
      ensures InStep(u, Initial(u, p.stateHash, l))
    {
      GenesisStored(u, p, store.blocks, l);
      LengthExactIff(Len(store.blocks, store.genesis), store.canonicityLength, store.BestChain());
    }

    /** Files one block of the best chain under its height and slot. */
    method FileBlock(b: Block, ghost below: int)
      requires store.Filed(below) && b.length <= below + 1
      requires b.stateHash in store.blocks && b.stateHash in store.BestChain()
      requires b.slot == SlotOf(store.blocks, b.stateHash)
      requires 0 <= b.length - Len(store.blocks, store.genesis) < |store.BestChain()|
      requires store.BestChain()[b.length - Len(store.blocks, store.genesis)] == b.stateHash
      modifies store`canonicityLength, store`canonicitySlot, store`production
      ensures store.Filed(b.length)
      ensures forall n: nat :: n in old(store.canonicityLength) ==> n in store.canonicityLength
    {
      store.AddCanonicalBlock(b.length, b.slot, b.stateHash, None);
    }

    /** Files the newly canonical blocks.  No height up to the last of them is missing then. */
    method FileCanonical(bs: seq<Block>, ghost start: nat)
      requires store.Filed(start)
      requires Fileable(store.blocks, store.genesis, store.BestChain(), bs, start)
      modifies store`canonicityLength, store`canonicitySlot, store`production
      ensures store.Filed(if bs == [] then start else bs[|bs| - 1].length)
      ensures forall n: nat :: n in old(store.canonicityLength) ==> n in store.canonicityLength
    {
      ghost var below := start;
      for i := 0 to |bs|
        invariant store.Filed(below)
        invariant below == if i == 0 then start else bs[i - 1].length
        invariant forall n: nat :: n in old(store.canonicityLength) ==> n in store.canonicityLength
      {
        assert FileableAt(store.blocks, store.genesis, store.BestChain(), bs, start, i);
        FileBlock(bs[i], below);
        below := bs[i].length;
      }
    }

    /** Moves the store to the tree's new best tip, which never fails, and files the newly
        canonical blocks. */
    method MoveTip(ghost c: Config, ghost u: Universe, ghost e: State, tip: StateHash, bs: seq<Block>)
      requires store.Filed(Len(u, e.canonicalRoot)) && RootSound(u, e) && Anchored(c, u, e) && tip == e.bestTip
      requires TreeStored(u, store.blocks, store.genesis, e) && HashesOf(bs) == Report(c, u, e) && RealBlocks(u, bs)
      requires Descends(store.blocks, store.genesis, tip)
      requires Len(store.blocks, store.bestTip.value) <= Len(store.blocks, tip)
      requires Len(u, e.canonicalRoot) <= Len(store.blocks, store.bestTip.value)
      modifies store`bestTip, store`canonicityLength, store`canonicitySlot, store`production
      modifies store`usernames, store`snarkTotal, store`internalTotal
      ensures store.Filed(Len(u, RootAfter(c, u, e))) && store.bestTip == Some(tip)
      ensures store.blocks == old(store.blocks) && store.infos == old(store.infos)
      ensures old(store.HeightsExact() && Len(store.blocks, tip) <= Len(store.blocks, store.bestTip.value) + 1) ==>
                store.HeightsExact()
    {
      var ok, _ := store.SetBestBlock(tip);
      assert ok;
      ghost var base, m, chain := Len(store.blocks, store.genesis), store.canonicityLength, store.BestChain();
      ReportFileable(c, u, store.blocks, store.genesis, e, bs);
      FileCanonical(bs, Len(u, e.canonicalRoot));
      StillExact(base, m, store.canonicityLength, chain);
    }

    /** Writes the usernames that a block sets into the running ledger: to the keys that have a
        MINA account there, and to no others. */
    method WriteUsernames(h: StateHash)
      requires h in store.infos
      modifies this`names
      ensures names == Renamed(old(names), store.infos[h].usernames, state.ledger)
      ensures old(Covers(state.ledger, names)) ==> Covers(state.ledger, names)
    {
      if Covers(state.ledger, names) { RenamedCovers(names, store.infos[h].usernames, state.ledger); }
      names := NamedLedgers.WriteUsernames(names, store.infos[h].usernames, state.ledger);
    }

    /** Follows a step that the tree has taken. */
    method FollowMove(ghost c: Config, ghost u: Universe, ghost s: State, ghost e: State, ghost o: Outcome, moved: bool,
                      tip: StateHash, bs: seq<Block>)
      requires store.Filed(Len(u, s.canonicalRoot)) && store.bestTip == Some(s.bestTip)
      requires Followable(c, u, store.blocks, store.genesis, s, e, o, moved) && (moved ==> tip == e.bestTip)
      requires HashesOf(bs) == o.canonical && RealBlocks(u, bs)
      modifies store`bestTip, store`canonicityLength, store`canonicitySlot, store`production
      modifies store`usernames, store`snarkTotal, store`internalTotal
      ensures InStep(u, o.state) && store.blocks == old(store.blocks) && store.infos == old(store.infos)
      ensures old(store.HeightsExact()) && Len(u, o.state.bestTip) <= Len(u, s.bestTip) + 1 ==> store.HeightsExact()
    {
      if moved { MoveTip(c, u, e, tip, bs); }
    }

    /** Follows the step that the tree has taken, from `s` to `s'`, for block `p`, which was not among
        the blocks `b` stored before. */
    method FollowStep(ghost step: Step, ghost c: Config, ghost u: Universe, ghost s: State, ghost s': State, p: Pcb,
                      ghost b: Universe, moved: bool, tip: StateHash, bs: seq<Block>)
      requires ValidConfig(c) && Forest(u, s) && Anchored(c, u, s) && Ascending(u) && KeepsAnchor(c, u, s, p.stateHash)
      requires Known(u, p)
      requires Consistent(b) && TreeStored(u, b, store.genesis, s) && p.stateHash !in b
      requires store.blocks == b[p.stateHash := p]
      requires store.Filed(Len(u, s.canonicalRoot)) && store.bestTip == Some(s.bestTip)
      requires moved <==> Accepted(u, s, p.stateHash) && ExtendsRoot(u, s, p.stateHash)
      requires tip == s'.bestTip
      requires s' == Feed(step, c, u, s, p.stateHash).state
      requires HashesOf(bs) == Feed(step, c, u, s, p.stateHash).canonical && RealBlocks(u, bs)
      modifies store`bestTip, store`canonicityLength, store`canonicitySlot, store`production
      modifies store`usernames, store`snarkTotal, store`internalTotal
      ensures InStep(u, s') && store.blocks == old(store.blocks) && store.infos == old(store.infos)
      ensures old(store.HeightsExact()) && Len(u, s'.bestTip) <= Len(u, s.bestTip) + 1 ==> store.HeightsExact()
    {
      StepFollowable(step, c, u, b, store.genesis, s, p);
      FollowMove(c, u, s, Extended(u, s, p.stateHash), Feed(step, c, u, s, p.stateHash), moved, tip, bs);
    }

    /** Stores the block; nothing changes for the best chain, and the block is new to the tree. */
    method StoreBlock(ghost u: Universe, p: Pcb, info: BlockInfo, ghost s: State, ghost exact: bool)
      requires Consistent(u) && Ascending(u) && Known(u, p) && InStep(u, s)
      requires p.stateHash !in store.blocks && (exact ==> store.HeightsExact())
      modifies store`blocks, store`infos
      ensures Fresh(u, s, p.stateHash)
      ensures store.Filed(Len(u, s.canonicalRoot)) && store.blocks == old(store.blocks)[p.stateHash := p]
      ensures store.infos == old(store.infos)[p.stateHash := info]
      ensures exact ==> store.HeightsExact()
    {
      BlockFits(u, store.blocks, store.genesis, s, p);
      store.AddBlock(p, info);
    }

    /** Adds the block to the tree. */
    method GrowTree(ghost u: Universe, p: Pcb, ghost s: State) returns (moved: bool, tip: StateHash, bs: seq<Block>)
      requires ValidConfig(state.Settings()) && state.Valid(u) && s == state.Abs() && Known(u, p)
      requires Fresh(u, s, p.stateHash) && KeepsAnchor(state.Settings(), u, s, p.stateHash)
      modifies state
      ensures state.Valid(u) && RealBlocks(u, bs)
      ensures state.Abs() == Feed(state.step, state.Settings(), u, s, p.stateHash).state
      ensures HashesOf(bs) == Feed(state.step, state.Settings(), u, s, p.stateHash).canonical
      ensures moved <==> Accepted(u, s, p.stateHash) && ExtendsRoot(u, s, p.stateHash)
      ensures tip == state.bestTip.stateHash
    {
      var ext;
      ext, bs := state.AddBlockToWitnessTree(u, p);
      moved := IsRootExtension(ext);
      tip := if moved then ext.block.stateHash else state.bestTip.stateHash;
    }

    /** The tree takes in block `p`, which is new to the blocks `b` stored before, and the store
        follows. */
    method GrowAndFollow(ghost u: Universe, p: Pcb, ghost b: Universe, ghost s: State, ghost exact: bool)
      returns (moved: bool)
      requires Ascending(u) && ValidConfig(state.Settings()) && state.Valid(u) && Known(u, p) && s == state.Abs()
      requires Fresh(u, s, p.stateHash) && KeepsAnchor(state.Settings(), u, s, p.stateHash)
      requires Consistent(b) && TreeStored(u, b, store.genesis, s) && p.stateHash !in b
      requires store.blocks == b[p.stateHash := p] && store.bestTip == Some(s.bestTip)
      requires store.Filed(Len(u, s.canonicalRoot)) && (exact ==> store.HeightsExact())
      modifies state
      modifies store`bestTip, store`canonicityLength, store`canonicitySlot, store`production
      modifies store`usernames, store`snarkTotal, store`internalTotal
      ensures state.Valid(u) && InStep(u, state.Abs())
      ensures store.blocks == b[p.stateHash := p] && store.infos == old(store.infos)
      ensures state.Abs() == Feed(state.step, state.Settings(), u, s, p.stateHash).state
      ensures moved <==> Accepted(u, s, p.stateHash) && ExtendsRoot(u, s, p.stateHash)
      ensures exact && Len(u, state.bestTip.stateHash) <= Len(u, s.bestTip) + 1 ==> store.HeightsExact()
    {
      ghost var c := state.Settings();
      var tip, canonical;
      moved, tip, canonical := GrowTree(u, p, s);
      FollowStep(state.step, c, u, s, state.Abs(), p, b, moved, tip, canonical);
    }

    /** Stores the block, then grows the tree. */
    method StoreAndGrow(ghost u: Universe, p: Pcb, info: BlockInfo, ghost s: State, ghost exact: bool)
      returns (moved: bool)
      requires Valid(u) && Known(u, p) && s == state.Abs() && KeepsAnchor(state.Settings(), u, s, p.stateHash)
      requires p.stateHash !in store.blocks && (exact ==> store.HeightsExact())
      modifies state, store
      ensures Valid(u) && store.blocks == old(store.blocks)[p.stateHash := p]
      ensures store.infos == old(store.infos)[p.stateHash := info]
      ensures state.Abs() == Feed(state.step, state.Settings(), u, s, p.stateHash).state
      ensures moved <==> Accepted(u, s, p.stateHash) && ExtendsRoot(u, s, p.stateHash)
      ensures exact && Len(u, state.bestTip.stateHash) <= Len(u, s.bestTip) + 1 ==> store.HeightsExact()
    {
      ghost var b := store.blocks;
      StoreBlock(u, p, info, s, exact);
      moved := GrowAndFollow(u, p, b, s, exact);
    }

    /** Takes in a block that is not stored yet.  The best tip can always be set, tree and
        store stay in step, and the height index stays exact while the best tip rises by at
        most one. */
    method AddNewBlock(ghost u: Universe, p: Pcb, info: BlockInfo)
      requires Valid(u) && Known(u, p) && KeepsAnchor(state.Settings(), u, state.Abs(), p.stateHash)
      requires p.stateHash !in store.blocks
      modifies this`names, state, store
      ensures Valid(u) && store.blocks == old(store.blocks)[p.stateHash := p]
      ensures store.infos == old(store.infos)[p.stateHash := info]
      ensures state.Abs() == Feed(state.step, state.Settings(), u, old(state.Abs()), p.stateHash).state
      ensures names == NamesNext(state.step, state.Settings(), u, SaysOf(store.infos), old(state.Abs()), p.stateHash,
                                 old(names))
      ensures old(store.HeightsExact()) ==>
                Len(u, state.bestTip.stateHash) <= old(Len(u, state.bestTip.stateHash)) + 1 ==> store.HeightsExact()
    {
      ghost var s, before := state.Abs(), names;
      var moved := StoreAndGrow(u, p, info, s, store.HeightsExact());
      if moved { WriteUsernames(state.bestTip.stateHash); }
      NamesMove(state.step, state.Settings(), u, SaysOf(store.infos), s, p.stateHash, before, state.Abs(), moved);
    }

    /** The pipeline: a block that is already stored changes nothing. */
    method AddBlock(ghost u: Universe, p: Pcb, info: BlockInfo) returns (added: bool)
      requires Valid(u) && Known(u, p) && KeepsAnchor(state.Settings(), u, state.Abs(), p.stateHash)
      modifies this`names, state, store
      ensures Valid(u) && (added <==> p.stateHash !in old(store.blocks))
      ensures store.blocks == if added then old(store.blocks)[p.stateHash := p] else old(store.blocks)
      ensures store.infos == if added then old(store.infos)[p.stateHash := info] else old(store.infos)
      ensures state.Abs() ==
                if added then Feed(state.step, state.Settings(), u, old(state.Abs()), p.stateHash).state
                else old(state.Abs())
      ensures names ==
                if added then NamesNext(state.step, state.Settings(), u, SaysOf(store.infos), old(state.Abs()),
                                        p.stateHash, old(names))
                else old(names)
      ensures old(store.HeightsExact()) ==>
                Len(u, state.bestTip.stateHash) <= old(Len(u, state.bestTip.stateHash)) + 1 ==> store.HeightsExact()
    {
      if p.stateHash in store.blocks { return false; }
      AddNewBlock(u, p, info);
      return true;
    }

    /** Blocks sorted by length: every index of the store stays exact throughout. */
    method AddSorted(ghost u: Universe, ghost l: Ledger, ps: seq<(Pcb, BlockInfo)>)
      requires Valid(u) && store.HeightsExact() && store.blocks.Keys == {store.genesis}
      requires state.Abs() == Initial(u, store.genesis, l)
      requires state.Settings().updateThreshold <= state.Settings().confirmations
      requires forall i :: 0 <= i < |ps| ==> Known(u, ps[i].0)
      requires FreshFeed(u, store.genesis, Fed(ps)) && SortedByLength(u, Fed(ps)) && names == map[]
      modifies this`names, state, store
      ensures Valid(u) && store.HeightsExact()
      ensures store.blocks == WithBlocks(old(store.blocks), ps) && store.infos == WithInfos(old(store.infos), ps)
      ensures state.Abs() == Run(state.step, state.Settings(), u, old(state.Abs()), Fed(ps)).state
      ensures names == RunNames(state.step, state.Settings(), u, SaysOf(store.infos), old(state.Abs()), Fed(ps))
    {
      ghost var hs, r, s0, blocks, infos := Fed(ps), store.genesis, state.Abs(), store.blocks, store.infos;
      ghost var c := state.Settings();
      NoneTaken(state.step, c, u, r, s0, blocks, infos, ps);
      for i := 0 to |ps|
        invariant Valid(u) && store.HeightsExact() && state.Settings() == c
        invariant Taken(state.step, c, u, r, s0, blocks, infos, ps, i, state.Abs(), store.blocks, store.infos, names)
      {
        NextInFeed(u, r, hs, i);
        SortedNext(state.step, c, u, r, l, hs, i);
        ghost var s, b, m, before := state.Abs(), store.blocks, store.infos, names;
        var added := AddBlock(u, ps[i].0, ps[i].1);
        TakenNext(state.step, c, u, r, s0, blocks, infos, ps, i, s, b, m, before, state.Abs(), names);
      }
      AllTaken(state.step, c, u, r, s0, blocks, infos, ps, state.Abs(), store.blocks, store.infos, names);
    }
  }

  /** The blocks, and what is kept of each, once all of `ps` are stored. */
  ghost function WithBlocks(b: Universe, ps: seq<(Pcb, BlockInfo)>): Universe {
    if ps == [] then b else WithBlocks(b, ps[..|ps| - 1])[ps[|ps| - 1].0.stateHash := ps[|ps| - 1].0]
  }

  ghost function WithInfos(m: Infos, ps: seq<(Pcb, BlockInfo)>): Infos {
    if ps == [] then m else WithInfos(m, ps[..|ps| - 1])[ps[|ps| - 1].0.stateHash := ps[|ps| - 1].1]
  }

  ghost function Fed(ps: seq<(Pcb, BlockInfo)>): seq<StateHash> {
    seq(|ps|, i requires 0 <= i < |ps| => ps[i].0.stateHash)
  }

  /** The first `i` blocks of `ps` are taken in. */
  ghost predicate Taken(step: Step, c: Config, u: Universe, r: StateHash, s0: State, b0: Universe, m0: Infos,
                        ps: seq<(Pcb, BlockInfo)>, i: nat, s: State, b: Universe, m: Infos, names: Names) {
    && i <= |ps| && s == Run(step, c, u, s0, Fed(ps)[..i]).state
    && b == WithBlocks(b0, ps[..i]) && b.Keys == Elems(Fed(ps)[..i]) + {r}
    && m == WithInfos(m0, ps[..i]) && m.Keys == b.Keys
    && names == RunNames(step, c, u, SaysOf(WithInfos(m0, ps)), s0, Fed(ps)[..i])
  }

  lemma {:induction false} NoneTaken(step: Step, c: Config, u: Universe, r: StateHash, s0: State, b0: Universe,
                                     m0: Infos, ps: seq<(Pcb, BlockInfo)>)
    requires b0.Keys == {r} == m0.Keys
    ensures Taken(step, c, u, r, s0, b0, m0, ps, 0, s0, b0, m0, map[])
  {
    assert Fed(ps)[..0] == [] && ps[..0] == [] && Elems([]) + {r} == {r};
  }

  lemma {:induction false} AllTaken(step: Step, c: Config, u: Universe, r: StateHash, s0: State, b0: Universe,
                                    m0: Infos, ps: seq<(Pcb, BlockInfo)>, s: State, b: Universe, m: Infos,
                                    names: Names)
    requires Taken(step, c, u, r, s0, b0, m0, ps, |ps|, s, b, m, names)
    ensures s == Run(step, c, u, s0, Fed(ps)).state && b == WithBlocks(b0, ps) && m == WithInfos(m0, ps)
    ensures names == RunNames(step, c, u, SaysOf(m), s0, Fed(ps))
  {
    assert Fed(ps)[..|ps|] == Fed(ps) && ps[..|ps|] == ps;
  }

  lemma {:induction false} InfosNext(m: Infos, ps: seq<(Pcb, BlockInfo)>, i: nat)
    requires i < |ps|
    ensures WithInfos(m, ps[..i + 1]) == WithInfos(m, ps[..i])[ps[i].0.stateHash := ps[i].1]
  {
    assert ps[..i + 1][..i] == ps[..i];
  }

  /** What is kept of a block does not change later. */
  lemma {:induction false} InfoKept(m: Infos, ps: seq<(Pcb, BlockInfo)>, i: nat, n: nat, h: StateHash)
    requires i <= n <= |ps| && h in WithInfos(m, ps[..i])
    requires forall j :: i <= j < n ==> ps[j].0.stateHash != h
    ensures h in WithInfos(m, ps[..n]) && WithInfos(m, ps[..n])[h] == WithInfos(m, ps[..i])[h]
  {
    if i < n {
      InfoKept(m, ps, i, n - 1, h);
      InfosNext(m, ps, n - 1);
    }
  }

  /** So what is said of usernames is the same in the end. */
  lemma {:induction false} SaysKept(u: Universe, r: StateHash, m0: Infos, ps: seq<(Pcb, BlockInfo)>, i: nat,
                                    h: StateHash)
    requires i <= |ps| && FreshFeed(u, r, Fed(ps)) && h in WithInfos(m0, ps[..i])
    requires h in Elems(Fed(ps)[..i]) + {r}
    ensures SaysOf(WithInfos(m0, ps))(h) == SaysOf(WithInfos(m0, ps[..i]))(h)
  {
    var hs := Fed(ps);
    forall j | i <= j < |ps| ensures ps[j].0.stateHash != h {
      assert hs[j] == ps[j].0.stateHash;
      if h != r { var k :| 0 <= k < i && hs[..i][k] == h; }
    }
    InfoKept(m0, ps, i, |ps|, h);
    assert ps[..|ps|] == ps;
  }

  lemma {:induction false} TakenNext(step: Step, c: Config, u: Universe, r: StateHash, s0: State, b0: Universe,
                                     m0: Infos, ps: seq<(Pcb, BlockInfo)>, i: nat, s: State, b: Universe, m: Infos,
                                     names: Names, s': State, names': Names)
    requires i < |ps| && Taken(step, c, u, r, s0, b0, m0, ps, i, s, b, m, names) && FreshFeed(u, r, Fed(ps))
    requires var h := ps[i].0.stateHash;
             && s' == Feed(step, c, u, s, h).state && s'.bestTip in m[h := ps[i].1]
             && names' == NamesNext(step, c, u, SaysOf(m[h := ps[i].1]), s, h, names)
    ensures var h := ps[i].0.stateHash;
            Taken(step, c, u, r, s0, b0, m0, ps, i + 1, s', b[h := ps[i].0], m[h := ps[i].1], names')
  {
    var h, hs := ps[i].0.stateHash, Fed(ps);
    TakenStore(r, b0, m0, ps, i, b, m);
    SaysKept(u, r, m0, ps, i + 1, s'.bestTip);
    SaidNames(step, c, u, SaysOf(m[h := ps[i].1]), SaysOf(WithInfos(m0, ps)), s, h, names, s');
    TakenRun(step, c, u, s0, hs, i, SaysOf(WithInfos(m0, ps)), s, names);
  }

  lemma {:induction false} TakenRun(step: Step, c: Config, u: Universe, s0: State, hs: seq<StateHash>, i: nat,
                                    says: Says, s: State, names: Names)
    requires i < |hs| && s == Run(step, c, u, s0, hs[..i]).state
    requires names == RunNames(step, c, u, says, s0, hs[..i])
    ensures Run(step, c, u, s0, hs[..i + 1]).state == Feed(step, c, u, s, hs[i]).state
    ensures RunNames(step, c, u, says, s0, hs[..i + 1]) == NamesNext(step, c, u, says, s, hs[i], names)
  {
    assert hs[..i + 1] == hs[..i] + [hs[i]];
    RunOne(step, c, u, s0, hs[..i], hs[i]);
    RunNamesNext(step, c, u, says, s0, hs[..i], hs[i]);
  }

  lemma {:induction false} MoreElems(hs: seq<StateHash>, i: nat)
    requires i < |hs|
    ensures Elems(hs[..i + 1]) == Elems(hs[..i]) + {hs[i]}
  {
    assert hs[..i + 1] == hs[..i] + [hs[i]];
  }

  lemma {:induction false} TakenStore(r: StateHash, b0: Universe, m0: Infos, ps: seq<(Pcb, BlockInfo)>, i: nat,
                                      b: Universe, m: Infos)
    requires i < |ps| && b == WithBlocks(b0, ps[..i]) && b.Keys == Elems(Fed(ps)[..i]) + {r}
    requires m == WithInfos(m0, ps[..i]) && m.Keys == b.Keys
    ensures var h := ps[i].0.stateHash;
            var b', m' := b[h := ps[i].0], m[h := ps[i].1];
            && b' == WithBlocks(b0, ps[..i + 1]) && b'.Keys == Elems(Fed(ps)[..i + 1]) + {r}
            && m' == WithInfos(m0, ps[..i + 1]) && m'.Keys == b'.Keys
  {
    var h, hs := ps[i].0.stateHash, Fed(ps);
    assert ps[..i + 1][..i] == ps[..i];
    MoreElems(hs, i);
    OneMoreKey(b, ps[i].0);
  }

  /** Only what the new best tip says matters. */
  lemma {:induction false} SaidNames(step: Step, c: Config, u: Universe, says: Says, says': Says, s: State,
                                     h: StateHash, names: Names, s': State)
    requires s' == Feed(step, c, u, s, h).state && says(s'.bestTip) == says'(s'.bestTip)
    ensures NamesNext(step, c, u, says, s, h, names) == NamesNext(step, c, u, says', s, h, names)
  {}
}
