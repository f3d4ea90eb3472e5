/** The indexer state and its in-place steps, each proved to be the step of the state
    machine in module WitnessTree. */
module IndexerStates {
  import opened Accounts
  import opened Blocks
  import opened Ledgers
  import opened WitnessTree
  import opened WitnessForest
  import opened WitnessRuns
  import opened Trees
  import opened Branches
  import opened BranchLists
  import opened CanonicalWalk
  import opened Extensions

  /** Where the canonical root goes, told by the blocks reported. */
  lemma {:induction false} RootAfterIs(c: Config, u: Universe, s: State, bs: seq<Block>)
    requires CanonicalUpdatable(c, u, s) && HashesOf(bs) == NewCanonical(c, u, s)
    ensures Report(c, u, s) == HashesOf(bs)
    ensures RootAfter(c, u, s) == if bs == [] then s.canonicalRoot else bs[|bs| - 1].stateHash
  {}

  /** The best tip after the best of the merged tips and then the new block were offered. */
  ghost function TipOffered(u: Universe, tip: StateHash, hs: seq<StateHash>, h: StateHash): StateHash {
    Prefer(u, if hs == [] then tip else Prefer(u, tip, BestOf(u, hs)), h)
  }

  lemma {:induction false} ExtendRootIs(u: Universe, s: State, h: StateHash)
    ensures var ms := Matching(u, s.dangling, h);
            && ExtendRoot(u, s, h).bestTip == TipOffered(u, s.bestTip, Tips(u, ms), h)
            && ExtendRoot(u, s, h).dangling == Others(u, s.dangling, h)
  {}

  class IndexerState {
    const step: Step
    const transitionFrontierLength: nat
    const pruneInterval: nat
    const canonicalUpdateThreshold: nat
    var rootBranch: Branch
    var bestTip: Tip
    var canonicalRoot: Tip
    var ledger: Ledger
    var diffsMap: map<StateHash, LedgerDiff>
    var danglingBranches: seq<Branch>

    ghost function Settings(): Config {
      Config(transitionFrontierLength, pruneInterval * transitionFrontierLength, canonicalUpdateThreshold,
             CANONICAL_THRESHOLD)
    }

    /** The state as seen by the state machine. */
    ghost function Abs(): State
      reads this
    {
      State(bestTip.stateHash, canonicalRoot.stateHash, ledger, diffsMap, ViewOf(rootBranch.tree),
            Views(danglingBranches))
    }

    /** The branches are sound, the tips point to their nodes, and the forest that the
        branches form is sound. */
    ghost predicate Shape(u: Universe)
      reads this
    {
      && rootBranch.Sound(u) && AllSound(u, danglingBranches)
      && TipOk(rootBranch.tree, bestTip) && TipOk(rootBranch.tree, canonicalRoot)
      && Forest(u, Abs())
    }

    ghost predicate Valid(u: Universe)
      reads this
    {
      Shape(u) && Anchored(Settings(), u, Abs())
    }

    /** The state of a new indexer: the genesis block alone, its diff applied. */
    constructor (ghost u: Universe, step: Step, genesisLedger: Ledger, genesis: Pcb, transitionFrontierLength: nat,
                 pruneInterval: nat, canonicalUpdateThreshold: nat)
      requires Consistent(u) && Known(u, genesis)
      ensures Valid(u)
      ensures this.step == step && this.transitionFrontierLength == transitionFrontierLength
      ensures this.pruneInterval == pruneInterval && this.canonicalUpdateThreshold == canonicalUpdateThreshold
      ensures Abs() == Initial(u, genesis.stateHash, ApplyDiff(step, genesisLedger, genesis.diff))
    {
      this.step := step;
      this.transitionFrontierLength := transitionFrontierLength;
      this.pruneInterval := pruneInterval;
      this.canonicalUpdateThreshold := canonicalUpdateThreshold;
      var branch := NewBranch(u, genesis);
      rootBranch := branch;
      bestTip := Tip(genesis.stateHash, branch.root);
      canonicalRoot := Tip(genesis.stateHash, branch.root);
      ledger := ApplyDiff(step, genesisLedger, genesis.diff);
      diffsMap := map[genesis.stateHash := genesis.diff];
      danglingBranches := [];
      new;
      InitialSound(step, Settings(), u, genesis.stateHash, ledger);
      assert Views(danglingBranches) == [];
    }

    // ---------------------------------------------------------- root extension

    method UpdateBestTip(ghost u: Universe, id: NodeId)
      requires rootBranch.Sound(u) && TipOk(rootBranch.tree, bestTip) && id in rootBranch.tree.nodes
      modifies this`bestTip
      ensures TipOk(rootBranch.tree, bestTip)
      ensures bestTip.stateHash == Prefer(u, old(bestTip.stateHash), rootBranch.tree.nodes[id].data.stateHash)
    {
      var incoming := rootBranch.tree.nodes[id].data;
      assert NodeOk(u, rootBranch.tree, id) && NodeOk(u, rootBranch.tree, bestTip.nodeId);
      NodesBeat(u, rootBranch.tree, id, bestTip.nodeId);
      if Cmp(incoming, rootBranch.tree.nodes[bestTip.nodeId].data) == Less {
        bestTip := Tip(incoming.stateHash, id);
      }
    }

    /** Offers the best merged tip, then the new block, as best tip. */
    method ChooseTip(ghost u: Universe, newId: NodeId, tips: seq<NodeId>, ghost hs: seq<StateHash>)
      requires rootBranch.Sound(u) && TipOk(rootBranch.tree, bestTip) && newId in rootBranch.tree.nodes
      requires TipsOf(rootBranch.tree, tips, hs)
      modifies this`bestTip
      ensures TipOk(rootBranch.tree, bestTip)
      ensures bestTip.stateHash ==
                TipOffered(u, old(bestTip.stateHash), hs, rootBranch.tree.nodes[newId].data.stateHash)
    {
      if tips != [] {
        var best := BestMerged(u, rootBranch.tree, tips, hs);
        UpdateBestTip(u, best);
      }
      UpdateBestTip(u, newId);
    }

    /** Puts the grown root branch in place and moves the best tip. */
    method SwapRoot(ghost u: Universe, grown: Branch, newId: NodeId, tips: seq<NodeId>, ghost hs: seq<StateHash>)
      requires grown.Sound(u) && TipOk(grown.tree, bestTip) && newId in grown.tree.nodes
      requires TipsOf(grown.tree, tips, hs)
      modifies this`rootBranch, this`bestTip
      ensures rootBranch == grown && TipOk(grown.tree, bestTip)
      ensures bestTip.stateHash == TipOffered(u, old(bestTip.stateHash), hs, grown.tree.nodes[newId].data.stateHash)
    {
      rootBranch := grown;
      ChooseTip(u, newId, tips, hs);
    }

    /** Puts the grown root branch in place, moves the best tip and drops the merged
        branches. */
    method AdoptRoot(ghost u: Universe, ghost h: StateHash, grown: Branch, newId: NodeId, tips: seq<NodeId>,
                     matched: seq<nat>)
      requires grown.Sound(u) && AllSound(u, danglingBranches)
      requires TipOk(grown.tree, bestTip) && TipOk(grown.tree, canonicalRoot)
      requires ViewOf(grown.tree) == ExtendRoot(u, Abs(), h).root
      requires newId in grown.tree.nodes && grown.tree.nodes[newId].data.stateHash == h
      requires TipsOf(grown.tree, tips, Tips(u, Matching(u, Abs().dangling, h)))
      requires matched == MatchIndices(u, Abs().dangling, h)
      modifies this`rootBranch, this`bestTip, this`danglingBranches
      ensures rootBranch == grown && AllSound(u, danglingBranches)
      ensures TipOk(grown.tree, bestTip) && TipOk(grown.tree, canonicalRoot)
      ensures Abs() == ExtendRoot(u, old(Abs()), h)
      ensures matched == [] <==> Matching(u, old(Abs()).dangling, h) == []
    {
      ghost var s := Abs();
      ExtendRootIs(u, s, h);
      SwapRoot(u, grown, newId, tips, Tips(u, Matching(u, s.dangling, h)));
      danglingBranches := RemoveMatched(u, danglingBranches, matched, h);
    }

    method TipBlock(ghost u: Universe) returns (b: Block)
      requires Consistent(u) && rootBranch.Sound(u) && TipOk(rootBranch.tree, bestTip)
      ensures b == rootBranch.tree.nodes[bestTip.nodeId].data && IsTip(u, Abs(), b)
    {
      b := rootBranch.tree.nodes[bestTip.nodeId].data;
      assert NodeOk(u, rootBranch.tree, bestTip.nodeId);
      HeightIsDepth(u, rootBranch.tree, bestTip.nodeId);
    }

    /** Extends the root branch forward and merges the dangling branches that the new
        block connects to it. */
    method RootExtension(ghost u: Universe, p: Pcb) returns (r: Option<Extension>)
      requires Shape(u) && Known(u, p) && Fresh(u, Abs(), p.stateHash)
      modifies this`rootBranch, this`bestTip, this`danglingBranches
      ensures Shape(u)
      ensures r.Some? <==> IsChildIn(u, old(Abs()).root, p.stateHash)
      ensures r.None? ==> Abs() == old(Abs())
      ensures r.Some? ==> Abs() == ExtendRoot(u, old(Abs()), p.stateHash)
      ensures r.Some? ==> IsRootExtension(r.value) && IsTip(u, Abs(), r.value.block)
      ensures r.Some? ==> (r.value.RootSimple? <==> Matching(u, old(Abs()).dangling, p.stateHash) == [])
    {
      ghost var s, h := Abs(), p.stateHash;
      var grown, newId, tips, matched := GrowRoot(u, rootBranch, danglingBranches, p);
      if newId.None? { return None; }
      AdoptRoot(u, h, grown, newId.value, tips, matched);
      RootGateAdmits(u, s, h);
      ExtendRootForest(u, s, h);
      var b := TipBlock(u);
      r := Some(if matched == [] then RootSimple(b) else RootComplex(b));
    }

    // ------------------------------------------------------ dangling extension

    /** Extends the first dangling branch that the block touches. */
    method DanglingExtension(ghost u: Universe, p: Pcb) returns (ext: Option<(nat, NodeId, Direction)>)
      requires Shape(u) && Known(u, p) && Fresh(u, Abs(), p.stateHash)
      modifies this`danglingBranches
      ensures AllSound(u, danglingBranches) && |danglingBranches| == old(|danglingBranches|)
      ensures ext.None? <==> FirstTouch(u, old(Abs()).dangling, p.stateHash) == |danglingBranches|
      ensures ext.None? ==> Abs() == old(Abs())
      ensures ext.Some? ==>
        && ext.value.0 == FirstTouch(u, old(Abs()).dangling, p.stateHash)
        && Abs() == old(Abs()).(dangling := GrownAt(u, old(Abs()).dangling, p.stateHash))
        && ext.value.1 in danglingBranches[ext.value.0].tree.nodes
        && danglingBranches[ext.value.0].tree.nodes[ext.value.1].data.stateHash == p.stateHash
        && (ext.value.2.Reverse? <==> IsParentOfRoot(u, old(Abs()).dangling[ext.value.0], p.stateHash))
    {
      var ds;
      ds, ext := ExtendFirst(u, danglingBranches, p);
      danglingBranches := ds;
    }

    /** Joins the dangling branches that the extended one now reaches. */
    method UpdateDangling(ghost u: Universe, p: Pcb, i: nat, newId: NodeId,
                          direction: Direction) returns (ext: Extension)
      requires Consistent(u) && AllSound(u, danglingBranches) && Separate(Abs().dangling) && i < |danglingBranches|
      requires newId in danglingBranches[i].tree.nodes
      requires danglingBranches[i].tree.nodes[newId].data.stateHash == p.stateHash
      requires var matched := MatchIndices(u, Abs().dangling, p.stateHash);
               forall k :: 0 <= k < |matched| ==> i < matched[k]
      modifies this`danglingBranches
      ensures AllSound(u, danglingBranches)
      ensures var before := old(Abs());
              if Matching(u, before.dangling, p.stateHash) == []
              then Abs() == before && ext ==
                  (if direction.Forward? then DanglingSimpleForward else DanglingSimpleReverse)
              else Abs() == before.(dangling := JoinAt(u, before.dangling, i, p.stateHash)) && ext == DanglingComplex
    {
      var matched := FindMatches(u, danglingBranches, p);
      PickedMatches(u, Views(danglingBranches), p.stateHash);
      if matched != [] {
        danglingBranches := JoinBranches(u, danglingBranches, i, newId, matched, p.stateHash);
        return DanglingComplex;
      }
      return match direction case Forward => DanglingSimpleForward case Reverse => DanglingSimpleReverse;
    }

    /** Starts a dangling branch. */
    method NewDangling(ghost u: Universe, p: Pcb) returns (ext: Extension)
      requires AllSound(u, danglingBranches) && Known(u, p)
      modifies this`danglingBranches
      ensures AllSound(u, danglingBranches) && ext == DanglingNew
      ensures Abs() == old(Abs()).(dangling := old(Abs()).dangling + [View(p.stateHash, {p.stateHash})])
    {
      var b := NewBranch(u, p);
      assert Views(danglingBranches + [b]) == Views(danglingBranches) + [ViewOf(b.tree)];
      danglingBranches := danglingBranches + [b];
      return DanglingNew;
    }

    /** Places a block that does not extend the root branch. */
    method PlaceDangling(ghost u: Universe, p: Pcb) returns (ext: Extension)
      requires Shape(u) && Known(u, p) && Fresh(u, Abs(), p.stateHash)
      modifies this`danglingBranches
      ensures Shape(u) && Abs() == ExtendDangling(u, old(Abs()), p.stateHash)
      ensures ext == Placed(u, old(Abs()).dangling, p.stateHash)
    {
      ghost var s, h := Abs(), p.stateHash;
      ExtendDanglingForest(u, s, h);
      var found := DanglingExtension(u, p);
      if found.Some? {
        GrownJoinable(u, s.dangling, h);
        ext := UpdateDangling(u, p, found.value.0, found.value.1, found.value.2);
      } else {
        ext := NewDangling(u, p);
      }
    }

    // --------------------------------------------------------- canonical blocks

    /** What a canonical update relies on. */
    ghost predicate RootOk(u: Universe)
      reads this
    {
      && rootBranch.Sound(u) && RootSound(u, Abs())
      && TipOk(rootBranch.tree, bestTip) && TipOk(rootBranch.tree, canonicalRoot)
    }

    /** Heights in the root branch are distances from its root. */
    lemma {:induction false} TipHeights(u: Universe)
      requires RootOk(u)
      ensures var t := rootBranch.tree;
              && t.nodes[bestTip.nodeId].data.height == Depth(u, Abs())
              && t.nodes[canonicalRoot.nodeId].data.height == Len(u, canonicalRoot.stateHash) - Len(u, Abs().root.root)
              && t.nodes[canonicalRoot.nodeId].data.height <= t.nodes[bestTip.nodeId].data.height
    {
      var t := rootBranch.tree;
      HeightIsDepth(u, t, bestTip.nodeId);
      HeightIsDepth(u, t, canonicalRoot.nodeId);
      assert NodeOk(u, t, bestTip.nodeId) && NodeOk(u, t, canonicalRoot.nodeId);
    }

    /** The subtraction never goes below zero. */
    method IsCanonicalUpdatable(ghost u: Universe) returns (yes: bool)
      requires RootOk(u)
      ensures yes <==> CanonicalUpdatable(Settings(), u, Abs())
    {
      TipHeights(u);
      var tip, root := rootBranch.tree.nodes[bestTip.nodeId], rootBranch.tree.nodes[canonicalRoot.nodeId];
      var distance: nat := tip.data.height - root.data.height;
      yes := distance >= canonicalUpdateThreshold;
    }

    /** The blocks that have become canonical, lowest first; the canonical root moves to
        the highest of them. */
    method GetNewCanonicalBlocks(ghost u: Universe) returns (bs: seq<Block>)
      requires RootOk(u)
      modifies this`canonicalRoot
      ensures TipOk(rootBranch.tree, canonicalRoot)
      ensures HashesOf(bs) == NewCanonical(Settings(), u, old(Abs())) && RealBlocks(u, bs)
      ensures HeightsFrom(u, Abs().root.root, bs)
      ensures canonicalRoot.stateHash == if bs == [] then old(canonicalRoot.stateHash) else bs[|bs| - 1].stateHash
    {
      TipHeights(u);
      var start;
      start, bs := CollectFromTip(u, rootBranch.tree, bestTip.nodeId, canonicalRoot.nodeId, CANONICAL_THRESHOLD);
      if bs != [] {
        canonicalRoot := Tip(rootBranch.tree.nodes[start.value].data.stateHash, start.value);
      }
    }

    /** Adds the diffs of the new canonical blocks to the ledger; a block without a diff
        is passed over. */
    method UpdateLedger(bs: seq<Block>)
      modifies this`ledger
      ensures ledger == ApplyDiff(step, old(ledger), KnownDiffs(diffsMap, HashesOf(bs)))
    {
      var diff := GatherDiffs(diffsMap, bs);
      if diff != [] {
        ledger := ApplyDiffInPlace(step, ledger, diff);
      }
    }

    /** Removes the diffs at or beneath the height of the new canonical root. */
    method PruneDiffsMap(ghost u: Universe, ghost s: State, oldRoot: NodeId)
      requires Consistent(u) && rootBranch.Sound(u) && TipOk(rootBranch.tree, canonicalRoot)
      requires TipOk(rootBranch.tree, Tip(s.canonicalRoot, oldRoot)) && s.root == ViewOf(rootBranch.tree)
      requires s.diffs == diffsMap
      modifies this`diffsMap
      ensures diffsMap == PrunedDiffs(u, s, canonicalRoot.stateHash)
    {
      diffsMap := ForgetDiffs(u, s, rootBranch.tree, diffsMap, oldRoot, canonicalRoot.nodeId);
    }

    /** Moves the ledger and the diff map on to the canonical root. */
    method FollowRoot(ghost u: Universe, ghost s: State, oldRoot: NodeId, bs: seq<Block>)
      requires Consistent(u) && rootBranch.Sound(u) && TipOk(rootBranch.tree, canonicalRoot)
      requires TipOk(rootBranch.tree, Tip(s.canonicalRoot, oldRoot))
      requires Abs() == s.(canonicalRoot := canonicalRoot.stateHash)
      modifies this`ledger, this`diffsMap
      ensures Abs() == Advanced(step, u, s, HashesOf(bs), canonicalRoot.stateHash)
    {
      UpdateLedger(bs);
      PruneDiffsMap(u, s, oldRoot);
    }

    /** Moves the canonical root, the ledger and the diff map forward. */
    method MoveCanonical(ghost u: Universe) returns (bs: seq<Block>)
      requires RootOk(u)
      modifies this`canonicalRoot, this`ledger, this`diffsMap
      ensures TipOk(rootBranch.tree, canonicalRoot)
      ensures HashesOf(bs) == NewCanonical(Settings(), u, old(Abs())) && RealBlocks(u, bs)
      ensures HeightsFrom(u, Abs().root.root, bs)
      ensures canonicalRoot.stateHash == if bs == [] then old(canonicalRoot.stateHash) else bs[|bs| - 1].stateHash
      ensures Abs() == Advanced(step, u, old(Abs()), HashesOf(bs), canonicalRoot.stateHash)
    {
      ghost var s := Abs();
      var oldRoot := canonicalRoot.nodeId;
      bs := GetNewCanonicalBlocks(u);
      FollowRoot(u, s, oldRoot, bs);
    }

    /** Does so if the best tip is far enough ahead. */
    method UpdateCanonical(ghost u: Universe) returns (bs: seq<Block>)
      requires RootOk(u)
      modifies this`canonicalRoot, this`ledger, this`diffsMap
      ensures TipOk(rootBranch.tree, canonicalRoot)
      ensures Abs() == WitnessTree.UpdateCanonical(step, Settings(), u, old(Abs()))
      ensures HashesOf(bs) == Report(Settings(), u, old(Abs())) && RealBlocks(u, bs)
      ensures HeightsFrom(u, Abs().root.root, bs)
    {
      var updatable := IsCanonicalUpdatable(u);
      bs := [];
      if updatable {
        bs := MoveCanonical(u);
        RootAfterIs(Settings(), u, old(Abs()), bs);
      }
    }

    /** Drops the lower part of an overgrown tree; node ids stay valid. */
    method PruneFrontier(ghost u: Universe)
      requires ValidConfig(Settings()) && RootOk(u)
      requires canonicalRoot.stateHash in Prune(Settings(), u, Abs()).root.hashes
      modifies this`rootBranch
      ensures rootBranch.Sound(u) && Abs() == Prune(Settings(), u, old(Abs()))
      ensures TipOk(rootBranch.tree, bestTip) && TipOk(rootBranch.tree, canonicalRoot)
    {
      PruneSound(Settings(), u, Abs());
      PruneDue(Settings(), u, Abs());
      var height := rootBranch.Height(u);
      HeightIsLevels(u, rootBranch, height);
      if height > pruneInterval * transitionFrontierLength {
        var best := rootBranch.tree.nodes[bestTip.nodeId].data;
        rootBranch := rootBranch.PruneTransitionFrontier(u, transitionFrontierLength, best);
      }
    }

    /** Updates the canonical root, then drops the lower part of an overgrown tree. */
    method PruneRootBranch(ghost u: Universe) returns (bs: seq<Block>)
      requires ValidConfig(Settings()) && Valid(u)
      requires Follows(Settings(), u, Abs())
      modifies this`rootBranch, this`canonicalRoot, this`ledger, this`diffsMap
      ensures Valid(u)
      ensures Outcome(Abs(), HashesOf(bs)) == Settle(step, Settings(), u, old(Abs())) && RealBlocks(u, bs)
      ensures HeightsFrom(u, old(Abs()).root.root, bs)
    {
      ghost var s, c := Abs(), Settings();
      SettleKeepsForest(step, c, u, s);
      bs := UpdateCanonical(u);
      PruneFrontier(u);
    }

    // ----------------------------------------------------------------- one block

    /** Extends the root branch if the block's length and parent allow it, otherwise
        places the block among the dangling branches. */
    method PlaceBlock(ghost u: Universe, p: Pcb) returns (ext: Extension)
      requires Shape(u) && Known(u, p) && Fresh(u, Abs(), p.stateHash)
      modifies this`rootBranch, this`bestTip, this`danglingBranches
      ensures Shape(u) && ext != BlockNotAdded && IsPlaced(u, old(Abs()), p.stateHash, ext)
      ensures IsRootExtension(ext) ==> Abs() == ExtendRoot(u, old(Abs()), p.stateHash) && IsTip(u, Abs(), ext.block)
      ensures !IsRootExtension(ext) ==> Abs() == ExtendDangling(u, old(Abs()), p.stateHash)
    {
      assert rootBranch.tree.nodes[bestTip.nodeId].data.length == Len(u, Abs().bestTip) by {
        assert NodeOk(u, rootBranch.tree, bestTip.nodeId);
      }
      if rootBranch.tree.nodes[bestTip.nodeId].data.length + 1 >= p.length {
        var root := RootExtension(u, p);
        if root.Some? { return root.value; }
      }
      ext := PlaceDangling(u, p);
    }

    /** Keeps the block's diff and finds the block its place. */
    method ExtendTree(ghost u: Universe, p: Pcb) returns (ext: Extension)
      requires Shape(u) && Known(u, p) && Fresh(u, Abs(), p.stateHash)
      modifies this`rootBranch, this`bestTip, this`danglingBranches, this`diffsMap
      ensures Shape(u) && ext != BlockNotAdded && Abs() == Extended(u, old(Abs()), p.stateHash)
      ensures IsPlaced(u, old(Abs()), p.stateHash, ext)
      ensures IsRootExtension(ext) ==> IsTip(u, Abs(), ext.block)
    {
      ghost var s, h := Abs(), p.stateHash;
      diffsMap := diffsMap[p.stateHash := p.diff];
      assert Abs() == WithDiff(u, s, h);
      ext := PlaceBlock(u, p);
    }

    /** Extends the tree by a block that is not too low and lets it settle. */
    method TakeBlock(ghost u: Universe, p: Pcb, ghost s: State) returns (ext: Extension, canonical: seq<Block>)
      requires ValidConfig(Settings()) && Valid(u) && s == Abs() && Known(u, p) && Fresh(u, s, p.stateHash)
      requires KeepsAnchor(Settings(), u, s, p.stateHash)
      modifies this
      ensures Valid(u) && RealBlocks(u, canonical) && HeightsFrom(u, s.root.root, canonical)
      ensures Outcome(Abs(), HashesOf(canonical)) == Feed(step, Settings(), u, s, p.stateHash)
      ensures Answered(u, s, p.stateHash, ext)
      ensures IsRootExtension(ext) ==> IsTip(u, Extended(u, s, p.stateHash), ext.block)
    {
      assert NodeOk(u, rootBranch.tree, rootBranch.root);
      canonical := [];
      if rootBranch.tree.nodes[rootBranch.root].data.length > p.length { return BlockNotAdded, []; }
      ext := ExtendTree(u, p);
      if IsRootExtension(ext) {
        ExtendedFollows(Settings(), u, s, p.stateHash);
        canonical := PruneRootBranch(u);
      }
    }

    /** Adds one block to the witness tree. */
    method AddBlockToWitnessTree(ghost u: Universe, p: Pcb) returns (ext: Extension, canonical: seq<Block>)
      requires ValidConfig(Settings()) && Valid(u) && Known(u, p) && Fresh(u, Abs(), p.stateHash)
      requires KeepsAnchor(Settings(), u, Abs(), p.stateHash)
      modifies this
      ensures Valid(u)
      ensures Outcome(Abs(), HashesOf(canonical)) == Feed(step, Settings(), u, old(Abs()), p.stateHash)
      ensures RealBlocks(u, canonical) && HeightsFrom(u, old(Abs()).root.root, canonical)
      ensures ext == BlockNotAdded <==> !Accepted(u, old(Abs()), p.stateHash)
      ensures IsRootExtension(ext) <==> Accepted(u, old(Abs()), p.stateHash) && ExtendsRoot(u, old(Abs()), p.stateHash)
      ensures IsRootExtension(ext) ==>
                ext.block.stateHash == bestTip.stateHash && IsTip(u, Extended(u, old(Abs()), p.stateHash), ext.block)
      ensures Abs().dangling == Placing(u, old(Abs()), p.stateHash).dangling
      ensures TypeIs(p.stateHash, old(Abs()), Placing(u, old(Abs()), p.stateHash), ext)
    {
      ghost var s, h := Abs(), p.stateHash;
      ext, canonical := TakeBlock(u, p, s);
      TypeTells(u, s, h, ext);
      FeedDangling(step, Settings(), u, s, h);
      SettleKeepsTip(step, Settings(), u, s, h);
    }

    /** Feeds blocks one after another, as a restart does with the blocks it reads back. */
    method AddBlocks(ghost u: Universe, ghost r: StateHash, ghost l: Ledger,
                     ps: seq<Pcb>) returns (canonical: seq<Block>)
      requires ValidConfig(Settings()) && Valid(u) && r in u && Abs() == Initial(u, r, l)
      requires (forall i :: 0 <= i < |ps| ==> Known(u, ps[i])) && FreshFeed(u, r, FeedOf(ps))
      requires Settings().updateThreshold <= Settings().confirmations + 1 ||
               Shallow(step, Settings(), u, Abs(), FeedOf(ps))
      modifies this
      ensures Valid(u)
      ensures Outcome(Abs(), HashesOf(canonical)) == Run(step, Settings(), u, old(Abs()), FeedOf(ps))
    {
      canonical := [];
      ghost var hs, s := FeedOf(ps), Abs();
      for i := 0 to |ps|
        invariant Valid(u)
        invariant Outcome(Abs(), HashesOf(canonical)) == Run(step, Settings(), u, s, hs[..i])
      {
        NextFeed(step, Settings(), u, r, l, hs, i);
        var _, more := AddBlockToWitnessTree(u, ps[i]);
        HashesOfConcat(canonical, more);
        canonical := canonical + more;
      }
      assert hs[..|ps|] == hs;
    }

    // ---------------------------------------------------------------- best chain

    /** The best tip and its ancestors in the tree, newest first. */
    method BestChain(ghost u: Universe) returns (chain: seq<Block>)
      requires RootOk(u)
      ensures |chain| == Depth(u, Abs()) + 1 && RealBlocks(u, chain) && HeightsFrom(u, Abs().root.root, chain)
      ensures forall i :: 0 <= i < |chain| ==> chain[i].stateHash == Up(u, bestTip.stateHash, i)
    {
      TipHeights(u);
      chain := ChainOf(u, rootBranch.tree, bestTip.nodeId);
    }

    /** The ledger at the best tip.  A diff that is not in the map is read from the store, whose
        diffs are `stored`; nothing is returned precisely if one on the way is in neither. */
    method BestLedger(ghost u: Universe, stored: map<StateHash, LedgerDiff>) returns (r: Option<Ledger>)
      requires RootOk(u)
      ensures !Descends(u, canonicalRoot.stateHash, bestTip.stateHash) ==> r == Some(ledger)
      ensures Descends(u, canonicalRoot.stateHash, bestTip.stateHash) ==>
                var path := Path(u, canonicalRoot.stateHash, bestTip.stateHash);
                && (r.Some? <==> forall x :: x in path ==> x in stored || x in diffsMap)
                && (DiffsKept(u, Abs()) || DiffsRight(u, stored + diffsMap, path) ==>
                      r == Some(LedgerAt(step, u, canonicalRoot.stateHash, ledger, bestTip.stateHash)))
    {
      var chain := BestChain(u);
      var n := FirstWithHash(chain, canonicalRoot.stateHash);
      RootOnChain(u, Abs(), chain, n);
      if n == |chain| { return Some(ledger); }
      LedgerOnPath(step, Settings(), u, Abs(), stored);
      r := ApplyChain(step, ledger, stored + diffsMap, chain, n);
    }
  }

  /** The diff map has the right diff of every block listed. */
  ghost predicate DiffsRight(u: Universe, diffs: map<StateHash, LedgerDiff>, hs: seq<StateHash>) {
    forall x :: x in hs ==> x in diffs && x in u && diffs[x] == u[x].diff
  }

  ghost function FeedOf(ps: seq<Pcb>): seq<StateHash> {
    seq(|ps|, i requires 0 <= i < |ps| => ps[i].stateHash)
  }

  lemma {:induction false} ShallowPrefix(step: Step, c: Config, u: Universe, s: State, hs: seq<StateHash>, i: nat)
    requires Shallow(step, c, u, s, hs) && i <= |hs|
    ensures Shallow(step, c, u, s, hs[..i])
    decreases |hs|
  {
    if i < |hs| {
      ShallowPrefix(step, c, u, s, hs[..|hs| - 1], i);
      assert hs[..|hs| - 1][..i] == hs[..i];
    } else {
      assert hs[..i] == hs;
    }
  }

  /** Every block of a fresh feed is fresh when its turn comes. */
  lemma {:induction false} NextFeed(step: Step, c: Config, u: Universe, r: StateHash, l: Ledger, hs: seq<StateHash>,
                                    i: nat)
    requires ValidConfig(c) && Consistent(u) && r in u && FreshFeed(u, r, hs) && i < |hs|
    requires c.updateThreshold <= c.confirmations + 1 || Shallow(step, c, u, Initial(u, r, l), hs)
    ensures var s := Run(step, c, u, Initial(u, r, l), hs[..i]).state;
            Fresh(u, s, hs[i]) && KeepsAnchor(c, u, s, hs[i])
    ensures var before := Run(step, c, u, Initial(u, r, l), hs[..i]);
            var o := Feed(step, c, u, before.state, hs[i]);
            Run(step, c, u, Initial(u, r, l), hs[..i + 1]) == Outcome(o.state, before.canonical + o.canonical)
  {
    var init, upTo := hs[..i], hs[..i + 1];
    assert upTo[..i] == init && upTo[i] == hs[i];
    assert FreshFeed(u, r, init) && FreshFeed(u, r, upTo);
    if c.updateThreshold > c.confirmations + 1 {
      ShallowPrefix(step, c, u, Initial(u, r, l), hs, i + 1);
    }
    RunKeepsForest(step, c, u, r, l, init);
    NextIsFresh(u, r, upTo, Run(step, c, u, Initial(u, r, l), init).state);
  }

  /** A block is on the best chain of the tree exactly if the best tip descends from it. */
  lemma {:induction false} OnBestChain(u: Universe, s: State, x: StateHash)
    requires RootSound(u, s) && x in s.root.hashes
    ensures Descends(u, x, s.bestTip) ==>
              0 <= u[s.bestTip].length - u[x].length <= Depth(u, s) &&
                Up(u, s.bestTip, u[s.bestTip].length - u[x].length) == x
    ensures forall i: nat :: i <= Depth(u, s) && Up(u, s.bestTip, i) == x ==>
              Descends(u, x, s.bestTip) && i == u[s.bestTip].length - u[x].length
  {
    RootedDescends(u, s.root, x);
    if Descends(u, x, s.bestTip) { DescendsLength(u, x, s.bestTip); }
    forall i: nat | i <= Depth(u, s) && Up(u, s.bestTip, i) == x
      ensures Descends(u, x, s.bestTip) && i == u[s.bestTip].length - u[x].length
    {
      TipAncestor(u, s.root, s.bestTip, i);
    }
  }

  /** The canonical root is on the best chain precisely if the best tip descends from it; then
      the diffs above it lead to the best tip's ledger. */
  /** The first block with the canonical root's hash is as far down the chain as the root. */
  lemma {:induction false} RootOnChain(u: Universe, s: State, chain: seq<Block>, n: nat)
    requires RootSound(u, s) && s.canonicalRoot in s.root.hashes && |chain| == Depth(u, s) + 1 && n <= |chain|
    requires forall i :: 0 <= i < |chain| ==> chain[i].stateHash == Up(u, s.bestTip, i)
    requires n < |chain| ==> chain[n].stateHash == s.canonicalRoot
    requires forall i :: 0 <= i < n ==> chain[i].stateHash != s.canonicalRoot
    ensures n < |chain| <==> Descends(u, s.canonicalRoot, s.bestTip)
    ensures n < |chain| ==> Span(chain, 0, n) == Path(u, s.canonicalRoot, s.bestTip)
  {
    OnBestChain(u, s, s.canonicalRoot);
    if n < |chain| { SpanIsPath(u, s.canonicalRoot, s.bestTip, chain, 0, n); }
  }

  /** The diffs of the blocks up to the best tip, where they are right, lead to its ledger. */
  lemma {:induction false} LedgerOnPath(step: Step, c: Config, u: Universe, s: State,
                                        stored: map<StateHash, LedgerDiff>)
    requires RootSound(u, s) && s.canonicalRoot in s.root.hashes && Descends(u, s.canonicalRoot, s.bestTip)
    ensures var path := Path(u, s.canonicalRoot, s.bestTip);
            DiffsKept(u, s) || DiffsRight(u, stored + s.diffs, path) ==>
              && DiffsRight(u, stored + s.diffs, path)
              && ApplyDiff(step, s.ledger, KnownDiffs(stored + s.diffs, path)) ==
                  LedgerAt(step, u, s.canonicalRoot, s.ledger, s.bestTip)
  {
    var path := Path(u, s.canonicalRoot, s.bestTip);
    if DiffsKept(u, s) { PathDiffsKept(c, u, s, s.bestTip); }
    if DiffsRight(u, stored + s.diffs, path) { KnownDiffsFold(step, u, s.ledger, stored + s.diffs, path); }
  }
}
