/** Tips of the root branch, and the walk from the best tip to the canonical blocks. */
module CanonicalWalk {
  import opened Accounts
  import opened Blocks
  import opened Ledgers
  import opened WitnessTree
  import opened WitnessForest
  import opened Trees
  import opened Branches
  import opened BranchLists
  import opened TreePruning

  datatype Tip = Tip(stateHash: StateHash, nodeId: NodeId)

  ghost predicate TipOk(t: Tree, tip: Tip) {
    tip.nodeId in t.nodes && t.nodes[tip.nodeId].data.stateHash == tip.stateHash
  }

  /** The first of the merged tips that no other one beats. */
  method BestMerged(ghost u: Universe, t: Tree, tips: seq<NodeId>, ghost hs: seq<StateHash>) returns (id: NodeId)
    requires SoundTree(u, t) && tips != [] && TipsOf(t, tips, hs)
    ensures id in t.nodes && t.nodes[id].data.stateHash == BestOf(u, hs)
  {
    id := tips[0];
    assert hs[..|hs|] == hs;
    for i := 1 to |tips|
      invariant id in t.nodes && t.nodes[id].data.stateHash == BestOf(u, hs[..i])
    {
      assert hs[..i + 1][..i] == hs[..i];
      assert NodeOk(u, t, id) && NodeOk(u, t, tips[i]);
      NodesBeat(u, t, id, tips[i]);
      if Cmp(t.nodes[id].data, t.nodes[tips[i]].data) != Less {
        id := tips[i];
      }
    }
  }

  ghost function HashesOf(bs: seq<Block>): (hs: seq<StateHash>) {
    seq(|bs|, i requires 0 <= i < |bs| => bs[i].stateHash)
  }

  /** The blocks carry what the universe says of them. */
  ghost predicate RealBlocks(u: Universe, bs: seq<Block>) {
    forall i: nat {:trigger RealAt(u, bs, i)} :: RealAt(u, bs, i)
  }

  /** The heights are those in a tree with root `r`. */
  ghost predicate HeightsFrom(u: Universe, r: StateHash, bs: seq<Block>) {
    forall i :: 0 <= i < |bs| ==> bs[i].height + Len(u, r) == bs[i].length
  }

  ghost predicate RealAt(u: Universe, bs: seq<Block>, i: nat) {
    i < |bs| ==> bs[i].stateHash in u && bs[i] == FromPrecomputed(u[bs[i].stateHash], bs[i].height)
  }

  lemma {:induction false} RealSnoc(u: Universe, bs: seq<Block>, b: Block)
    requires RealBlocks(u, bs) && b.stateHash in u && b == FromPrecomputed(u[b.stateHash], b.height)
    ensures RealBlocks(u, bs + [b])
  {
    forall i: nat ensures RealAt(u, bs + [b], i) { assert RealAt(u, bs, i); }
  }

  lemma {:induction false} RealCons(u: Universe, b: Block, bs: seq<Block>)
    requires RealBlocks(u, bs) && b.stateHash in u && b == FromPrecomputed(u[b.stateHash], b.height)
    ensures RealBlocks(u, [b] + bs)
  {
    var bs' := [b] + bs;
    forall i: nat ensures RealAt(u, bs', i) { if i > 0 { assert RealAt(u, bs, i - 1); } }
  }

  lemma {:induction false} HashesOfConcat(a: seq<Block>, b: seq<Block>)
    ensures HashesOf(a + b) == HashesOf(a) + HashesOf(b)
  {}

  lemma {:induction false} HashesOfCons(b: Block, bs: seq<Block>)
    ensures HashesOf([b] + bs) == [b.stateHash] + HashesOf(bs)
  {}

  /** The `n`-th ancestor of a node, if the tree is deep enough. */
  method NthAncestor(ghost u: Universe, t: Tree, tip: NodeId, n: nat) returns (r: Option<NodeId>)
    requires Consistent(u) && SoundTree(u, t) && tip in t.nodes
    ensures r.Some? <==> t.nodes[tip].data.height >= n
    ensures r.Some? ==> r.value in t.nodes && t.nodes[r.value].data.stateHash == Up(u, t.nodes[tip].data.stateHash, n)
    ensures r.Some? ==> t.nodes[r.value].data.height == t.nodes[tip].data.height - n
  {
    var cur, i := tip, 0;
    ghost var h := t.nodes[tip].data.stateHash;
    assert NodeOk(u, t, tip);
    while i < n
      invariant i <= n && cur in t.nodes && NodeOk(u, t, cur)
      invariant i + t.nodes[cur].data.height == t.nodes[tip].data.height
      invariant t.nodes[cur].data.stateHash == Up(u, h, i)
    {
      if t.nodes[cur].parent.None? { return None; }
      UpStep(u, h, i);
      cur, i := t.nodes[cur].parent.value, i + 1;
      assert NodeOk(u, t, cur);
    }
    return Some(cur);
  }

  lemma {:induction false} CollectStep(u: Universe, t: Tree, cur: NodeId, stop: NodeId, bs: seq<Block>)
    requires SoundTree(u, t) && cur in t.nodes && stop in t.nodes && cur != stop
    ensures var b, h := t.nodes[cur].data, t.nodes[stop].data.stateHash;
            var below := match t.nodes[cur].parent
                         case None => []
                         case Some(p) =>
                           if p in t.nodes then Collect(u, t.nodes[p].data.stateHash,
                                                        t.nodes[p].data.height, h) else [];
            Collect(u, b.stateHash, b.height, h) + HashesOf(bs) == below + ([b.stateHash] + HashesOf(bs))
  {
    assert NodeOk(u, t, cur) && NodeOk(u, t, stop);
  }

  /** The blocks from just above `stop`, or from the root if `stop` is never met, up to
      `start`. */
  method CollectBlocks(ghost u: Universe, t: Tree, start: NodeId, stop: NodeId) returns (bs: seq<Block>)
    requires Consistent(u) && SoundTree(u, t) && start in t.nodes && stop in t.nodes
    ensures HashesOf(bs) ==
              Collect(u, t.nodes[start].data.stateHash, t.nodes[start].data.height, t.nodes[stop].data.stateHash)
    ensures bs == [] <==> start == stop
    ensures RealBlocks(u, bs) && HeightsFrom(u, ViewOf(t).root, bs)
    ensures bs != [] ==> bs[|bs| - 1] == t.nodes[start].data
  {
    ghost var all := Collect(u, t.nodes[start].data.stateHash, t.nodes[start].data.height,
                             t.nodes[stop].data.stateHash);
    bs := [];
    var cur := start;
    while cur != stop
      invariant cur in t.nodes
      invariant RealBlocks(u, bs) && HeightsFrom(u, ViewOf(t).root, bs)
      invariant bs == [] ==> cur == start
      invariant bs != [] ==> start != stop && bs[|bs| - 1] == t.nodes[start].data
      invariant all == Collect(u, t.nodes[cur].data.stateHash, t.nodes[cur].data.height,
                               t.nodes[stop].data.stateHash) + HashesOf(bs)
      decreases t.nodes[cur].data.height
    {
      assert NodeOk(u, t, cur);
      var b := t.nodes[cur].data;
      CollectStep(u, t, cur, stop, bs);
      HashesOfCons(b, bs);
      RealCons(u, b, bs);
      HeightIsDepth(u, t, cur);
      bs := [b] + bs;
      if t.nodes[cur].parent.None? { return; }
      cur := t.nodes[cur].parent.value;
    }
  }

  /** The blocks from `n` below the tip down to just above `stop`, if there is such a block. */
  method CollectFromTip(ghost u: Universe, t: Tree, tip: NodeId, stop: NodeId, n: nat)
    returns (start: Option<NodeId>, bs: seq<Block>)
    requires Consistent(u) && SoundTree(u, t) && tip in t.nodes && stop in t.nodes
    ensures RealBlocks(u, bs) && HeightsFrom(u, ViewOf(t).root, bs)
    ensures HashesOf(bs) ==
              if t.nodes[tip].data.height < n then []
              else Collect(u, Up(u, t.nodes[tip].data.stateHash, n), t.nodes[tip].data.height - n,
                           t.nodes[stop].data.stateHash)
    ensures bs != [] ==> start.Some? && start.value in t.nodes && bs[|bs| - 1] == t.nodes[start.value].data
  {
    start := NthAncestor(u, t, tip, n);
    bs := [];
    if start.Some? { bs := CollectBlocks(u, t, start.value, stop); }
  }

  lemma {:induction false} KnownDiffsNext(diffs: map<StateHash, LedgerDiff>, hs: seq<StateHash>, i: nat)
    requires i < |hs|
    ensures KnownDiffs(diffs, hs[..i + 1]) == KnownDiffs(diffs, hs[..i]) + if hs[i] in diffs then diffs[hs[i]] else []
  {
    assert hs[..i + 1][..i] == hs[..i];
  }

  /** The diffs of the blocks that still have one, appended. */
  method GatherDiffs(diffs: map<StateHash, LedgerDiff>, bs: seq<Block>) returns (d: LedgerDiff)
    ensures d == KnownDiffs(diffs, HashesOf(bs))
  {
    d := [];
    ghost var hs := HashesOf(bs);
    for i := 0 to |bs|
      invariant d == KnownDiffs(diffs, hs[..i])
    {
      KnownDiffsNext(diffs, hs, i);
      if bs[i].stateHash in diffs { d := d + diffs[bs[i].stateHash]; }
    }
    assert hs[..|hs|] == hs;
  }

  ghost predicate IsSettledNode(t: Tree, oldRoot: NodeId, newRoot: NodeId, id: NodeId)
    requires id in t.nodes && newRoot in t.nodes
  {
    Under(t.nodes, oldRoot, id) && id != newRoot && t.nodes[id].data.height <= t.nodes[newRoot].data.height
  }

  lemma {:induction false} SettledNodes(u: Universe, s: State, t: Tree, oldRoot: NodeId, newRoot: NodeId, id: NodeId)
    requires Consistent(u) && SoundTree(u, t) && oldRoot in t.nodes && newRoot in t.nodes && id in t.nodes
    requires s.root == ViewOf(t) && s.canonicalRoot == t.nodes[oldRoot].data.stateHash
    ensures IsSettledNode(t, oldRoot, newRoot, id) <==>
              Settled(u, s, t.nodes[newRoot].data.stateHash, t.nodes[id].data.stateHash)
  {
    UnderIsDescends(u, t, oldRoot, id);
    HeightIsDepth(u, t, id);
    HeightIsDepth(u, t, newRoot);
    assert NodeOk(u, t, id) && NodeOk(u, t, newRoot);
  }

  /** `gone` holds the hashes of the settled nodes outside `ids`. */
  ghost predicate Forgetting(t: Tree, oldRoot: NodeId, newRoot: NodeId, ids: set<NodeId>, gone: set<StateHash>)
    requires newRoot in t.nodes
  {
    && ids <= t.nodes.Keys && gone <= Hashes(t)
    && forall id :: id in t.nodes ==>
         (t.nodes[id].data.stateHash in gone <==> id !in ids && IsSettledNode(t, oldRoot, newRoot, id))
  }

  lemma {:induction false} ForgetNext(t: Tree, oldRoot: NodeId, newRoot: NodeId, ids: set<NodeId>, gone: set<StateHash>,
                                      id: NodeId)
    requires newRoot in t.nodes && UniqueHashes(t) && Forgetting(t, oldRoot, newRoot, ids, gone) && id in ids
    ensures Forgetting(t, oldRoot, newRoot, ids - {id},
                       if IsSettledNode(t, oldRoot, newRoot, id) then gone + {t.nodes[id].data.stateHash} else gone)
  {}

  lemma {:induction false} AllForgotten(u: Universe, s: State, t: Tree, oldRoot: NodeId, newRoot: NodeId,
                                        gone: set<StateHash>)
    requires Consistent(u) && SoundTree(u, t) && oldRoot in t.nodes && newRoot in t.nodes
    requires s.root == ViewOf(t) && s.canonicalRoot == t.nodes[oldRoot].data.stateHash
    requires Forgetting(t, oldRoot, newRoot, {}, gone)
    ensures s.diffs - gone == PrunedDiffs(u, s, t.nodes[newRoot].data.stateHash)
  {
    var r := t.nodes[newRoot].data.stateHash;
    forall h ensures h in gone <==> Settled(u, s, r, h) {
      if h in Hashes(t) {
        var id := HashHasNode(t, h);
        SettledNodes(u, s, t, oldRoot, newRoot, id);
      }
    }
  }

  lemma {:induction false} MinusOneMore(m: map<StateHash, LedgerDiff>, gone: set<StateHash>, h: StateHash)
    ensures m - (gone + {h}) == (m - gone) - {h}
  {}

  /** Forgets the diffs of the nodes below the old canonical root that are not higher
      than the new one. */
  method ForgetDiffs(ghost u: Universe, ghost s: State, t: Tree, diffs: map<StateHash, LedgerDiff>, oldRoot: NodeId,
                     newRoot: NodeId)
    returns (kept: map<StateHash, LedgerDiff>)
    requires Consistent(u) && SoundTree(u, t) && oldRoot in t.nodes && newRoot in t.nodes
    requires s.root == ViewOf(t) && s.canonicalRoot == t.nodes[oldRoot].data.stateHash && s.diffs == diffs
    ensures kept == PrunedDiffs(u, s, t.nodes[newRoot].data.stateHash)
  {
    kept := diffs;
    var ids := set id | id in t.nodes && Under(t.nodes, oldRoot, id);
    ghost var below, gone: set<StateHash> := ids, {};
    while ids != {}
      invariant ids <= below
      invariant Forgetting(t, oldRoot, newRoot, ids, gone) && kept == diffs - gone
      decreases |ids|
    {
      var id :| id in ids;
      ForgetNext(t, oldRoot, newRoot, ids, gone, id);
      assert id in below && id in t.nodes && Under(t.nodes, oldRoot, id);
      ids := ids - {id};
      if id != newRoot && t.nodes[id].data.height <= t.nodes[newRoot].data.height {
        var h := t.nodes[id].data.stateHash;
        MinusOneMore(diffs, gone, h);
        kept, gone := kept - {h}, gone + {h};
      }
    }
    AllForgotten(u, s, t, oldRoot, newRoot, gone);
  }

  // -------------------------------------------------------------- best chain

  /** A node and all its ancestors, newest first. */
  method ChainOf(ghost u: Universe, t: Tree, tip: NodeId) returns (chain: seq<Block>)
    requires Consistent(u) && SoundTree(u, t) && tip in t.nodes
    ensures |chain| == t.nodes[tip].data.height + 1
    ensures RealBlocks(u, chain) && HeightsFrom(u, ViewOf(t).root, chain)
    ensures forall i :: 0 <= i < |chain| ==> chain[i].stateHash == Up(u, t.nodes[tip].data.stateHash, i)
  {
    var cur := tip;
    ghost var h := t.nodes[tip].data.stateHash;
    chain := [t.nodes[cur].data];
    assert NodeOk(u, t, cur);
    HeightIsDepth(u, t, cur);
    while t.nodes[cur].parent.Some?
      invariant cur in t.nodes && NodeOk(u, t, cur)
      invariant |chain| + t.nodes[cur].data.height == t.nodes[tip].data.height + 1
      invariant RealBlocks(u, chain) && HeightsFrom(u, ViewOf(t).root, chain)
      invariant forall i :: 0 <= i < |chain| ==> chain[i].stateHash == Up(u, h, i)
      invariant chain[|chain| - 1] == t.nodes[cur].data
      decreases t.nodes[cur].data.height
    {
      UpStep(u, h, |chain| - 1);
      cur := t.nodes[cur].parent.value;
      assert NodeOk(u, t, cur);
      HeightIsDepth(u, t, cur);
      RealSnoc(u, chain, t.nodes[cur].data);
      chain := chain + [t.nodes[cur].data];
    }
  }

  /** The blocks `i` up to `n` of a chain that goes downwards, oldest first. */
  ghost function Span(chain: seq<Block>, i: nat, n: nat): seq<StateHash>
    requires i <= n <= |chain|
    decreases n - i
  {
    if i == n then [] else Span(chain, i + 1, n) + [chain[i].stateHash]
  }

  lemma {:induction false} SpanMember(chain: seq<Block>, i: nat, n: nat, x: StateHash)
    requires i <= n <= |chain|
    ensures x in Span(chain, i, n) <==> exists j :: i <= j < n && chain[j].stateHash == x
    decreases n - i
  {
    if i < n { SpanMember(chain, i + 1, n, x); }
  }

  /** The blocks above `a` on the way down from `h`. */
  lemma {:induction false} SpanIsPath(u: Universe, a: StateHash, h: StateHash, chain: seq<Block>, i: nat, n: nat)
    requires Consistent(u) && Descends(u, a, h) && a in u && i <= n == u[h].length - u[a].length && n <= |chain|
    requires forall j :: 0 <= j < |chain| ==> chain[j].stateHash == Up(u, h, j)
    ensures Span(chain, i, n) == Path(u, a, Up(u, h, i))
    decreases n - i
  {
    UpDescends(u, a, h, i);
    DescendsLength(u, a, Up(u, h, i));
    if i < n {
      UpStep(u, h, i);
      SpanIsPath(u, a, h, chain, i + 1, n);
    }
  }

  method FirstWithHash(chain: seq<Block>, h: StateHash) returns (n: nat)
    ensures n <= |chain| && (n < |chain| ==> chain[n].stateHash == h)
    ensures forall i :: 0 <= i < n ==> chain[i].stateHash != h
  {
    n := 0;
    while n < |chain| && chain[n].stateHash != h
      invariant n <= |chain|
      invariant forall i :: 0 <= i < n ==> chain[i].stateHash != h
    {
      n := n + 1;
    }
  }

  lemma {:induction false} OneMoreDiff(step: Step, l: Ledger, diffs: map<StateHash, LedgerDiff>, chain: seq<Block>,
                                       i: nat, n: nat)
    requires i < n <= |chain| && chain[i].stateHash in diffs
    ensures ApplyDiff(step, l, KnownDiffs(diffs, Span(chain, i, n))) ==
              ApplyDiff(step, ApplyDiff(step, l, KnownDiffs(diffs, Span(chain, i + 1, n))), diffs[chain[i].stateHash])
  {
    var above, h := Span(chain, i + 1, n), chain[i].stateHash;
    assert (above + [h])[..|above|] == above;
    ApplyDiffAppend(step, l, KnownDiffs(diffs, above), diffs[h]);
  }

  /** Applies the diffs of `chain[..n]`, oldest first; gives up at a missing one. */
  method ApplyChain(step: Step, l: Ledger, diffs: map<StateHash, LedgerDiff>, chain: seq<Block>,
                    n: nat) returns (r: Option<Ledger>)
    requires n <= |chain|
    ensures r.Some? <==> forall x :: x in Span(chain, 0, n) ==> x in diffs
    ensures r.Some? ==> r.value == ApplyDiff(step, l, KnownDiffs(diffs, Span(chain, 0, n)))
  {
    var best, i := l, n;
    while i > 0
      invariant 0 <= i <= n
      invariant best == ApplyDiff(step, l, KnownDiffs(diffs, Span(chain, i, n)))
      invariant forall x :: x in Span(chain, i, n) ==> x in diffs
    {
      i := i - 1;
      if chain[i].stateHash !in diffs {
        SpanMember(chain, 0, n, chain[i].stateHash);
        return None;
      }
      OneMoreDiff(step, l, diffs, chain, i, n);
      best := ApplyDiff(step, best, diffs[chain[i].stateHash]);
    }
    return Some(best);
  }

  /** The number of levels of a branch, as the state machine counts them. */
  lemma {:induction false} HeightIsLevels(u: Universe, b: Branch, n: nat)
    requires Consistent(u) && b.Sound(u)
    requires forall x :: x in b.tree.nodes ==> b.tree.nodes[x].data.height < n
    requires exists x :: x in b.tree.nodes && b.tree.nodes[x].data.height + 1 == n
    ensures n == Levels(u, ViewOf(b.tree))
  {
    var t := b.tree;
    TreeIsRooted(u, t);
    LastTopExists(u, Hashes(t));
    var id := HashHasNode(t, LastTop(u, Hashes(t)));
    TopIsHighest(u, t, id);
    HeightIsDepth(u, t, id);
    assert NodeOk(u, t, id);
  }
}
