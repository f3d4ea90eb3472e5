/** Branches of the witness tree. */
module Branches {
  import opened Accounts
  import opened Blocks
  import opened WitnessTree
  import opened Trees
  import opened TreePruning

  lemma {:induction false} UpStep(u: Universe, h: StateHash, n: nat)
    requires Up(u, h, n) in u && h in u
    ensures Up(u, h, n + 1) == u[Up(u, h, n)].parentHash
    decreases n
  {
    if n > 0 { UpStep(u, u[h].parentHash, n - 1); }
  }

  /** A branch of one block. */
  method NewBranch(ghost u: Universe, p: Pcb) returns (b: Branch)
    requires p.stateHash in u && u[p.stateHash] == p
    ensures b.Sound(u) && ViewOf(b.tree) == View(p.stateHash, {p.stateHash})
    ensures b.root in b.tree.nodes && b.tree.nodes[b.root].data.stateHash == p.stateHash
  {
    var none := Tree(None, map[]);
    b := Branch(FreshId(none), InsertAsRoot(none, FromPrecomputed(p, 0)));
    assert b.tree.nodes.Keys == {b.root} && b.tree.nodes[b.root] == Node(FromPrecomputed(p, 0), None);
    assert NodeOk(u, b.tree, b.root);
  }

  /** A branch of the witness tree.  Branches are owned, never shared, so one that changes
      is a new value in its owner's field. */
  datatype Branch = Branch(root: NodeId, tree: Tree) {

    ghost predicate Sound(u: Universe) {
      SoundTree(u, tree) && tree.root == Some(root)
    }

    /** The number of levels: the greatest depth, found by walking up from every node. */
    method Height(ghost u: Universe) returns (n: nat)
      requires Sound(u)
      ensures forall x :: x in tree.nodes ==> tree.nodes[x].data.height < n
      ensures exists x :: x in tree.nodes && tree.nodes[x].data.height + 1 == n
    {
      n := 0;
      var ids := tree.nodes.Keys;
      ghost var top := root;
      while ids != {}
        invariant ids <= tree.nodes.Keys && top in tree.nodes
        invariant forall x :: x in tree.nodes && x !in ids ==> tree.nodes[x].data.height < n
        invariant n == 0 ==> ids == tree.nodes.Keys
        invariant n > 0 ==> tree.nodes[top].data.height + 1 == n
        decreases |ids|
      {
        var id :| id in ids;
        ids := ids - {id};
        var depth, cur := 1, id;
        assert NodeOk(u, tree, cur);
        while tree.nodes[cur].parent.Some?
          invariant cur in tree.nodes && NodeOk(u, tree, cur)
          invariant depth + tree.nodes[cur].data.height == tree.nodes[id].data.height + 1
          decreases tree.nodes[cur].data.height
        {
          depth, cur := depth + 1, tree.nodes[cur].parent.value;
          assert NodeOk(u, tree, cur);
        }
        if depth > n {
          n := depth;
          top := id;
        }
      }
    }

    /** The highest nodes. */
    method TopLeavesWithId(ghost u: Universe) returns (leaves: seq<NodeId>, blocks: seq<Block>)
      requires Consistent(u) && Sound(u)
      ensures leaves != [] && |blocks| == |leaves|
      ensures forall i :: 0 <= i < |leaves| ==> leaves[i] in tree.nodes && blocks[i] == tree.nodes[leaves[i]].data
      ensures forall i, j :: 0 <= i < j < |leaves| ==> leaves[i] != leaves[j]
      ensures forall id :: id in leaves <==> id in tree.nodes && IsTop(u, Hashes(tree), tree.nodes[id].data.stateHash)
    {
      var levels := Height(u);
      var ids := tree.nodes.Keys;
      leaves, blocks := [], [];
      while ids != {}
        invariant ids <= tree.nodes.Keys && |blocks| == |leaves|
        invariant forall i :: 0 <= i < |leaves| ==> leaves[i] in tree.nodes && blocks[i] == tree.nodes[leaves[i]].data
        invariant forall i, j :: 0 <= i < j < |leaves| ==> leaves[i] != leaves[j]
        invariant forall id ::
                    id in leaves <==> id in tree.nodes && id !in ids && tree.nodes[id].data.height + 1 == levels
        decreases |ids|
      {
        var id :| id in ids;
        ids := ids - {id};
        if tree.nodes[id].data.height + 1 == levels {
          leaves, blocks := leaves + [id], blocks + [tree.nodes[id].data];
        }
      }
      ghost var top :| top in tree.nodes && tree.nodes[top].data.height + 1 == levels;
      assert top in leaves;
      forall id | id in tree.nodes
        ensures tree.nodes[id].data.height + 1 == levels <==> IsTop(u, Hashes(tree), tree.nodes[id].data.stateHash)
      {
        TopIsHighest(u, tree, id);
      }
    }

    /** The first of the highest nodes in the reversed order of preference. */
    method BestTipWithId(ghost u: Universe) returns (id: NodeId, block: Block)
      requires Consistent(u) && Sound(u)
      ensures id in tree.nodes && tree.nodes[id].data == block
      ensures block.stateHash == LastTop(u, Hashes(tree))
    {
      var leaves, blocks := TopLeavesWithId(u);
      DistinctBlocks(u, leaves, blocks);
      var k := FirstInReverse(blocks);
      id, block := leaves[k], blocks[k];
      LastOfLeaves(u, leaves, k);
    }

    lemma {:induction false} DistinctBlocks(u: Universe, ids: seq<NodeId>, blocks: seq<Block>)
      requires Consistent(u) && Sound(u) && |blocks| == |ids|
      requires forall i :: 0 <= i < |ids| ==> ids[i] in tree.nodes && blocks[i] == tree.nodes[ids[i]].data
      requires forall i, j :: 0 <= i < j < |ids| ==> ids[i] != ids[j]
      ensures forall i :: 0 <= i < |blocks| ==> blocks[i].genesisHash == Genesis(u)
      ensures forall i, j :: 0 <= i < j < |blocks| ==> blocks[i].stateHash != blocks[j].stateHash
    {
      forall i | 0 <= i < |blocks| ensures blocks[i].genesisHash == Genesis(u) {
        assert NodeOk(u, tree, ids[i]) && Linked(u, blocks[i].stateHash);
      }
    }

    lemma {:induction false} LastOfLeaves(u: Universe, leaves: seq<NodeId>, k: nat)
      requires Consistent(u) && Sound(u) && k < |leaves|
      requires forall x :: x in leaves <==> x in tree.nodes && IsTop(u, Hashes(tree), tree.nodes[x].data.stateHash)
      requires forall j :: 0 <= j < |leaves| ==> leaves[j] in tree.nodes
      requires forall j ::
                 0 <= j < |leaves| && j != k ==> Better(tree.nodes[leaves[j]].data, tree.nodes[leaves[k]].data)
      ensures tree.nodes[leaves[k]].data.stateHash == LastTop(u, Hashes(tree))
    {
      var w := tree.nodes[leaves[k]].data.stateHash;
      TreeIsRooted(u, tree);
      assert leaves[k] in leaves && NodeOk(u, tree, leaves[k]);
      forall h | IsTop(u, Hashes(tree), h) && h != w ensures Beats(u, h, w) {
        var x := HashHasNode(tree, h);
        assert x in leaves && NodeOk(u, tree, x);
        var j :| 0 <= j < |leaves| && leaves[j] == x;
        NodesBeat(u, tree, x, leaves[k]);
      }
      LastTopUnique(u, Hashes(tree), w);
    }

    /** The node of a block, looked for among all nodes. */
    method Find(h: StateHash) returns (id: Option<NodeId>)
      ensures id.Some? <==> h in Hashes(tree)
      ensures id.Some? ==> id.value in tree.nodes && tree.nodes[id.value].data.stateHash == h
    {
      var ids := tree.nodes.Keys;
      while ids != {}
        invariant ids <= tree.nodes.Keys
        invariant forall x :: x in tree.nodes && x !in ids ==> tree.nodes[x].data.stateHash != h
        decreases |ids|
      {
        var x :| x in ids;
        if tree.nodes[x].data.stateHash == h { return Some(x); }
        ids := ids - {x};
      }
      id := None;
    }

    /** Hangs the block under its parent, if that is in the branch. */
    method SimpleExtension(ghost u: Universe, p: Pcb) returns (b: Branch, r: Option<(NodeId, Block)>)
      requires Consistent(u) && Sound(u)
      requires p.stateHash in u && u[p.stateHash] == p && p.stateHash !in Hashes(tree)
      ensures b.Sound(u) && b.root == root
      ensures r.Some? <==> p.parentHash in Hashes(tree)
      ensures r.None? ==> b == this
      ensures r.Some? ==>
        && Hashes(b.tree) == Hashes(tree) + {p.stateHash}
        && r.value.0 in b.tree.nodes && b.tree.nodes[r.value.0].data == r.value.1
        && r.value.1.stateHash == p.stateHash
        && KeepsNodes(tree, b.tree)
    {
      var parent := Find(p.parentHash);
      if parent.None? { return this, None; }
      var block := FromPrecomputed(p, tree.nodes[parent.value].data.height + 1);
      InsertUnderSound(u, tree, p, parent.value);
      assert NodeOk(u, tree, root);
      return Branch(root, InsertUnder(tree, block, parent.value)), Some((FreshId(tree), block));
    }

    /** Puts the parent block of the branch's root below everything. */
    method NewRoot(ghost u: Universe, p: Pcb) returns (b: Branch)
      requires Consistent(u) && Sound(u)
      requires p.stateHash in u && u[p.stateHash] == p && p.stateHash !in Hashes(tree)
      requires tree.nodes[root].data.parentHash == p.stateHash
      ensures b.Sound(u) && ViewOf(b.tree) == View(p.stateHash, Hashes(tree) + {p.stateHash})
      ensures b.root in b.tree.nodes && b.tree.nodes[b.root].data.stateHash == p.stateHash
    {
      var t := RaiseTree(tree, p);
      RaisedSound(u, tree, p, t);
      b := Branch(t.root.value, t);
      assert NodeOk(u, t, b.root);
    }

    /** Places the incoming branch below the junction node and returns the copy of its
        best tip. */
    method MergeOn(ghost u: Universe, junction: NodeId, incoming: Branch) returns (b: Branch, tip: NodeId)
      requires Consistent(u) && Sound(u) && incoming.Sound(u)
      requires junction in tree.nodes && Hashes(tree) !! Hashes(incoming.tree)
      requires incoming.tree.nodes[incoming.root].data.parentHash == tree.nodes[junction].data.stateHash
      ensures b.Sound(u) && b.root == root
      ensures Hashes(b.tree) == Hashes(tree) + Hashes(incoming.tree)
      ensures KeepsNodes(tree, b.tree)
      ensures tip in b.tree.nodes && b.tree.nodes[tip].data.stateHash == LastTop(u, Hashes(incoming.tree))
    {
      var incomingTip, _ := incoming.BestTipWithId(u);
      var t;
      t, tip := MergeTrees(u, tree, junction, incoming.tree, incomingTip);
      b := Branch(root, t);
    }

    /** The `k`-th ancestor of a node and the one below it. */
    method KthAncestor(ghost u: Universe, tip: NodeId, k: nat) returns (keep: NodeId, prunePoint: NodeId)
      requires Consistent(u) && Sound(u) && tip in tree.nodes && k >= 1
      requires tree.nodes[tip].data.height >= k + 2
      ensures keep in tree.nodes && tree.nodes[keep].data.stateHash == Up(u, tree.nodes[tip].data.stateHash, k)
      ensures prunePoint in tree.nodes && prunePoint != root && tree.nodes[keep].parent == Some(prunePoint)
    {
      var newRoot, point: Option<NodeId> := None, None;
      var cur, n := tip, 0;
      ghost var h := tree.nodes[tip].data.stateHash;
      assert NodeOk(u, tree, tip);
      while tree.nodes[cur].parent.Some?
        invariant cur in tree.nodes && NodeOk(u, tree, cur)
        invariant n + tree.nodes[cur].data.height == tree.nodes[tip].data.height
        invariant tree.nodes[cur].data.stateHash == Up(u, h, n)
        invariant n < k ==> newRoot.None?
        invariant n >= k ==>
                    newRoot.Some? && newRoot.value in tree.nodes &&
                      tree.nodes[newRoot.value].data.stateHash == Up(u, h, k)
        invariant n == k ==> newRoot == Some(cur)
        invariant n == k + 1 ==> point == Some(cur)
        invariant n > k ==> point.Some? && point.value in tree.nodes && tree.nodes[newRoot.value].parent == point
        invariant n > k + 1 ==> point.value != root
        decreases tree.nodes[cur].data.height
      {
        UpStep(u, h, n);
        cur := tree.nodes[cur].parent.value;
        n := n + 1;
        assert NodeOk(u, tree, cur);
        if n == k { newRoot := Some(cur); }
        if n == k + 1 { point := Some(cur); }
      }
      keep, prunePoint := newRoot.value, point.value;
    }

    /** Cuts the branch down to the subtree of the best tip's `k`-th ancestor. */
    method PruneTransitionFrontier(ghost u: Universe, k: nat, bestTip: Block) returns (b: Branch)
      requires Consistent(u) && Sound(u) && k >= 1 && bestTip.stateHash in Hashes(tree)
      requires Len(u, bestTip.stateHash) >= Len(u, ViewOf(tree).root) + k + 2
      ensures b.Sound(u)
      ensures ViewOf(b.tree) == SubtreeView(u, ViewOf(tree), Up(u, bestTip.stateHash, k))
      ensures forall id :: id in tree.nodes && tree.nodes[id].data.stateHash in Hashes(b.tree) ==>
                id in b.tree.nodes && b.tree.nodes[id].data.stateHash == tree.nodes[id].data.stateHash
    {
      var found := Find(bestTip.stateHash);
      var tip := found.value;
      HeightIsDepth(u, tree, tip);
      assert NodeOk(u, tree, tip);
      var keep, prunePoint := KthAncestor(u, tip, k);
      var t := CutTree(u, tree, prunePoint, keep);
      CutDownSound(u, tree, keep, t);
      CutDownIds(u, tree, keep, t);
      b := Branch(keep, t);
    }
  }
}
