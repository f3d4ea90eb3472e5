/** Cutting a tree down to the subtree of one of its nodes, the way it is done in place:
    the node's siblings are dropped, its parent is removed, then everything that still
    hangs below the old root. */
module TreePruning {
  import opened Accounts
  import opened Blocks
  import opened WitnessTree
  import opened Trees

  type Nodes = map<NodeId, Node>

  /** Below a node in the tree is descending from its block. */
  lemma {:induction false} UnderIsDescends(u: Universe, t: Tree, a: NodeId, x: NodeId)
    requires Consistent(u) && SoundTree(u, t) && a in t.nodes && x in t.nodes
    ensures Under(t.nodes, a, x) <==> Descends(u, t.nodes[a].data.stateHash, t.nodes[x].data.stateHash)
    decreases t.nodes[x].data.height
  {
    assert NodeOk(u, t, x) && NodeOk(u, t, a);
    var ha, hx := t.nodes[a].data.stateHash, t.nodes[x].data.stateHash;
    assert Linked(u, hx);
    if x != a {
      if t.root == Some(x) {
        HeightIsDepth(u, t, a);
        HeightIsDepth(u, t, x);
        if Descends(u, ha, hx) { DescendsLength(u, ha, hx); }
      } else {
        UnderIsDescends(u, t, a, t.nodes[x].parent.value);
      }
    }
  }

  lemma {:induction false} UnderHeight(ns: Nodes, a: NodeId, x: NodeId)
    requires Under(ns, a, x)
    ensures a in ns && (x == a || ns[a].data.height < ns[x].data.height)
    decreases if x in ns then ns[x].data.height else 0
  {
    if x != a { UnderHeight(ns, a, ns[x].parent.value); }
  }

  /** `sub` keeps some nodes of `ns` unchanged, and with each node its parent. */
  ghost predicate UpClosed(sub: Nodes, ns: Nodes) {
    forall x {:trigger KeptWithParent(sub, ns, x)} :: x in sub ==> KeptWithParent(sub, ns, x)
  }

  ghost predicate KeptWithParent(sub: Nodes, ns: Nodes, x: NodeId) {
    x in sub && x in ns && sub[x] == ns[x] &&
    (ns[x].parent.Some? && ns[x].parent.value in ns ==>
       ns[x].parent.value in sub && sub[ns[x].parent.value] == ns[ns[x].parent.value])
  }

  lemma {:induction false} UnderInSub(sub: Nodes, ns: Nodes, a: NodeId, x: NodeId)
    requires UpClosed(sub, ns) && x in sub
    ensures Under(sub, a, x) == Under(ns, a, x)
    decreases sub[x].data.height
  {
    assert KeptWithParent(sub, ns, x);
    assert ns[x].parent.Some? && ns[x].parent.value in sub ==> KeptWithParent(sub, ns, ns[x].parent.value);
    if x != a && ns[x].parent.Some? && ns[x].parent.value in ns &&
       ns[ns[x].parent.value].data.height < ns[x].data.height {
      UnderInSub(sub, ns, a, ns[x].parent.value);
    }
  }

  /** The child of `p` that `x` is or hangs below. */
  ghost function ChildAbove(ns: Nodes, p: NodeId, x: NodeId): Option<NodeId>
    decreases if x in ns then ns[x].data.height else 0
  {
    if x !in ns then None
    else if ns[x].parent == Some(p) then Some(x)
    else if ns[x].parent.Some? && ns[x].parent.value in ns && ns[ns[x].parent.value].data.height < ns[x].data.height
    then ChildAbove(ns, p, ns[x].parent.value) else None
  }

  lemma {:induction false} UnderChild(u: Universe, t: Tree, p: NodeId, c: NodeId, x: NodeId)
    requires SoundTree(u, t) && c in t.nodes && t.nodes[c].parent == Some(p) && x in t.nodes
    ensures Under(t.nodes, c, x) <==> ChildAbove(t.nodes, p, x) == Some(c)
    decreases t.nodes[x].data.height
  {
    assert NodeOk(u, t, x);
    ChildHeight(u, t, p, c);
    if x != c && t.nodes[x].parent.Some? {
      if t.nodes[x].parent.value == p {
        if Under(t.nodes, c, p) { UnderHeight(t.nodes, c, p); }
      } else {
        UnderChild(u, t, p, c, t.nodes[x].parent.value);
      }
    }
  }

  /** `x` is not below a child of `p` other than `keep` and those in `kids`. */
  ghost predicate Stays(ns: Nodes, p: NodeId, keep: NodeId, kids: set<NodeId>, x: NodeId) {
    var c := ChildAbove(ns, p, x);
    c.None? || c.value == keep || c.value in kids
  }

  ghost predicate WithoutSiblings(ns: Nodes, p: NodeId, keep: NodeId, kids: set<NodeId>, sub: Nodes) {
    && (forall x :: x in sub <==> x in ns && Stays(ns, p, keep, kids, x))
    && (forall x :: x in sub ==> sub[x] == ns[x])
  }

  lemma {:induction false} WithoutSiblingsUpClosed(u: Universe, t: Tree, p: NodeId, keep: NodeId, kids: set<NodeId>,
                                                   sub: Nodes)
    requires SoundTree(u, t) && p in t.nodes && WithoutSiblings(t.nodes, p, keep, kids, sub)
    ensures UpClosed(sub, t.nodes)
  {
    var ns := t.nodes;
    forall x | x in sub ensures KeptWithParent(sub, ns, x) {
      assert NodeOk(u, t, x);
      if ns[x].parent == Some(p) { NotBelowItself(u, t, p, p); }
    }
  }

  lemma {:induction false} NotBelowItself(u: Universe, t: Tree, p: NodeId, x: NodeId)
    requires SoundTree(u, t) && p in t.nodes && x in t.nodes && t.nodes[x].data.height <= t.nodes[p].data.height
    ensures ChildAbove(t.nodes, p, x).None?
    decreases t.nodes[x].data.height
  {
    assert NodeOk(u, t, x);
    if t.nodes[x].parent.Some? && t.nodes[x].parent.value != p { NotBelowItself(u, t, p, t.nodes[x].parent.value); }
  }

  function DropUnlessKept(cur: Tree, keep: NodeId, c: NodeId): Tree {
    if c == keep then cur else RemoveDropChildren(cur, c)
  }

  lemma {:induction false} DropStep(u: Universe, t: Tree, p: NodeId, keep: NodeId, kids: set<NodeId>, cur: Tree,
                                    c: NodeId)
    requires SoundTree(u, t) && p in t.nodes && cur.root == t.root && WithoutSiblings(t.nodes, p, keep, kids, cur.nodes)
    requires c in t.nodes && t.nodes[c].parent == Some(p)
    ensures WithoutSiblings(t.nodes, p, keep, kids - {c}, DropUnlessKept(cur, keep, c).nodes)
    ensures DropUnlessKept(cur, keep, c).root == t.root
  {
    var ns, sub := t.nodes, DropUnlessKept(cur, keep, c).nodes;
    ChildHeight(u, t, p, c);
    WithoutSiblingsUpClosed(u, t, p, keep, kids, cur.nodes);
    forall x ensures x in sub <==> x in ns && Stays(ns, p, keep, kids - {c}, x) {
      if x in cur.nodes { UnderInSub(cur.nodes, ns, c, x); }
      if x in ns { UnderChild(u, t, p, c, x); }
    }
  }

  lemma {:induction false} ChildAboveIsChild(ns: Nodes, p: NodeId, x: NodeId)
    ensures ChildAbove(ns, p, x).Some? ==> ChildAbove(ns, p, x).value in Children(ns, p)
    decreases if x in ns then ns[x].data.height else 0
  {
    if x in ns && ns[x].parent.Some? && ns[x].parent.value in ns &&
       ns[ns[x].parent.value].data.height < ns[x].data.height {
      ChildAboveIsChild(ns, p, ns[x].parent.value);
    }
  }

  /** Removes all siblings of `keep` with what hangs below them. */
  method DropSiblings(ghost u: Universe, t: Tree, p: NodeId, keep: NodeId) returns (cur: Tree)
    requires SoundTree(u, t) && p in t.nodes
    ensures WithoutSiblings(t.nodes, p, keep, {}, cur.nodes) && cur.root == t.root
  {
    cur := t;
    var kids := Children(t.nodes, p);
    forall x | x in t.nodes ensures Stays(t.nodes, p, keep, kids, x) { ChildAboveIsChild(t.nodes, p, x); }
    while kids != {}
      invariant cur.root == t.root
      invariant forall c :: c in kids ==> c in t.nodes && t.nodes[c].parent == Some(p)
      invariant WithoutSiblings(t.nodes, p, keep, kids, cur.nodes)
      decreases |kids|
    {
      var c :| c in kids;
      DropStep(u, t, p, keep, kids, cur, c);
      cur := DropUnlessKept(cur, keep, c);
      kids := kids - {c};
    }
  }

  /** The nodes left once the siblings of `keep` are gone, their parent `p` is removed and
      the old root's subtree dropped: exactly the subtree of `keep`. */
  lemma {:induction false} CutOff(u: Universe, t: Tree, p: NodeId, keep: NodeId, sub: Nodes, ns2: Nodes, x: NodeId)
    requires SoundTree(u, t) && p in t.nodes && t.root != Some(p) && keep in t.nodes && t.nodes[keep].parent == Some(p)
    requires WithoutSiblings(t.nodes, p, keep, {}, sub)
    requires ns2 == RemoveOrphanChildren(t.(nodes := sub), p).nodes && x in ns2
    ensures Under(ns2, t.root.value, x) <==> ChildAbove(t.nodes, p, x).None?
    decreases t.nodes[x].data.height
  {
    var ns := t.nodes;
    assert NodeOk(u, t, x) && NodeOk(u, t, t.root.value);
    if ns[x].parent.Some? && ns[x].parent.value != p {
      var q := ns[x].parent.value;
      assert NodeOk(u, t, q) && ns2[x] == ns[x];
      CutOff(u, t, p, keep, sub, ns2, q);
    } else if t.root != Some(x) {
      assert ns2[x].parent == None;
    }
  }

  /** The subtree of `keep` as a tree of its own, heights counted from it. */
  ghost predicate CutDown(t: Tree, keep: NodeId, t': Tree) {
    && keep in t.nodes && t'.root == Some(keep)
    && (forall x :: x in t'.nodes <==> x in t.nodes && Under(t.nodes, keep, x))
    && (forall x :: x in t'.nodes ==>
          && t.nodes[keep].data.height <= t.nodes[x].data.height
          && t'.nodes[x] == Node(t.nodes[x].data.(height := t.nodes[x].data.height - t.nodes[keep].data.height),
                                 if x == keep then None else t.nodes[x].parent))
  }

  lemma {:induction false} CutDownSound(u: Universe, t: Tree, keep: NodeId, t': Tree)
    requires Consistent(u) && SoundTree(u, t) && CutDown(t, keep, t')
    ensures SoundTree(u, t') && ViewOf(t') == SubtreeView(u, ViewOf(t), t.nodes[keep].data.stateHash)
  {
    assert Under(t.nodes, keep, keep);
    forall x | x in t'.nodes ensures NodeOk(u, t', x) {
      assert NodeOk(u, t, x) && NodeOk(u, t, keep);
      UnderHeight(t.nodes, keep, x);
    }
    var r := t.nodes[keep].data.stateHash;
    forall h ensures h in Hashes(t') <==> h in Hashes(t) && Descends(u, r, h) {
      if h in Hashes(t') {
        var x := HashHasNode(t', h);
        assert t.nodes[x].data.stateHash == h;
        UnderIsDescends(u, t, keep, x);
      }
      if h in Hashes(t) && Descends(u, r, h) {
        var x := HashHasNode(t, h);
        UnderIsDescends(u, t, keep, x);
        assert t'.nodes[x].data.stateHash == h;
      }
    }
  }

  /** Node ids survive. */
  lemma {:induction false} CutDownIds(u: Universe, t: Tree, keep: NodeId, t': Tree)
    requires SoundTree(u, t) && CutDown(t, keep, t')
    ensures forall id :: id in t.nodes && t.nodes[id].data.stateHash in Hashes(t') ==>
              id in t'.nodes && t'.nodes[id].data.stateHash == t.nodes[id].data.stateHash
  {
    forall id | id in t.nodes && t.nodes[id].data.stateHash in Hashes(t')
      ensures id in t'.nodes && t'.nodes[id].data.stateHash == t.nodes[id].data.stateHash
    {
      var x := HashHasNode(t', t.nodes[id].data.stateHash);
      assert x in t.nodes && t.nodes[x].data.stateHash == t.nodes[id].data.stateHash;
    }
  }

  /** The subtree of `keep`, heights still counted from the old root. */
  ghost predicate Severed(t: Tree, keep: NodeId, cur: Tree) {
    && keep in t.nodes && cur.root == Some(keep)
    && (forall x :: x in cur.nodes <==> x in t.nodes && Under(t.nodes, keep, x))
    && (forall x :: x in cur.nodes ==>
          cur.nodes[x] == Node(t.nodes[x].data, if x == keep then None else t.nodes[x].parent))
  }

  lemma {:induction false} Sever(u: Universe, t: Tree, p: NodeId, keep: NodeId, cur: Tree)
    requires SoundTree(u, t) && p in t.nodes && t.root != Some(p) && keep in t.nodes && t.nodes[keep].parent == Some(p)
    requires WithoutSiblings(t.nodes, p, keep, {}, cur.nodes) && cur.root == t.root
    ensures Severed(t, keep, MoveToRoot(RemoveDropChildren(RemoveOrphanChildren(cur, p), t.root.value), keep))
  {
    var r := MoveToRoot(RemoveDropChildren(RemoveOrphanChildren(cur, p), t.root.value), keep);
    forall x ensures x in r.nodes <==> x in t.nodes && Under(t.nodes, keep, x)
             ensures x in r.nodes ==>
                       r.nodes[x] == Node(t.nodes[x].data, if x == keep then None else t.nodes[x].parent) {
      SeverAt(u, t, p, keep, cur, x);
    }
  }

  lemma {:induction false} SeverAt(u: Universe, t: Tree, p: NodeId, keep: NodeId, cur: Tree, x: NodeId)
    requires SoundTree(u, t) && p in t.nodes && t.root != Some(p) && keep in t.nodes && t.nodes[keep].parent == Some(p)
    requires WithoutSiblings(t.nodes, p, keep, {}, cur.nodes) && cur.root == t.root
    ensures var r := MoveToRoot(RemoveDropChildren(RemoveOrphanChildren(cur, p), t.root.value), keep);
            && (x in r.nodes <==> x in t.nodes && Under(t.nodes, keep, x))
            && (x in r.nodes ==> r.nodes[x] == Node(t.nodes[x].data, if x == keep then None else t.nodes[x].parent))
  {
    var ns2 := RemoveOrphanChildren(cur, p).nodes;
    NotBelowItself(u, t, p, p);
    UnderChild(u, t, p, keep, keep);
    ChildHeight(u, t, p, keep);
    CutOff(u, t, p, keep, cur.nodes, ns2, keep);
    if x in t.nodes { UnderChild(u, t, p, keep, x); }
    if x in ns2 { CutOff(u, t, p, keep, cur.nodes, ns2, x); }
  }

  lemma {:induction false} ChildHeight(u: Universe, t: Tree, p: NodeId, c: NodeId)
    requires SoundTree(u, t) && c in t.nodes && t.nodes[c].parent == Some(p)
    ensures p in t.nodes && t.nodes[c].data.height == t.nodes[p].data.height + 1 && t.root != Some(c)
  {
    assert NodeOk(u, t, c);
  }

  function HeightsLowered(node: Node, n: nat): Node
    requires n <= node.data.height
  {
    node.(data := node.data.(height := node.data.height - n))
  }

  /** Counts heights from the new root. */
  method Rebase(cur: Tree, n: nat) returns (r: Tree)
    requires forall x :: x in cur.nodes ==> n <= cur.nodes[x].data.height
    ensures r.root == cur.root && r.nodes.Keys == cur.nodes.Keys
    ensures forall x :: x in cur.nodes ==> r.nodes[x] == HeightsLowered(cur.nodes[x], n)
  {
    r := cur;
    var ids := cur.nodes.Keys;
    while ids != {}
      invariant ids <= cur.nodes.Keys && r.root == cur.root && r.nodes.Keys == cur.nodes.Keys
      invariant forall x :: x in ids ==> r.nodes[x] == cur.nodes[x]
      invariant forall x :: x in cur.nodes && x !in ids ==> r.nodes[x] == HeightsLowered(cur.nodes[x], n)
      decreases |ids|
    {
      var id :| id in ids;
      ids := ids - {id};
      r := r.(nodes := r.nodes[id := HeightsLowered(r.nodes[id], n)]);
    }
  }

  /** The whole cut. */
  method CutTree(ghost u: Universe, t: Tree, prunePoint: NodeId, keep: NodeId) returns (r: Tree)
    requires SoundTree(u, t) && prunePoint in t.nodes && t.root != Some(prunePoint)
    requires keep in t.nodes && t.nodes[keep].parent == Some(prunePoint)
    ensures CutDown(t, keep, r)
  {
    var cur := DropSiblings(u, t, prunePoint, keep);
    Sever(u, t, prunePoint, keep, cur);
    cur := RemoveOrphanChildren(cur, prunePoint);
    cur := RemoveDropChildren(cur, t.root.value);
    cur := MoveToRoot(cur, keep);
    assert Under(t.nodes, keep, keep);
    forall x | x in cur.nodes ensures t.nodes[keep].data.height <= t.nodes[x].data.height {
      UnderHeight(t.nodes, keep, x);
    }
    r := Rebase(cur, cur.nodes[keep].data.height);
  }
}
