/** Trees of nodes as the witness tree stores them: primitives, soundness, extension,
    raising and merging.

    A tree is a map from node ids to nodes with parent links; ids of removed nodes may be
    handed out again.  The order of children is not kept: no result depends on it. */
module Trees {
  import opened Accounts
  import opened Blocks
  import opened WitnessTree
  import opened WitnessForest

  type NodeId = nat

  datatype Node = Node(data: Block, parent: Option<NodeId>)

  datatype Tree = Tree(root: Option<NodeId>, nodes: map<NodeId, Node>)

  // ------------------------------------------------------------ tree primitives

  /** The least id from `i` on that is not in use. */
  function FirstFree(ids: set<nat>, i: nat): (r: nat)
    ensures r >= i && r !in ids
    decreases |ids|
  {
    if i !in ids then i else FirstFree(ids - {i}, i + 1)
  }

  function FreshId(t: Tree): (r: NodeId)
    ensures r !in t.nodes
  {
    FirstFree(t.nodes.Keys, 0)
  }

  function InsertUnder(t: Tree, b: Block, parent: NodeId): Tree {
    t.(nodes := t.nodes[FreshId(t) := Node(b, Some(parent))])
  }

  /** The old root becomes a child of the new one. */
  function InsertAsRoot(t: Tree, b: Block): Tree {
    var id := FreshId(t);
    var rehung := if t.root.Some? && t.root.value in t.nodes
                  then t.nodes[t.root.value := t.nodes[t.root.value].(parent := Some(id))]
                  else t.nodes;
    Tree(Some(id), rehung[id := Node(b, None)])
  }

  /** `x` is `a` or hangs below it. */
  predicate Under(nodes: map<NodeId, Node>, a: NodeId, x: NodeId)
    decreases if x in nodes then nodes[x].data.height else 0
  {
    x in nodes &&
    (x == a ||
     (nodes[x].parent.Some? && nodes[x].parent.value in nodes &&
      nodes[nodes[x].parent.value].data.height < nodes[x].data.height &&
      Under(nodes, a, nodes[x].parent.value)))
  }

  function Children(nodes: map<NodeId, Node>, id: NodeId): set<NodeId> {
    set x | x in nodes && nodes[x].parent == Some(id)
  }

  function RemoveDropChildren(t: Tree, id: NodeId): Tree {
    Tree(if t.root == Some(id) then None else t.root, map x | x in t.nodes && !Under(t.nodes, id, x) :: t.nodes[x])
  }

  function RemoveOrphanChildren(t: Tree, id: NodeId): Tree {
    Tree(if t.root == Some(id) then None else t.root,
         map x | x in t.nodes && x != id ::
           if t.nodes[x].parent == Some(id) then t.nodes[x].(parent := None) else t.nodes[x])
  }

  /** Only used on a tree that has lost its root. */
  function MoveToRoot(t: Tree, id: NodeId): Tree {
    Tree(Some(id), if id in t.nodes then t.nodes[id := t.nodes[id].(parent := None)] else t.nodes)
  }

  // ---------------------------------------------------------------- soundness

  ghost predicate NodeOk(u: Universe, t: Tree, id: NodeId) {
    && id in t.nodes
    && var n := t.nodes[id];
    && n.data.stateHash in u
    && n.data == FromPrecomputed(u[n.data.stateHash], n.data.height)
    && (if t.root == Some(id) then n.parent.None? && n.data.height == 0
        else
          && n.parent.Some? && n.parent.value in t.nodes
          && t.nodes[n.parent.value].data.stateHash == n.data.parentHash
          && t.nodes[n.parent.value].data.height + 1 == n.data.height)
  }

  ghost predicate UniqueHashes(t: Tree) {
    forall a, b :: a in t.nodes && b in t.nodes && t.nodes[a].data.stateHash == t.nodes[b].data.stateHash ==> a == b
  }

  /** Every node but the root hangs under the node of its parent block, one higher, and
      no block occurs twice. */
  ghost predicate SoundTree(u: Universe, t: Tree) {
    && t.root.Some? && t.root.value in t.nodes
    && (forall id {:trigger NodeOk(u, t, id)} :: id in t.nodes ==> NodeOk(u, t, id))
    && UniqueHashes(t)
  }

  ghost function Hashes(t: Tree): set<StateHash> {
    set id | id in t.nodes :: t.nodes[id].data.stateHash
  }

  /** Every node is still there, unchanged. */
  ghost predicate KeepsNodes(t: Tree, t': Tree) {
    forall id :: id in t.nodes ==> id in t'.nodes && t'.nodes[id] == t.nodes[id]
  }

  ghost function ViewOf(t: Tree): View {
    View(if t.root.Some? && t.root.value in t.nodes then t.nodes[t.root.value].data.stateHash else "", Hashes(t))
  }

  /** The depth of a node, counted along the parent links. */
  ghost function DepthOf(t: Tree, id: NodeId): nat
    decreases if id in t.nodes then t.nodes[id].data.height else 0
  {
    if id in t.nodes && t.nodes[id].parent.Some? && t.nodes[id].parent.value in t.nodes &&
       t.nodes[t.nodes[id].parent.value].data.height < t.nodes[id].data.height
    then 1 + DepthOf(t, t.nodes[id].parent.value) else 0
  }

  /** The stored height is the depth, and the distance in blockchain length from the
      root. */
  lemma {:induction false} HeightIsDepth(u: Universe, t: Tree, id: NodeId)
    requires Consistent(u) && SoundTree(u, t) && id in t.nodes
    ensures t.nodes[id].data.height == DepthOf(t, id)
    ensures t.nodes[id].data.length == Len(u, ViewOf(t).root) + t.nodes[id].data.height
    decreases t.nodes[id].data.height
  {
    assert NodeOk(u, t, id);
    if t.root != Some(id) {
      var p := t.nodes[id].parent.value;
      HeightIsDepth(u, t, p);
      assert NodeOk(u, t, p) && Linked(u, t.nodes[id].data.stateHash);
    }
  }

  lemma {:induction false} HashHasNode(t: Tree, h: StateHash) returns (id: NodeId)
    requires h in Hashes(t)
    ensures id in t.nodes && t.nodes[id].data.stateHash == h
  {
    id :| id in t.nodes && t.nodes[id].data.stateHash == h;
  }

  lemma {:induction false} TreeIsRooted(u: Universe, t: Tree)
    requires Consistent(u) && SoundTree(u, t)
    ensures Rooted(u, ViewOf(t))
  {
    forall h | h in Hashes(t)
      ensures h in u && (h != ViewOf(t).root ==> u[h].parentHash in Hashes(t))
    {
      var id := HashHasNode(t, h);
      assert NodeOk(u, t, id);
    }
  }

  lemma {:induction false} TopIsHighest(u: Universe, t: Tree, id: NodeId)
    requires Consistent(u) && SoundTree(u, t) && id in t.nodes
    ensures IsTop(u, Hashes(t), t.nodes[id].data.stateHash) <==>
            forall x :: x in t.nodes ==> t.nodes[x].data.height <= t.nodes[id].data.height
  {
    forall x | x in t.nodes
      ensures Len(u, t.nodes[x].data.stateHash) == Len(u, ViewOf(t).root) + t.nodes[x].data.height
      ensures t.nodes[x].data.stateHash in Hashes(t)
    {
      HeightIsDepth(u, t, x);
      assert NodeOk(u, t, x);
    }
    if forall x :: x in t.nodes ==> t.nodes[x].data.height <= t.nodes[id].data.height {
      forall h | h in Hashes(t) ensures Len(u, h) <= Len(u, t.nodes[id].data.stateHash) {
        var x := HashHasNode(t, h);
      }
    }
  }

  lemma {:induction false} LastTopUnique(u: Universe, hs: set<StateHash>, h: StateHash)
    requires Consistent(u) && IsLastTop(u, hs, h) && forall x :: x in hs ==> x in u
    ensures LastTop(u, hs) == h
  {
    var l := LastTop(u, hs);
    assert IsLastTop(u, hs, l);
    BeatsOrder(u, l, h, l);
  }

  /** One more node, with a hash of its own. */
  lemma {:induction false} OneMoreHash(t: Tree, t': Tree, new_: NodeId, h: StateHash)
    requires UniqueHashes(t) && h !in Hashes(t)
    requires forall id :: id in t'.nodes <==> id in t.nodes || id == new_
    requires new_ in t'.nodes && t'.nodes[new_].data.stateHash == h
    requires forall id :: id in t.nodes ==> t'.nodes[id].data.stateHash == t.nodes[id].data.stateHash
    ensures UniqueHashes(t') && Hashes(t') == Hashes(t) + {h}
  {
    forall id | id in t.nodes ensures t.nodes[id].data.stateHash in Hashes(t) {}
    forall x ensures x in Hashes(t') <==> x in Hashes(t) || x == h {
      if x in Hashes(t) { var id := HashHasNode(t, x); assert t'.nodes[id].data.stateHash == x; }
      assert t'.nodes[new_].data.stateHash == h;
    }
  }

  /** Adding a node below a node of its parent block. */
  lemma {:induction false} InsertUnderSound(u: Universe, t: Tree, p: Pcb, parent: NodeId)
    requires Consistent(u) && SoundTree(u, t) && parent in t.nodes
    requires p.stateHash in u && u[p.stateHash] == p && p.stateHash !in Hashes(t)
    requires t.nodes[parent].data.stateHash == p.parentHash
    ensures var t' := InsertUnder(t, FromPrecomputed(p, t.nodes[parent].data.height + 1), parent);
            SoundTree(u, t') && Hashes(t') == Hashes(t) + {p.stateHash}
  {
    var new_ := FreshId(t);
    var t' := InsertUnder(t, FromPrecomputed(p, t.nodes[parent].data.height + 1), parent);
    assert Linked(u, p.stateHash);
    forall id | id in t'.nodes ensures NodeOk(u, t', id) {
      if id != new_ { assert NodeOk(u, t, id); }
    }
    OneMoreHash(t, t', new_, p.stateHash);
  }

  /** The old tree one level higher, below a node of its root's parent block. */
  ghost predicate Raised(t: Tree, p: Pcb, t': Tree) {
    && t.root.Some? && t.root.value in t.nodes
    && t'.root.Some? && t'.root.value !in t.nodes
    && (forall id :: id in t'.nodes <==> id in t.nodes || t'.root == Some(id))
    && t'.nodes[t'.root.value] == Node(FromPrecomputed(p, 0), None)
    && (forall id :: id in t.nodes ==> t'.nodes[id] == RaisedNode(t, id, t'.root, 1))
  }

  ghost function RaisedNode(t: Tree, id: NodeId, newRoot: Option<NodeId>, extra: nat): Node
    requires id in t.nodes
  {
    Node(t.nodes[id].data.(height := t.nodes[id].data.height + extra),
         if t.root == Some(id) then newRoot else t.nodes[id].parent)
  }

  /** Inserts the new root, then raises every other node by one. */
  method RaiseTree(t: Tree, p: Pcb) returns (r: Tree)
    requires t.root.Some? && t.root.value in t.nodes
    ensures Raised(t, p, r)
  {
    var newId := FreshId(t);
    r := InsertAsRoot(t, FromPrecomputed(p, 0));
    var ids := r.nodes.Keys;
    while ids != {}
      invariant r.root == Some(newId)
      invariant forall id :: id in ids ==> id in r.nodes
      invariant forall id :: id in r.nodes <==> id in t.nodes || id == newId
      invariant r.nodes[newId] == Node(FromPrecomputed(p, 0), None)
      invariant forall id :: id in t.nodes && id in ids ==> r.nodes[id] == RaisedNode(t, id, Some(newId), 0)
      invariant forall id :: id in t.nodes && id !in ids ==> r.nodes[id] == RaisedNode(t, id, Some(newId), 1)
      decreases |ids|
    {
      var id :| id in ids;
      ids := ids - {id};
      if id != newId {
        var block := r.nodes[id].data;
        r := r.(nodes := r.nodes[id := r.nodes[id].(data := block.(height := block.height + 1))]);
      }
    }
  }

  lemma {:induction false} RaisedSound(u: Universe, t: Tree, p: Pcb, t': Tree)
    requires Consistent(u) && SoundTree(u, t) && Raised(t, p, t')
    requires p.stateHash in u && u[p.stateHash] == p && p.stateHash !in Hashes(t)
    requires t.nodes[t.root.value].data.parentHash == p.stateHash
    ensures SoundTree(u, t') && ViewOf(t') == View(p.stateHash, Hashes(t) + {p.stateHash})
  {
    assert Linked(u, p.stateHash);
    forall id | id in t'.nodes ensures NodeOk(u, t', id) {
      if t'.root != Some(id) { assert NodeOk(u, t, id); }
    }
    OneMoreHash(t, t', t'.root.value, p.stateHash);
  }

  // ------------------------------------------------------------------- merging

  /** Node `i` of the incoming tree has its copy `m[i]`, raised above the junction. */
  ghost predicate CopiedNode(base: Tree, j: NodeId, inc: Tree, m: map<NodeId, NodeId>, cur: Tree, i: NodeId)
    requires j in base.nodes
  {
    && i in m && i in inc.nodes && m[i] in cur.nodes && m[i] !in base.nodes
    && cur.nodes[m[i]].data == inc.nodes[i].data.(height := inc.nodes[i].data.height + (base.nodes[j].data.height + 1))
    && (if inc.root == Some(i) then cur.nodes[m[i]].parent == Some(j)
        else
          && inc.nodes[i].parent.Some? && inc.nodes[i].parent.value in m
          && cur.nodes[m[i]].parent == Some(m[inc.nodes[i].parent.value]))
  }

  /** `cur` is `base` plus the copies recorded in `m`. */
  ghost predicate Copied(base: Tree, j: NodeId, inc: Tree, m: map<NodeId, NodeId>, cur: Tree)
    requires j in base.nodes
  {
    && cur.root == base.root
    && (forall i {:trigger CopiedNode(base, j, inc, m, cur, i)} :: i in m ==> CopiedNode(base, j, inc, m, cur, i))
    && (forall i, k :: i in m && k in m && m[i] == m[k] ==> i == k)
    && (forall id :: id in base.nodes ==> id in cur.nodes && cur.nodes[id] == base.nodes[id])
    && (forall id :: id in cur.nodes ==> id in base.nodes || id in m.Values)
  }

  /** A merge in progress: the growing tree, the copies made, the nodes to expand. */
  datatype Merge = Merge(tree: Tree, copies: map<NodeId, NodeId>, queue: seq<NodeId>)

  /** Copies node `c` of the incoming tree below `under`. */
  function CopyOne(inc: Tree, s: Merge, c: NodeId, under: NodeId, lift: nat): Merge
    requires c in inc.nodes
  {
    var data := inc.nodes[c].data;
    Merge(InsertUnder(s.tree, data.(height := data.height + lift), under), s.copies[c := FreshId(s.tree)],
          s.queue + [c])
  }

  /** What is copied stays so when one more node is copied, under a new id. */
  lemma {:induction false} CopyKeeps(base: Tree, j: NodeId, inc: Tree, m: map<NodeId, NodeId>, cur: Tree,
                                     m': map<NodeId, NodeId>, cur': Tree, c: NodeId, id: NodeId)
    requires j in base.nodes && Copied(base, j, inc, m, cur) && c !in m && id !in cur.nodes && m' == m[c := id]
    requires cur'.root == cur.root && id in cur'.nodes && CopiedNode(base, j, inc, m', cur', c)
    requires forall x :: x in cur.nodes ==> x in cur'.nodes && cur'.nodes[x] == cur.nodes[x]
    requires forall x :: x in cur'.nodes ==> x in cur.nodes || x == id
    ensures Copied(base, j, inc, m', cur')
  {
    forall i | i in m ensures m[i] in cur.nodes { assert CopiedNode(base, j, inc, m, cur, i); }
    forall i | i in m' ensures CopiedNode(base, j, inc, m', cur', i) {
      if i != c { assert CopiedNode(base, j, inc, m, cur, i); }
    }
    forall x | x in cur'.nodes ensures x in base.nodes || x in m'.Values {
      if x == id { assert m'[c] == id; }
      else if x !in base.nodes { var i :| i in m && m[i] == x; assert m'[i] == x; }
    }
  }

  lemma {:induction false} CopyStep(base: Tree, j: NodeId, inc: Tree, s: Merge, c: NodeId, under: NodeId, lift: nat)
    requires j in base.nodes && lift == base.nodes[j].data.height + 1 && Copied(base, j, inc, s.copies, s.tree)
    requires c in inc.nodes && c !in s.copies
    requires if inc.root == Some(c) then under == j
             else
               && inc.nodes[c].parent.Some? && inc.nodes[c].parent.value in s.copies
               && under == s.copies[inc.nodes[c].parent.value]
    ensures var s' := CopyOne(inc, s, c, under, lift);
            Copied(base, j, inc, s'.copies, s'.tree)
  {
    var s' := CopyOne(inc, s, c, under, lift);
    assert inc.root != Some(c) ==> inc.nodes[c].parent.value != c;
    CopyKeeps(base, j, inc, s.copies, s.tree, s'.copies, s'.tree, c, FreshId(s.tree));
  }

  lemma {:induction false} AllCopiedNodes(u: Universe, base: Tree, j: NodeId, inc: Tree, m: map<NodeId, NodeId>,
                                          cur: Tree, id: NodeId)
    requires Consistent(u) && SoundTree(u, base) && SoundTree(u, inc) && j in base.nodes
    requires inc.nodes[inc.root.value].data.parentHash == base.nodes[j].data.stateHash
    requires Copied(base, j, inc, m, cur) && id in cur.nodes
    ensures NodeOk(u, cur, id)
  {
    if id in base.nodes {
      assert NodeOk(u, base, id);
    } else {
      var i :| i in m && m[i] == id;
      assert CopiedNode(base, j, inc, m, cur, i) && NodeOk(u, inc, i);
      if inc.root != Some(i) {
        assert CopiedNode(base, j, inc, m, cur, inc.nodes[i].parent.value);
      }
    }
  }

  lemma {:induction false} AllCopiedHashes(base: Tree, j: NodeId, inc: Tree, m: map<NodeId, NodeId>, cur: Tree)
    requires UniqueHashes(base) && UniqueHashes(inc) && j in base.nodes && Hashes(base) !! Hashes(inc)
    requires Copied(base, j, inc, m, cur) && m.Keys == inc.nodes.Keys
    ensures UniqueHashes(cur) && Hashes(cur) == Hashes(base) + Hashes(inc)
  {
    forall id | id in cur.nodes
      ensures if id in base.nodes then cur.nodes[id].data.stateHash in Hashes(base)
              else exists i ::
                i in inc.nodes && i in m && m[i] == id && cur.nodes[id].data.stateHash == inc.nodes[i].data.stateHash
                               && inc.nodes[i].data.stateHash in Hashes(inc)
    {
      if id !in base.nodes {
        var i :| i in m && m[i] == id;
        assert CopiedNode(base, j, inc, m, cur, i);
        assert inc.nodes[i].data.stateHash in Hashes(inc);
      }
    }
    forall h | h in Hashes(base) + Hashes(inc) ensures h in Hashes(cur) {
      if h in Hashes(base) {
        var id := HashHasNode(base, h);
        assert cur.nodes[id].data.stateHash == h;
      } else {
        var i := HashHasNode(inc, h);
        assert CopiedNode(base, j, inc, m, cur, i);
        assert cur.nodes[m[i]].data.stateHash == h;
      }
    }
  }

  /** A complete copy below the junction is a sound tree of both trees' blocks. */
  lemma {:induction false} AllCopied(u: Universe, base: Tree, j: NodeId, inc: Tree, m: map<NodeId, NodeId>, cur: Tree)
    requires Consistent(u) && SoundTree(u, base) && SoundTree(u, inc) && j in base.nodes
    requires inc.nodes[inc.root.value].data.parentHash == base.nodes[j].data.stateHash
    requires Hashes(base) !! Hashes(inc)
    requires Copied(base, j, inc, m, cur) && m.Keys == inc.nodes.Keys
    ensures SoundTree(u, cur) && Hashes(cur) == Hashes(base) + Hashes(inc)
  {
    forall id | id in cur.nodes ensures NodeOk(u, cur, id) { AllCopiedNodes(u, base, j, inc, m, cur, id); }
    AllCopiedHashes(base, j, inc, m, cur);
  }

  /** The traversal's queue: its nodes are visited and their children not, while every
      unvisited child of a visited node is in `kids` or hangs below a queued node. */
  ghost predicate Frontier(inc: Tree, visited: set<NodeId>, queue: seq<NodeId>, kids: set<NodeId>) {
    && inc.root.Some? && inc.root.value in visited
    && (forall q :: q in queue ==> q in visited)
    && (forall a, b :: 0 <= a < b < |queue| ==> queue[a] != queue[b])
    && (forall c :: c in inc.nodes && inc.nodes[c].parent.Some? && inc.nodes[c].parent.value in queue ==> c !in visited)
    && (forall c :: c in inc.nodes && c !in visited && inc.nodes[c].parent.Some? && inc.nodes[c].parent.value in visited
          ==> inc.nodes[c].parent.value in queue || c in kids)
  }

  ghost predicate ParentVisited(inc: Tree, visited: set<NodeId>, x: NodeId) {
    inc.root == Some(x) || (x in inc.nodes && inc.nodes[x].parent.Some? && inc.nodes[x].parent.value in visited)
  }

  /** Visiting one of the pending children. */
  lemma {:induction false} FrontierPush(u: Universe, inc: Tree, visited: set<NodeId>, queue: seq<NodeId>,
                                        kids: set<NodeId>, c: NodeId)
    requires SoundTree(u, inc) && Frontier(inc, visited, queue, kids)
    requires forall x {:trigger ParentVisited(inc, visited, x)} :: x in visited ==> ParentVisited(inc, visited, x)
    requires c in kids && c in inc.nodes && c !in visited && inc.nodes[c].parent.Some?
    requires inc.nodes[c].parent.value !in queue
    ensures Frontier(inc, visited + {c}, queue + [c], kids - {c})
  {
    assert NodeOk(u, inc, c) && NodeOk(u, inc, inc.root.value);
    var q := queue + [c];
    assert forall x :: x in q <==> x in queue || x == c;
    forall x | x in inc.nodes && inc.nodes[x].parent.Some? &&
      inc.nodes[x].parent.value in q ensures x !in visited + {c} {
      assert NodeOk(u, inc, x) && (x in visited ==> ParentVisited(inc, visited, x));
    }
  }

  /** Taking the next node off the queue. */
  lemma {:induction false} FrontierPop(inc: Tree, visited: set<NodeId>, queue: seq<NodeId>)
    requires Frontier(inc, visited, queue, {}) && queue != []
    ensures Frontier(inc, visited, queue[1..], Children(inc.nodes, queue[0]))
    ensures queue[0] !in queue[1..] && queue[0] in visited
    ensures forall c :: c in Children(inc.nodes, queue[0]) ==> c in inc.nodes && c !in visited
  {
    assert queue == [queue[0]] + queue[1..];
    assert forall x :: x in queue <==> x == queue[0] || x in queue[1..];
  }

  /** When the queue is empty every node has been visited. */
  lemma {:induction false} EmptyFrontier(u: Universe, inc: Tree, visited: set<NodeId>, c: NodeId)
    requires SoundTree(u, inc) && Frontier(inc, visited, [], {}) && c in inc.nodes
    ensures c in visited
    decreases inc.nodes[c].data.height
  {
    assert NodeOk(u, inc, c);
    if inc.root != Some(c) {
      EmptyFrontier(u, inc, visited, inc.nodes[c].parent.value);
    }
  }

  ghost predicate Merging(base: Tree, j: NodeId, inc: Tree, s: Merge, kids: set<NodeId>) {
    && j in base.nodes
    && Copied(base, j, inc, s.copies, s.tree)
    && s.copies.Keys <= inc.nodes.Keys
    && Frontier(inc, s.copies.Keys, s.queue, kids)
  }

  /** Nodes still to be copied or expanded. */
  ghost function Remaining(inc: Tree, s: Merge): nat {
    |inc.nodes.Keys - s.copies.Keys| + |s.queue|
  }

  /** `c` is a pending child of `node`, which has been copied and dequeued. */
  ghost predicate Pending(inc: Tree, s: Merge, node: NodeId, c: NodeId) {
    && c in inc.nodes && c !in s.copies && inc.nodes[c].parent == Some(node)
    && node in s.copies && node !in s.queue
  }

  lemma {:induction false} CopyOneKeeps(u: Universe, base: Tree, j: NodeId, inc: Tree, s: Merge, kids: set<NodeId>,
                                        node: NodeId, c: NodeId)
    requires SoundTree(u, inc) && Merging(base, j, inc, s, kids) && c in kids && Pending(inc, s, node, c)
    ensures Merging(base, j, inc, CopyOne(inc, s, c, s.copies[node], base.nodes[j].data.height + 1), kids - {c})
  {
    assert inc.root != Some(c) by { assert NodeOk(u, inc, c); }
    forall x | x in s.copies ensures ParentVisited(inc, s.copies.Keys, x) {
      assert CopiedNode(base, j, inc, s.copies, s.tree, x);
    }
    FrontierPush(u, inc, s.copies.Keys, s.queue, kids, c);
    CopyStep(base, j, inc, s, c, s.copies[node], base.nodes[j].data.height + 1);
    assert s.copies[c := FreshId(s.tree)].Keys == s.copies.Keys + {c};
  }

  lemma {:induction false} CopyOneRemaining(inc: Tree, s: Merge, node: NodeId, c: NodeId, under: NodeId, lift: nat)
    requires s.copies.Keys <= inc.nodes.Keys && Pending(inc, s, node, c)
    ensures Remaining(inc, CopyOne(inc, s, c, under, lift)) == Remaining(inc, s)
    ensures forall x :: x != c && Pending(inc, s, node, x) ==> Pending(inc, CopyOne(inc, s, c, under, lift), node, x)
  {
    assert s.copies[c := FreshId(s.tree)].Keys == s.copies.Keys + {c};
    assert inc.nodes.Keys - s.copies.Keys == (inc.nodes.Keys - (s.copies.Keys + {c})) + {c};
  }

  /** The children of `node` in `kids` are still to be copied below `under`. */
  ghost predicate Expanding(base: Tree, j: NodeId, inc: Tree, s: Merge, kids: set<NodeId>, node: NodeId, under: NodeId,
                            left: nat) {
    && Merging(base, j, inc, s, kids) && Remaining(inc, s) == left
    && node in s.copies && s.copies[node] == under
    && forall c :: c in kids ==> Pending(inc, s, node, c)
  }

  lemma {:induction false} ExpandStep(u: Universe, base: Tree, j: NodeId, inc: Tree, s: Merge, kids: set<NodeId>,
                                      node: NodeId, under: NodeId, left: nat, c: NodeId)
    requires SoundTree(u, inc) && Expanding(base, j, inc, s, kids, node, under, left) && c in kids
    ensures c in inc.nodes
    ensures Expanding(base, j, inc, CopyOne(inc, s, c, under, base.nodes[j].data.height + 1), kids - {c}, node,
                      under, left)
  {
    assert Pending(inc, s, node, c);
    CopyOneKeeps(u, base, j, inc, s, kids, node, c);
    CopyOneRemaining(inc, s, node, c, under, base.nodes[j].data.height + 1);
  }

  /** Copies the children of a node that has been copied and dequeued. */
  method CopyChildren(ghost u: Universe, ghost base: Tree, ghost j: NodeId, inc: Tree, s: Merge, node: NodeId,
                      under: NodeId, lift: nat)
    returns (r: Merge)
    requires SoundTree(u, inc) && Expanding(base, j, inc, s, Children(inc.nodes, node), node, under, Remaining(inc, s))
    requires lift == base.nodes[j].data.height + 1
    ensures Merging(base, j, inc, r, {}) && Remaining(inc, r) == Remaining(inc, s)
  {
    r := s;
    var kids := Children(inc.nodes, node);
    while kids != {}
      invariant Expanding(base, j, inc, r, kids, node, under, Remaining(inc, s))
      decreases |kids|
    {
      var c :| c in kids;
      ExpandStep(u, base, j, inc, r, kids, node, under, Remaining(inc, s), c);
      r := CopyOne(inc, r, c, under, lift);
      kids := kids - {c};
    }
  }

  lemma {:induction false} StartMerge(u: Universe, base: Tree, j: NodeId, inc: Tree)
    requires j in base.nodes && SoundTree(u, inc)
    ensures Merging(base, j, inc,
                    CopyOne(inc, Merge(base, map[], []), inc.root.value, j, base.nodes[j].data.height + 1), {})
  {
    var r := inc.root.value;
    CopyStep(base, j, inc, Merge(base, map[], []), r, j, base.nodes[j].data.height + 1);
    assert NodeOk(u, inc, r);
    forall c | c in inc.nodes && c != r ensures inc.nodes[c].parent.Some? { assert NodeOk(u, inc, c); }
    assert map[][r := FreshId(base)].Keys == {r};
  }

  lemma {:induction false} NextNode(base: Tree, j: NodeId, inc: Tree, s: Merge)
    requires Merging(base, j, inc, s, {}) && s.queue != []
    ensures var s' := s.(queue := s.queue[1..]);
            var node := s.queue[0];
            && node in s.copies
            && Expanding(base, j, inc, s', Children(inc.nodes, node), node, s.copies[node], Remaining(inc, s'))
            && Remaining(inc, s') == Remaining(inc, s) - 1
  {
    FrontierPop(inc, s.copies.Keys, s.queue);
  }

  lemma {:induction false} MergeDone(u: Universe, base: Tree, j: NodeId, inc: Tree, s: Merge, i: NodeId)
    requires Consistent(u) && SoundTree(u, base) && SoundTree(u, inc) && Merging(base, j, inc, s, {}) && s.queue == []
    requires inc.nodes[inc.root.value].data.parentHash == base.nodes[j].data.stateHash
    requires Hashes(base) !! Hashes(inc) && i in inc.nodes
    ensures SoundTree(u, s.tree) && s.tree.root == base.root && Hashes(s.tree) == Hashes(base) + Hashes(inc)
    ensures i in s.copies && s.copies[i] in s.tree.nodes
    ensures s.tree.nodes[s.copies[i]].data.stateHash == inc.nodes[i].data.stateHash
    ensures KeepsNodes(base, s.tree)
  {
    forall c | c in inc.nodes ensures c in s.copies { EmptyFrontier(u, inc, s.copies.Keys, c); }
    AllCopied(u, base, j, inc, s.copies, s.tree);
    assert CopiedNode(base, j, inc, s.copies, s.tree, i);
  }

  /** Copies the incoming tree, level by level, below the junction node. */
  method MergeTrees(ghost u: Universe, base: Tree, junction: NodeId, inc: Tree, tip: NodeId)
    returns (t: Tree, tipCopy: NodeId)
    requires Consistent(u) && SoundTree(u, base) && SoundTree(u, inc) && junction in base.nodes && tip in inc.nodes
    requires inc.nodes[inc.root.value].data.parentHash == base.nodes[junction].data.stateHash
    requires Hashes(base) !! Hashes(inc)
    ensures SoundTree(u, t) && t.root == base.root && Hashes(t) == Hashes(base) + Hashes(inc)
    ensures tipCopy in t.nodes && t.nodes[tipCopy].data.stateHash == inc.nodes[tip].data.stateHash
    ensures KeepsNodes(base, t)
  {
    var lift := base.nodes[junction].data.height + 1;
    StartMerge(u, base, junction, inc);
    var s := CopyOne(inc, Merge(base, map[], []), inc.root.value, junction, lift);
    while s.queue != []
      invariant Merging(base, junction, inc, s, {})
      decreases Remaining(inc, s)
    {
      NextNode(base, junction, inc, s);
      s := CopyChildren(u, base, junction, inc, s.(queue := s.queue[1..]), s.queue[0], s.copies[s.queue[0]], lift);
    }
    MergeDone(u, base, junction, inc, s, tip);
    t, tipCopy := s.tree, s.copies[tip];
  }

  /** The head of the sequence once sorted by the reversed comparison. */
  method FirstInReverse(bs: seq<Block>) returns (k: nat)
    requires bs != [] && forall i :: 0 <= i < |bs| ==> bs[i].genesisHash == bs[0].genesisHash
    requires forall i, j :: 0 <= i < j < |bs| ==> bs[i].stateHash != bs[j].stateHash
    ensures k < |bs|
    ensures forall j :: 0 <= j < |bs| && j != k ==> Better(bs[j], bs[k])
  {
    k := 0;
    for i := 1 to |bs|
      invariant k < i
      invariant forall j :: 0 <= j < i && j != k ==> Better(bs[j], bs[k])
    {
      BetterIsStrictTotalOrder(bs[k], bs[i], bs[i]);
      if Cmp(bs[k], bs[i]) == Less {
        forall j | 0 <= j < i && j != k ensures Better(bs[j], bs[i]) {
          BetterIsStrictTotalOrder(bs[j], bs[k], bs[i]);
        }
        k := i;
      }
    }
  }

  lemma {:induction false} NodesBeat(u: Universe, t: Tree, a: NodeId, b: NodeId)
    requires NodeOk(u, t, a) && NodeOk(u, t, b)
    ensures Better(t.nodes[a].data, t.nodes[b].data) == Beats(u, t.nodes[a].data.stateHash, t.nodes[b].data.stateHash)
  {}
}
