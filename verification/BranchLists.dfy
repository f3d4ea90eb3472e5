/** The dangling branches as a list: how they are searched, extended, merged and
    removed. */
module BranchLists {
  import opened Accounts
  import opened Blocks
  import opened WitnessTree
  import opened WitnessForest
  import opened Trees
  import opened Branches
  import opened Removals

  datatype Direction = Forward | Reverse

  ghost function Views(ds: seq<Branch>): (vs: seq<View>) {
    seq(|ds|, i requires 0 <= i < |ds| => ViewOf(ds[i].tree))
  }

  ghost predicate AllSound(u: Universe, ds: seq<Branch>) {
    forall i :: 0 <= i < |ds| ==> ds[i].Sound(u)
  }

  ghost predicate Known(u: Universe, p: Pcb) {
    p.stateHash in u && u[p.stateHash] == p
  }

  // ------------------------------------------------------------------- matching

  /** The indices of the branches that `h` is the parent of. */
  ghost function MatchIndices(u: Universe, vs: seq<View>, h: StateHash): seq<nat> {
    if vs == [] then [] else
      MatchIndices(u, vs[..|vs| - 1], h) + if IsParentOfRoot(u, vs[|vs| - 1], h) then [|vs| - 1] else []
  }

  /** The listed branches, in the order of the list. */
  ghost function Picked(vs: seq<View>, idxs: seq<nat>): seq<View>
    requires forall k :: 0 <= k < |idxs| ==> idxs[k] < |vs|
  {
    seq(|idxs|, k requires 0 <= k < |idxs| => vs[idxs[k]])
  }

  lemma {:induction false} MatchIndicesAre(u: Universe, vs: seq<View>, h: StateHash)
    ensures Increasing(MatchIndices(u, vs, h), |vs|)
    ensures forall i :: i in MatchIndices(u, vs, h) <==> 0 <= i < |vs| && IsParentOfRoot(u, vs[i], h)
  {
    if vs != [] {
      var init, n := vs[..|vs| - 1], |vs| - 1;
      MatchIndicesAre(u, init, h);
      assert forall i :: 0 <= i < n ==> init[i] == vs[i];
      var a, b := MatchIndices(u, init, h), if IsParentOfRoot(u, vs[n], h) then [n] else [];
      assert forall i :: i in a + b <==> i in a || i in b;
    }
  }

  lemma {:induction false} PickedMatches(u: Universe, vs: seq<View>, h: StateHash)
    ensures forall k :: 0 <= k < |MatchIndices(u, vs, h)| ==> MatchIndices(u, vs, h)[k] < |vs|
    ensures Picked(vs, MatchIndices(u, vs, h)) == Matching(u, vs, h)
  {
    if vs != [] {
      var init := vs[..|vs| - 1];
      PickedMatches(u, init, h);
      assert forall i :: 0 <= i < |init| ==> init[i] == vs[i];
    }
  }

  /** Dropping every branch that `h` is the parent of leaves the others. */
  lemma {:induction false} DroppingIsOthers(u: Universe, vs: seq<View>, h: StateHash, idxs: seq<nat>)
    requires forall i :: 0 <= i < |vs| ==> (i in idxs <==> IsParentOfRoot(u, vs[i], h))
    ensures Dropping(vs, idxs) == Others(u, vs, h)
  {
    if vs != [] {
      var init := vs[..|vs| - 1];
      assert forall i :: 0 <= i < |init| ==> init[i] == vs[i];
      DroppingIsOthers(u, init, h, idxs);
    }
  }

  lemma {:induction false} DroppingSound(u: Universe, ds: seq<Branch>, idxs: seq<nat>)
    requires AllSound(u, ds)
    ensures AllSound(u, Dropping(ds, idxs))
    ensures Views(Dropping(ds, idxs)) == Dropping(Views(ds), idxs)
  {
    if ds != [] {
      var n := |ds| - 1;
      var init := ds[..n];
      DroppingSound(u, init, idxs);
      ViewsPrefix(ds, n);
      var tail := if n in idxs then [] else [ds[n]];
      ViewsConcat(Dropping(init, idxs), tail);
      assert AllSound(u, tail);
    }
  }

  lemma {:induction false} ViewsPrefix(ds: seq<Branch>, n: nat)
    requires n <= |ds|
    ensures Views(ds)[..n] == Views(ds[..n])
  {}

  lemma {:induction false} ViewsConcat(a: seq<Branch>, b: seq<Branch>)
    ensures Views(a + b) == Views(a) + Views(b)
  {}

  /** The block is the parent of the branch's root. */
  predicate IsReverseExtension(b: Branch, p: Pcb)
    requires b.root in b.tree.nodes
  {
    p.stateHash == b.tree.nodes[b.root].data.parentHash
  }

  lemma {:induction false} ReverseIsParent(u: Universe, b: Branch, p: Pcb)
    requires b.Sound(u)
    ensures IsReverseExtension(b, p) <==> IsParentOfRoot(u, ViewOf(b.tree), p.stateHash)
  {
    assert NodeOk(u, b.tree, b.root);
  }

  lemma {:induction false} MatchedNext(u: Universe, vs: seq<View>, h: StateHash, i: nat)
    requires i < |vs|
    ensures MatchIndices(u, vs[..i + 1], h) ==
              MatchIndices(u, vs[..i], h) + if IsParentOfRoot(u, vs[i], h) then [i] else []
  {
    assert vs[..i + 1][..i] == vs[..i];
  }

  /** The branches whose root is a child of the block. */
  method FindMatches(ghost u: Universe, ds: seq<Branch>, p: Pcb) returns (matched: seq<nat>)
    requires AllSound(u, ds)
    ensures matched == MatchIndices(u, Views(ds), p.stateHash)
  {
    matched := [];
    ghost var vs := Views(ds);
    for i := 0 to |ds|
      invariant matched == MatchIndices(u, vs[..i], p.stateHash)
    {
      MatchedNext(u, vs, p.stateHash, i);
      ReverseIsParent(u, ds[i], p);
      if IsReverseExtension(ds[i], p) { matched := matched + [i]; }
    }
    assert vs[..|vs|] == vs;
  }

  // -------------------------------------------------------------------- merging

  /** `t` is the sound tree `t0` plus the branches `ms`, whose tips are the nodes `tips`. */
  ghost predicate Grafted(u: Universe, t0: Tree, t: Tree, ms: seq<View>, tips: seq<NodeId>) {
    && SoundTree(u, t) && t.root == t0.root && KeepsNodes(t0, t)
    && Hashes(t) == Hashes(t0) + AllHashes(ms)
    && |tips| == |ms|
    && (forall k :: 0 <= k < |tips| ==> tips[k] in t.nodes && t.nodes[tips[k]].data.stateHash == Tips(u, ms)[k])
  }

  lemma {:induction false} GraftTips(u: Universe, t: Tree, ms: seq<View>, tips: seq<NodeId>, t': Tree, m: View,
                                     tip: NodeId)
    requires |tips| == |ms| && KeepsNodes(t, t')
    requires forall k :: 0 <= k < |tips| ==> tips[k] in t.nodes && t.nodes[tips[k]].data.stateHash == Tips(u, ms)[k]
    requires tip in t'.nodes && t'.nodes[tip].data.stateHash == LastTop(u, m.hashes)
    ensures var all := tips + [tip];
            forall k :: 0 <= k < |all| ==>
              all[k] in t'.nodes && t'.nodes[all[k]].data.stateHash == Tips(u, ms + [m])[k]
  {
    assert (ms + [m])[..|ms|] == ms;
  }

  lemma {:induction false} GraftNext(u: Universe, t0: Tree, t: Tree, ms: seq<View>, tips: seq<NodeId>, t': Tree,
                                     m: View, tip: NodeId)
    requires Grafted(u, t0, t, ms, tips) && SoundTree(u, t') && t'.root == t.root && KeepsNodes(t, t')
    requires Hashes(t') == Hashes(t) + m.hashes && tip in t'.nodes
    requires t'.nodes[tip].data.stateHash == LastTop(u, m.hashes)
    ensures Grafted(u, t0, t', ms + [m], tips + [tip])
  {
    assert (ms + [m])[..|ms|] == ms;
    AllHashesSnoc(ms, m);
    GraftTips(u, t, ms, tips, t', m, tip);
  }

  lemma {:induction false} PickedHashes(vs: seq<View>, idxs: seq<nat>, x: StateHash)
    requires forall k :: 0 <= k < |idxs| ==> idxs[k] < |vs|
    ensures x in AllHashes(Picked(vs, idxs)) <==> exists k :: 0 <= k < |idxs| && x in vs[idxs[k]].hashes
  {
    AllHashesMember(Picked(vs, idxs), x);
    if k :| 0 <= k < |idxs| && x in vs[idxs[k]].hashes { assert x in Picked(vs, idxs)[k].hashes; }
  }

  /** The next branch to merge shares no block with the ones merged before. */
  lemma {:induction false} NextIsSeparate(vs: seq<View>, idxs: seq<nat>, n: nat)
    requires Separate(vs) && Increasing(idxs, |vs|) && n < |idxs|
    ensures AllHashes(Picked(vs, idxs[..n])) !! vs[idxs[n]].hashes
    ensures vs[idxs[n]].hashes <= AllHashes(vs)
  {
    forall x | x in vs[idxs[n]].hashes ensures x !in AllHashes(Picked(vs, idxs[..n])) && x in AllHashes(vs) {
      PickedHashes(vs, idxs[..n], x);
      AllHashesMember(vs, x);
    }
  }

  lemma {:induction false} PickedNext(vs: seq<View>, idxs: seq<nat>, n: nat)
    requires (forall k :: 0 <= k < |idxs| ==> idxs[k] < |vs|) && n < |idxs|
    ensures Picked(vs, idxs[..n + 1]) == Picked(vs, idxs[..n]) + [vs[idxs[n]]]
  {}

  /** Merges one branch below the node of the new block. */
  method MergeOne(ghost u: Universe, ghost t0: Tree, b: Branch, newId: NodeId, d: Branch, ghost ms: seq<View>,
                  ghost tips: seq<NodeId>)
    returns (b': Branch, tip: NodeId)
    requires Consistent(u) && b.Sound(u) && d.Sound(u) && newId in t0.nodes
    requires Grafted(u, t0, b.tree, ms, tips)
    requires Hashes(d.tree) !! Hashes(t0) && AllHashes(ms) !! Hashes(d.tree)
    requires IsParentOfRoot(u, ViewOf(d.tree), t0.nodes[newId].data.stateHash)
    ensures b'.Sound(u) && b'.root == b.root
    ensures Grafted(u, t0, b'.tree, ms + [ViewOf(d.tree)], tips + [tip])
  {
    assert NodeOk(u, d.tree, d.root);
    b', tip := b.MergeOn(u, newId, d);
    GraftNext(u, t0, b.tree, ms, tips, b'.tree, ViewOf(d.tree), tip);
  }

  /** Merges every dangling branch whose root is a child of the new block into the root
      branch. */
  method MergeChildren(ghost u: Universe, root: Branch, ds: seq<Branch>, p: Pcb, newId: NodeId)
    returns (b: Branch, tips: seq<NodeId>, matched: seq<nat>)
    requires Consistent(u) && root.Sound(u) && AllSound(u, ds)
    requires Separate(Views(ds)) && AllHashes(Views(ds)) !! Hashes(root.tree)
    requires newId in root.tree.nodes && root.tree.nodes[newId].data.stateHash == p.stateHash
    ensures b.Sound(u) && b.root == root.root
    ensures Grafted(u, root.tree, b.tree, Matching(u, Views(ds), p.stateHash), tips)
    ensures matched == MatchIndices(u, Views(ds), p.stateHash)
  {
    matched := FindMatches(u, ds, p);
    ghost var vs := Views(ds);
    MatchIndicesAre(u, vs, p.stateHash);
    PickedMatches(u, vs, p.stateHash);
    b, tips := root, [];
    for n := 0 to |matched|
      invariant b.Sound(u) && b.root == root.root
      invariant Grafted(u, root.tree, b.tree, Picked(vs, matched[..n]), tips)
    {
      assert matched[n] in matched;
      NextIsSeparate(vs, matched, n);
      var tip;
      b, tip := MergeOne(u, root.tree, b, newId, ds[matched[n]], Picked(vs, matched[..n]), tips);
      PickedNext(vs, matched, n);
      tips := tips + [tip];
    }
    assert matched[..|matched|] == matched;
  }

  ghost predicate TipsOf(t: Tree, tips: seq<NodeId>, hs: seq<StateHash>) {
    |hs| == |tips| && forall k :: 0 <= k < |tips| ==> tips[k] in t.nodes && t.nodes[tips[k]].data.stateHash == hs[k]
  }

  /** The root branch with the new block and everything that this connects. */
  method GrowRoot(ghost u: Universe, root: Branch, ds: seq<Branch>, p: Pcb)
    returns (b: Branch, newId: Option<NodeId>, tips: seq<NodeId>, matched: seq<nat>)
    requires Consistent(u) && root.Sound(u) && AllSound(u, ds) && Known(u, p)
    requires Separate(Views(ds)) && AllHashes(Views(ds)) !! Hashes(root.tree)
    requires p.stateHash !in Hashes(root.tree) && p.stateHash !in AllHashes(Views(ds))
    ensures b.Sound(u)
    ensures newId.Some? <==> p.parentHash in Hashes(root.tree)
    ensures newId.None? ==> b == root
    ensures newId.Some? ==> var ms := Matching(u, Views(ds), p.stateHash);
      && KeepsNodes(root.tree, b.tree)
      && ViewOf(b.tree) == View(ViewOf(root.tree).root, Hashes(root.tree) + {p.stateHash} + AllHashes(ms))
      && newId.value in b.tree.nodes && b.tree.nodes[newId.value].data.stateHash == p.stateHash
      && TipsOf(b.tree, tips, Tips(u, ms))
      && matched == MatchIndices(u, Views(ds), p.stateHash)
  {
    var extended, ext := root.SimpleExtension(u, p);
    if ext.None? { return root, None, [], []; }
    newId := Some(ext.value.0);
    b, tips, matched := MergeChildren(u, extended, ds, p, newId.value);
    assert root.root in root.tree.nodes;
  }

  /** Removes the merged branches, one by one. */
  method RemoveMatched(ghost u: Universe, ds: seq<Branch>, matched: seq<nat>,
                       ghost h: StateHash) returns (ds': seq<Branch>)
    requires AllSound(u, ds) && matched == MatchIndices(u, Views(ds), h)
    ensures AllSound(u, ds') && Views(ds') == Others(u, Views(ds), h)
    ensures matched == [] <==> Matching(u, Views(ds), h) == []
  {
    PickedMatches(u, Views(ds), h);
    MatchIndicesAre(u, Views(ds), h);
    DroppingIsOthers(u, Views(ds), h, matched);
    DroppingSound(u, ds, matched);
    ds' := RemoveAll(ds, matched);
  }

  // ------------------------------------------------------- extending one branch

  /** Extends the branch by the block, backwards or forwards, if its lengths allow it. */
  method ExtendBranch(ghost u: Universe, d: Branch, p: Pcb) returns (b: Branch, ext: Option<(NodeId, Direction)>)
    requires Consistent(u) && d.Sound(u) && Known(u, p) && p.stateHash !in Hashes(d.tree)
    ensures b.Sound(u)
    ensures ext.Some? <==> Touches(u, ViewOf(d.tree), p.stateHash)
    ensures ext.None? ==> b == d
    ensures ext.Some? ==>
      && ViewOf(b.tree) == Grow(u, ViewOf(d.tree), p.stateHash)
      && ext.value.0 in b.tree.nodes && b.tree.nodes[ext.value.0].data.stateHash == p.stateHash
      && (ext.value.1.Reverse? <==> IsParentOfRoot(u, ViewOf(d.tree), p.stateHash))
  {
    var tipId, bestTip := d.BestTipWithId(u);
    var minLength, maxLength := d.tree.nodes[d.root].data.length, bestTip.length;
    HeightIsDepth(u, d.tree, d.root);
    TreeIsRooted(u, d.tree);
    LastTopExists(u, Hashes(d.tree));
    ReverseIsParent(u, d, p);
    assert NodeOk(u, d.tree, d.root) && NodeOk(u, d.tree, tipId);
    if maxLength + 1 >= p.length && p.length + 1 >= minLength {
      if IsReverseExtension(d, p) {
        b := d.NewRoot(u, p);
        return b, Some((b.root, Reverse));
      }
      var r;
      b, r := d.SimpleExtension(u, p);
      return b, if r.Some? then Some((r.value.0, Forward)) else None;
    }
    return d, None;
  }

  lemma {:induction false} FirstTouchIs(u: Universe, vs: seq<View>, h: StateHash, i: nat)
    requires i <= |vs| && (forall j :: 0 <= j < i ==> !Touches(u, vs[j], h)) && (i < |vs| ==> Touches(u, vs[i], h))
    ensures FirstTouch(u, vs, h) == i
  {}

  lemma {:induction false} UpdatedViews(u: Universe, ds: seq<Branch>, i: nat, b: Branch)
    requires AllSound(u, ds) && i < |ds| && b.Sound(u)
    ensures AllSound(u, ds[i := b]) && Views(ds[i := b]) == Views(ds)[i := ViewOf(b.tree)]
  {}

  /** Extends the first dangling branch that the block touches. */
  method ExtendFirst(ghost u: Universe, ds: seq<Branch>, p: Pcb)
    returns (ds': seq<Branch>, ext: Option<(nat, NodeId, Direction)>)
    requires Consistent(u) && AllSound(u, ds) && Known(u, p) && p.stateHash !in AllHashes(Views(ds))
    ensures AllSound(u, ds')
    ensures ext.None? <==> FirstTouch(u, Views(ds), p.stateHash) == |ds|
    ensures ext.None? ==> ds' == ds
    ensures ext.Some? ==>
      && ext.value.0 == FirstTouch(u, Views(ds), p.stateHash) && |ds'| == |ds|
      && Views(ds') == Views(ds)[ext.value.0 := Grow(u, Views(ds)[ext.value.0], p.stateHash)]
      && ext.value.1 in ds'[ext.value.0].tree.nodes
      && ds'[ext.value.0].tree.nodes[ext.value.1].data.stateHash == p.stateHash
      && (ext.value.2.Reverse? <==> IsParentOfRoot(u, Views(ds)[ext.value.0], p.stateHash))
  {
    ghost var vs := Views(ds);
    for i := 0 to |ds|
      invariant forall j :: 0 <= j < i ==> !Touches(u, vs[j], p.stateHash)
    {
      assert p.stateHash !in Hashes(ds[i].tree) by {
        AllHashesMember(vs, p.stateHash);
        assert vs[i].hashes == Hashes(ds[i].tree);
      }
      var b, r := ExtendBranch(u, ds[i], p);
      if r.Some? {
        FirstTouchIs(u, vs, p.stateHash, i);
        UpdatedViews(u, ds, i, b);
        return ds[i := b], Some((i, r.value.0, r.value.1));
      }
    }
    FirstTouchIs(u, vs, p.stateHash, |ds|);
    return ds, None;
  }

  // ------------------------------------------------------- joining the branches

  lemma {:induction false} MatchingWithout(u: Universe, vs: seq<View>, i: nat, h: StateHash)
    requires i < |vs| && !IsParentOfRoot(u, vs[i], h)
    ensures Matching(u, Remove(vs, i), h) == Matching(u, vs, h)
  {
    var n := |vs| - 1;
    if i < n {
      MatchingWithout(u, vs[..n], i, h);
      assert Remove(vs, i)[..n - 1] == Remove(vs[..n], i);
      assert Remove(vs, i)[n - 1] == vs[n];
    } else {
      assert Remove(vs, i) == vs[..n];
    }
  }

  /** Each index one lower: where the matches are once the extended branch is out. */
  ghost function Lowered(idxs: seq<nat>): seq<nat>
    requires forall k :: 0 <= k < |idxs| ==> idxs[k] > 0
  {
    seq(|idxs|, k requires 0 <= k < |idxs| => idxs[k] - 1)
  }

  lemma {:induction false} LoweredMatches(u: Universe, vs: seq<View>, i: nat, h: StateHash, matched: seq<nat>)
    requires i < |vs| && matched == MatchIndices(u, vs, h)
    requires forall k :: 0 <= k < |matched| ==> i < matched[k]
    ensures Increasing(matched, |vs|) && Increasing(Lowered(matched), |vs| - 1)
    ensures forall k :: 0 <= k < |matched| ==> IsParentOfRoot(u, vs[matched[k]], h)
    ensures Dropping(Remove(vs, i), Lowered(matched)) == Others(u, Remove(vs, i), h)
    ensures Picked(vs, matched) == Matching(u, Remove(vs, i), h)
  {
    MatchIndicesAre(u, vs, h);
    forall k | 0 <= k < |matched| ensures matched[k] in matched {}
    assert !IsParentOfRoot(u, vs[i], h);
    MatchingWithout(u, vs, i, h);
    PickedMatches(u, vs, h);
    var rest := Remove(vs, i);
    forall j | 0 <= j < |rest| ensures j in Lowered(matched) <==> IsParentOfRoot(u, rest[j], h) {
      LoweredMember(matched, i, j);
    }
    DroppingIsOthers(u, rest, h, Lowered(matched));
  }

  lemma {:induction false} LoweredMember(idxs: seq<nat>, i: nat, j: nat)
    requires forall k :: 0 <= k < |idxs| ==> i < idxs[k]
    ensures j in Lowered(idxs) <==> j + 1 in idxs
    ensures j < i ==> j !in Lowered(idxs) && j !in idxs
  {
    if j + 1 in idxs { var k :| 0 <= k < |idxs| && idxs[k] == j + 1; assert Lowered(idxs)[k] == j; }
  }

  lemma {:induction false} ViewsWithout(u: Universe, ds: seq<Branch>, i: nat)
    requires i < |ds| && AllSound(u, ds)
    ensures AllSound(u, Remove(ds, i)) && Views(Remove(ds, i)) == Remove(Views(ds), i)
  {}

  /** After `n` merges: `rest` has lost `n` of the matched branches, `extended` has them. */
  ghost predicate Joining(u: Universe, ds: seq<Branch>, i: nat, matched: seq<nat>, n: nat, rest: seq<Branch>,
                          extended: Branch, tips: seq<NodeId>)
    requires i < |ds| && forall k :: 0 <= k < |matched| ==> i < matched[k] < |ds|
  {
    && n <= |matched| && Removing(Remove(ds, i), Lowered(matched), n, rest)
    && extended.Sound(u) && extended.root == ds[i].root
    && Grafted(u, ds[i].tree, extended.tree, Picked(Views(ds), matched[..n]), tips)
  }

  /** What the loop relies on throughout. */
  ghost predicate Joinable(u: Universe, ds: seq<Branch>, i: nat, newId: NodeId, matched: seq<nat>, h: StateHash) {
    && Consistent(u) && AllSound(u, ds) && Separate(Views(ds)) && i < |ds|
    && newId in ds[i].tree.nodes && ds[i].tree.nodes[newId].data.stateHash == h
    && matched == MatchIndices(u, Views(ds), h) && Increasing(matched, |ds|)
    && (forall k :: 0 <= k < |matched| ==> i < matched[k] && IsParentOfRoot(u, Views(ds)[matched[k]], h))
  }

  lemma {:induction false} NextToJoin(u: Universe, ds: seq<Branch>, i: nat, newId: NodeId, matched: seq<nat>,
                                      h: StateHash, n: nat)
    requires Joinable(u, ds, i, newId, matched, h) && n < |matched|
    ensures var d, ms := ds[matched[n]], Picked(Views(ds), matched[..n]);
            && d.Sound(u) && IsParentOfRoot(u, ViewOf(d.tree), h)
            && Hashes(d.tree) !! Hashes(ds[i].tree) && AllHashes(ms) !! Hashes(d.tree)
            && Picked(Views(ds), matched[..n + 1]) == ms + [ViewOf(d.tree)]
  {
    var vs := Views(ds);
    NextIsSeparate(vs, matched, n);
    PickedNext(vs, matched, n);
    assert i < matched[n] && vs[i].hashes !! vs[matched[n]].hashes;
  }

  /** The index computed for the next branch is where it is now. */
  lemma {:induction false} NextIndex(ds: seq<Branch>, i: nat, matched: seq<nat>, n: nat, rest: seq<Branch>)
    requires i < |ds| && n < |matched| && forall k :: 0 <= k < |matched| ==> i < matched[k] < |ds|
    requires Removing(Remove(ds, i), Lowered(matched), n, rest)
    ensures n + 1 <= matched[n] && matched[n] - n - 1 < |rest| && rest[matched[n] - n - 1] == ds[matched[n]]
    ensures Removing(Remove(ds, i), Lowered(matched), n + 1, Remove(rest, matched[n] - n - 1))
  {
    RemovingStep(Remove(ds, i), Lowered(matched), n, rest);
  }

  /** Merges the next branch and removes it. */
  method JoinNext(ghost u: Universe, ghost ds: seq<Branch>, i: nat, newId: NodeId, matched: seq<nat>,
                  ghost h: StateHash, n: nat, rest: seq<Branch>, extended: Branch, ghost tips: seq<NodeId>)
    returns (rest': seq<Branch>, extended': Branch, tip: NodeId)
    requires Joinable(u, ds, i, newId, matched, h)
    requires n < |matched| && Joining(u, ds, i, matched, n, rest, extended, tips)
    ensures Joining(u, ds, i, matched, n + 1, rest', extended', tips + [tip])
  {
    var m := matched[n];
    var index := if i < m then m - n - 1 else m;
    NextIndex(ds, i, matched, n, rest);
    NextToJoin(u, ds, i, newId, matched, h, n);
    rest' := Remove(rest, index);
    extended', tip := MergeOne(u, ds[i].tree, extended, newId, rest[index], Picked(Views(ds), matched[..n]), tips);
  }

  lemma {:induction false} RestViews(u: Universe, ds: seq<Branch>, i: nat, newId: NodeId, matched: seq<nat>,
                                     h: StateHash, rest: seq<Branch>)
    requires Joinable(u, ds, i, newId, matched, h) && Removing(Remove(ds, i), Lowered(matched), |matched|, rest)
    ensures AllSound(u, rest) && Views(rest) == Others(u, Remove(Views(ds), i), h)
  {
    LoweredMatches(u, Views(ds), i, h, matched);
    ViewsWithout(u, ds, i);
    RemovingDone(Remove(ds, i), Lowered(matched), rest);
    DroppingSound(u, Remove(ds, i), Lowered(matched));
  }

  lemma {:induction false} JoinedViews(u: Universe, ds: seq<Branch>, i: nat, newId: NodeId, matched: seq<nat>,
                                       h: StateHash, rest: seq<Branch>, extended: Branch, tips: seq<NodeId>)
    requires Joinable(u, ds, i, newId, matched, h) && Joining(u, ds, i, matched, |matched|, rest, extended, tips)
    ensures AllSound(u, rest + [extended]) && Views(rest + [extended]) == JoinAt(u, Views(ds), i, h)
  {
    RestViews(u, ds, i, newId, matched, h, rest);
    LoweredMatches(u, Views(ds), i, h, matched);
    assert matched[..|matched|] == matched;
    ViewsConcat(rest, [extended]);
    assert Views([extended]) == [ViewOf(extended.tree)];
  }

  /** Takes the extended branch out, merges into it every branch whose root is a child of
      the new block, removing them one by one, and appends it. */
  method JoinBranches(ghost u: Universe, ds: seq<Branch>, i: nat, newId: NodeId, matched: seq<nat>, ghost h: StateHash)
    returns (ds': seq<Branch>)
    requires Consistent(u) && AllSound(u, ds) && Separate(Views(ds)) && i < |ds|
    requires newId in ds[i].tree.nodes && ds[i].tree.nodes[newId].data.stateHash == h
    requires matched == MatchIndices(u, Views(ds), h) && forall k :: 0 <= k < |matched| ==> i < matched[k]
    ensures AllSound(u, ds') && Views(ds') == JoinAt(u, Views(ds), i, h)
  {
    LoweredMatches(u, Views(ds), i, h, matched);
    var extended, rest := ds[i], Remove(ds, i);
    ghost var tips: seq<NodeId> := [];
    for n := 0 to |matched|
      invariant Joining(u, ds, i, matched, n, rest, extended, tips)
    {
      var tip;
      rest, extended, tip := JoinNext(u, ds, i, newId, matched, h, n, rest, extended, tips);
      tips := tips + [tip];
    }
    JoinedViews(u, ds, i, newId, matched, h, rest, extended, tips);
    ds' := rest + [extended];
  }

  /** The list once the first touched branch has grown, as `DanglingAfter` names it. */
  ghost function GrownAt(u: Universe, vs: seq<View>, h: StateHash): seq<View>
    requires FirstTouch(u, vs, h) < |vs|
  {
    var i := FirstTouch(u, vs, h);
    vs[i := Grow(u, vs[i], h)]
  }

  /** After the extension the list can be joined. */
  lemma {:induction false} GrownJoinable(u: Universe, vs: seq<View>, h: StateHash)
    requires Consistent(u) && AllRooted(u, vs) && Separate(vs) && h in u && h !in AllHashes(vs)
    requires FirstTouch(u, vs, h) < |vs|
    ensures Separate(GrownAt(u, vs, h))
    ensures var matched := MatchIndices(u, GrownAt(u, vs, h), h);
            forall k :: 0 <= k < |matched| ==> FirstTouch(u, vs, h) < matched[k]
  {
    var i := FirstTouch(u, vs, h);
    GrowAt(u, vs, i, h);
    var grown := GrownAt(u, vs, h);
    MatchIndicesAre(u, grown, h);
    var matched := MatchIndices(u, grown, h);
    forall k | 0 <= k < |matched| ensures i < matched[k] {
      assert matched[k] in matched;
      MergedBranchesComeLater(u, vs, h, matched[k]);
    }
  }
}
