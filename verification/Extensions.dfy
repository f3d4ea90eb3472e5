/** How a block was placed in the forest: the type that the indexer answers, and what it says of
    the branches before and after. */
module Extensions {
  import opened Accounts
  import opened Blocks
  import opened Removals
  import opened WitnessTree
  import opened WitnessForest
  import opened BranchLists

  datatype Extension =
    | DanglingNew
    | DanglingSimpleForward
    | DanglingSimpleReverse
    | DanglingComplex
    | RootSimple(block: Block)
    | RootComplex(block: Block)
    | BlockNotAdded

  predicate IsRootExtension(ext: Extension) {
    ext.RootSimple? || ext.RootComplex?
  }

  /** How a block that does not extend the root branch is placed. */
  ghost function Placed(u: Universe, ds: seq<View>, h: StateHash): (ext: Extension)
    ensures !IsRootExtension(ext) && ext != BlockNotAdded
  {
    var i := FirstTouch(u, ds, h);
    if i == |ds| then DanglingNew
    else if Matching(u, GrownAt(u, ds, h), h) != [] then DanglingComplex
    else if IsParentOfRoot(u, ds[i], h) then DanglingSimpleReverse
    else DanglingSimpleForward
  }

  /** `b` is the best tip as it stands in the root branch. */
  ghost predicate IsTip(u: Universe, s: State, b: Block) {
    && b.stateHash == s.bestTip && s.bestTip in u && b == FromPrecomputed(u[s.bestTip], b.height)
    && b.height + Len(u, s.root.root) == b.length
  }

  /** How a block that is not too low is placed. */
  ghost predicate IsPlaced(u: Universe, s: State, h: StateHash, ext: Extension) {
    if ExtendsRoot(u, s, h) then
      IsRootExtension(ext) && (ext.RootSimple? <==> Matching(u, s.dangling, h) == [])
    else ext == Placed(u, s.dangling, h)
  }

  // --------------------------------------------------- told by the branches alone

  ghost predicate SameRoots(ds: seq<View>, ds': seq<View>) {
    |ds'| == |ds| && forall k :: 0 <= k < |ds| ==> ds'[k].root == ds[k].root
  }

  ghost predicate IsRootOf(ds: seq<View>, h: StateHash) {
    exists k :: 0 <= k < |ds| && ds[k].root == h
  }

  /** The type of the extension by `h` that leads from the branches of `s` to those of `e`. */
  ghost predicate TypeIs(h: StateHash, s: State, e: State, ext: Extension) {
    var n, n' := |s.dangling|, |e.dangling|;
    && (ext.DanglingNew? <==> n' > n)
    && (ext.DanglingComplex? || ext.RootComplex? <==> n' < n)
    && (ext.DanglingSimpleReverse? <==> n' == n && IsRootOf(e.dangling, h))
    && (ext.DanglingSimpleForward? <==> SameRoots(s.dangling, e.dangling) && h in AllHashes(e.dangling))
    && (ext.RootSimple? <==> n' == n && h in e.root.hashes)
    && (ext.RootSimple? || ext.RootComplex? <==> h in e.root.hashes)
    && (ext.BlockNotAdded? <==> h !in Members(e))
  }

  lemma {:induction false} MatchingAndOthers(u: Universe, ds: seq<View>, h: StateHash)
    ensures |Matching(u, ds, h)| + |Others(u, ds, h)| == |ds|
  {
    if ds != [] { MatchingAndOthers(u, ds[..|ds| - 1], h); }
  }

  lemma {:induction false} OthersAreThere(u: Universe, ds: seq<View>, h: StateHash)
    ensures AllHashes(Others(u, ds, h)) <= AllHashes(ds)
  {
    if ds != [] {
      var init, d := ds[..|ds| - 1], ds[|ds| - 1];
      OthersAreThere(u, init, h);
      if IsParentOfRoot(u, d, h) { assert Others(u, ds, h) == Others(u, init, h); }
      else { AllHashesSnoc(Others(u, init, h), d); }
    }
  }

  lemma {:induction false} OtherThere(u: Universe, ds: seq<View>, h: StateHash, a: nat) returns (i: nat)
    requires a < |Others(u, ds, h)|
    ensures i < |ds| && Others(u, ds, h)[a] == ds[i]
  {
    var init := ds[..|ds| - 1];
    if a < |Others(u, init, h)| { i := OtherThere(u, init, h, a); } else { i := |init|; }
  }

  /** The branches that are left over keep their order. */
  lemma {:induction false} OthersInOrder(u: Universe, ds: seq<View>, h: StateHash, a: nat, b: nat)
    returns (i: nat, j: nat)
    requires a < b < |Others(u, ds, h)|
    ensures i < j < |ds| && Others(u, ds, h)[a] == ds[i] && Others(u, ds, h)[b] == ds[j]
  {
    var init, d := ds[..|ds| - 1], ds[|ds| - 1];
    if b < |Others(u, init, h)| {
      i, j := OthersInOrder(u, init, h, a, b);
    } else {
      i := OtherThere(u, init, h, a);
      j := |init|;
    }
  }

  /** A new block is no branch's root. */
  lemma {:induction false} NoRootYet(u: Universe, ds: seq<View>, h: StateHash)
    requires AllRooted(u, ds) && h !in AllHashes(ds)
    ensures !IsRootOf(ds, h)
  {
    AllHashesMember(ds, h);
  }

  lemma {:induction false} RootType(u: Universe, s: State, h: StateHash, ext: Extension)
    requires Forest(u, s) && Fresh(u, s, h) && ExtendsRoot(u, s, h) && IsPlaced(u, s, h, ext)
    ensures TypeIs(h, s, ExtendRoot(u, s, h), ext)
  {
    MatchingAndOthers(u, s.dangling, h);
    OthersAreThere(u, s.dangling, h);
    MatchingRooted(u, s.dangling, h);
    NoRootYet(u, Others(u, s.dangling, h), h);
  }

  lemma {:induction false} NewType(u: Universe, s: State, h: StateHash)
    requires Fresh(u, s, h) && FirstTouch(u, s.dangling, h) == |s.dangling|
    ensures TypeIs(h, s, ExtendDangling(u, s, h), DanglingNew)
  {
    AllHashesSnoc(s.dangling, View(h, {h}));
  }

  /** One branch grows, at its top or at its root. */
  lemma {:induction false} GrownType(u: Universe, ds: seq<View>, h: StateHash, i: nat)
    requires AllRooted(u, ds) && h !in AllHashes(ds) && i < |ds|
    ensures var ds' := ds[i := Grow(u, ds[i], h)];
            && h in AllHashes(ds') && (IsRootOf(ds', h) <==> IsParentOfRoot(u, ds[i], h))
            && (SameRoots(ds, ds') <==> !IsParentOfRoot(u, ds[i], h))
  {
    var ds' := ds[i := Grow(u, ds[i], h)];
    NoRootYet(u, ds, h);
    assert h in ds'[i].hashes && ds[i].root != h;
    AllHashesMember(ds', h);
    if IsParentOfRoot(u, ds[i], h) { assert ds'[i].root == h; }
  }

  /** Branches are joined, so that there are fewer. */
  lemma {:induction false} JoinedType(u: Universe, ds: seq<View>, h: StateHash)
    requires Consistent(u) && AllRooted(u, ds) && h in u && h !in AllHashes(ds) && FirstTouch(u, ds, h) < |ds|
    requires Matching(u, GrownAt(u, ds, h), h) != []
    ensures |DanglingAfter(u, ds, h)| < |ds| && h in AllHashes(DanglingAfter(u, ds, h))
  {
    var i, grown := FirstTouch(u, ds, h), GrownAt(u, ds, h);
    var rest := Remove(grown, i);
    if IsParentOfRoot(u, grown[i], h) { MergedBranchesComeLater(u, ds, h, i); }
    MatchingWithout(u, grown, i, h);
    MatchingAndOthers(u, rest, h);
    var joined := View(grown[i].root, grown[i].hashes + AllHashes(Matching(u, rest, h)));
    AllHashesSnoc(Others(u, rest, h), joined);
  }

  /** A branch that is new or joined from others comes last; one that only grows stays where it is. */
  lemma {:induction false} HolderPlace(u: Universe, ds: seq<View>, h: StateHash)
    requires Consistent(u) && AllRooted(u, ds) && h in u && h !in AllHashes(ds)
    ensures var i, ds' := FirstTouch(u, ds, h), DanglingAfter(u, ds, h);
            if |ds'| == |ds| then i < |ds| && h in ds'[i].hashes else ds' != [] && h in ds'[|ds'| - 1].hashes
  {
    var i := FirstTouch(u, ds, h);
    if i < |ds| && Matching(u, GrownAt(u, ds, h), h) != [] { JoinedType(u, ds, h); }
  }

  /** The branches that the block does not reach keep their order. */
  lemma {:induction false} DanglingInOrder(u: Universe, ds: seq<View>, h: StateHash, a: nat, b: nat)
    returns (i: nat, j: nat)
    requires a < b < |DanglingAfter(u, ds, h)|
    requires h !in DanglingAfter(u, ds, h)[a].hashes && h !in DanglingAfter(u, ds, h)[b].hashes
    ensures i < j < |ds| && DanglingAfter(u, ds, h)[a] == ds[i] && DanglingAfter(u, ds, h)[b] == ds[j]
  {
    var k := FirstTouch(u, ds, h);
    if k < |ds| && Matching(u, GrownAt(u, ds, h), h) != [] {
      i, j := JoinedInOrder(u, ds, k, Grow(u, ds[k], h), h, a, b);
    } else {
      i, j := a, b;
    }
  }

  lemma {:induction false} JoinedInOrder(u: Universe, ds: seq<View>, k: nat, d: View, h: StateHash, a: nat, b: nat)
    returns (i: nat, j: nat)
    requires k < |ds| && a < b < |Others(u, Remove(ds[k := d], k), h)|
    ensures i < j < |ds|
    ensures var os := Others(u, Remove(ds[k := d], k), h); os[a] == ds[i] && os[b] == ds[j]
  {
    var rest := Remove(ds[k := d], k);
    i, j := OthersInOrder(u, rest, h, a, b);
    i, j := if i < k then i else i + 1, if j < k then j else j + 1;
  }

  lemma {:induction false} DanglingType(u: Universe, s: State, h: StateHash)
    requires Forest(u, s) && Fresh(u, s, h)
    ensures TypeIs(h, s, ExtendDangling(u, s, h), Placed(u, s.dangling, h))
  {
    var ds := s.dangling;
    var i := FirstTouch(u, ds, h);
    if i == |ds| {
      NewType(u, s, h);
    } else if Matching(u, GrownAt(u, ds, h), h) != [] {
      JoinedType(u, ds, h);
    } else {
      GrownType(u, ds, h, i);
    }
  }

  /** The state after the extension, or the same one if the block is too low. */
  ghost function Placing(u: Universe, s: State, h: StateHash): State {
    if Accepted(u, s, h) then Extended(u, s, h) else s
  }

  /** What the indexer answers for a block. */
  ghost predicate Answered(u: Universe, s: State, h: StateHash, ext: Extension) {
    if Accepted(u, s, h) then IsPlaced(u, s, h, ext) else ext == BlockNotAdded
  }

  /** Only extensions change the dangling branches. */
  lemma {:induction false} FeedDangling(step: Step, c: Config, u: Universe, s: State, h: StateHash)
    ensures Feed(step, c, u, s, h).state.dangling == Placing(u, s, h).dangling
  {}

  /** Settling does not move the best tip. */
  lemma {:induction false} SettleKeepsTip(step: Step, c: Config, u: Universe, s: State, h: StateHash)
    ensures Feed(step, c, u, s, h).state.bestTip == Placing(u, s, h).bestTip
  {}

  /** The type says how the branches have changed. */
  lemma {:induction false} TypeTells(u: Universe, s: State, h: StateHash, ext: Extension)
    requires Forest(u, s) && Fresh(u, s, h) && Answered(u, s, h, ext)
    ensures TypeIs(h, s, Placing(u, s, h), ext)
  {
    if !Accepted(u, s, h) {
      NoRootYet(u, s.dangling, h);
    } else if ExtendsRoot(u, s, h) {
      RootType(u, s, h, ext);
    } else {
      DanglingType(u, s, h);
    }
  }
}
