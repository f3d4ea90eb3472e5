/** What every step of the witness tree keeps, and what holds over whole runs: the
    canonical root stays in the tree, the reported canonical blocks form one chain, and
    the running ledger is the fold of the diffs up to the canonical root. */
module WitnessRuns {
  import opened Accounts
  import opened Blocks
  import opened Ledgers
  import opened WitnessTree
  import opened WitnessForest

  /** What the pruning code takes for granted of its settings. */
  ghost predicate ValidConfig(c: Config) {
    1 <= c.confirmations <= c.k && c.k >= c.updateThreshold && c.pruneHeight >= c.k + 2
  }

  /** The shipped thresholds meet this for every transition frontier of at least ten blocks
      and every prune interval of at least two, and with them no reorg loses the canonical
      root. */
  lemma {:induction false} ShippedThresholdsValid(k: nat, pruneInterval: nat)
    requires k >= CANONICAL_THRESHOLD && pruneInterval >= 2
    ensures ValidConfig(MainnetConfig(k, pruneInterval))
    ensures MainnetConfig(k, pruneInterval).updateThreshold <= MainnetConfig(k, pruneInterval).confirmations
  {
    var extra := pruneInterval - 2;
    assert pruneInterval * k == 2 * k + extra * k;
    assert extra * k >= 0;
  }

  /** The canonical root is in the tree, ten blocks behind the best tip unless it has
      not moved from the root yet. */
  ghost predicate Anchored(c: Config, u: Universe, s: State) {
    && s.canonicalRoot in s.root.hashes
    && (s.canonicalRoot == s.root.root || Len(u, s.canonicalRoot) + c.confirmations <= Len(u, s.bestTip))
  }

  /** If `h` extends the root branch, the best tip it leads to still descends from the
      canonical root. */
  ghost predicate NoDeepReorg(u: Universe, s: State, h: StateHash) {
    ExtendsRoot(u, s, h) ==> Descends(u, s.canonicalRoot, ExtendRoot(u, s, h).bestTip)
  }

  /** No pruning is due. */
  ghost predicate Trimmed(c: Config, u: Universe, s: State) {
    Depth(u, s) < c.pruneHeight
  }

  /** The settings under which no reorg can lose the canonical root, or the absence of
      such a reorg. */
  ghost predicate KeepsAnchor(c: Config, u: Universe, s: State, h: StateHash) {
    || c.updateThreshold <= c.confirmations
    || (c.updateThreshold <= c.confirmations + 1 && Trimmed(c, u, s))
    || NoDeepReorg(u, s, h)
  }

  /** If pruning is due, the canonical root is about to follow the best tip, or is below it
      already. */
  ghost predicate Follows(c: Config, u: Universe, s: State) {
    || c.updateThreshold <= c.confirmations
    || (c.updateThreshold <= c.confirmations + 1 &&
        (Trimmed(c, u, s) || Len(u, s.canonicalRoot) + c.confirmations < Len(u, s.bestTip)))
    || Descends(u, s.canonicalRoot, s.bestTip)
  }

  ghost function Depth(u: Universe, s: State): int {
    Len(u, s.bestTip) - Len(u, s.root.root)
  }

  /** The ancestors of a member, down to the root, are members. */
  lemma {:induction false} TipAncestor(u: Universe, v: View, tip: StateHash, k: nat)
    requires Consistent(u) && Rooted(u, v) && tip in v.hashes && k <= Len(u, tip) - Len(u, v.root)
    ensures Up(u, tip, k) in v.hashes
    ensures Len(u, Up(u, tip, k)) == Len(u, tip) - k
    ensures Descends(u, Up(u, tip, k), tip)
    ensures Descends(u, v.root, Up(u, tip, k))
  {
    RootedDescends(u, v, tip);
    UpDescends(u, v.root, tip, k);
    RootedConvex(u, v, Up(u, tip, k), tip);
  }

  // ---------------------------------------------------------- canonical blocks

  lemma {:induction false} CollectShape(u: Universe, h: StateHash, n: nat, stop: StateHash, r: StateHash)
    requires Consistent(u) && Descends(u, r, h) && n == Len(u, h) - Len(u, r)
    ensures (Collect(u, h, n, stop) == []) == (h == stop)
    ensures h != stop ==> Collect(u, h, n, stop)[|Collect(u, h, n, stop)| - 1] == h
    ensures Descends(u, stop, h) && Descends(u, r, stop) ==> Collect(u, h, n, stop) == Path(u, stop, h)
    decreases n
  {
    DescendsLength(u, r, h);
    if h != stop {
      if n > 0 {
        CollectShape(u, u[h].parentHash, n - 1, stop, r);
      } else if Descends(u, stop, h) && Descends(u, r, stop) {
        DescendsLength(u, r, stop);
        DescendsLength(u, stop, h);
      }
    }
  }

  lemma {:induction false} CollectMember(u: Universe, h: StateHash, n: nat, stop: StateHash, r: StateHash, x: StateHash)
    requires Consistent(u) && Descends(u, r, h) && n == Len(u, h) - Len(u, r)
    requires x in Collect(u, h, n, stop)
    ensures Descends(u, x, h) && Descends(u, r, x)
    decreases n
  {
    DescendsLength(u, r, h);
    if x != h {
      CollectMember(u, u[h].parentHash, n - 1, stop, r, x);
    }
  }

  /** Where the canonical root goes. */
  lemma {:induction false} CanonicalRootMoves(c: Config, u: Universe, s: State)
    requires RootSound(u, s) && Anchored(c, u, s)
    ensures var moved := CanonicalUpdatable(c, u, s) && Depth(u, s) >= c.confirmations;
            && RootAfter(c, u, s) == (if moved then Up(u, s.bestTip, c.confirmations) else s.canonicalRoot)
            && (!moved ==> Report(c, u, s) == [])
            && RootAfter(c, u, s) in s.root.hashes
            && Anchored(c, u, s.(canonicalRoot := RootAfter(c, u, s)))
            && Len(u, s.canonicalRoot) <= Len(u, RootAfter(c, u, s))
  {
    var depth := Depth(u, s);
    if CanonicalUpdatable(c, u, s) && depth >= c.confirmations {
      TipAncestor(u, s.root, s.bestTip, c.confirmations);
      CollectShape(u, Up(u, s.bestTip, c.confirmations), depth - c.confirmations, s.canonicalRoot, s.root.root);
    }
  }

  /** Each reported block has at least `confirmations` descendants on the best chain. */
  lemma {:induction false} ReportedBlocksAreDeep(c: Config, u: Universe, s: State, x: StateHash)
    requires RootSound(u, s) && x in Report(c, u, s)
    ensures x in s.root.hashes
    ensures Descends(u, x, s.bestTip) && Len(u, x) + c.confirmations <= Len(u, s.bestTip)
  {
    CollectedFromTip(u, s.root, s.bestTip, c.confirmations, s.canonicalRoot, x);
  }

  lemma {:induction false} CollectedFromTip(u: Universe, v: View, tip: StateHash, t: nat, stop: StateHash, x: StateHash)
    requires Consistent(u) && Rooted(u, v) && tip in v.hashes && t <= Len(u, tip) - Len(u, v.root)
    requires x in Collect(u, Up(u, tip, t), Len(u, tip) - Len(u, v.root) - t, stop)
    ensures x in v.hashes
    ensures Descends(u, x, tip) && Len(u, x) + t <= Len(u, tip)
  {
    TipAncestor(u, v, tip, t);
    var top := Up(u, tip, t);
    CollectMember(u, top, Len(u, tip) - Len(u, v.root) - t, stop, v.root, x);
    DescendsLength(u, x, top);
    DescendsLength(u, v.root, x);
    DescendsTransitive(u, x, top, tip);
    RootedConvex(u, v, x, tip);
  }

  /** Without a deep reorg the report is the path from the old canonical root to the
      new one. */
  lemma {:induction false} ReportIsThePath(c: Config, u: Universe, s: State)
    requires RootSound(u, s) && Anchored(c, u, s) && Descends(u, s.canonicalRoot, s.bestTip)
    ensures Report(c, u, s) == Path(u, s.canonicalRoot, RootAfter(c, u, s))
    ensures Descends(u, s.canonicalRoot, RootAfter(c, u, s)) && Descends(u, RootAfter(c, u, s), s.bestTip)
  {
    CanonicalRootMoves(c, u, s);
    if CanonicalUpdatable(c, u, s) && Depth(u, s) >= c.confirmations {
      CollectIsPath(u, s.root, s.bestTip, c.confirmations, s.canonicalRoot);
    }
  }

  lemma {:induction false} CollectIsPath(u: Universe, v: View, tip: StateHash, t: nat, stop: StateHash)
    requires Consistent(u) && Rooted(u, v) && tip in v.hashes && stop in v.hashes
    requires Descends(u, stop, tip) && Len(u, stop) + t <= Len(u, tip)
    ensures t <= Len(u, tip) - Len(u, v.root)
    ensures var top := Up(u, tip, t);
            && Collect(u, top, Len(u, tip) - Len(u, v.root) - t, stop) == Path(u, stop, top)
            && Descends(u, stop, top) && Descends(u, top, tip)
  {
    RootedDescends(u, v, stop);
    TipAncestor(u, v, tip, t);
    var top := Up(u, tip, t);
    AncestorsLinear(u, stop, top, tip);
    CollectShape(u, top, Len(u, tip) - Len(u, v.root) - t, stop, v.root);
  }

  /** After a deep reorg it is not: a report then starts at the root of the tree, which
      is no child of the old canonical root. */
  lemma {:induction false} ReportContinuesIffNoDeepReorg(c: Config, u: Universe, s: State)
    requires RootSound(u, s) && Anchored(c, u, s) && Report(c, u, s) != []
    ensures Report(c, u, s)[0] in u
    ensures u[Report(c, u, s)[0]].parentHash == s.canonicalRoot <==> Descends(u, s.canonicalRoot, s.bestTip)
  {
    CanonicalRootMoves(c, u, s);
    CollectStartFromTip(u, s.root, s.bestTip, c.confirmations, s.canonicalRoot);
  }

  /** The report of a deep reorg starts at the root of the tree and ends at the new canonical
      root. */
  lemma {:induction false} DeepReportStartsAtRoot(c: Config, u: Universe, s: State)
    requires RootSound(u, s) && Anchored(c, u, s) && !Descends(u, s.canonicalRoot, s.bestTip)
    requires CanonicalUpdatable(c, u, s) && Depth(u, s) >= c.confirmations
    ensures Report(c, u, s) != [] && Report(c, u, s)[0] == s.root.root
    ensures RootAfter(c, u, s) == Up(u, s.bestTip, c.confirmations)
  {
    var top := Up(u, s.bestTip, c.confirmations);
    CanonicalRootMoves(c, u, s);
    TipAncestor(u, s.root, s.bestTip, c.confirmations);
    if Descends(u, s.canonicalRoot, top) { DescendsTransitive(u, s.canonicalRoot, top, s.bestTip); }
    CollectStart(u, top, Depth(u, s) - c.confirmations, s.canonicalRoot, s.root.root);
  }

  lemma {:induction false} CanonicalRootIs(c: Config, u: Universe, s: State, x: StateHash)
    requires RootSound(u, s) && Anchored(c, u, s)
    requires if CanonicalUpdatable(c, u, s) && Depth(u, s) >= c.confirmations
             then x == Up(u, s.bestTip, c.confirmations)
             else x == s.canonicalRoot
    ensures RootAfter(c, u, s) == x
  {
    CanonicalRootMoves(c, u, s);
  }

  lemma {:induction false} CollectStartFromTip(u: Universe, v: View, tip: StateHash, t: nat, stop: StateHash)
    requires Consistent(u) && Rooted(u, v) && tip in v.hashes && stop in v.hashes
    requires t <= Len(u, tip) - Len(u, v.root) && Up(u, tip, t) != stop
    requires Descends(u, stop, tip) ==> Len(u, stop) + t <= Len(u, tip)
    ensures var collected := Collect(u, Up(u, tip, t), Len(u, tip) - Len(u, v.root) - t, stop);
            collected != [] && collected[0] in u &&
            (u[collected[0]].parentHash == stop <==> Descends(u, stop, tip))
  {
    TipAncestor(u, v, tip, t);
    var top := Up(u, tip, t);
    RootedDescends(u, v, stop);
    CollectStart(u, top, Len(u, tip) - Len(u, v.root) - t, stop, v.root);
    if Descends(u, stop, tip) {
      AncestorsLinear(u, stop, top, tip);
    } else {
      if Descends(u, stop, top) { DescendsTransitive(u, stop, top, tip); }
      RootParentOutside(u, v);
    }
  }

  lemma {:induction false} CollectStart(u: Universe, h: StateHash, n: nat, stop: StateHash, r: StateHash)
    requires Consistent(u) && Descends(u, r, h) && n == Len(u, h) - Len(u, r) && h != stop
    ensures Collect(u, h, n, stop) != []
    ensures Descends(u, stop, h) && Descends(u, r, stop) ==>
              Collect(u, h, n, stop)[0] in u && u[Collect(u, h, n, stop)[0]].parentHash == stop
    ensures !Descends(u, stop, h) ==> Collect(u, h, n, stop)[0] == r
    decreases n
  {
    DescendsLength(u, r, h);
    if n > 0 {
      var p := u[h].parentHash;
      assert Descends(u, p, p) && HasParent(u, h);
      if p != stop { CollectStart(u, p, n - 1, stop, r); }
    } else if Descends(u, stop, h) && Descends(u, r, stop) {
      DescendsLength(u, r, stop);
      DescendsLength(u, stop, h);
    }
  }

  lemma {:induction false} CollectHeights(u: Universe, h: StateHash, n: nat, stop: StateHash, r: StateHash, i: nat)
    requires Consistent(u) && Descends(u, r, h) && n == Len(u, h) - Len(u, r) && i < |Collect(u, h, n, stop)|
    ensures var hs := Collect(u, h, n, stop);
            && hs[i] in u && Len(u, hs[i]) == Len(u, h) - (|hs| - 1 - i)
            && (Len(u, hs[0]) == Len(u, r) || (hs[0] in u && u[hs[0]].parentHash == stop && stop in u))
    decreases n
  {
    var hs := Collect(u, h, n, stop);
    DescendsLength(u, r, h);
    if n > 0 {
      var below := Collect(u, u[h].parentHash, n - 1, stop);
      assert hs == below + [h] && Linked(u, h);
      if below != [] { CollectHeights(u, u[h].parentHash, n - 1, stop, r, if i < |below| then i else 0); }
    }
  }

  lemma {:induction false} CollectHeightsFromTip(u: Universe, v: View, tip: StateHash, t: nat, stop: StateHash, i: nat)
    requires Consistent(u) && Rooted(u, v) && tip in v.hashes && stop in v.hashes && t <= Len(u, tip) - Len(u, v.root)
    requires i < |Collect(u, Up(u, tip, t), Len(u, tip) - Len(u, v.root) - t, stop)|
    ensures var p := Collect(u, Up(u, tip, t), Len(u, tip) - Len(u, v.root) - t, stop);
            p[i] in u && Len(u, p[i]) == Len(u, tip) - t - (|p| - 1 - i) && Len(u, p[0]) <= Len(u, stop) + 1
  {
    var top := Up(u, tip, t);
    var p := Collect(u, top, Len(u, tip) - Len(u, v.root) - t, stop);
    TipAncestor(u, v, tip, t);
    RootedDescends(u, v, stop);
    CollectHeights(u, top, Len(u, tip) - Len(u, v.root) - t, stop, v.root, i);
    assert p[0] in u ==> Linked(u, p[0]);
  }

  /** A report is a run of heights that ends at the new canonical root and leaves none out above
      the old one. */
  lemma {:induction false} ReportHeights(c: Config, u: Universe, s: State, i: nat)
    requires RootSound(u, s) && Anchored(c, u, s) && i < |Report(c, u, s)|
    ensures var p := Report(c, u, s);
            p[i] in u && Len(u, p[i]) == Len(u, RootAfter(c, u, s)) - (|p| - 1 - i) &&
              Len(u, p[0]) <= Len(u, s.canonicalRoot) + 1
  {
    CanonicalRootMoves(c, u, s);
    TipAncestor(u, s.root, s.bestTip, c.confirmations);
    CollectHeightsFromTip(u, s.root, s.bestTip, c.confirmations, s.canonicalRoot, i);
  }

  // ------------------------------------------------------------------- pruning

  lemma {:induction false} SubtreeRooted(u: Universe, v: View, r: StateHash)
    requires Consistent(u) && Rooted(u, v) && r in v.hashes
    ensures Rooted(u, SubtreeView(u, v, r))
  {
    RootedDescends(u, v, r);
    forall h | h in v.hashes && Descends(u, r, h) && h != r
      ensures u[h].parentHash in v.hashes && Descends(u, r, u[h].parentHash)
    {
      DescendsLength(u, r, h);
    }
  }

  /** When pruning is due the best tip has at least `k` + 2 ancestors in the tree, so
      both the new root and the block below it exist and neither is the old root. */
  lemma {:induction false} PruneDue(c: Config, u: Universe, s: State)
    requires c.pruneHeight >= c.k + 2 && RootSound(u, s)
    ensures Levels(u, s.root) == Depth(u, s) + 1
    ensures Levels(u, s.root) > c.pruneHeight ==> c.k + 2 <= Depth(u, s)
  {
    LastTopExists(u, s.root.hashes);
  }

  lemma {:induction false} PruneSound(c: Config, u: Universe, s: State)
    requires c.pruneHeight >= c.k + 2 && RootSound(u, s)
    ensures RootSound(u, Prune(c, u, s)) && Trimmed(c, u, Prune(c, u, s))
    ensures Prune(c, u, s).root.hashes <= s.root.hashes
  {
    PruneDue(c, u, s);
    if Levels(u, s.root) > c.pruneHeight {
      TipAncestor(u, s.root, s.bestTip, c.k);
      SubtreeRooted(u, s.root, Up(u, s.bestTip, c.k));
    }
  }

  /** Pruning never drops the canonical root, even if the best tip has just moved to
      another branch: by then the canonical root has followed it. */
  lemma {:induction false} PruneKeepsCanonicalRoot(c: Config, u: Universe, s: State)
    requires ValidConfig(c) && RootSound(u, s) && Anchored(c, u, s) && Follows(c, u, s)
    ensures Anchored(c, u, Prune(c, u, s.(canonicalRoot := RootAfter(c, u, s))))
  {
    CanonicalRootMoves(c, u, s);
    PruneDue(c, u, s);
    var r := RootAfter(c, u, s);
    if Levels(u, s.root) > c.pruneHeight {
      TipAncestor(u, s.root, s.bestTip, c.k);
      if CanonicalUpdatable(c, u, s) {
        TipAncestor(u, s.root, s.bestTip, c.confirmations);
      }
      assert Descends(u, r, s.bestTip);
      AncestorsLinear(u, Up(u, s.bestTip, c.k), r, s.bestTip);
    }
  }

  // -------------------------------------------------------------- single steps

  lemma {:induction false} ExtendedForest(u: Universe, s: State, h: StateHash)
    requires Forest(u, s) && Fresh(u, s, h)
    ensures Forest(u, Extended(u, s, h))
    ensures Members(Extended(u, s, h)) == Members(s) + {h}
    ensures Len(u, s.bestTip) <= Len(u, Extended(u, s, h).bestTip)
  {
    var s1 := WithDiff(u, s, h);
    if ExtendsRoot(u, s, h) { ExtendRootForest(u, s1, h); } else { ExtendDanglingForest(u, s1, h); }
  }

  lemma {:induction false} PruneForest(c: Config, u: Universe, s: State)
    requires c.pruneHeight >= c.k + 2 && Forest(u, s)
    ensures Forest(u, Prune(c, u, s)) && Trimmed(c, u, Prune(c, u, s)) && Members(Prune(c, u, s)) <= Members(s)
    ensures Prune(c, u, s).bestTip == s.bestTip
  {
    PruneSound(c, u, s);
  }

  /** A canonical update leaves the forest alone. */
  lemma {:induction false} UpdateKeepsForest(step: Step, c: Config, u: Universe, s: State)
    ensures var s1 := UpdateCanonical(step, c, u, s);
            && s1.root == s.root && s1.dangling == s.dangling && s1.bestTip == s.bestTip
            && (CanonicalUpdatable(c, u, s) ==> s1.canonicalRoot == RootAfter(c, u, s))
            && (!CanonicalUpdatable(c, u, s) ==> s1.canonicalRoot == s.canonicalRoot == RootAfter(c, u, s))
  {}

  lemma {:induction false} SettleKeepsForest(step: Step, c: Config, u: Universe, s: State)
    requires ValidConfig(c) && Forest(u, s) && Anchored(c, u, s) && Follows(c, u, s)
    ensures var s' := Settle(step, c, u, s).state;
            Forest(u, s') && Anchored(c, u, s') && Members(s') <= Members(s) && s'.bestTip == s.bestTip
  {
    var s1, s2 := UpdateCanonical(step, c, u, s), s.(canonicalRoot := RootAfter(c, u, s));
    UpdateKeepsForest(step, c, u, s);
    PruneKeepsCanonicalRoot(c, u, s);
    PruneForest(c, u, s1);
    assert Prune(c, u, s1).root == Prune(c, u, s2).root;
  }

  /** Every step keeps the forest sound and the canonical root in the tree, and never
      lowers the best tip. */
  lemma {:induction false} FeedKeepsForest(step: Step, c: Config, u: Universe, s: State, h: StateHash)
    requires ValidConfig(c) && Forest(u, s) && Anchored(c, u, s) && Fresh(u, s, h) && KeepsAnchor(c, u, s, h)
    ensures var s' := Feed(step, c, u, s, h).state;
            && Forest(u, s') && Anchored(c, u, s')
            && Members(s') <= Members(s) + {h}
            && Len(u, s.bestTip) <= Len(u, s'.bestTip)
  {
    ExtendedForest(u, s, h);
    if Accepted(u, s, h) && ExtendsRoot(u, s, h) {
      ExtendedFollows(c, u, s, h);
      SettleKeepsForest(step, c, u, Extended(u, s, h));
    }
  }

  lemma {:induction false} ExtendedFollows(c: Config, u: Universe, s: State, h: StateHash)
    requires ValidConfig(c) && Forest(u, s) && Anchored(c, u, s) && Fresh(u, s, h) && ExtendsRoot(u, s, h)
    requires KeepsAnchor(c, u, s, h)
    ensures Anchored(c, u, Extended(u, s, h)) && Follows(c, u, Extended(u, s, h))
  {
    var e := Extended(u, s, h);
    ExtendedForest(u, s, h);
    RootedDescends(u, e.root, e.bestTip);
  }

  /** A step that starts with a trimmed tree ends with one. */
  lemma {:induction false} FeedTrims(step: Step, c: Config, u: Universe, s: State, h: StateHash)
    requires c.pruneHeight >= c.k + 2 && Forest(u, s) && Fresh(u, s, h) && Trimmed(c, u, s)
    ensures var s' := Feed(step, c, u, s, h).state;
            Forest(u, s') && Trimmed(c, u, s') && Members(s') <= Members(s) + {h}
  {
    var e := Extended(u, s, h);
    ExtendedForest(u, s, h);
    UpdateKeepsForest(step, c, u, e);
    if Accepted(u, s, h) && ExtendsRoot(u, s, h) {
      PruneForest(c, u, UpdateCanonical(step, c, u, e));
    }
  }

  /** Between prunes an accepted block adds exactly itself. */
  lemma {:induction false} FeedAddsOneBlock(step: Step, c: Config, u: Universe, s: State, h: StateHash)
    requires Forest(u, s) && Fresh(u, s, h) && Accepted(u, s, h)
    requires ExtendsRoot(u, s, h) ==> Levels(u, Extended(u, s, h).root) <= c.pruneHeight
    ensures var s' := Feed(step, c, u, s, h).state;
            Members(s') == Members(s) + {h} && Size(s') == Size(s) + 1
  {
    var e := Extended(u, s, h);
    ExtendedForest(u, s, h);
    SizeIsMembers(u, s);
    SizeIsMembers(u, e);
    if ExtendsRoot(u, s, h) {
      var s1 := UpdateCanonical(step, c, u, e);
      assert s1.root == e.root && s1.dangling == e.dangling;
    }
  }

  ghost function Sizes(ds: seq<View>): nat {
    if ds == [] then 0 else Sizes(ds[..|ds| - 1]) + |ds[|ds| - 1].hashes|
  }

  /** The number of nodes of the forest. */
  ghost function Size(s: State): nat {
    |s.root.hashes| + Sizes(s.dangling)
  }

  lemma {:induction false} SizesIsHashes(ds: seq<View>)
    requires Separate(ds)
    ensures Sizes(ds) == |AllHashes(ds)|
  {
    if ds != [] {
      var init, d := ds[..|ds| - 1], ds[|ds| - 1];
      SizesIsHashes(init);
      forall x | x in AllHashes(init) ensures x !in d.hashes { AllHashesMember(init, x); }
      assert AllHashes(init) !! d.hashes;
    }
  }

  /** No block occurs in two nodes. */
  lemma {:induction false} SizeIsMembers(u: Universe, s: State)
    requires Forest(u, s)
    ensures Size(s) == |Members(s)|
  {
    SizesIsHashes(s.dangling);
  }

  // --------------------------------------------------------- diffs and ledgers

  /** The diff map is right, and holds every diff that is still needed. */
  ghost predicate DiffsKept(u: Universe, s: State) {
    && (forall h :: h in s.diffs ==> h in u && s.diffs[h] == u[h].diff)
    && (forall h :: h in Members(s) && Len(u, h) > Len(u, s.canonicalRoot) ==> h in s.diffs)
  }

  /** The ledger is the fold of the diffs from `r` to the canonical root, and the best
      tip descends from it. */
  ghost predicate LedgerExact(step: Step, u: Universe, r: StateHash, l: Ledger, s: State) {
    && Descends(u, r, s.canonicalRoot)
    && Descends(u, s.canonicalRoot, s.bestTip)
    && s.ledger == LedgerAt(step, u, r, l, s.canonicalRoot)
  }

  lemma {:induction false} KnownDiffsFold(step: Step, u: Universe, l: Ledger, diffs: map<StateHash, LedgerDiff>,
                                          hs: seq<StateHash>)
    requires forall h :: h in hs ==> h in u && h in diffs && diffs[h] == u[h].diff
    ensures ApplyDiff(step, l, KnownDiffs(diffs, hs)) == FoldBlocks(step, u, l, hs)
  {
    if hs != [] {
      var init, h := hs[..|hs| - 1], hs[|hs| - 1];
      KnownDiffsFold(step, u, l, diffs, init);
      ApplyDiffAppend(step, l, KnownDiffs(diffs, init), diffs[h]);
    }
  }

  /** Every block on the path from the canonical root to a tip still has its diff. */
  lemma {:induction false} PathDiffsKept(c: Config, u: Universe, s: State, h: StateHash)
    requires RootSound(u, s) && DiffsKept(u, s) && s.canonicalRoot in s.root.hashes
    requires h in s.root.hashes && Descends(u, s.canonicalRoot, h)
    ensures forall x :: x in Path(u, s.canonicalRoot, h) ==> x in u && x in s.diffs && s.diffs[x] == u[x].diff
  {
    PathMembers(u, s.canonicalRoot, h);
    RootedDescends(u, s.root, s.canonicalRoot);
    forall x | x in Path(u, s.canonicalRoot, h) ensures x in u && x in s.diffs && s.diffs[x] == u[x].diff {
      DescendsLength(u, s.canonicalRoot, x);
      RootedConvex(u, s.root, x, h);
    }
  }

  lemma {:induction false} ExtendedDiffsKept(u: Universe, s: State, h: StateHash)
    requires Forest(u, s) && Fresh(u, s, h) && DiffsKept(u, s)
    ensures DiffsKept(u, Extended(u, s, h))
  {
    ExtendedForest(u, s, h);
  }

  lemma {:induction false} UpdateKeepsDiffs(step: Step, c: Config, u: Universe, s: State)
    requires RootSound(u, s) && Anchored(c, u, s) && DiffsKept(u, s)
    ensures DiffsKept(u, UpdateCanonical(step, c, u, s))
  {
    CanonicalRootMoves(c, u, s);
    PrunedDiffsKept(u, s, RootAfter(c, u, s));
    var s' := s.(canonicalRoot := RootAfter(c, u, s), diffs := PrunedDiffs(u, s, RootAfter(c, u, s)));
    if CanonicalUpdatable(c, u, s) {
      assert UpdateCanonical(step, c, u, s) == s'.(ledger := UpdateCanonical(step, c, u, s).ledger);
      assert Members(UpdateCanonical(step, c, u, s)) == Members(s');
    }
  }

  /** Only diffs that are not higher than the new canonical root are dropped. */
  lemma {:induction false} PrunedDiffsKept(u: Universe, s: State, r: StateHash)
    requires DiffsKept(u, s) && Len(u, s.canonicalRoot) <= Len(u, r)
    ensures DiffsKept(u, s.(canonicalRoot := r, diffs := PrunedDiffs(u, s, r)))
  {
    var s' := s.(canonicalRoot := r, diffs := PrunedDiffs(u, s, r));
    assert Members(s') == Members(s);
    forall h | h in Members(s') && Len(u, h) > Len(u, r) ensures h in s'.diffs { assert !Settled(u, s, r, h); }
  }

  lemma {:induction false} UpdateKeepsLedger(step: Step, c: Config, u: Universe, r: StateHash, l: Ledger, s: State)
    requires RootSound(u, s) && Anchored(c, u, s) && DiffsKept(u, s) && LedgerExact(step, u, r, l, s)
    ensures LedgerExact(step, u, r, l, UpdateCanonical(step, c, u, s))
  {
    var r' := RootAfter(c, u, s);
    CanonicalRootMoves(c, u, s);
    ReportIsThePath(c, u, s);
    DescendsTransitive(u, r, s.canonicalRoot, r');
    PathDiffsKept(c, u, s, r');
    KnownDiffsFold(step, u, s.ledger, s.diffs, Report(c, u, s));
    LedgerAtExtends(step, u, r, l, s.canonicalRoot, r');
  }

  lemma {:induction false} SettleKeepsLedger(step: Step, c: Config, u: Universe, r: StateHash, l: Ledger, s: State)
    requires ValidConfig(c) && RootSound(u, s) && Anchored(c, u, s) && DiffsKept(u, s) && LedgerExact(step, u, r, l, s)
    ensures var o := Settle(step, c, u, s);
            && DiffsKept(u, o.state) && LedgerExact(step, u, r, l, o.state)
            && Descends(u, s.canonicalRoot, o.state.canonicalRoot)
            && o.canonical == Path(u, s.canonicalRoot, o.state.canonicalRoot)
  {
    UpdateKeepsForest(step, c, u, s);
    UpdateKeepsDiffs(step, c, u, s);
    UpdateKeepsLedger(step, c, u, r, l, s);
    ReportIsThePath(c, u, s);
    PruneKeepsDiffs(step, c, u, r, l, UpdateCanonical(step, c, u, s));
  }

  lemma {:induction false} PruneKeepsDiffs(step: Step, c: Config, u: Universe, r: StateHash, l: Ledger, s: State)
    requires ValidConfig(c) && RootSound(u, s) && DiffsKept(u, s) && LedgerExact(step, u, r, l, s)
    ensures DiffsKept(u, Prune(c, u, s)) && LedgerExact(step, u, r, l, Prune(c, u, s))
  {
    PruneMembers(c, u, s);
    DiffsKeptWithin(u, s, Prune(c, u, s));
  }

  lemma {:induction false} PruneMembers(c: Config, u: Universe, s: State)
    requires ValidConfig(c) && RootSound(u, s)
    ensures var s' := Prune(c, u, s); s' == s.(root := s'.root) && Members(s') <= Members(s)
  {
    PruneSound(c, u, s);
  }

  lemma {:induction false} DiffsKeptWithin(u: Universe, s: State, s': State)
    requires DiffsKept(u, s) && s' == s.(root := s'.root) && Members(s') <= Members(s)
    ensures DiffsKept(u, s')
  {}

  /** Every step without a deep reorg keeps the ledger exact, and reports exactly the
      path by which the canonical root advanced. */
  lemma {:induction false} FeedKeepsLedger(step: Step, c: Config, u: Universe, r: StateHash, l: Ledger, s: State,
                                           h: StateHash)
    requires ValidConfig(c) && Forest(u, s) && Anchored(c, u, s) && Fresh(u, s, h) && NoDeepReorg(u, s, h)
    requires DiffsKept(u, s) && LedgerExact(step, u, r, l, s)
    ensures var o := Feed(step, c, u, s, h);
            && DiffsKept(u, o.state) && LedgerExact(step, u, r, l, o.state)
            && Descends(u, s.canonicalRoot, o.state.canonicalRoot)
            && o.canonical == Path(u, s.canonicalRoot, o.state.canonicalRoot)
  {
    DescendsLength(u, r, s.canonicalRoot);
    DescendsLength(u, s.canonicalRoot, s.bestTip);
    assert Descends(u, s.canonicalRoot, s.canonicalRoot);
    if Accepted(u, s, h) {
      ExtendedForest(u, s, h);
      ExtendedDiffsKept(u, s, h);
      if ExtendsRoot(u, s, h) {
        SettleKeepsLedger(step, c, u, r, l, Extended(u, s, h));
      }
    }
  }

  // ---------------------------------------------------------------------- runs

  ghost function Elems(hs: seq<StateHash>): set<StateHash> {
    set h | h in hs
  }

  /** Each block is fed once and the initial root never. */
  ghost predicate FreshFeed(u: Universe, r: StateHash, hs: seq<StateHash>) {
    && (forall i :: 0 <= i < |hs| ==> hs[i] in u && hs[i] != r)
    && (forall i, j :: 0 <= i < j < |hs| ==> hs[i] != hs[j])
  }

  /** No step of the run is a deep reorg. */
  ghost predicate Shallow(step: Step, c: Config, u: Universe, s: State, hs: seq<StateHash>) {
    hs == [] ||
    (Shallow(step, c, u, s, hs[..|hs| - 1]) && NoDeepReorg(u, Run(step, c, u, s, hs[..|hs| - 1]).state, hs[|hs| - 1]))
  }

  lemma {:induction false} FreshPrefix(u: Universe, r: StateHash, hs: seq<StateHash>)
    requires FreshFeed(u, r, hs) && hs != []
    ensures FreshFeed(u, r, hs[..|hs| - 1])
  {
    var init := hs[..|hs| - 1];
    assert forall i :: 0 <= i < |init| ==> init[i] == hs[i];
  }

  lemma {:induction false} NextIsFresh(u: Universe, r: StateHash, hs: seq<StateHash>, s: State)
    requires FreshFeed(u, r, hs) && hs != [] && Members(s) <= Elems(hs[..|hs| - 1]) + {r}
    ensures Fresh(u, s, hs[|hs| - 1])
    ensures Elems(hs) == Elems(hs[..|hs| - 1]) + {hs[|hs| - 1]}
  {
    assert hs == hs[..|hs| - 1] + [hs[|hs| - 1]];
  }

  lemma {:induction false} InitialSound(step: Step, c: Config, u: Universe, r: StateHash, l: Ledger)
    requires Consistent(u) && r in u
    ensures var s := Initial(u, r, l);
            Forest(u, s) && Anchored(c, u, s) && Members(s) == {r} && DiffsKept(u, s) && LedgerExact(step, u, r, l, s)
  {
    assert Descends(u, r, r);
  }

  /** Whatever the thresholds, the trees stay sound while pruning leaves room for `k` + 2 levels. */
  lemma {:induction false} RunKeepsTrees(step: Step, c: Config, u: Universe, r: StateHash, l: Ledger,
                                         hs: seq<StateHash>)
    requires c.pruneHeight >= c.k + 2 && Consistent(u) && r in u && FreshFeed(u, r, hs)
    ensures var s := Run(step, c, u, Initial(u, r, l), hs).state;
            Forest(u, s) && Trimmed(c, u, s) && Members(s) <= Elems(hs) + {r}
  {
    if hs == [] {
      InitialSound(step, c, u, r, l);
    } else {
      var init, h := hs[..|hs| - 1], hs[|hs| - 1];
      var s := Run(step, c, u, Initial(u, r, l), init).state;
      FreshPrefix(u, r, hs);
      RunKeepsTrees(step, c, u, r, l, init);
      NextIsFresh(u, r, hs, s);
      FeedTrims(step, c, u, s, h);
    }
  }

  /** In every state reached by feeding fresh blocks in any order, the forest is sound
      and the best tip is a highest block of the root branch. */
  lemma {:induction false} RunKeepsForest(step: Step, c: Config, u: Universe, r: StateHash, l: Ledger,
                                          hs: seq<StateHash>)
    requires ValidConfig(c) && Consistent(u) && r in u && FreshFeed(u, r, hs)
    requires c.updateThreshold <= c.confirmations + 1 || Shallow(step, c, u, Initial(u, r, l), hs)
    ensures var s := Run(step, c, u, Initial(u, r, l), hs).state;
            Forest(u, s) && Anchored(c, u, s) && Trimmed(c, u, s) && Members(s) <= Elems(hs) + {r}
  {
    RunKeepsTrees(step, c, u, r, l, hs);
    if hs == [] {
      InitialSound(step, c, u, r, l);
    } else {
      var init, h := hs[..|hs| - 1], hs[|hs| - 1];
      var s := Run(step, c, u, Initial(u, r, l), init).state;
      FreshPrefix(u, r, hs);
      RunKeepsForest(step, c, u, r, l, init);
      NextIsFresh(u, r, hs, s);
      FeedKeepsForest(step, c, u, s, h);
    }
  }

  /** Over every run without deep reorgs the ledger is the fold of all diffs up to the
      canonical root, no needed diff is lost, and the reports concatenate to the chain
      from the initial root to the canonical root. */
  lemma {:induction false} RunKeepsLedger(step: Step, c: Config, u: Universe, r: StateHash, l: Ledger,
                                          hs: seq<StateHash>)
    requires ValidConfig(c) && Consistent(u) && r in u && FreshFeed(u, r, hs)
    requires Shallow(step, c, u, Initial(u, r, l), hs)
    ensures var o := Run(step, c, u, Initial(u, r, l), hs);
            && LedgerExact(step, u, r, l, o.state)
            && DiffsKept(u, o.state)
            && o.canonical == Path(u, r, o.state.canonicalRoot)
  {
    if hs == [] {
      InitialSound(step, c, u, r, l);
    } else {
      var init, h := hs[..|hs| - 1], hs[|hs| - 1];
      var before := Run(step, c, u, Initial(u, r, l), init);
      FreshPrefix(u, r, hs);
      RunKeepsForest(step, c, u, r, l, init);
      NextIsFresh(u, r, hs, before.state);
      RunKeepsLedger(step, c, u, r, l, init);
      FeedKeepsLedger(step, c, u, r, l, before.state, h);
      var after := Feed(step, c, u, before.state, h);
      DescendsTransitive(u, r, before.state.canonicalRoot, after.state.canonicalRoot);
      assert Run(step, c, u, Initial(u, r, l), hs) == Outcome(after.state, before.canonical + after.canonical);
    }
  }
}
