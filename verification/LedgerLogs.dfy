/** Which blocks the running ledger consists of.  Every run, whatever its reorgs, leaves the fold
    of a log of blocks; up to the first deep reorg the log is the canonical chain, and a deep
    reorg adds the part of the new chain whose diffs are still there to what it leaves behind. */
module LedgerLogs {
  import opened Accounts
  import opened Blocks
  import opened Ledgers
  import opened WitnessTree
  import opened WitnessForest
  import opened WitnessRuns

  /** Of the blocks `hs`, those whose diff is in the map. */
  ghost function KnownBlocks(diffs: map<StateHash, LedgerDiff>, hs: seq<StateHash>): seq<StateHash> {
    if hs == [] then [] else
      var h := hs[|hs| - 1];
      KnownBlocks(diffs, hs[..|hs| - 1]) + if h in diffs then [h] else []
  }

  ghost predicate NoWrongDiff(u: Universe, s: State) {
    forall h :: h in s.diffs ==> h in u && s.diffs[h] == u[h].diff
  }

  lemma {:induction false} KnownConcat(diffs: map<StateHash, LedgerDiff>, p: seq<StateHash>, q: seq<StateHash>)
    ensures KnownBlocks(diffs, p + q) == KnownBlocks(diffs, p) + KnownBlocks(diffs, q)
  {
    if q == [] {
      assert p + q == p;
    } else {
      assert (p + q)[..|p + q| - 1] == p + q[..|q| - 1];
      KnownConcat(diffs, p, q[..|q| - 1]);
    }
  }

  lemma {:induction false} KnownAll(diffs: map<StateHash, LedgerDiff>, hs: seq<StateHash>)
    requires forall h :: h in hs ==> h in diffs
    ensures KnownBlocks(diffs, hs) == hs
  {
    if hs != [] {
      KnownAll(diffs, hs[..|hs| - 1]);
      assert hs == hs[..|hs| - 1] + [hs[|hs| - 1]];
    }
  }

  lemma {:induction false} KnownNone(diffs: map<StateHash, LedgerDiff>, hs: seq<StateHash>)
    requires forall h :: h in hs ==> h !in diffs
    ensures KnownBlocks(diffs, hs) == []
  {
    if hs != [] {
      KnownNone(diffs, hs[..|hs| - 1]);
      assert hs[|hs| - 1] in hs;
    }
  }

  lemma {:induction false} KnownMember(diffs: map<StateHash, LedgerDiff>, hs: seq<StateHash>, x: StateHash)
    ensures x in KnownBlocks(diffs, hs) <==> x in hs && x in diffs
  {
    if hs != [] {
      KnownMember(diffs, hs[..|hs| - 1], x);
      assert hs == hs[..|hs| - 1] + [hs[|hs| - 1]];
    }
  }

  /** Applying the known diffs folds the known blocks. */
  lemma {:induction false} KnownFold(step: Step, u: Universe, l: Ledger, s: State, hs: seq<StateHash>)
    requires NoWrongDiff(u, s)
    ensures ApplyDiff(step, l, KnownDiffs(s.diffs, hs)) == FoldBlocks(step, u, l, KnownBlocks(s.diffs, hs))
  {
    if hs != [] {
      var init, h := hs[..|hs| - 1], hs[|hs| - 1];
      var known := KnownBlocks(s.diffs, init);
      KnownFold(step, u, l, s, init);
      ApplyDiffAppend(step, l, KnownDiffs(s.diffs, init), if h in s.diffs then s.diffs[h] else []);
      assert (known + [h])[..|known|] == known && known + [] == known;
    }
  }

  // ------------------------------------------------------------------- every run

  /** The blocks whose diffs the next block brings into the ledger. */
  ghost function StepLog(c: Config, u: Universe, s: State, h: StateHash): seq<StateHash> {
    if Accepted(u, s, h) && ExtendsRoot(u, s, h) then
      KnownBlocks(Extended(u, s, h).diffs, Report(c, u, Extended(u, s, h)))
    else []
  }

  ghost function Log(step: Step, c: Config, u: Universe, s: State, hs: seq<StateHash>): seq<StateHash> {
    if hs == [] then [] else
      var init := hs[..|hs| - 1];
      Log(step, c, u, s, init) + StepLog(c, u, Run(step, c, u, s, init).state, hs[|hs| - 1])
  }

  lemma {:induction false} ExtendedRight(u: Universe, s: State, h: StateHash)
    requires NoWrongDiff(u, s) && h in u
    ensures NoWrongDiff(u, Extended(u, s, h))
  {}

  lemma {:induction false} FeedFoldsLog(step: Step, c: Config, u: Universe, s: State, h: StateHash)
    requires NoWrongDiff(u, s) && h in u
    ensures var s' := Feed(step, c, u, s, h).state;
            NoWrongDiff(u, s') && s'.ledger == FoldBlocks(step, u, s.ledger, StepLog(c, u, s, h))
  {
    var e := Extended(u, s, h);
    ExtendedRight(u, s, h);
    if Accepted(u, s, h) && ExtendsRoot(u, s, h) { KnownFold(step, u, s.ledger, e, Report(c, u, e)); }
  }

  /** Whatever the settings, the order and the reorgs, the ledger is the fold of the log. */
  lemma {:induction false} RunFoldsLog(step: Step, c: Config, u: Universe, r: StateHash, l: Ledger, hs: seq<StateHash>)
    requires FreshFeed(u, r, hs)
    ensures var s := Run(step, c, u, Initial(u, r, l), hs).state;
            NoWrongDiff(u, s) && s.ledger == FoldBlocks(step, u, l, Log(step, c, u, Initial(u, r, l), hs))
  {
    if hs != [] {
      var init, h := hs[..|hs| - 1], hs[|hs| - 1];
      FreshPrefix(u, r, hs);
      RunFoldsLog(step, c, u, r, l, init);
      var s := Run(step, c, u, Initial(u, r, l), init).state;
      FeedFoldsLog(step, c, u, s, h);
      FoldBlocksConcat(step, u, l, Log(step, c, u, Initial(u, r, l), init), StepLog(c, u, s, h));
    }
  }

  // ------------------------------------------------------- what a step adds to it

  /** Without a stop on the way the walk goes down to the root. */
  lemma {:induction false} CollectAll(u: Universe, h: StateHash, n: nat, stop: StateHash, r: StateHash)
    requires Consistent(u) && Descends(u, r, h) && n == Len(u, h) - Len(u, r) && !Descends(u, stop, h)
    ensures Collect(u, h, n, stop) == [r] + Path(u, r, h)
    decreases n
  {
    DescendsLength(u, r, h);
    if n > 0 {
      assert HasParent(u, h);
      CollectAll(u, u[h].parentHash, n - 1, stop, r);
      assert [r] + Path(u, r, u[h].parentHash) + [h] == [r] + Path(u, r, h);
    }
  }

  /** A deep reorg reports the whole chain from the root of the tree to the new canonical root. */
  lemma {:induction false} DeepReport(c: Config, u: Universe, s: State)
    requires RootSound(u, s) && Anchored(c, u, s) && !Descends(u, s.canonicalRoot, s.bestTip)
    requires CanonicalUpdatable(c, u, s)
    ensures var n := RootAfter(c, u, s);
            && Report(c, u, s) == [s.root.root] + Path(u, s.root.root, n)
            && n in s.root.hashes && Descends(u, s.root.root, n) && Descends(u, n, s.bestTip)
            && !Descends(u, s.canonicalRoot, n)
  {
    RootedDescends(u, s.root, s.bestTip);
    RootedDescends(u, s.root, s.canonicalRoot);
    CanonicalRootMoves(c, u, s);
    TipAncestor(u, s.root, s.bestTip, c.confirmations);
    var n := Up(u, s.bestTip, c.confirmations);
    if Descends(u, s.canonicalRoot, n) { DescendsTransitive(u, s.canonicalRoot, n, s.bestTip); }
    CollectAll(u, n, Depth(u, s) - c.confirmations, s.canonicalRoot, s.root.root);
  }

  lemma {:induction false} ShallowLog(c: Config, u: Universe, s: State)
    requires RootSound(u, s) && Anchored(c, u, s) && DiffsKept(u, s) && Descends(u, s.canonicalRoot, s.bestTip)
    ensures KnownBlocks(s.diffs, Report(c, u, s)) == Path(u, s.canonicalRoot, RootAfter(c, u, s))
  {
    CanonicalRootMoves(c, u, s);
    ReportIsThePath(c, u, s);
    PathDiffsKept(c, u, s, RootAfter(c, u, s));
    KnownAll(s.diffs, Report(c, u, s));
  }

  /** In any state of any run a step adds exactly the path to the new canonical root, unless it is
      a deep reorg.  Then it adds what it still knows of the whole chain above the tree's root,
      which is at least everything higher than the old canonical root. */
  lemma {:induction false} StepLogIs(c: Config, u: Universe, s: State, h: StateHash)
    requires Forest(u, s) && Anchored(c, u, s) && Fresh(u, s, h) && DiffsKept(u, s)
    requires Accepted(u, s, h) && ExtendsRoot(u, s, h)
    ensures var e := Extended(u, s, h);
            var n := RootAfter(c, u, e);
            && (NoDeepReorg(u, s, h) ==> StepLog(c, u, s, h) == Path(u, s.canonicalRoot, n))
            && (!NoDeepReorg(u, s, h) && CanonicalUpdatable(c, u, e) ==>
                  && StepLog(c, u, s, h) == KnownBlocks(e.diffs, [s.root.root] + Path(u, s.root.root, n))
                  && forall x :: x in Path(u, s.root.root, n) && Len(u, x) > Len(u, s.canonicalRoot) ==>
                       x in StepLog(c, u, s, h))
  {
    var e := Extended(u, s, h);
    ExtendedForest(u, s, h);
    ExtendedDiffsKept(u, s, h);
    if NoDeepReorg(u, s, h) {
      ShallowLog(c, u, e);
    } else if CanonicalUpdatable(c, u, e) {
      DeepReport(c, u, e);
      DeepKnown(c, u, e);
    }
  }

  lemma {:induction false} DeepKnown(c: Config, u: Universe, s: State)
    requires RootSound(u, s) && Anchored(c, u, s) && DiffsKept(u, s) && !Descends(u, s.canonicalRoot, s.bestTip)
    requires CanonicalUpdatable(c, u, s)
    ensures forall x :: x in Report(c, u, s) && Len(u, x) > Len(u, s.canonicalRoot) ==>
              x in KnownBlocks(s.diffs, Report(c, u, s))
  {
    forall x | x in Report(c, u, s) && Len(u, x) > Len(u, s.canonicalRoot)
      ensures x in KnownBlocks(s.diffs, Report(c, u, s))
    {
      ReportedBlocksAreDeep(c, u, s, x);
      KnownMember(s.diffs, Report(c, u, s), x);
    }
  }

  // --------------------------------------------------------- the first deep reorg

  /** No diff is left of the canonical chain, but perhaps that of the canonical root. */
  ghost predicate Spent(u: Universe, s: State) {
    forall x :: x in s.diffs && Descends(u, x, s.canonicalRoot) ==> x == s.canonicalRoot
  }

  lemma {:induction false} ExtendedSpent(c: Config, u: Universe, s: State, h: StateHash)
    requires Forest(u, s) && Anchored(c, u, s) && Fresh(u, s, h) && Accepted(u, s, h) && Spent(u, s)
    ensures Spent(u, Extended(u, s, h))
  {
    if Descends(u, h, s.canonicalRoot) { RootedConvex(u, s.root, h, s.canonicalRoot); }
  }

  lemma {:induction false} UpdateSpends(step: Step, c: Config, u: Universe, s: State)
    requires RootSound(u, s) && Anchored(c, u, s) && Descends(u, s.canonicalRoot, s.bestTip)
    requires NoWrongDiff(u, s) && Spent(u, s)
    ensures Spent(u, UpdateCanonical(step, c, u, s))
  {
    if CanonicalUpdatable(c, u, s) {
      var n := RootAfter(c, u, s);
      CanonicalRootMoves(c, u, s);
      ReportIsThePath(c, u, s);
      forall x | x in PrunedDiffs(u, s, n) && Descends(u, x, n) ensures x == n { SpentBelow(u, s, n, x); }
    }
  }

  lemma {:induction false} SpentBelow(u: Universe, s: State, n: StateHash, x: StateHash)
    requires RootSound(u, s) && NoWrongDiff(u, s) && Spent(u, s) && s.canonicalRoot in s.root.hashes
    requires n in s.root.hashes && Descends(u, s.canonicalRoot, n)
    requires x in PrunedDiffs(u, s, n) && Descends(u, x, n)
    ensures x == n
  {
    DescendsLength(u, x, n);
    RootedDescends(u, s.root, s.canonicalRoot);
    if Len(u, x) <= Len(u, s.canonicalRoot) {
      AncestorsLinear(u, x, s.canonicalRoot, n);
      assert x == s.canonicalRoot;
      assert Descends(u, x, x);
    } else {
      AncestorsLinear(u, s.canonicalRoot, x, n);
      RootedConvex(u, s.root, x, n);
    }
    assert !Settled(u, s, n, x);
  }

  lemma {:induction false} FeedSpends(step: Step, c: Config, u: Universe, s: State, h: StateHash)
    requires Forest(u, s) && Anchored(c, u, s) && Fresh(u, s, h) && NoDeepReorg(u, s, h)
    requires NoWrongDiff(u, s) && Spent(u, s) && Descends(u, s.canonicalRoot, s.bestTip)
    ensures Spent(u, Feed(step, c, u, s, h).state)
  {
    if Accepted(u, s, h) {
      var e := Extended(u, s, h);
      ExtendedForest(u, s, h);
      ExtendedRight(u, s, h);
      ExtendedSpent(c, u, s, h);
      if ExtendsRoot(u, s, h) { UpdateSpends(step, c, u, e); }
    }
  }

  /** Over every run without deep reorgs the diffs of the canonical chain are used up, and the log
      is that chain. */
  lemma {:induction false} RunSpends(step: Step, c: Config, u: Universe, r: StateHash, l: Ledger, hs: seq<StateHash>)
    requires ValidConfig(c) && Consistent(u) && r in u && FreshFeed(u, r, hs)
    requires Shallow(step, c, u, Initial(u, r, l), hs)
    ensures Spent(u, Run(step, c, u, Initial(u, r, l), hs).state)
  {
    if hs != [] {
      var init, h := hs[..|hs| - 1], hs[|hs| - 1];
      var s := Run(step, c, u, Initial(u, r, l), init).state;
      FreshPrefix(u, r, hs);
      RunSpends(step, c, u, r, l, init);
      RunKeepsForest(step, c, u, r, l, init);
      RunKeepsLedger(step, c, u, r, l, init);
      NextIsFresh(u, r, hs, s);
      FeedSpends(step, c, u, s, h);
    }
  }

  lemma {:induction false} NothingBelowFork(u: Universe, s: State, r: StateHash, f: StateHash, n: StateHash)
    requires Consistent(u) && Spent(u, s) && Descends(u, r, f) && Descends(u, f, s.canonicalRoot)
    requires Descends(u, f, n) && !Descends(u, s.canonicalRoot, n)
    ensures KnownBlocks(s.diffs, [r] + Path(u, r, f)) == []
  {
    PathMembers(u, r, f);
    forall x | x in [r] + Path(u, r, f) ensures x !in s.diffs {
      DescendsTransitive(u, x, f, s.canonicalRoot);
      DescendsTransitive(u, x, f, n);
    }
    KnownNone(s.diffs, [r] + Path(u, r, f));
  }

  lemma {:induction false} KnownAboveFork(u: Universe, s: State, r: StateHash, f: StateHash, n: StateHash)
    requires Consistent(u) && Spent(u, s) && Descends(u, r, f) && Descends(u, f, s.canonicalRoot)
    requires Descends(u, f, n) && !Descends(u, s.canonicalRoot, n)
    ensures KnownBlocks(s.diffs, [r] + Path(u, r, n)) == KnownBlocks(s.diffs, Path(u, f, n))
  {
    DescendsTransitive(u, r, f, n);
    Joined(r, Path(u, r, f), Path(u, f, n));
    KnownConcat(s.diffs, [r] + Path(u, r, f), Path(u, f, n));
    NothingBelowFork(u, s, r, f, n);
  }

  lemma {:induction false} Joined(r: StateHash, p: seq<StateHash>, q: seq<StateHash>)
    ensures [r] + (p + q) == [r] + p + q
  {}

  /** If the diffs of the canonical chain are used up, a deep reorg adds nothing up to a block `f`
      that the old and the new canonical root have in common. */
  lemma {:induction false} DeepLog(c: Config, u: Universe, s: State, f: StateHash)
    requires RootSound(u, s) && Anchored(c, u, s) && Spent(u, s) && !Descends(u, s.canonicalRoot, s.bestTip)
    requires CanonicalUpdatable(c, u, s) && f in s.root.hashes
    requires Descends(u, f, s.canonicalRoot) && Descends(u, f, RootAfter(c, u, s))
    ensures KnownBlocks(s.diffs, Report(c, u, s)) == KnownBlocks(s.diffs, Path(u, f, RootAfter(c, u, s)))
  {
    DeepReport(c, u, s);
    RootedDescends(u, s.root, f);
    KnownAboveFork(u, s, s.root.root, f, RootAfter(c, u, s));
  }

  /** Pruning moves the root of the tree up its chain only. */
  lemma {:induction false} RunAbove(step: Step, c: Config, u: Universe, r: StateHash, l: Ledger, hs: seq<StateHash>)
    requires c.pruneHeight >= c.k + 2 && Consistent(u) && r in u && FreshFeed(u, r, hs)
    ensures Descends(u, r, Run(step, c, u, Initial(u, r, l), hs).state.root.root)
  {
    if hs != [] {
      var init, h := hs[..|hs| - 1], hs[|hs| - 1];
      var s := Run(step, c, u, Initial(u, r, l), init).state;
      FreshPrefix(u, r, hs);
      RunAbove(step, c, u, r, l, init);
      RunKeepsTrees(step, c, u, r, l, init);
      NextIsFresh(u, r, hs, s);
      FeedAbove(step, c, u, s, h);
      DescendsTransitive(u, r, s.root.root, Feed(step, c, u, s, h).state.root.root);
    }
  }

  lemma {:induction false} FeedAbove(step: Step, c: Config, u: Universe, s: State, h: StateHash)
    requires c.pruneHeight >= c.k + 2 && Forest(u, s) && Fresh(u, s, h)
    ensures Descends(u, s.root.root, Feed(step, c, u, s, h).state.root.root)
  {
    RootedDescends(u, s.root, s.root.root);
    if Accepted(u, s, h) && ExtendsRoot(u, s, h) {
      var e := Extended(u, s, h);
      var e' := UpdateCanonical(step, c, u, e);
      ExtendedForest(u, s, h);
      UpdateKeepsForest(step, c, u, e);
      PruneDue(c, u, e');
      if Levels(u, e'.root) > c.pruneHeight { TipAncestor(u, e'.root, e'.bestTip, c.k); }
    }
  }

  /** Block `h` makes a deep reorg that moves the canonical root. */
  ghost predicate DeepStep(c: Config, u: Universe, s: State, h: StateHash) {
    !NoDeepReorg(u, s, h) && CanonicalUpdatable(c, u, Extended(u, s, h))
  }

  /** `f` is a block of the tree that the canonical roots before and after `h` descend from. */
  ghost predicate ForksAt(c: Config, u: Universe, s: State, h: StateHash, f: StateHash) {
    && f in s.root.hashes && Descends(u, f, s.canonicalRoot)
    && Descends(u, f, RootAfter(c, u, Extended(u, s, h)))
  }

  /** The state in which a deep reorg moves the canonical root. */
  lemma {:induction false} DeepStepState(c: Config, u: Universe, s: State, h: StateHash)
    requires Forest(u, s) && Anchored(c, u, s) && Fresh(u, s, h) && DeepStep(c, u, s, h)
    ensures Accepted(u, s, h) && ExtendsRoot(u, s, h)
    ensures var e := Extended(u, s, h);
            && RootSound(u, e) && Anchored(c, u, e) && !Descends(u, e.canonicalRoot, e.bestTip)
            && s.root.hashes <= e.root.hashes && e.canonicalRoot == s.canonicalRoot
  {
    assert Linked(u, h);
    RootedDescends(u, s.root, u[h].parentHash);
    ExtendedForest(u, s, h);
  }

  lemma {:induction false} DeepStepLog(c: Config, u: Universe, s: State, h: StateHash, f: StateHash)
    requires Forest(u, s) && Anchored(c, u, s) && Fresh(u, s, h) && Spent(u, s)
    requires DeepStep(c, u, s, h) && ForksAt(c, u, s, h, f)
    ensures var e := Extended(u, s, h); StepLog(c, u, s, h) == KnownBlocks(e.diffs, Path(u, f, RootAfter(c, u, e)))
  {
    DeepStepState(c, u, s, h);
    ExtendedSpent(c, u, s, h);
    DeepLog(c, u, Extended(u, s, h), f);
  }

  /** A run without deep reorgs that is followed by one. */
  ghost predicate FirstDeep(step: Step, c: Config, u: Universe, r: StateHash, l: Ledger, hs: seq<StateHash>,
                            h: StateHash) {
    && FreshFeed(u, r, hs + [h]) && Shallow(step, c, u, Initial(u, r, l), hs)
    && DeepStep(c, u, Run(step, c, u, Initial(u, r, l), hs).state, h)
  }

  lemma {:induction false} BeforeDeep(step: Step, c: Config, u: Universe, r: StateHash, l: Ledger, hs: seq<StateHash>,
                                      h: StateHash)
    requires ValidConfig(c) && Consistent(u) && r in u && FirstDeep(step, c, u, r, l, hs, h)
    ensures var s := Run(step, c, u, Initial(u, r, l), hs).state;
            && Forest(u, s) && Anchored(c, u, s) && Fresh(u, s, h) && Spent(u, s) && DiffsKept(u, s)
            && LedgerExact(step, u, r, l, s) && Descends(u, r, s.root.root)
  {
    var s := Run(step, c, u, Initial(u, r, l), hs).state;
    assert (hs + [h])[..|hs|] == hs;
    FreshPrefix(u, r, hs + [h]);
    RunKeepsForest(step, c, u, r, l, hs);
    NextIsFresh(u, r, hs + [h], s);
    RunSpends(step, c, u, r, l, hs);
    RunKeepsLedger(step, c, u, r, l, hs);
    RunAbove(step, c, u, r, l, hs);
  }

  /** The ledger after the first deep reorg of any run: what was canonical stays, the overtaken
      blocks included; of the new chain, nothing up to the fork is added again, and above it what
      is still in the diff map.  So the ledger is that of the new canonical root precisely if,
      from the ledger at the fork, these together come to the same as the new chain. */
  lemma {:induction false} FirstDeepReorgIff(step: Step, c: Config, u: Universe, r: StateHash, l: Ledger,
                                             hs: seq<StateHash>, h: StateHash, f: StateHash)
    requires ValidConfig(c) && Consistent(u) && r in u && FirstDeep(step, c, u, r, l, hs, h)
    requires ForksAt(c, u, Run(step, c, u, Initial(u, r, l), hs).state, h, f)
    ensures var s := Run(step, c, u, Initial(u, r, l), hs).state;
            var s', atFork := Feed(step, c, u, s, h).state, LedgerAt(step, u, r, l, f);
            var added := KnownBlocks(Extended(u, s, h).diffs, Path(u, f, s'.canonicalRoot));
            && s'.ledger == FoldBlocks(step, u, LedgerAt(step, u, r, l, s.canonicalRoot), added)
            && (s'.ledger == LedgerAt(step, u, r, l, s'.canonicalRoot) <==>
                FoldBlocks(step, u, LedgerAt(step, u, f, atFork, s.canonicalRoot), added) ==
                  LedgerAt(step, u, f, atFork, s'.canonicalRoot))
  {
    var s := Run(step, c, u, Initial(u, r, l), hs).state;
    BeforeDeep(step, c, u, r, l, hs, h);
    DeepStepLog(c, u, s, h, f);
    DeepStepRoot(step, c, u, s, h);
    FeedFoldsLog(step, c, u, s, h);
    ForkLedgers(step, u, r, l, s, f, RootAfter(c, u, Extended(u, s, h)));
  }

  lemma {:induction false} DeepStepRoot(step: Step, c: Config, u: Universe, s: State, h: StateHash)
    requires Forest(u, s) && Anchored(c, u, s) && Fresh(u, s, h) && DeepStep(c, u, s, h)
    ensures Feed(step, c, u, s, h).state.canonicalRoot == RootAfter(c, u, Extended(u, s, h))
  {
    DeepStepState(c, u, s, h);
    UpdateKeepsForest(step, c, u, Extended(u, s, h));
  }

  lemma {:induction false} ForkLedgers(step: Step, u: Universe, r: StateHash, l: Ledger, s: State, f: StateHash,
                                       n: StateHash)
    requires RootSound(u, s) && f in s.root.hashes && Descends(u, r, s.root.root)
    requires Descends(u, f, s.canonicalRoot) && Descends(u, f, n)
    ensures LedgerAt(step, u, r, l, n) == LedgerAt(step, u, f, LedgerAt(step, u, r, l, f), n)
    ensures LedgerAt(step, u, r, l, s.canonicalRoot) ==
              LedgerAt(step, u, f, LedgerAt(step, u, r, l, f), s.canonicalRoot)
  {
    RootedDescends(u, s.root, f);
    DescendsTransitive(u, r, s.root.root, f);
    LedgerAtExtends(step, u, r, l, f, s.canonicalRoot);
    LedgerAtExtends(step, u, r, l, f, n);
  }

  // ------------------------------------------------------------ what it consists of

  ghost predicate NoRepeats(hs: seq<StateHash>) {
    forall i, j :: 0 <= i < j < |hs| ==> hs[i] != hs[j]
  }

  lemma {:induction false} PathOnce(u: Universe, a: StateHash, h: StateHash)
    requires Consistent(u) && Descends(u, a, h)
    ensures NoRepeats(Path(u, a, h))
    decreases u[h].length
  {
    if h != a {
      var p := u[h].parentHash;
      assert HasParent(u, h);
      PathOnce(u, a, p);
      PathMembers(u, a, p);
      if h in Path(u, a, p) { DescendsLength(u, h, p); }
    }
  }

  lemma {:induction false} KnownOnce(diffs: map<StateHash, LedgerDiff>, hs: seq<StateHash>)
    requires NoRepeats(hs)
    ensures NoRepeats(KnownBlocks(diffs, hs))
  {
    if hs != [] {
      var init, h := hs[..|hs| - 1], hs[|hs| - 1];
      assert forall i :: 0 <= i < |init| ==> init[i] == hs[i];
      KnownOnce(diffs, init);
      KnownMember(diffs, init, h);
    }
  }

  /** The log of a run without deep reorgs is the canonical chain. */
  lemma {:induction false} ShallowRunLog(step: Step, c: Config, u: Universe, r: StateHash, l: Ledger,
                                         hs: seq<StateHash>)
    requires ValidConfig(c) && Consistent(u) && r in u && FreshFeed(u, r, hs)
    requires Shallow(step, c, u, Initial(u, r, l), hs)
    ensures var s := Run(step, c, u, Initial(u, r, l), hs).state;
            Descends(u, r, s.canonicalRoot) && Log(step, c, u, Initial(u, r, l), hs) == Path(u, r, s.canonicalRoot)
  {
    RunKeepsLedger(step, c, u, r, l, hs);
    if hs != [] {
      var init, h := hs[..|hs| - 1], hs[|hs| - 1];
      var s := Run(step, c, u, Initial(u, r, l), init).state;
      FreshPrefix(u, r, hs);
      ShallowRunLog(step, c, u, r, l, init);
      RunKeepsForest(step, c, u, r, l, init);
      RunKeepsLedger(step, c, u, r, l, init);
      NextIsFresh(u, r, hs, s);
      ShallowStepLog(step, c, u, r, l, s, h);
      DescendsTransitive(u, r, s.canonicalRoot, Feed(step, c, u, s, h).state.canonicalRoot);
    }
  }

  lemma {:induction false} ShallowStepLog(step: Step, c: Config, u: Universe, r: StateHash, l: Ledger, s: State,
                                          h: StateHash)
    requires ValidConfig(c) && Forest(u, s) && Anchored(c, u, s) && Fresh(u, s, h) && NoDeepReorg(u, s, h)
    requires DiffsKept(u, s) && LedgerExact(step, u, r, l, s)
    ensures var s' := Feed(step, c, u, s, h).state;
            && Descends(u, s.canonicalRoot, s'.canonicalRoot)
            && StepLog(c, u, s, h) == Path(u, s.canonicalRoot, s'.canonicalRoot)
  {
    FeedKeepsLedger(step, c, u, r, l, s, h);
    if Accepted(u, s, h) && ExtendsRoot(u, s, h) {
      StepLogIs(c, u, s, h);
      UpdateKeepsForest(step, c, u, Extended(u, s, h));
    }
  }

  /** Up to and including the first deep reorg no block is applied twice.  Afterwards the log holds
      the old canonical chain, and of the new one above the fork exactly the blocks whose diffs
      are still there: all that are higher than the old canonical root. */
  lemma {:induction false} FirstDeepLog(step: Step, c: Config, u: Universe, r: StateHash, l: Ledger,
                                        hs: seq<StateHash>, h: StateHash, f: StateHash)
    requires ValidConfig(c) && Consistent(u) && r in u && FirstDeep(step, c, u, r, l, hs, h)
    requires ForksAt(c, u, Run(step, c, u, Initial(u, r, l), hs).state, h, f)
    ensures var s, log := Run(step, c, u, Initial(u, r, l), hs).state, Log(step, c, u, Initial(u, r, l), hs + [h]);
            var e := Extended(u, s, h);
            var n := RootAfter(c, u, e);
            && log == Path(u, r, s.canonicalRoot) + KnownBlocks(e.diffs, Path(u, f, n))
            && NoRepeats(log)
            && forall x :: x in Path(u, f, n) && Len(u, x) > Len(u, s.canonicalRoot) ==> x in log
  {
    var s := Run(step, c, u, Initial(u, r, l), hs).state;
    assert (hs + [h])[..|hs|] == hs;
    FreshPrefix(u, r, hs + [h]);
    BeforeDeep(step, c, u, r, l, hs, h);
    ShallowRunLog(step, c, u, r, l, hs);
    DeepStepLog(c, u, s, h, f);
    ForkLogOnce(c, u, r, s, h, f);
  }

  lemma {:induction false} ForkLogOnce(c: Config, u: Universe, r: StateHash, s: State, h: StateHash, f: StateHash)
    requires Forest(u, s) && Anchored(c, u, s) && Fresh(u, s, h) && Spent(u, s) && DiffsKept(u, s)
    requires DeepStep(c, u, s, h) && ForksAt(c, u, s, h, f) && Descends(u, r, s.canonicalRoot)
    ensures var e := Extended(u, s, h);
            var n := RootAfter(c, u, e);
            var log := Path(u, r, s.canonicalRoot) + KnownBlocks(e.diffs, Path(u, f, n));
            && NoRepeats(log)
            && forall x :: x in Path(u, f, n) && Len(u, x) > Len(u, s.canonicalRoot) ==> x in log
  {
    var e := Extended(u, s, h);
    var n := RootAfter(c, u, e);
    DeepStepState(c, u, s, h);
    ExtendedSpent(c, u, s, h);
    ExtendedDiffsKept(u, s, h);
    DeepReport(c, u, e);
    KnownApart(u, e, r, f, n);
    forall x | x in Path(u, f, n) && Len(u, x) > Len(u, s.canonicalRoot)
      ensures x in KnownBlocks(e.diffs, Path(u, f, n))
    {
      HigherKnown(u, e, f, n, x);
    }
  }

  lemma {:induction false} OnPath(u: Universe, a: StateHash, h: StateHash, x: StateHash)
    requires Consistent(u) && Descends(u, a, h) && x in Path(u, a, h)
    ensures Descends(u, a, x) && Descends(u, x, h)
  {
    PathMembers(u, a, h);
  }

  lemma {:induction false} HigherKnown(u: Universe, s: State, f: StateHash, n: StateHash, x: StateHash)
    requires RootSound(u, s) && DiffsKept(u, s) && f in s.root.hashes && n in s.root.hashes && Descends(u, f, n)
    requires x in Path(u, f, n) && Len(u, x) > Len(u, s.canonicalRoot)
    ensures x in KnownBlocks(s.diffs, Path(u, f, n))
  {
    OnPath(u, f, n, x);
    RootedDescends(u, s.root, f);
    DescendsLength(u, f, x);
    RootedConvex(u, s.root, x, n);
    KnownMember(s.diffs, Path(u, f, n), x);
  }

  lemma {:induction false} KnownApart(u: Universe, s: State, r: StateHash, f: StateHash, n: StateHash)
    requires Consistent(u) && Spent(u, s) && Descends(u, r, s.canonicalRoot) && Descends(u, f, n)
    requires !Descends(u, s.canonicalRoot, n)
    ensures NoRepeats(Path(u, r, s.canonicalRoot) + KnownBlocks(s.diffs, Path(u, f, n)))
  {
    PathOnce(u, r, s.canonicalRoot);
    PathOnce(u, f, n);
    KnownOnce(s.diffs, Path(u, f, n));
    forall x | x in Path(u, r, s.canonicalRoot) ensures x !in KnownBlocks(s.diffs, Path(u, f, n)) {
      OnPath(u, r, s.canonicalRoot, x);
      KnownMember(s.diffs, Path(u, f, n), x);
      if x in Path(u, f, n) { OnPath(u, f, n, x); }
    }
    OnceJoined(Path(u, r, s.canonicalRoot), KnownBlocks(s.diffs, Path(u, f, n)));
  }

  lemma {:induction false} OnceJoined(p: seq<StateHash>, q: seq<StateHash>)
    requires NoRepeats(p) && NoRepeats(q) && forall x :: x in p ==> x !in q
    ensures NoRepeats(p + q)
  {
    forall i, j | 0 <= i < j < |p + q| ensures (p + q)[i] != (p + q)[j] {
      if i < |p| <= j { assert p[i] in p; }
    }
  }

  /** There is always such a block, and the highest one is above all the others. */
  lemma {:induction false} ForkExists(c: Config, u: Universe, s: State, h: StateHash) returns (f: StateHash)
    requires Forest(u, s) && Anchored(c, u, s) && Fresh(u, s, h) && DeepStep(c, u, s, h)
    ensures ForksAt(c, u, s, h, f)
    ensures forall x :: ForksAt(c, u, s, h, x) ==> Descends(u, x, f)
  {
    var e := Extended(u, s, h);
    DeepStepState(c, u, s, h);
    DeepReport(c, u, e);
    RootedDescends(u, s.root, s.canonicalRoot);
    f := HighestCommon(u, s.root.root, s.canonicalRoot, RootAfter(c, u, e));
    DescendsLength(u, s.root.root, f);
    RootedConvex(u, s.root, f, s.canonicalRoot);
  }

  lemma {:induction false} HighestCommon(u: Universe, r: StateHash, a: StateHash, b: StateHash)
    returns (f: StateHash)
    requires Consistent(u) && Descends(u, r, a) && Descends(u, r, b)
    ensures Descends(u, r, f) && Descends(u, f, a) && Descends(u, f, b)
    ensures forall x :: Descends(u, x, a) && Descends(u, x, b) ==> Descends(u, x, f)
    decreases u[a].length
  {
    if Descends(u, a, b) { return a; }
    assert HasParent(u, a);
    f := HighestCommon(u, r, u[a].parentHash, b);
  }
}
