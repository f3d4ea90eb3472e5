/** Runs in which the order of arrival matters. */
module WitnessExamples {
  import opened Accounts
  import opened Blocks
  import opened Ledgers
  import opened WitnessTree
  import opened WitnessForest
  import opened WitnessRuns
  import opened WitnessOrder
  import opened WitnessChains

  // -------------------------------------------------------------- a gap is left

  /** A chain `a`, `b`, `x` whose first parent is out of reach. */
  ghost predicate BrokenChain(u: Universe, r: StateHash, a: StateHash, b: StateHash, x: StateHash) {
    && r in u && a in u && b in u && x in u
    && b !in {r, a, x} && a !in {r, x} && x != r
    && u[x].parentHash == b && u[b].parentHash == a && u[a].parentHash !in {r, x, a}
    && Len(u, r) <= Len(u, a)
  }

  lemma {:induction false} TwoBranches(step: Step, c: Config, u: Universe, r: StateHash, l: Ledger, a: StateHash,
                                       b: StateHash, x: StateHash)
    requires Consistent(u) && BrokenChain(u, r, a, b, x)
    ensures var s := Run(step, c, u, Initial(u, r, l), [x, a]).state;
            s.root == View(r, {r}) && s.bestTip == r && s.dangling == [View(x, {x})] + [View(a, {a})]
  {
    assert Linked(u, b) && Linked(u, x);
    var s0 := Initial(u, r, l);
    var s1 := Run(step, c, u, s0, [x]).state;
    assert [] + [x] == [x] && [x] + [a] == [x, a];
    RunOne(step, c, u, s0, [], x);
    FeedNew(step, c, u, s0, x);
    assert s1.dangling == [View(x, {x})];
    RunOne(step, c, u, s0, [x], a);
    FeedNew(step, c, u, s1, a);
  }

  lemma {:induction false} GapStep(step: Step, c: Config, u: Universe, s: State, r: StateHash, a: StateHash,
                                   b: StateHash, x: StateHash)
    requires ValidConfig(c) && Forest(u, s) && BrokenChain(u, r, a, b, x)
    requires s.root == View(r, {r}) && s.dangling == [View(x, {x})] + [View(a, {a})]
    ensures Connected(u, s) && !Connected(u, Feed(step, c, u, s, b).state)
  {
    AllHashesSnoc([View(x, {x})], View(a, {a}));
    AllHashesSnoc([], View(x, {x}));
    assert [] + [View(x, {x})] == [View(x, {x})];
    assert s.dangling[0] == View(x, {x}) && s.dangling[1] == View(a, {a});
    assert Linked(u, b);
    DanglingGateAdmits(u, s.dangling[0], b);
    assert FirstTouch(u, s.dangling, b) == 0;
    FeedConnectedIff(step, c, u, s, b);
  }

  lemma {:induction false} GapAfter(step: Step, c: Config, u: Universe, r: StateHash, l: Ledger, hs: seq<StateHash>,
                                    a: StateHash, b: StateHash, x: StateHash)
    requires ValidConfig(c) && c.updateThreshold <= c.confirmations
    requires Consistent(u) && BrokenChain(u, r, a, b, x) && FreshFeed(u, r, hs)
    requires var s := Run(step, c, u, Initial(u, r, l), hs).state;
             s.root == View(r, {r}) && s.dangling == [View(x, {x})] + [View(a, {a})]
    ensures Connected(u, Run(step, c, u, Initial(u, r, l), hs).state)
    ensures !Connected(u, Run(step, c, u, Initial(u, r, l), hs + [b]).state)
  {
    RunOne(step, c, u, Initial(u, r, l), hs, b);
    RunKeepsForest(step, c, u, r, l, hs);
    GapStep(step, c, u, Run(step, c, u, Initial(u, r, l), hs).state, r, a, b, x);
  }

  /** Fed child first, the two ends of such a chain are not joined by its middle block. */
  lemma {:induction false} ChildFirstLeavesGap(step: Step, c: Config, u: Universe, r: StateHash, l: Ledger,
                                               a: StateHash, b: StateHash, x: StateHash)
    requires ValidConfig(c) && c.updateThreshold <= c.confirmations
    requires Consistent(u) && BrokenChain(u, r, a, b, x)
    ensures Connected(u, Run(step, c, u, Initial(u, r, l), [x, a]).state)
    ensures !Connected(u, Run(step, c, u, Initial(u, r, l), [x, a, b]).state)
  {
    assert [x, a] + [b] == [x, a, b];
    TwoBranches(step, c, u, r, l, a, b, x);
    GapAfter(step, c, u, r, l, [x, a], a, b, x);
  }

  const GAP_BLOCKS: Universe := map[
    "g" := Plain("g", "-", 1), "a" := Plain("a", "z", 2), "b" := Plain("b", "a", 3), "c" := Plain("c", "b", 4)]

  lemma {:induction false} GapConsistent()
    ensures Consistent(GAP_BLOCKS) && BrokenChain(GAP_BLOCKS, "g", "a", "b", "c")
  {
    var u := GAP_BLOCKS;
    assert Genesis(u) == "g" by { assert "g" in u && forall h :: h in u ==> u[h].genesisHash == "g"; }
    forall h | h in u ensures Linked(u, h) {
      assert h == "g" || h == "a" || h == "b" || h == "c";
      assert u[h].parentHash in u ==> u[h].length == u[u[h].parentHash].length + 1;
    }
  }

  /** Such a run exists. */
  lemma {:induction false} GapExample(step: Step, l: Ledger)
    ensures !Connected(GAP_BLOCKS, Run(step, SETTINGS, GAP_BLOCKS, Initial(GAP_BLOCKS, "g", l), ["c", "a", "b"]).state)
  {
    GapConsistent();
    ChildFirstLeavesGap(step, SETTINGS, GAP_BLOCKS, "g", l, "a", "b", "c");
  }

  // ------------------------------------------------- a merge hides a better tip

  /** A fork `y`, `y'` above `x`, which is two steps above the root `r`. */
  ghost predicate Fork(u: Universe, r: StateHash, a: StateHash, x: StateHash, y: StateHash, y': StateHash) {
    && r in u && a in u && x in u && y in u && y' in u
    && u[a].parentHash == r && u[x].parentHash == a && u[y].parentHash == x && u[y'].parentHash == x
    && y != y' && Beats(u, y', y)
  }

  lemma {:induction false} ForkLengths(u: Universe, r: StateHash, a: StateHash, x: StateHash, y: StateHash,
                                       y': StateHash)
    requires Consistent(u) && Fork(u, r, a, x, y, y')
    ensures Len(u, a) == Len(u, r) + 1 && Len(u, x) == Len(u, r) + 2
    ensures Len(u, y) == Len(u, r) + 3 && Len(u, y') == Len(u, r) + 3
  {
    assert Linked(u, a) && Linked(u, x) && Linked(u, y) && Linked(u, y');
  }

  /** The branch of `x` and the blocks `hs` above it, and one more. */
  lemma {:induction false} GrowFork(step: Step, c: Config, u: Universe, s: State, r: StateHash, x: StateHash,
                                    hs: set<StateHash>, y: StateHash)
    requires Consistent(u) && Rooted(u, View(x, hs)) && y in u && y !in hs && u[y].parentHash == x && x != r
    requires s.root == View(r, {r}) && s.dangling == [View(x, hs)] && Len(u, r) <= Len(u, y)
    ensures var s' := Feed(step, c, u, s, y).state;
            s'.root == s.root && s'.bestTip == s.bestTip && s'.dangling == [View(x, hs + {y})]
    ensures Rooted(u, View(x, hs + {y}))
  {
    FeedGrow(step, c, u, s, View(x, hs), y);
  }

  lemma {:induction false} ForkSeed(step: Step, c: Config, u: Universe, r: StateHash, l: Ledger, a: StateHash,
                                    x: StateHash, y: StateHash, y': StateHash)
    requires Consistent(u) && Fork(u, r, a, x, y, y')
    ensures var s := Run(step, c, u, Initial(u, r, l), [x]).state;
            s.root == View(r, {r}) && s.bestTip == r && s.dangling == [View(x, {x})]
  {
    var s0 := Initial(u, r, l);
    ForkLengths(u, r, a, x, y, y');
    RunOne(step, c, u, s0, [], x);
    FeedNew(step, c, u, s0, x);
    assert [] + [x] == [x] && [] + [View(x, {x})] == [View(x, {x})];
  }

  /** A run that has come to the root and one branch, and a child of that branch's root. */
  lemma {:induction false} GrowRun(step: Step, c: Config, u: Universe, s0: State, fed: seq<StateHash>, r: StateHash,
                                   x: StateHash, hs: set<StateHash>, y: StateHash)
    requires Consistent(u) && Rooted(u, View(x, hs)) && y in u && y !in hs && u[y].parentHash == x && x != r
    requires Len(u, r) <= Len(u, y)
    requires var s := Run(step, c, u, s0, fed).state;
             s.root == View(r, {r}) && s.bestTip == r && s.dangling == [View(x, hs)]
    ensures var s := Run(step, c, u, s0, fed + [y]).state;
            s.root == View(r, {r}) && s.bestTip == r && s.dangling == [View(x, hs + {y})]
    ensures Rooted(u, View(x, hs + {y}))
  {
    RunOne(step, c, u, s0, fed, y);
    GrowFork(step, c, u, Run(step, c, u, s0, fed).state, r, x, hs, y);
  }

  lemma {:induction false} ForkStem(step: Step, c: Config, u: Universe, r: StateHash, l: Ledger, a: StateHash,
                                    x: StateHash, y: StateHash, y': StateHash)
    requires Consistent(u) && Fork(u, r, a, x, y, y')
    ensures var s := Run(step, c, u, Initial(u, r, l), [x, y]).state;
            s.root == View(r, {r}) && s.bestTip == r && s.dangling == [View(x, {x, y})]
    ensures Rooted(u, View(x, {x, y}))
  {
    ForkLengths(u, r, a, x, y, y');
    ForkSeed(step, c, u, r, l, a, x, y, y');
    GrowRun(step, c, u, Initial(u, r, l), [x], r, x, {x}, y);
    assert [x] + [y] == [x, y] && {x} + {y} == {x, y};
  }

  lemma {:induction false} ForkBranch(step: Step, c: Config, u: Universe, r: StateHash, l: Ledger, a: StateHash,
                                      x: StateHash, y: StateHash, y': StateHash)
    requires Consistent(u) && Fork(u, r, a, x, y, y')
    ensures var s := Run(step, c, u, Initial(u, r, l), [x, y, y']).state;
            s.root == View(r, {r}) && s.bestTip == r && s.dangling == [View(x, {x, y, y'})]
  {
    ForkLengths(u, r, a, x, y, y');
    ForkStem(step, c, u, r, l, a, x, y, y');
    GrowRun(step, c, u, Initial(u, r, l), [x, y], r, x, {x, y}, y');
    assert [x, y] + [y'] == [x, y, y'] && {x, y} + {y'} == {x, y, y'};
  }

  /** The branch offers the worse tip `y`. */
  lemma {:induction false} ForkOffersWorse(u: Universe, r: StateHash, a: StateHash, x: StateHash, y: StateHash,
                                           y': StateHash)
    requires Consistent(u) && Fork(u, r, a, x, y, y')
    ensures LastTop(u, {x, y, y'}) == y
    ensures Beats(u, y', r) && Beats(u, y', a)
  {
    ForkLengths(u, r, a, x, y, y');
    LastTopExists(u, {x, y, y'});
    BeatsOrder(u, y, y', r);
    BeatsOrder(u, y', a, r);
    BeatsOrder(u, y', r, r);
    assert IsTop(u, {x, y, y'}, y) && IsTop(u, {x, y, y'}, y');
  }

  /** Joining the fork to the root hides its better tip. */
  lemma {:induction false} ForkHides(u: Universe, s: State, r: StateHash, a: StateHash, x: StateHash, y: StateHash,
                                     y': StateHash)
    requires Forest(u, s) && Fresh(u, s, a) && Fork(u, r, a, x, y, y')
    requires s.root == View(r, {r}) && s.bestTip == r && s.dangling == [View(x, {x, y, y'})]
    ensures ExtendsRoot(u, s, a) && Optimal(u, s) && !Optimal(u, Extended(u, s, a))
  {
    ForkOffersWorse(u, r, a, x, y, y');
    RootGateAdmits(u, s, a);
    HiddenTip(u, s, a, View(x, {x, y, y'}), y');
    OptimalIffNothingHidden(u, WithDiff(u, s, a), a);
  }

  /** The tree is then too low to be pruned. */
  lemma {:induction false} ForkLow(u: Universe, s: State, r: StateHash, a: StateHash, x: StateHash, y: StateHash,
                                   y': StateHash)
    requires Forest(u, s) && Fresh(u, s, a) && Fork(u, r, a, x, y, y') && ExtendsRoot(u, s, a)
    requires s.root == View(r, {r}) && s.bestTip == r && s.dangling == [View(x, {x, y, y'})]
    ensures Accepted(u, s, a) && Levels(u, Extended(u, s, a).root) <= 4
  {
    var e := Extended(u, s, a);
    ExtendedForest(u, s, a);
    OnlyBranch(View(x, {x, y, y'}));
    assert e.root.hashes <= Members(e);
    ForkLevels(u, e, r, a, x, y, y');
    ForkLengths(u, r, a, x, y, y');
  }

  lemma {:induction false} ForkStep(step: Step, c: Config, u: Universe, s: State, r: StateHash, a: StateHash,
                                    x: StateHash, y: StateHash, y': StateHash)
    requires ValidConfig(c) && c.pruneHeight >= 4 && Forest(u, s) && Fresh(u, s, a) && Fork(u, r, a, x, y, y')
    requires s.root == View(r, {r}) && s.bestTip == r && s.dangling == [View(x, {x, y, y'})]
    ensures Optimal(u, s) && !Optimal(u, Feed(step, c, u, s, a).state)
  {
    ForkHides(u, s, r, a, x, y, y');
    ForkLow(u, s, r, a, x, y, y');
    FeedWithoutPrune(step, c, u, s, a);
  }

  lemma {:induction false} ForkLevels(u: Universe, e: State, r: StateHash, a: StateHash, x: StateHash, y: StateHash,
                                      y': StateHash)
    requires RootSound(u, e) && Fork(u, r, a, x, y, y')
    requires e.root.root == r && e.root.hashes <= {r, a, x, y, y'}
    ensures Levels(u, e.root) <= 4
  {
    ForkLengths(u, r, a, x, y, y');
    LastTopExists(u, e.root.hashes);
    var t := LastTop(u, e.root.hashes);
    assert t in {r, a, x, y, y'};
  }

  lemma {:induction false} HiddenTip(u: Universe, s: State, h: StateHash, d: View, x: StateHash)
    requires s.dangling == [d] && IsParentOfRoot(u, d, h) && x in d.hashes
    requires Beats(u, x, s.bestTip) && Beats(u, x, h) && Beats(u, x, LastTop(u, d.hashes))
    ensures Hidden(u, WithDiff(u, s, h), h, x)
  {
    assert [d] == [] + [d] && Matching(u, [d], h) == [d];
    OnlyBranch(d);
  }

  /** When `a` joins the fork to the root, the worse of its two tips becomes the best
      tip. */
  lemma {:induction false} MergeHidesBetterTip(step: Step, c: Config, u: Universe, r: StateHash, l: Ledger,
                                               a: StateHash, x: StateHash, y: StateHash, y': StateHash)
    requires ValidConfig(c) && c.updateThreshold <= c.confirmations && c.pruneHeight >= 4
    requires Consistent(u) && Fork(u, r, a, x, y, y')
    ensures !Optimal(u, Run(step, c, u, Initial(u, r, l), [x, y, y', a]).state)
  {
    var s := Run(step, c, u, Initial(u, r, l), [x, y, y']).state;
    assert [x, y, y'] + [a] == [x, y, y', a];
    ForkFresh(u, r, a, x, y, y');
    ForkBranch(step, c, u, r, l, a, x, y, y');
    RunOne(step, c, u, Initial(u, r, l), [x, y, y'], a);
    RunKeepsForest(step, c, u, r, l, [x, y, y']);
    assert a !in Elems([x, y, y']) + {r};
    ForkStep(step, c, u, s, r, a, x, y, y');
  }

  lemma {:induction false} ForkFresh(u: Universe, r: StateHash, a: StateHash, x: StateHash, y: StateHash, y': StateHash)
    requires Consistent(u) && Fork(u, r, a, x, y, y')
    ensures FreshFeed(u, r, [x, y, y']) && a !in [x, y, y'] && a != r
  {
    ForkLengths(u, r, a, x, y, y');
  }

  const FORK_BLOCKS: Universe := map[
    "g" := Plain("g", "-", 1), "a" := Plain("a", "g", 2), "x" := Plain("x", "a", 3),
    "y" := Plain("y", "x", 4), "z" := Plain("z", "x", 4)]

  lemma {:induction false} ForkConsistent()
    ensures Consistent(FORK_BLOCKS)
  {
    var u := FORK_BLOCKS;
    assert Genesis(u) == "g" by { assert "g" in u && forall h :: h in u ==> u[h].genesisHash == "g"; }
    forall h | h in u ensures Linked(u, h) {
      assert h == "g" || h == "a" || h == "x" || h == "y" || h == "z";
      assert u[h].parentHash in u ==> u[h].length == u[u[h].parentHash].length + 1;
    }
  }

  lemma {:induction false} ForkForks()
    ensures Fork(FORK_BLOCKS, "g", "a", "x", "y", "z")
  {
    assert LexLess("y", "z");
  }

  /** Such a run exists. */
  lemma {:induction false} ForkExample(step: Step, l: Ledger)
    ensures !Optimal(FORK_BLOCKS,
                     Run(step, SETTINGS, FORK_BLOCKS, Initial(FORK_BLOCKS, "g", l), ["x", "y", "z", "a"]).state)
  {
    ForkConsistent();
    ForkForks();
    MergeHidesBetterTip(step, SETTINGS, FORK_BLOCKS, "g", l, "a", "x", "y", "z");
  }
}
