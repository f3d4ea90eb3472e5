/** Which settings are safe over all runs, and runs that show what goes wrong. */
module WitnessSettings {
  import opened Accounts
  import opened Blocks
  import opened Ledgers
  import opened WitnessTree
  import opened WitnessForest
  import opened WitnessRuns
  import opened WitnessChains
  import opened DeepReorgs
  import opened NamedChains
  import opened SideDiffs
  import opened LedgerBatches

  // -------------------------------------------------------------- deep reorgs

  const COINBASE: LedgerDiff := [[Coinbase("pk", 1)]]

  lemma {:induction false} CoinbaseChanges(l: Ledger)
    requires Normal(l)
    ensures ApplyDiff(Applied, l, COINBASE) != l
  {
    var d := Coinbase("pk", 1);
    assert COINBASE == [[d]] && Flatten([[d]]) == [d] by { assert [[d]][1..] == [] && [d] + [] == [d]; }
    StepsKeepKey();
    assert [d][..0] == [];
    assert ApplyDiffs(Applied, l, [d]) == ApplyAccountDiff(Applied, l, d);
    ApplyAccountDiffGet(Applied, l, d, MINA_TOKEN, "pk");
  }

  /** With the shipped settings, eleven blocks above the root and then twelve others: the report
      starts at the root, and the ledger keeps the coinbase of the branch that was left. */
  lemma {:induction false} DeepReorgExample(l: Ledger)
    requires Normal(l)
    ensures var u, a, b := ThreeChains(11, "a", COINBASE), NamedChain('a', 11), NamedChain('b', 12);
            var s := Run(Applied, SETTINGS, u, Initial(u, "r", l), After(a, b, 11)).state;
            var o := Feed(Applied, SETTINGS, u, s, b[11]);
            && Consistent(u) && FreshFeed(u, "r", After(a, b, 12))
            && !NoDeepReorg(u, s, b[11]) && o.canonical == ["r", "b", "bb"]
            && o.state.ledger != LedgerAt(Applied, u, "r", l, o.state.canonicalRoot)
  {
    var u, a, b := ThreeChains(11, "a", COINBASE), NamedChain('a', 11), NamedChain('b', 12);
    NamedFork("a", u);
    PayerPays(11, "a", 'a');
    FirstNamed(11);
    ElevenReport(u, "r", l, a, b);
    ElevenLedger(u, "r", l, a, b);
  }

  lemma {:induction false} NamedFork(payer: StateHash, u: Universe)
    requires u == ThreeChains(11, payer, COINBASE)
    ensures Consistent(u) && ForkedTwice(u, "r", NamedChain('a', 11), NamedChain('b', 12), ThirdNamed(12))
  {
    ThreeChainsHas(11, payer, COINBASE);
    NamesForkTwice(u, 11);
  }

  lemma {:induction false} FirstNamed(n: nat)
    requires n >= 1
    ensures NamedChain('a', n)[0] == "a" && NamedChain('b', n + 1)[0] == "b" && NamedChain('b', n + 1)[1] == "bb"
  {}

  lemma {:induction false} ElevenReport(u: Universe, r: StateHash, l: Ledger, a: seq<StateHash>, b: seq<StateHash>)
    requires Consistent(u) && Forked(u, r, a, b) && |a| == 11
    ensures var s := Run(Applied, SETTINGS, u, Initial(u, r, l), After(a, b, 11)).state;
            !NoDeepReorg(u, s, b[11]) && Feed(Applied, SETTINGS, u, s, b[11]).canonical == [r, b[0], b[1]]
    ensures FreshFeed(u, r, After(a, b, 12))
  {
    ShippedThresholdsValid(MAINNET_TRANSITION_FRONTIER_K, PRUNE_INTERVAL_DEFAULT);
    DeepReorgReachable(Applied, SETTINGS, u, r, l, a, b);
    assert b[..2] == [b[0], b[1]];
    ChainFresh(u, r, a);
    ForkFeedFresh(u, r, a, b, a, 12);
  }

  lemma {:induction false} ElevenLedger(u: Universe, r: StateHash, l: Ledger, a: seq<StateHash>, b: seq<StateHash>)
    requires Normal(l) && Consistent(u) && Forked(u, r, a, b) && |a| == 11
    requires a[0] in u && OnlyPays(u, a[0]) && u[a[0]].diff == COINBASE
    ensures var s := Run(Applied, SETTINGS, u, Initial(u, r, l), After(a, b, 11)).state;
            var s' := Feed(Applied, SETTINGS, u, s, b[11]).state;
            s'.ledger != LedgerAt(Applied, u, r, l, s'.canonicalRoot)
  {
    ShippedThresholdsValid(MAINNET_TRANSITION_FRONTIER_K, PRUNE_INTERVAL_DEFAULT);
    CoinbaseChanges(l);
    DeepReorgSpoilsLedger(Applied, SETTINGS, u, r, l, a, b);
  }

  lemma {:induction false} PayerPays(n: nat, payer: StateHash, letter: char)
    requires n >= 1 && letter in {'a', 'b'} && payer == Name(letter, 1)
    ensures var u := ThreeChains(n, payer, COINBASE); payer in u && u[payer].diff == COINBASE && OnlyPays(u, payer)
  {
    NamedParent(n, payer, COINBASE, letter, 1);
    BlockIs(n, payer, COINBASE, payer);
  }

  /** With the shipped settings, twelve more blocks above the first of those twelve: its coinbase
      is paid a second time. */
  lemma {:induction false} PaidTwiceExample(l: Ledger)
    requires Normal(l)
    ensures var u := ThreeChains(11, "b", COINBASE);
            var hs := Threefold(NamedChain('a', 11), NamedChain('b', 12), ThirdNamed(12), 12);
            var s := Run(Applied, SETTINGS, u, Initial(u, "r", l), hs).state;
            && Consistent(u) && FreshFeed(u, "r", hs)
            && LedgerAt(Applied, u, "r", l, s.canonicalRoot) == ApplyDiff(Applied, l, COINBASE)
            && s.ledger == ApplyDiff(Applied, ApplyDiff(Applied, l, COINBASE), COINBASE)
            && s.ledger != LedgerAt(Applied, u, "r", l, s.canonicalRoot)
  {
    var u := ThreeChains(11, "b", COINBASE);
    NamedFork("b", u);
    PayerPays(11, "b", 'b');
    FirstNamed(11);
    ElevenTwice(u, "r", l, NamedChain('a', 11), NamedChain('b', 12), ThirdNamed(12));
  }

  lemma {:induction false} ElevenTwice(u: Universe, r: StateHash, l: Ledger, a: seq<StateHash>, b: seq<StateHash>,
                                       q: seq<StateHash>)
    requires Normal(l) && Consistent(u) && ForkedTwice(u, r, a, b, q) && |a| == 11
    requires b[0] in u && OnlyPays(u, b[0]) && u[b[0]].diff == COINBASE
    ensures var s := Run(Applied, SETTINGS, u, Initial(u, r, l), Threefold(a, b, q, 12)).state;
            && LedgerAt(Applied, u, r, l, s.canonicalRoot) == ApplyDiff(Applied, l, COINBASE)
            && s.ledger == ApplyDiff(Applied, ApplyDiff(Applied, l, COINBASE), COINBASE)
            && s.ledger != LedgerAt(Applied, u, r, l, s.canonicalRoot)
    ensures FreshFeed(u, r, Threefold(a, b, q, 12))
  {
    ShippedThresholdsValid(MAINNET_TRANSITION_FRONTIER_K, PRUNE_INTERVAL_DEFAULT);
    ThreefoldFresh(u, r, a, b, q);
    PaidTwice(Applied, SETTINGS, u, r, l, a, b, q);
    StepsKeepKey();
    ApplyDiffsNormal(Applied, l, Flatten(COINBASE));
    CoinbaseChanges(ApplyDiff(Applied, l, COINBASE));
  }

  /** With the shipped settings, the same two chains, the first block of the second early: its
      coinbase is never paid. */
  lemma {:induction false} MissingExample(l: Ledger)
    requires Normal(l)
    ensures var u, a, b := ThreeChains(11, "b", COINBASE), NamedChain('a', 11), NamedChain('b', 12);
            var hs := WithRest(a, b) + [b[11]];
            var s := Run(Applied, SETTINGS, u, Initial(u, "r", l), hs).state;
            && Consistent(u) && FreshFeed(u, "r", hs)
            && s.ledger == l && s.ledger != LedgerAt(Applied, u, "r", l, s.canonicalRoot)
  {
    var u, a, b := ThreeChains(11, "b", COINBASE), NamedChain('a', 11), NamedChain('b', 12);
    NamedFork("b", u);
    PayerPays(11, "b", 'b');
    FirstNamed(11);
    ElevenMissing(u, "r", l, a, b);
  }

  lemma {:induction false} ElevenMissing(u: Universe, r: StateHash, l: Ledger, a: seq<StateHash>, b: seq<StateHash>)
    requires Normal(l) && Consistent(u) && Forked(u, r, a, b) && |a| == 11
    requires b[0] in u && OnlyPays(u, b[0]) && u[b[0]].diff == COINBASE
    ensures var hs := WithRest(a, b) + [b[11]];
            var s := Run(Applied, SETTINGS, u, Initial(u, r, l), hs).state;
            FreshFeed(u, r, hs) && s.ledger == l && s.ledger != LedgerAt(Applied, u, r, l, s.canonicalRoot)
  {
    ShippedThresholdsValid(MAINNET_TRANSITION_FRONTIER_K, PRUNE_INTERVAL_DEFAULT);
    ChainBlock(u, r, a, 10);
    ChainBlock(u, r, b, 1);
    BeatsOrder(u, a[9], b[0], r);
    CoinbaseChanges(l);
    SideDiffMissing(Applied, SETTINGS, u, r, l, a, b);
    NeverReceived(Applied, SETTINGS, u, r, l, a, b);
  }

  // ------------------------------------------------------- a batch of two blocks

  lemma {:induction false} BatchOfTwo(c: Config, u: Universe, r: StateHash, a: seq<StateHash>, n: nat, e: State)
    requires c.updateThreshold <= c.confirmations <= n && |a| == n + 2 && Consistent(u) && IsChain(u, r, a)
    requires AtTip(u, r, a, n + 2, n - c.confirmations, e)
    ensures Report(c, u, e) == [BlockAt(r, a, n + 1 - c.confirmations), BlockAt(r, a, n + 2 - c.confirmations)]
    ensures RootSound(u, e) && Anchored(c, u, e) && Len(u, e.bestTip) == Len(u, BlockAt(r, a, n)) + 2
  {
    var d := n - c.confirmations;
    ChainBlock(u, r, a, n);
    ChainBlock(u, r, a, n + 2);
    UpdateAlong(c, u, r, a, n + 2, d, e);
    assert a[d..d + 2] == [a[d], a[d + 1]];
  }

  lemma {:induction false} LateRun(step: Step, c: Config, u: Universe, r: StateHash, l: Ledger, a: seq<StateHash>,
                                   n: nat)
    requires ValidConfig(c) && c.updateThreshold <= c.confirmations <= n && |a| == n + 2 < c.pruneHeight
    requires Consistent(u) && IsChain(u, r, a)
    ensures var s := Run(step, c, u, Initial(u, r, l), Around(a, n, |a|)).state;
            && ExtendsRoot(u, s, a[n]) && s.bestTip == BlockAt(r, a, n)
            && AtTip(u, r, a, n + 2, n - c.confirmations, Extended(u, s, a[n]))
    ensures FreshFeed(u, r, LateBlock(a, n)) && Shallow(step, c, u, Initial(u, r, l), LateBlock(a, n))
  {
    LateFresh(u, r, a, n);
    FollowedClosely(c, n);
    JumpRun(step, c, u, r, l, a, n);
  }

  /** The last block but one of a chain comes last: the best tip rises by two, two blocks are
      reported at once, and both are given the ledger of the second. */
  lemma {:induction false} DoubleRise(step: Step, c: Config, u: Universe, r: StateHash, l: Ledger, a: seq<StateHash>,
                                      n: nat)
    requires ValidConfig(c) && c.updateThreshold <= c.confirmations <= n && |a| == n + 2 < c.pruneHeight
    requires Consistent(u) && IsChain(u, r, a)
    ensures var s := Run(step, c, u, Initial(u, r, l), Around(a, n, |a|)).state;
            var e := Extended(u, s, a[n]);
            && ExtendsRoot(u, s, a[n]) && Len(u, e.bestTip) == Len(u, s.bestTip) + 2
            && Report(c, u, e) == [BlockAt(r, a, n + 1 - c.confirmations), BlockAt(r, a, n + 2 - c.confirmations)]
            && UpdateCanonical(step, c, u, e).ledger == LedgerAt(step, u, r, l, BlockAt(r, a, n + 2 - c.confirmations))
  {
    var hs := Around(a, n, |a|);
    var e := Extended(u, Run(step, c, u, Initial(u, r, l), hs).state, a[n]);
    LateRun(step, c, u, r, l, a, n);
    BatchOfTwo(c, u, r, a, n, e);
    AsideLedger(step, c, u, r, l, hs, a[n]);
    UpdateLedgerIsLast(step, c, u, r, l, e);
  }

  lemma {:induction false} AsideLedger(step: Step, c: Config, u: Universe, r: StateHash, l: Ledger, hs: seq<StateHash>,
                                       h: StateHash)
    requires ValidConfig(c) && c.updateThreshold <= c.confirmations && Consistent(u) && r in u
    requires FreshFeed(u, r, hs + [h])
    requires Shallow(step, c, u, Initial(u, r, l), hs + [h])
    requires ExtendsRoot(u, Run(step, c, u, Initial(u, r, l), hs).state, h)
    ensures var e := Extended(u, Run(step, c, u, Initial(u, r, l), hs).state, h);
            DiffsKept(u, e) && LedgerExact(step, u, r, l, e)
  {
    var s := Run(step, c, u, Initial(u, r, l), hs).state;
    assert (hs + [h])[..|hs|] == hs && (hs + [h])[|hs|] == h;
    ShallowOne(step, c, u, Initial(u, r, l), hs, h);
    FreshPrefix(u, r, hs + [h]);
    RunKeepsForest(step, c, u, r, l, hs);
    RunKeepsLedger(step, c, u, r, l, hs);
    NextIsFresh(u, r, hs + [h], s);
    ExtendedDiffsKept(u, s, h);
  }

  lemma {:induction false} DoubleRiseStoresWrong(c: Config, u: Universe, r: StateHash, l: Ledger, a: seq<StateHash>,
                                                 n: nat, cadence: nat)
    requires ValidConfig(c) && c.updateThreshold <= c.confirmations <= n && |a| == n + 2 < c.pruneHeight
    requires Consistent(u) && IsChain(u, r, a) && cadence > 0 && Len(u, a[n - c.confirmations]) % cadence == 0
    requires var y := a[n + 1 - c.confirmations]; OnlyPays(u, y) && y in u && u[y].diff == COINBASE && Normal(l)
    ensures !StoredExactly(Applied, c, u, r, l,
                           Extended(u, Run(Applied, c, u, Initial(u, r, l), Around(a, n, |a|)).state, a[n]), cadence)
  {
    var t := n + 1 - c.confirmations;
    var e := Extended(u, Run(Applied, c, u, Initial(u, r, l), Around(a, n, |a|)).state, a[n]);
    DoubleRise(Applied, c, u, r, l, a, n);
    PaidAt(u, r, a, t + 1, l);
    StoresWrong(Applied, c, u, r, l, e, cadence, BlockAt(r, a, t), BlockAt(r, a, t + 1));
  }

  lemma {:induction false} StoresWrong(step: Step, c: Config, u: Universe, r: StateHash, l: Ledger, e: State,
                                       cadence: nat, x: StateHash, y: StateHash)
    requires cadence > 0 && Report(c, u, e) == [x, y] && Len(u, x) % cadence == 0
    requires UpdateCanonical(step, c, u, e).ledger != LedgerAt(step, u, r, l, x)
    ensures !StoredExactly(step, c, u, r, l, e, cadence)
  {
    assert Report(c, u, e)[0] == x;
  }

  /** With the shipped settings the ledger stored at length 100 is then wrong if the next block
      pays anything. */
  lemma {:induction false} WrongLedgerExample(l: Ledger)
    requires Normal(l)
    ensures var u, a := ThreeChains(110, Name('a', 100), COINBASE), NamedChain('a', 110);
            var s := Run(Applied, SETTINGS, u, Initial(u, "r", l), Around(a, 108, |a|)).state;
            && Consistent(u) && FreshFeed(u, "r", LateBlock(a, 108))
            && !StoredExactly(Applied, SETTINGS, u, "r", l, Extended(u, s, a[108]), LEDGER_CADENCE)
  {
    var u, a := ThreeChains(110, Name('a', 100), COINBASE), NamedChain('a', 110);
    ThreeChainsHas(110, Name('a', 100), COINBASE);
    NamedIsChain(u, 110, 'a', 110);
    NamedParent(110, Name('a', 100), COINBASE, 'a', 100);
    ShippedThresholdsValid(MAINNET_TRANSITION_FRONTIER_K, PRUNE_INTERVAL_DEFAULT);
    LateFresh(u, "r", a, 108);
    NameHas(110, Name('a', 100), COINBASE, 1);
    ChainBlock(u, "r", a, 99);
    DoubleRiseStoresWrong(SETTINGS, u, "r", l, a, 108, LEDGER_CADENCE);
  }

  lemma {:induction false} PaidAt(u: Universe, r: StateHash, a: seq<StateHash>, n: nat, l: Ledger)
    requires Consistent(u) && IsChain(u, r, a) && 0 < n <= |a| && Normal(l)
    requires OnlyPays(u, a[n - 1]) && a[n - 1] in u && u[a[n - 1]].diff == COINBASE
    ensures LedgerAt(Applied, u, r, l, BlockAt(r, a, n)) != LedgerAt(Applied, u, r, l, BlockAt(r, a, n - 1))
  {
    ChainDescends(u, r, a, 0, n);
    ChainDescends(u, r, a, 0, n - 1);
    assert a[0..n][..n - 1] == a[0..n - 1];
    if a[n - 1] in a[0..n - 1] {
      var k :| 0 <= k < n - 1 && a[k] == a[n - 1];
      ChainBlock(u, r, a, k + 1);
      ChainBlock(u, r, a, n);
    }
    NothingPaid(Applied, u, l, a[0..n - 1], a[n - 1]);
    CoinbaseChanges(l);
  }

  // -------------------------------------------------------------- safe settings

  /** A run, and what it does to the canonical root. */
  ghost predicate RootKept(step: Step, c: Config, u: Universe, r: StateHash, l: Ledger, hs: seq<StateHash>) {
    Consistent(u) && r in u && FreshFeed(u, r, hs) ==>
      var s := Run(step, c, u, Initial(u, r, l), hs).state; s.canonicalRoot in s.root.hashes
  }

  ghost predicate RootAlwaysKept(c: Config) {
    forall step: Step, u: Universe, r: StateHash, l: Ledger, hs: seq<StateHash>
      {:trigger RootKept(step, c, u, r, l, hs)} ::
      RootKept(step, c, u, r, l, hs)
  }

  /** No run loses the canonical root precisely if the update threshold exceeds the confirmations
      by at most one. */
  lemma {:induction false} RootAlwaysKeptIff(c: Config)
    requires ValidConfig(c)
    ensures RootAlwaysKept(c) <==> c.updateThreshold <= c.confirmations + 1
  {
    if c.updateThreshold <= c.confirmations + 1 {
      forall step: Step, u: Universe, r: StateHash, l: Ledger, hs: seq<StateHash>
        ensures RootKept(step, c, u, r, l, hs)
      {
        if Consistent(u) && r in u && FreshFeed(u, r, hs) { RunKeepsForest(step, c, u, r, l, hs); }
      }
    } else {
      var u, r, a, b := SomeFork(c.pruneHeight - 1);
      LosingFeedFresh(u, r, a, b);
      CanonicalRootLost(Applied, c, u, r, map[], a, b);
      assert !RootKept(Applied, c, u, r, map[], After(LateBlock(a, 0), b, |b|));
    }
  }

  /** If the next block of a run makes pruning due, the best tip has ancestors to spare for the
      new root and for the block below it, and the latter is not the root of the tree. */
  ghost predicate UnwrapsHold(step: Step, c: Config, u: Universe, r: StateHash, l: Ledger, hs: seq<StateHash>,
                              h: StateHash) {
    var s := Run(step, c, u, Initial(u, r, l), hs).state;
    var e := Extended(u, s, h);
    Consistent(u) && r in u && FreshFeed(u, r, hs + [h]) && ExtendsRoot(u, s, h) &&
      Levels(u, e.root) > c.pruneHeight ==>
      1 <= c.k && c.k + 2 <= Depth(u, e)
  }

  ghost predicate UnwrapsAlwaysHold(c: Config) {
    forall step: Step, u: Universe, r: StateHash, l: Ledger, hs: seq<StateHash>, h: StateHash
      {:trigger UnwrapsHold(step, c, u, r, l, hs, h)} :: UnwrapsHold(step, c, u, r, l, hs, h)
  }

  lemma {:induction false} PruneDueInRun(step: Step, c: Config, u: Universe, r: StateHash, l: Ledger,
                                         hs: seq<StateHash>, h: StateHash)
    requires 1 <= c.k && c.k + 2 <= c.pruneHeight
    ensures UnwrapsHold(step, c, u, r, l, hs, h)
  {
    if Consistent(u) && r in u && FreshFeed(u, r, hs + [h]) {
      var s := Run(step, c, u, Initial(u, r, l), hs).state;
      assert (hs + [h])[..|hs|] == hs && (hs + [h])[|hs|] == h;
      FreshPrefix(u, r, hs + [h]);
      RunKeepsTrees(step, c, u, r, l, hs);
      NextIsFresh(u, r, hs + [h], s);
      ExtendedForest(u, s, h);
      PruneDue(c, u, Extended(u, s, h));
    }
  }

  /** One more block on a chain that was fed in order. */
  lemma {:induction false} LinearEnd(step: Step, c: Config, u: Universe, r: StateHash, l: Ledger, a: seq<StateHash>,
                                     n: nat)
    requires Consistent(u) && IsChain(u, r, a) && n < |a| && (n == 0 || n < c.pruneHeight)
    ensures var s := Run(step, c, u, Initial(u, r, l), a[..n]).state;
            ExtendsRoot(u, s, a[n]) && RootSound(u, Extended(u, s, a[n])) && Depth(u, Extended(u, s, a[n])) == n + 1
  {
    var s := Run(step, c, u, Initial(u, r, l), a[..n]).state;
    LinearRun(step, c, u, r, l, a, n);
    ExtendAlong(c, u, r, a, n, CanonDepth(c, n), s);
    JumpDeep(c, n, n + 1);
    AlongSound(c, u, r, a, n + 1, CanonDepth(c, n), Extended(u, s, a[n]));
  }

  lemma {:induction false} PruneTooEarly(step: Step, c: Config, u: Universe, r: StateHash, l: Ledger, a: seq<StateHash>,
                                         n: nat)
    requires !(1 <= c.k && c.k + 2 <= c.pruneHeight) && Consistent(u) && IsChain(u, r, a)
    requires |a| == n + 1 && c.pruneHeight <= n + 1 && (n == 0 || n < c.pruneHeight)
    ensures !UnwrapsAlwaysHold(c)
  {
    LinearEnd(step, c, u, r, l, a, n);
    ChainFresh(u, r, a);
    assert a[..n] + [a[n]] == a;
    UnwrapFails(step, c, u, r, l, a[..n], a[n]);
  }

  lemma {:induction false} UnwrapFails(step: Step, c: Config, u: Universe, r: StateHash, l: Ledger, hs: seq<StateHash>,
                                       h: StateHash)
    requires Consistent(u) && r in u && FreshFeed(u, r, hs + [h])
    requires ExtendsRoot(u, Run(step, c, u, Initial(u, r, l), hs).state, h)
    requires var e := Extended(u, Run(step, c, u, Initial(u, r, l), hs).state, h);
             RootSound(u, e) && c.pruneHeight <= Depth(u, e) && !(1 <= c.k && c.k + 2 <= Depth(u, e))
    ensures !UnwrapsAlwaysHold(c)
  {
    LevelsAre(u, Extended(u, Run(step, c, u, Initial(u, r, l), hs).state, h));
    assert !UnwrapsHold(step, c, u, r, l, hs, h);
  }

  lemma {:induction false} SomeUnwrapFails(c: Config)
    requires !(1 <= c.k && c.k + 2 <= c.pruneHeight)
    ensures !UnwrapsAlwaysHold(c)
  {
    var n := if c.pruneHeight == 0 then 0 else c.pruneHeight - 1;
    var u, r, a, _ := SomeFork(n + 1);
    PruneTooEarly(Applied, c, u, r, map[], a, n);
  }

  /** The unwraps of the pruning code are safe in all runs precisely if the height at which it
      prunes is at least `k` + 2, and `k` is not zero. */
  lemma {:induction false} UnwrapsAlwaysHoldIff(c: Config)
    ensures UnwrapsAlwaysHold(c) <==> 1 <= c.k && c.k + 2 <= c.pruneHeight
  {
    if 1 <= c.k && c.k + 2 <= c.pruneHeight {
      forall step: Step, u: Universe, r: StateHash, l: Ledger, hs: seq<StateHash>, h: StateHash
        ensures UnwrapsHold(step, c, u, r, l, hs, h)
      {
        PruneDueInRun(step, c, u, r, l, hs, h);
      }
    } else {
      SomeUnwrapFails(c);
    }
  }
}
