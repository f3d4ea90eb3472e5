/** A run in which a deep reorg misses a block: its diff was dropped while it lay beside the
    canonical chain. */
module SideDiffs {
  import opened Accounts
  import opened Blocks
  import opened Ledgers
  import opened WitnessTree
  import opened WitnessForest
  import opened WitnessRuns
  import opened WitnessChains
  import opened LedgerLogs
  import opened DeepReorgs

  /** Two chains, the first of `confirmations` + 1 blocks, with its last block but one preferred to
      the first block of the other. */
  ghost predicate EarlyFork(c: Config, u: Universe, r: StateHash, a: seq<StateHash>, b: seq<StateHash>) {
    && Forked(u, r, a, b) && |a| == c.confirmations + 1 < c.pruneHeight && 1 <= c.confirmations
    && c.updateThreshold <= c.confirmations && Beats(u, a[c.confirmations - 1], b[0])
  }

  /** The first chain up to its last block but one, the first block of the second, and the last
      block of the first. */
  ghost function Interleaved(a: seq<StateHash>, b: seq<StateHash>): seq<StateHash>
    requires a != [] && b != []
  {
    a[..|a| - 1] + [b[0]] + [a[|a| - 1]]
  }

  ghost function SideTree(r: StateHash, a: seq<StateHash>, b: seq<StateHash>, n: nat): View
    requires n <= |a| && b != []
  {
    View(r, UpTo(r, a, n) + {b[0]})
  }

  /** The chain `a` up to block `n`, with the first block of `b` beside it. */
  ghost predicate BesideFirst(u: Universe, r: StateHash, a: seq<StateHash>, b: seq<StateHash>, n: nat, d: nat,
                              s: State) {
    && d <= n <= |a| && b != [] && s.root == SideTree(r, a, b, n) && s.dangling == []
    && s.bestTip == BlockAt(r, a, n) && s.canonicalRoot == BlockAt(r, a, d)
  }

  lemma {:induction false} SideRooted(u: Universe, r: StateHash, a: seq<StateHash>, b: seq<StateHash>, n: nat)
    requires Consistent(u) && Forked(u, r, a, b) && 1 <= n <= |a|
    ensures Rooted(u, SideTree(r, a, b, n)) && IsTop(u, SideTree(r, a, b, n).hashes, BlockAt(r, a, n))
  {
    ChainRooted(u, r, a, n);
    ChainBlock(u, r, a, n);
    ChainBlock(u, r, b, 1);
    assert LinkAt(u, r, b, 0);
  }

  lemma {:induction false} SideSound(c: Config, u: Universe, r: StateHash, a: seq<StateHash>, b: seq<StateHash>,
                                     n: nat, d: nat, s: State)
    requires Consistent(u) && Forked(u, r, a, b) && 1 <= n && BesideFirst(u, r, a, b, n, d, s) && Deep(c, n, d)
    ensures RootSound(u, s) && Anchored(c, u, s) && Depth(u, s) == n && Descends(u, s.canonicalRoot, s.bestTip)
    ensures CanonicalUpdatable(c, u, s) <==> n - d >= c.updateThreshold
  {
    SideRooted(u, r, a, b, n);
    ChainBlock(u, r, a, n);
    ChainBlock(u, r, a, d);
    UpToHas(r, a, d, n);
    ChainDescends(u, r, a, d, n);
  }

  /** Where the canonical root goes from there. */
  lemma {:induction false} SideRoot(c: Config, u: Universe, r: StateHash, a: seq<StateHash>, b: seq<StateHash>,
                                    n: nat, d: nat, s: State)
    requires Consistent(u) && Forked(u, r, a, b) && 1 <= n && BesideFirst(u, r, a, b, n, d, s) && Deep(c, n, d)
    ensures d <= Moved(c, n, d) <= n && RootAfter(c, u, s) == BlockAt(r, a, Moved(c, n, d))
    ensures Moved(c, n, d) == d ==> Report(c, u, s) == []
  {
    SideSound(c, u, r, a, b, n, d, s);
    RootMovesTo(c, u, r, a, n, d, s);
    ReportIsThePath(c, u, s);
    ChainDescends(u, r, a, d, Moved(c, n, d));
    assert a[d..d] == [];
  }

  // ----------------------------------------------------------- the first side block

  lemma {:induction false} SideExtends(c: Config, u: Universe, r: StateHash, a: seq<StateHash>, b: seq<StateHash>,
                                       s: State)
    requires Consistent(u) && EarlyFork(c, u, r, a, b) && AtTip(u, r, a, c.confirmations, 0, s)
    ensures Accepted(u, s, b[0]) && ExtendsRoot(u, s, b[0]) && NoDeepReorg(u, s, b[0])
    ensures BesideFirst(u, r, a, b, c.confirmations, 0, Extended(u, s, b[0])) && b[0] in Extended(u, s, b[0]).diffs
  {
    AlongSound(c, u, r, a, c.confirmations, 0, s);
    assert LinkAt(u, r, b, 0);
    SideOutside(c, u, r, a, b);
    OnTop(c, u, s, b[0]);
    ChainBlock(u, r, a, c.confirmations);
    BeatsOrder(u, BlockAt(r, a, c.confirmations), b[0], r);
  }

  lemma {:induction false} SideOutside(c: Config, u: Universe, r: StateHash, a: seq<StateHash>, b: seq<StateHash>)
    requires Consistent(u) && EarlyFork(c, u, r, a, b)
    ensures r in UpTo(r, a, c.confirmations) && b[0] !in UpTo(r, a, c.confirmations)
  {
    FirstOutside(u, r, a, b);
    UpToNext(r, a, c.confirmations);
  }

  lemma {:induction false} SideFed(step: Step, c: Config, u: Universe, r: StateHash, a: seq<StateHash>,
                                   b: seq<StateHash>, s: State)
    requires Consistent(u) && EarlyFork(c, u, r, a, b) && AtTip(u, r, a, c.confirmations, 0, s)
    ensures var s' := Feed(step, c, u, s, b[0]).state;
            BesideFirst(u, r, a, b, c.confirmations, 0, s') && b[0] in s'.diffs
    ensures NoDeepReorg(u, s, b[0])
  {
    var e := Extended(u, s, b[0]);
    SideExtends(c, u, r, a, b, s);
    SideSound(c, u, r, a, b, c.confirmations, 0, e);
    SideRoot(c, u, r, a, b, c.confirmations, 0, e);
    SettleUnpruned(step, c, u, e);
    UpdateIdle(step, c, u, e);
  }

  // -------------------------------------------------- the canonical root passes it

  lemma {:induction false} NextOutside(c: Config, u: Universe, r: StateHash, a: seq<StateHash>, b: seq<StateHash>,
                                       n: nat)
    requires Consistent(u) && Forked(u, r, a, b) && n < |a|
    ensures var hs := SideTree(r, a, b, n).hashes;
            && a[n] in u && u[a[n]].parentHash in hs && a[n] !in hs
            && hs + {a[n]} == SideTree(r, a, b, n + 1).hashes
  {
    assert LinkAt(u, r, a, n);
    UpToHas(r, a, n, n);
    NotYet(u, r, a, n, n + 1);
    FirstOutside(u, r, a, b);
    UpToHas(r, a, n + 1, |a|);
    UpToNext(r, a, n);
  }

  lemma {:induction false} PassExtends(c: Config, u: Universe, r: StateHash, a: seq<StateHash>, b: seq<StateHash>,
                                       s: State)
    requires Consistent(u) && EarlyFork(c, u, r, a, b) && BesideFirst(u, r, a, b, c.confirmations, 0, s)
    ensures var h := a[c.confirmations];
            && Accepted(u, s, h) && ExtendsRoot(u, s, h) && NoDeepReorg(u, s, h)
            && BesideFirst(u, r, a, b, c.confirmations + 1, 0, Extended(u, s, h))
  {
    var n := c.confirmations;
    SideRooted(u, r, a, b, n);
    NextOutside(c, u, r, a, b, n);
    OnTop(c, u, s, a[n]);
    NextPreferred(u, r, a, n);
  }

  lemma {:induction false} NextPreferred(u: Universe, r: StateHash, a: seq<StateHash>, n: nat)
    requires Consistent(u) && IsChain(u, r, a) && n < |a|
    ensures Prefer(u, BlockAt(r, a, n), a[n]) == a[n] && Descends(u, r, a[n])
  {
    ChainBlock(u, r, a, n);
    ChainBlock(u, r, a, n + 1);
    BeatsOrder(u, a[n], BlockAt(r, a, n), r);
    ChainDescends(u, r, a, 0, n + 1);
  }

  /** Its diff goes, since it is not above the new canonical root. */
  lemma {:induction false} SideDropped(c: Config, u: Universe, r: StateHash, a: seq<StateHash>, b: seq<StateHash>,
                                       e: State)
    requires Consistent(u) && EarlyFork(c, u, r, a, b) && BesideFirst(u, r, a, b, |a|, 0, e)
    ensures b[0] !in PrunedDiffs(u, e, a[0])
  {
    ChainBlock(u, r, a, 1);
    ChainBlock(u, r, b, 1);
    ChainDescends(u, r, b, 0, 1);
    assert Settled(u, e, a[0], b[0]);
  }

  lemma {:induction false} PassFed(step: Step, c: Config, u: Universe, r: StateHash, a: seq<StateHash>,
                                   b: seq<StateHash>, s: State)
    requires Consistent(u) && EarlyFork(c, u, r, a, b) && BesideFirst(u, r, a, b, c.confirmations, 0, s)
    ensures var s' := Feed(step, c, u, s, a[c.confirmations]).state;
            BesideFirst(u, r, a, b, |a|, 1, s') && b[0] !in s'.diffs
    ensures NoDeepReorg(u, s, a[c.confirmations])
  {
    var e := Extended(u, s, a[c.confirmations]);
    PassExtends(c, u, r, a, b, s);
    SideSound(c, u, r, a, b, |a|, 0, e);
    SideRoot(c, u, r, a, b, |a|, 0, e);
    SideDropped(c, u, r, a, b, e);
    SettleUnpruned(step, c, u, e);
    UpdateKeepsForest(step, c, u, e);
  }

  // ---------------------------------------------------------------- the whole run

  lemma {:induction false} RunTwo(step: Step, c: Config, u: Universe, s: State, hs: seq<StateHash>, x: StateHash,
                                  y: StateHash)
    ensures var t := Run(step, c, u, s, hs).state;
            var t' := Feed(step, c, u, t, x).state;
            && Run(step, c, u, s, hs + [x] + [y]).state == Feed(step, c, u, t', y).state
            && (Shallow(step, c, u, s, hs + [x] + [y]) <==>
                Shallow(step, c, u, s, hs) && NoDeepReorg(u, t, x) && NoDeepReorg(u, t', y))
  {
    RunOne(step, c, u, s, hs, x);
    ShallowOne(step, c, u, s, hs, x);
    RunOne(step, c, u, s, hs + [x], y);
    ShallowOne(step, c, u, s, hs + [x], y);
  }

  lemma {:induction false} BothFed(step: Step, c: Config, u: Universe, r: StateHash, a: seq<StateHash>,
                                   b: seq<StateHash>, s: State)
    requires Consistent(u) && EarlyFork(c, u, r, a, b) && AtTip(u, r, a, c.confirmations, 0, s)
    ensures var t := Feed(step, c, u, s, b[0]).state;
            var t' := Feed(step, c, u, t, a[|a| - 1]).state;
            && BesideFirst(u, r, a, b, |a|, 1, t') && b[0] !in t'.diffs
            && NoDeepReorg(u, s, b[0]) && NoDeepReorg(u, t, a[|a| - 1])
  {
    SideFed(step, c, u, r, a, b, s);
    PassFed(step, c, u, r, a, b, Feed(step, c, u, s, b[0]).state);
  }

  lemma {:induction false} InterleavedRun(step: Step, c: Config, u: Universe, r: StateHash, l: Ledger,
                                          a: seq<StateHash>, b: seq<StateHash>)
    requires Consistent(u) && EarlyFork(c, u, r, a, b)
    ensures var s := Run(step, c, u, Initial(u, r, l), Interleaved(a, b)).state;
            BesideFirst(u, r, a, b, |a|, 1, s) && b[0] !in s.diffs
    ensures Shallow(step, c, u, Initial(u, r, l), Interleaved(a, b))
  {
    LinearRun(step, c, u, r, l, a, c.confirmations);
    FollowedClosely(c, c.confirmations);
    BothFed(step, c, u, r, a, b, Run(step, c, u, Initial(u, r, l), a[..|a| - 1]).state);
    RunTwo(step, c, u, Initial(u, r, l), a[..|a| - 1], b[0], a[|a| - 1]);
  }

  ghost function Tail(b: seq<StateHash>): seq<StateHash>
    requires b != []
  {
    b[1..]
  }

  lemma {:induction false} TailIsChain(u: Universe, r: StateHash, b: seq<StateHash>)
    requires Consistent(u) && IsChain(u, r, b) && b != []
    ensures IsChain(u, b[0], Tail(b))
  {
    ChainBlock(u, r, b, 1);
    var q := Tail(b);
    forall i: nat | i < |q| ensures LinkAt(u, b[0], q, i) { assert LinkAt(u, r, b, i + 1); }
  }

  lemma {:induction false} SideRests(c: Config, u: Universe, r: StateHash, a: seq<StateHash>, b: seq<StateHash>,
                                     s: State)
    requires Consistent(u) && EarlyFork(c, u, r, a, b) && BesideFirst(u, r, a, b, |a|, 1, s)
    ensures Resting(c, u, s) && Descends(u, s.canonicalRoot, s.bestTip)
  {
    SideSound(c, u, r, a, b, |a|, 1, s);
    SideRoot(c, u, r, a, b, |a|, 1, s);
  }

  lemma {:induction false} SideOutgrown(c: Config, u: Universe, r: StateHash, a: seq<StateHash>, b: seq<StateHash>,
                                        s: State)
    requires Consistent(u) && EarlyFork(c, u, r, a, b) && BesideFirst(u, r, a, b, |a|, 1, s)
    ensures Outgrows(u, s, b[0], Tail(b)) && !Descends(u, s.canonicalRoot, b[0])
  {
    TailIsChain(u, r, b);
    ChainBlock(u, r, a, |a|);
    ChainBlock(u, r, b, 1);
    ChainBlock(u, r, a, 1);
    RestOutside(c, u, r, a, b);
    if Descends(u, a[0], b[0]) { DescendsLength(u, a[0], b[0]); }
  }

  lemma {:induction false} RestOutside(c: Config, u: Universe, r: StateHash, a: seq<StateHash>, b: seq<StateHash>)
    requires Consistent(u) && EarlyFork(c, u, r, a, b)
    ensures b[1] !in SideTree(r, a, b, |a|).hashes
  {
    ChainBlock(u, r, b, 1);
    ChainBlock(u, r, b, 2);
    if b[1] in UpTo(r, a, |a|) {
      var i := UpToMember(r, a, |a|, b[1]);
      if i > 0 { Apart(u, r, a, b, i, 2); }
    }
  }

  lemma {:induction false} InterleavedFresh(c: Config, u: Universe, r: StateHash, a: seq<StateHash>,
                                            b: seq<StateHash>)
    requires Consistent(u) && EarlyFork(c, u, r, a, b)
    ensures FreshFeed(u, r, Interleaved(a, b)) && Elems(Interleaved(a, b)) <= SideTree(r, a, b, |a|).hashes
  {
    var first, n := a[..|a| - 1], |a| - 1;
    ChainFresh(u, r, a);
    assert forall i :: 0 <= i < |first| ==> first[i] == a[i];
    FirstOutside(u, r, a, b);
    ChainBlock(u, r, b, 1);
    assert a[..|a|] == a && a == first + [a[n]];
    FreshOneMore(u, r, first, b[0]);
    FreshOneMore(u, r, first + [b[0]], a[n]);
  }

  /** The rest of the second chain, up to its last block. */
  ghost function WithRest(a: seq<StateHash>, b: seq<StateHash>): seq<StateHash>
    requires a != [] && |b| >= 2
  {
    After(Interleaved(a, b), Tail(b), |Tail(b)| - 1)
  }

  lemma {:induction false} SideBefore(step: Step, c: Config, u: Universe, r: StateHash, l: Ledger, a: seq<StateHash>,
                                      b: seq<StateHash>, s: State)
    requires Consistent(u) && EarlyFork(c, u, r, a, b)
    requires s == Run(step, c, u, Initial(u, r, l), Interleaved(a, b)).state
    ensures var t := Run(step, c, u, Initial(u, r, l), WithRest(a, b)).state;
            Beside(s, Tail(b), |Tail(b)| - 1, t) && t.bestTip == s.bestTip
    ensures Shallow(step, c, u, Initial(u, r, l), WithRest(a, b))
  {
    InterleavedRun(step, c, u, r, l, a, b);
    SideRests(c, u, r, a, b, s);
    SideOutgrown(c, u, r, a, b, s);
    BesideRun(step, c, u, Initial(u, r, l), Interleaved(a, b), s, b[0], Tail(b), |Tail(b)| - 1);
    BesideLog(step, c, u, Initial(u, r, l), Interleaved(a, b), s, b[0], Tail(b), |Tail(b)| - 1);
  }

  lemma {:induction false} SideFeedFresh(c: Config, u: Universe, r: StateHash, a: seq<StateHash>, b: seq<StateHash>,
                                         q: seq<StateHash>)
    requires Consistent(u) && EarlyFork(c, u, r, a, b) && q == Tail(b)
    ensures FreshFeed(u, r, After(Interleaved(a, b), q, |q|))
  {
    InterleavedFresh(c, u, r, a, b);
    SideRooted(u, r, a, b, |a|);
    TailIsChain(u, r, b);
    RestOutside(c, u, r, a, b);
    BranchFresh(u, r, Interleaved(a, b), SideTree(r, a, b, |a|), b[0], q, |q|);
  }

  lemma {:induction false} WholeFeed(a: seq<StateHash>, b: seq<StateHash>)
    requires a != [] && |b| >= 2
    ensures After(Interleaved(a, b), Tail(b), |Tail(b)|) == WithRest(a, b) + [b[|b| - 1]]
  {
    AfterNext(Interleaved(a, b), Tail(b), |Tail(b)| - 1);
  }

  lemma {:induction false} FirstNotInTail(u: Universe, r: StateHash, b: seq<StateHash>)
    requires Consistent(u) && IsChain(u, r, b) && |b| >= 2
    ensures var q := Tail(b);
            && |q| == |b| - 1 && q[|q| - 1] == b[|b| - 1]
            && b[0] !in Stretch(q, 0, |q|) && b[1] in Stretch(q, 0, |q|)
  {
    var q := Tail(b);
    StretchHas(q, 0, |q|, 0);
    if b[0] in Stretch(q, 0, |q|) {
      var k := StretchMember(q, 0, |q|, b[0]);
      ChainBlock(u, r, b, k + 2);
      ChainBlock(u, r, b, 1);
    }
  }

  /** The second chain is now a branch above its first block that ends a deep reorg. */
  ghost predicate SideEnd(c: Config, u: Universe, r: StateHash, a: seq<StateHash>, b: seq<StateHash>, e: State)
    requires c.confirmations <= |a| && |b| >= 2
  {
    && e.root.root == r && e.bestTip == b[|b| - 1] && e.canonicalRoot == BlockAt(r, a, |a| - c.confirmations)
    && RootSound(u, e) && Anchored(c, u, e) && !Descends(u, e.canonicalRoot, e.bestTip)
    && b[0] !in e.diffs && b[1] in e.diffs
  }

  lemma {:induction false} SideBranch(c: Config, u: Universe, r: StateHash, a: seq<StateHash>, b: seq<StateHash>,
                                      q: seq<StateHash>, s: State, t: State, h: StateHash)
    requires c.confirmations <= |a| && |b| >= 2 && s.canonicalRoot == BlockAt(r, a, |a| - c.confirmations)
    requires b[0] !in s.diffs && s.root.root == r && h == b[|b| - 1] && q != [] && q[|q| - 1] == h
    requires b[0] !in Stretch(q, 0, |q|) && b[1] in Stretch(q, 0, |q|)
    requires Resting(c, u, s) && Outgrows(u, s, b[0], q) && !Descends(u, s.canonicalRoot, b[0])
    requires Beside(s, q, |q| - 1, t) && t.bestTip == s.bestTip
    ensures !NoDeepReorg(u, t, h) && SideEnd(c, u, r, a, b, Extended(u, t, h))
  {
    BranchDeep(c, u, s, b[0], q, t, h);
  }

  lemma {:induction false} SideMoves(c: Config, u: Universe, r: StateHash, a: seq<StateHash>, b: seq<StateHash>,
                                     e: State)
    requires Consistent(u) && EarlyFork(c, u, r, a, b) && SideEnd(c, u, r, a, b, e)
    ensures CanonicalUpdatable(c, u, e) && RootAfter(c, u, e) == b[1]
  {
    OvertakenRoot(c, u, r, a, b, e);
  }

  lemma {:induction false} SideReady(c: Config, u: Universe, r: StateHash, a: seq<StateHash>, b: seq<StateHash>,
                                     s: State)
    requires Consistent(u) && EarlyFork(c, u, r, a, b) && BesideFirst(u, r, a, b, |a|, 1, s)
    ensures Resting(c, u, s) && Outgrows(u, s, b[0], Tail(b)) && !Descends(u, s.canonicalRoot, b[0])
    ensures s.canonicalRoot == BlockAt(r, a, |a| - c.confirmations) && s.root.root == r
  {
    SideRests(c, u, r, a, b, s);
    SideOutgrown(c, u, r, a, b, s);
  }

  /** The state in which the last block of the second chain overtakes. */
  lemma {:induction false} SideDeep(c: Config, u: Universe, r: StateHash, a: seq<StateHash>, b: seq<StateHash>,
                                    q: seq<StateHash>, s: State, t: State, h: StateHash)
    requires Consistent(u) && EarlyFork(c, u, r, a, b) && BesideFirst(u, r, a, b, |a|, 1, s) && b[0] !in s.diffs
    requires q == Tail(b) && q != [] && q[|q| - 1] == h
    requires b[0] !in Stretch(q, 0, |q|) && b[1] in Stretch(q, 0, |q|)
    requires Beside(s, q, |q| - 1, t) && t.bestTip == s.bestTip && h == b[|b| - 1]
    ensures !NoDeepReorg(u, t, h) && SideEnd(c, u, r, a, b, Extended(u, t, h))
  {
    SideReady(c, u, r, a, b, s);
    SideBranch(c, u, r, a, b, q, s, t, h);
  }

  lemma {:induction false} SidePath(u: Universe, r: StateHash, a: seq<StateHash>, b: seq<StateHash>,
                                    diffs: map<StateHash, LedgerDiff>)
    requires Consistent(u) && Forked(u, r, a, b) && b[0] !in diffs && b[1] in diffs
    ensures Descends(u, r, a[0]) && Path(u, r, a[0]) == [a[0]]
    ensures Descends(u, r, b[1]) && Path(u, r, b[1]) == [b[0], b[1]] && KnownBlocks(diffs, [b[0], b[1]]) == [b[1]]
  {
    ChainDescends(u, r, a, 0, 1);
    ChainDescends(u, r, b, 0, 2);
    assert a[0..1] == [a[0]] && b[0..2] == [b[0]] + [b[1]];
    KnownConcat(diffs, [b[0]], [b[1]]);
    KnownNone(diffs, [b[0]]);
    KnownAll(diffs, [b[1]]);
  }

  lemma {:induction false} SideEnds(c: Config, u: Universe, r: StateHash, a: seq<StateHash>, b: seq<StateHash>,
                                    s: State, t: State)
    requires Consistent(u) && EarlyFork(c, u, r, a, b) && BesideFirst(u, r, a, b, |a|, 1, s) && b[0] !in s.diffs
    requires Beside(s, Tail(b), |Tail(b)| - 1, t) && t.bestTip == s.bestTip
    ensures !NoDeepReorg(u, t, b[|b| - 1]) && SideEnd(c, u, r, a, b, Extended(u, t, b[|b| - 1]))
    ensures t.canonicalRoot == a[0] && r in t.root.hashes
  {
    FirstNotInTail(u, r, b);
    SideDeep(c, u, r, a, b, Tail(b), s, t, b[|b| - 1]);
  }

  lemma {:induction false} SideReached(step: Step, c: Config, u: Universe, r: StateHash, l: Ledger, a: seq<StateHash>,
                                       b: seq<StateHash>, t: State)
    requires Consistent(u) && EarlyFork(c, u, r, a, b)
    requires t == Run(step, c, u, Initial(u, r, l), WithRest(a, b)).state
    ensures !NoDeepReorg(u, t, b[|b| - 1]) && SideEnd(c, u, r, a, b, Extended(u, t, b[|b| - 1]))
    ensures t.canonicalRoot == a[0] && r in t.root.hashes
  {
    var s := Run(step, c, u, Initial(u, r, l), Interleaved(a, b)).state;
    InterleavedRun(step, c, u, r, l, a, b);
    SideBefore(step, c, u, r, l, a, b, s);
    SideEnds(c, u, r, a, b, s, t);
  }

  lemma {:induction false} SideForks(step: Step, c: Config, u: Universe, r: StateHash, l: Ledger, a: seq<StateHash>,
                                     b: seq<StateHash>, t: State)
    requires Consistent(u) && EarlyFork(c, u, r, a, b)
    requires t == Run(step, c, u, Initial(u, r, l), WithRest(a, b)).state
    ensures var h := b[|b| - 1];
            var e := Extended(u, t, h);
            && FirstDeep(step, c, u, r, l, WithRest(a, b), h) && ForksAt(c, u, t, h, r) && t.canonicalRoot == a[0]
            && RootAfter(c, u, e) == b[1] && b[0] !in e.diffs && b[1] in e.diffs
  {
    var e := Extended(u, t, b[|b| - 1]);
    SideReached(step, c, u, r, l, a, b, t);
    SideMoves(c, u, r, a, b, e);
    SideBefore(step, c, u, r, l, a, b, Run(step, c, u, Initial(u, r, l), Interleaved(a, b)).state);
    SideFeedFresh(c, u, r, a, b, Tail(b));
    WholeFeed(a, b);
    SidePath(u, r, a, b, e.diffs);
  }

  lemma {:induction false} SideLog(step: Step, c: Config, u: Universe, r: StateHash, l: Ledger, a: seq<StateHash>,
                                   b: seq<StateHash>, hs: seq<StateHash>, t: State)
    requires ValidConfig(c) && Consistent(u) && EarlyFork(c, u, r, a, b) && hs == WithRest(a, b)
    requires t == Run(step, c, u, Initial(u, r, l), hs).state
    ensures Log(step, c, u, Initial(u, r, l), hs) == [a[0]] && StepLog(c, u, t, b[|b| - 1]) == [b[1]]
    ensures Path(u, r, Feed(step, c, u, t, b[|b| - 1]).state.canonicalRoot) == [b[0], b[1]]
  {
    var h := b[|b| - 1];
    SideForks(step, c, u, r, l, a, b, t);
    SidePath(u, r, a, b, Extended(u, t, h).diffs);
    FirstDeepParts(step, c, u, r, l, hs, h, r);
    BeforeDeep(step, c, u, r, l, hs, h);
    DeepStepRoot(step, c, u, t, h);
  }

  /** The deep reorg makes the second chain canonical, but its first block never reaches the
      ledger. */
  lemma {:induction false} SideDiffMissing(step: Step, c: Config, u: Universe, r: StateHash, l: Ledger,
                                           a: seq<StateHash>, b: seq<StateHash>)
    requires ValidConfig(c) && Consistent(u) && EarlyFork(c, u, r, a, b)
    ensures var s0, hs, h := Initial(u, r, l), WithRest(a, b), b[|b| - 1];
            && FreshFeed(u, r, hs + [h])
            && Path(u, r, Run(step, c, u, s0, hs + [h]).state.canonicalRoot) == [b[0], b[1]]
            && Log(step, c, u, s0, hs + [h]) == [a[0], b[1]]
  {
    var s0, hs, h := Initial(u, r, l), WithRest(a, b), b[|b| - 1];
    SideFeedFresh(c, u, r, a, b, Tail(b));
    WholeFeed(a, b);
    SideLog(step, c, u, r, l, a, b, hs, Run(step, c, u, s0, hs).state);
    RunOne(step, c, u, s0, hs, h);
    LogOne(step, c, u, s0, hs, h);
  }

  /** If only that block pays, the ledger is as if nothing had been paid. */
  lemma {:induction false} NeverReceived(step: Step, c: Config, u: Universe, r: StateHash, l: Ledger,
                                         a: seq<StateHash>, b: seq<StateHash>)
    requires ValidConfig(c) && Consistent(u) && EarlyFork(c, u, r, a, b) && b[0] in u && OnlyPays(u, b[0])
    ensures var s := Run(step, c, u, Initial(u, r, l), WithRest(a, b) + [b[|b| - 1]]).state;
            s.ledger == l && LedgerAt(step, u, r, l, s.canonicalRoot) == ApplyDiff(step, l, u[b[0]].diff)
  {
    SideDiffMissing(step, c, u, r, l, a, b);
    RunFoldsLog(step, c, u, r, l, WithRest(a, b) + [b[|b| - 1]]);
    ChainBlock(u, r, b, 1);
    ChainBlock(u, r, b, 2);
    Apart(u, r, a, b, 1, 1);
    NothingPaid(step, u, l, [a[0], b[1]], b[0]);
    PaidOnce(step, u, r, l, b, 2);
    assert b[..2] == [b[0], b[1]];
  }
}
