/** Runs with a fork at the root: the best tip leaves the branch of the canonical root.  What a
    report then starts with, what becomes of the ledger, and when the canonical root is lost. */
module DeepReorgs {
  import opened Accounts
  import opened Blocks
  import opened Ledgers
  import opened WitnessTree
  import opened WitnessForest
  import opened WitnessRuns
  import opened WitnessChains
  import opened LedgerLogs

  /** Two chains above `r`, the second longer by one, its tip preferred only then. */
  ghost predicate Forked(u: Universe, r: StateHash, a: seq<StateHash>, b: seq<StateHash>) {
    && IsChain(u, r, a) && IsChain(u, r, b)
    && |a| > 0 && |b| == |a| + 1 && a[0] != b[0] && Beats(u, a[|a| - 1], b[|a| - 1])
  }

  lemma {:induction false} Apart(u: Universe, r: StateHash, a: seq<StateHash>, b: seq<StateHash>, i: nat, j: nat)
    requires Consistent(u) && Forked(u, r, a, b) && 0 < i <= |a| && j <= |b|
    ensures BlockAt(r, a, i) != BlockAt(r, b, j)
  {
    ChainBlock(u, r, a, i);
    ChainBlock(u, r, b, j);
    if BlockAt(r, a, i) == BlockAt(r, b, j) {
      assert LinkAt(u, r, a, i - 1) && LinkAt(u, r, b, i - 1);
      if i > 1 { Apart(u, r, a, b, i - 1, i - 1); }
    }
  }

  // ------------------------------------------------------- a branch outgrows the tip

  /** Nothing is dangling, and no canonical update and no pruning is due. */
  ghost predicate Resting(c: Config, u: Universe, s: State) {
    && RootSound(u, s) && Anchored(c, u, s) && Trimmed(c, u, s)
    && s.dangling == [] && Report(c, u, s) == []
  }

  /** A chain `q` above block `p` of the tree, of blocks that are not in it, which ends one block
      above the best tip and is not preferred to it before. */
  ghost predicate Outgrows(u: Universe, s: State, p: StateHash, q: seq<StateHash>) {
    && IsChain(u, p, q) && q != [] && p in s.root.hashes && q[0] !in s.root.hashes
    && Len(u, p) + |q| == Len(u, s.bestTip) + 1
    && (|q| > 1 ==> Beats(u, s.bestTip, q[|q| - 2]))
  }

  /** The state `s` with the first `j` blocks of `q` in the tree. */
  ghost predicate Beside(s: State, q: seq<StateHash>, j: nat, t: State) {
    && j <= |q| && t.root == View(s.root.root, s.root.hashes + Stretch(q, 0, j)) && t.dangling == []
    && t.canonicalRoot == s.canonicalRoot && t.ledger == s.ledger
    && t.diffs.Keys == s.diffs.Keys + Stretch(q, 0, j)
  }

  lemma {:induction false} OutsideTree(u: Universe, v: View, p: StateHash, q: seq<StateHash>, i: nat)
    requires Consistent(u) && Rooted(u, v) && p in v.hashes && IsChain(u, p, q) && i < |q| && q[0] !in v.hashes
    ensures q[i] in u && Len(u, q[i]) == Len(u, p) + i + 1 && q[i] !in v.hashes
  {
    ChainBlock(u, p, q, i + 1);
    RootedDescends(u, v, p);
    if i > 0 {
      assert LinkAt(u, p, q, i);
      OutsideTree(u, v, p, q, i - 1);
    }
  }

  /** The next block has its parent in the tree. */
  lemma {:induction false} NextBeside(u: Universe, s: State, p: StateHash, q: seq<StateHash>, j: nat)
    requires RootSound(u, s) && Outgrows(u, s, p, q) && j < |q|
    ensures var hs := s.root.hashes + Stretch(q, 0, j);
            && q[j] in u && q[j] !in hs && u[q[j]].parentHash in hs
            && hs + {q[j]} == s.root.hashes + Stretch(q, 0, j + 1)
  {
    OutsideTree(u, s.root, p, q, j);
    assert LinkAt(u, p, q, j);
    if j > 0 {
      StretchHas(q, 0, j, j - 1);
      StretchRooted(u, p, q, 0, j);
    }
    StretchNext(q, 0, j);
  }

  lemma {:induction false} BesideRooted(u: Universe, s: State, p: StateHash, q: seq<StateHash>, j: nat)
    requires RootSound(u, s) && Outgrows(u, s, p, q) && j <= |q|
    ensures Rooted(u, View(s.root.root, s.root.hashes + Stretch(q, 0, j)))
  {
    if j == 0 {
      assert s.root.hashes + Stretch(q, 0, 0) == s.root.hashes;
    } else {
      BesideRooted(u, s, p, q, j - 1);
      NextBeside(u, s, p, q, j - 1);
    }
  }

  lemma {:induction false} BesideTop(u: Universe, s: State, p: StateHash, q: seq<StateHash>, j: nat)
    requires RootSound(u, s) && Outgrows(u, s, p, q) && j <= |q|
    ensures IsTop(u, s.root.hashes + Stretch(q, 0, j), if j < |q| then s.bestTip else q[|q| - 1])
  {
    var hs, t := s.root.hashes + Stretch(q, 0, j), if j < |q| then s.bestTip else q[|q| - 1];
    ChainBlock(u, p, q, |q|);
    if j == |q| { StretchHas(q, 0, |q|, |q| - 1); }
    forall x | x in hs ensures Len(u, x) <= Len(u, t) { if x in Stretch(q, 0, j) { StretchLow(u, p, q, j, x); } }
  }

  lemma {:induction false} StretchLow(u: Universe, p: StateHash, q: seq<StateHash>, j: nat, x: StateHash)
    requires Consistent(u) && IsChain(u, p, q) && j <= |q| && x in Stretch(q, 0, j)
    ensures Len(u, x) <= Len(u, p) + j
  {
    var k := StretchMember(q, 0, j, x);
    ChainBlock(u, p, q, k + 1);
  }

  /** While the branch grows the best tip is the same; then it is the last block of the branch. */
  lemma {:induction false} BesideSound(c: Config, u: Universe, s: State, p: StateHash, q: seq<StateHash>, j: nat,
                                       t: State)
    requires Resting(c, u, s) && Outgrows(u, s, p, q) && Beside(s, q, j, t)
    requires t.bestTip == if j < |q| then s.bestTip else q[|q| - 1]
    ensures RootSound(u, t) && Anchored(c, u, t)
    ensures j < |q| ==> Trimmed(c, u, t) && Report(c, u, t) == []
    ensures j == |q| ==> Depth(u, t) == Depth(u, s) + 1
  {
    BesideRooted(u, s, p, q, j);
    BesideTop(u, s, p, q, j);
    ChainBlock(u, p, q, |q|);
  }

  lemma {:induction false} BesideTip(u: Universe, s: State, p: StateHash, q: seq<StateHash>, j: nat)
    requires RootSound(u, s) && Outgrows(u, s, p, q) && j < |q|
    ensures Prefer(u, s.bestTip, q[j]) == if j < |q| - 1 then s.bestTip else q[j]
  {
    ChainBlock(u, p, q, j + 1);
    BeatsOrder(u, s.bestTip, q[j], p);
    BeatsOrder(u, q[j], s.bestTip, p);
  }

  lemma {:induction false} ExtendBeside(c: Config, u: Universe, s: State, p: StateHash, q: seq<StateHash>, j: nat,
                                        t: State)
    requires Resting(c, u, s) && Outgrows(u, s, p, q) && j < |q| && Beside(s, q, j, t) && t.bestTip == s.bestTip
    ensures Accepted(u, t, q[j]) && ExtendsRoot(u, t, q[j])
    ensures var e := Extended(u, t, q[j]);
            && Beside(s, q, j + 1, e) && e.bestTip == (if j < |q| - 1 then s.bestTip else q[j])
            && ExtendRoot(u, t, q[j]).bestTip == e.bestTip
  {
    BesideSound(c, u, s, p, q, j, t);
    NextBeside(u, s, p, q, j);
    OnTop(c, u, t, q[j]);
    BesideTip(u, s, p, q, j);
    StretchNext(q, 0, j);
    assert Extended(u, t, q[j]).diffs.Keys == t.diffs.Keys + {q[j]};
  }

  /** An update that moves nothing drops nothing. */
  lemma {:induction false} UpdateIdle(step: Step, c: Config, u: Universe, s: State)
    requires RootSound(u, s) && Report(c, u, s) == []
    ensures UpdateCanonical(step, c, u, s) == s
  {
    forall h ensures !Settled(u, s, s.canonicalRoot, h) {
      if Descends(u, s.canonicalRoot, h) { DescendsLength(u, s.canonicalRoot, h); }
    }
    assert PrunedDiffs(u, s, s.canonicalRoot) == s.diffs;
  }

  lemma {:induction false} FeedBeside(step: Step, c: Config, u: Universe, s: State, p: StateHash, q: seq<StateHash>,
                                      j: nat, t: State)
    requires Resting(c, u, s) && Outgrows(u, s, p, q) && j + 1 < |q| && Beside(s, q, j, t) && t.bestTip == s.bestTip
    ensures var t' := Feed(step, c, u, t, q[j]).state; Beside(s, q, j + 1, t') && t'.bestTip == s.bestTip
    ensures Descends(u, s.canonicalRoot, s.bestTip) ==> NoDeepReorg(u, t, q[j])
    ensures StepLog(c, u, t, q[j]) == []
  {
    var e := Extended(u, t, q[j]);
    ExtendBeside(c, u, s, p, q, j, t);
    BesideSound(c, u, s, p, q, j + 1, e);
    SettleUnpruned(step, c, u, e);
    UpdateIdle(step, c, u, e);
  }

  /** A feed followed by the first `j` blocks of `b`. */
  ghost function After(pre: seq<StateHash>, b: seq<StateHash>, j: nat): seq<StateHash>
    requires j <= |b|
  {
    pre + b[..j]
  }

  lemma {:induction false} AfterNext(pre: seq<StateHash>, b: seq<StateHash>, j: nat)
    requires j < |b|
    ensures After(pre, b, j + 1) == After(pre, b, j) + [b[j]]
  {
    assert b[..j + 1] == b[..j] + [b[j]];
  }

  lemma {:induction false} LogOne(step: Step, c: Config, u: Universe, s: State, hs: seq<StateHash>, h: StateHash)
    ensures Log(step, c, u, s, hs + [h]) ==
              Log(step, c, u, s, hs) + StepLog(c, u, Run(step, c, u, s, hs).state, h)
  {
    assert (hs + [h])[..|hs|] == hs;
  }

  /** What one more block of `q` does to a run. */
  lemma {:induction false} FedNext(step: Step, c: Config, u: Universe, s: State, pre: seq<StateHash>,
                                   q: seq<StateHash>, j: nat)
    requires j < |q|
    ensures Run(step, c, u, s, After(pre, q, j + 1)).state ==
              Feed(step, c, u, Run(step, c, u, s, After(pre, q, j)).state, q[j]).state
  {
    AfterNext(pre, q, j);
    RunOne(step, c, u, s, After(pre, q, j), q[j]);
  }

  lemma {:induction false} LastFed(step: Step, c: Config, u: Universe, s: State, pre: seq<StateHash>,
                                   q: seq<StateHash>)
    requires q != []
    ensures Run(step, c, u, s, After(pre, q, |q|)).state ==
              Feed(step, c, u, Run(step, c, u, s, After(pre, q, |q| - 1)).state, q[|q| - 1]).state
  {
    FedNext(step, c, u, s, pre, q, |q| - 1);
  }

  lemma {:induction false} LastLogged(step: Step, c: Config, u: Universe, s: State, pre: seq<StateHash>,
                                      q: seq<StateHash>)
    requires q != []
    ensures Log(step, c, u, s, After(pre, q, |q|)) ==
              Log(step, c, u, s, After(pre, q, |q| - 1)) +
              StepLog(c, u, Run(step, c, u, s, After(pre, q, |q| - 1)).state, q[|q| - 1])
  {
    AfterNext(pre, q, |q| - 1);
    LogOne(step, c, u, s, After(pre, q, |q| - 1), q[|q| - 1]);
  }

  /** The block at `j` brings nothing into the ledger; with `shallow`, it makes no deep reorg either. */
  ghost predicate QuietAt(step: Step, c: Config, u: Universe, s: State, pre: seq<StateHash>, q: seq<StateHash>,
                          shallow: bool, j: nat)
    requires j < |q|
  {
    var t := Run(step, c, u, s, After(pre, q, j)).state;
    StepLog(c, u, t, q[j]) == [] && (shallow ==> NoDeepReorg(u, t, q[j]))
  }

  ghost predicate Quiet(step: Step, c: Config, u: Universe, s: State, pre: seq<StateHash>, q: seq<StateHash>,
                        shallow: bool, n: nat)
    requires n <= |q|
  {
    forall j: nat {:trigger QuietAt(step, c, u, s, pre, q, shallow, j)} ::
      j < n ==> QuietAt(step, c, u, s, pre, q, shallow, j)
  }

  lemma {:induction false} QuietRun(step: Step, c: Config, u: Universe, s: State, pre: seq<StateHash>,
                                    q: seq<StateHash>, shallow: bool, n: nat)
    requires n <= |q| && Quiet(step, c, u, s, pre, q, shallow, n)
    ensures Log(step, c, u, s, After(pre, q, n)) == Log(step, c, u, s, pre)
    ensures shallow && Shallow(step, c, u, s, pre) ==> Shallow(step, c, u, s, After(pre, q, n))
  {
    if n == 0 {
      NothingAfter(pre, q);
    } else {
      QuietRun(step, c, u, s, pre, q, shallow, n - 1);
      assert QuietAt(step, c, u, s, pre, q, shallow, n - 1);
      AfterNext(pre, q, n - 1);
      LogOne(step, c, u, s, After(pre, q, n - 1), q[n - 1]);
      ShallowOne(step, c, u, s, After(pre, q, n - 1), q[n - 1]);
    }
  }

  /** After a run that ends in rest, the first blocks of the branch. */
  lemma {:induction false} BesideRun(step: Step, c: Config, u: Universe, s0: State, pre: seq<StateHash>, s: State,
                                     p: StateHash, q: seq<StateHash>, j: nat)
    requires s == Run(step, c, u, s0, pre).state && Resting(c, u, s) && Outgrows(u, s, p, q) && j < |q|
    ensures var t := Run(step, c, u, s0, After(pre, q, j)).state; Beside(s, q, j, t) && t.bestTip == s.bestTip
  {
    if j == 0 {
      NothingAfter(pre, q);
      BesideNone(s, q);
    } else {
      BesideRun(step, c, u, s0, pre, s, p, q, j - 1);
      BesideNext(step, c, u, s0, pre, s, p, q, j - 1, Run(step, c, u, s0, After(pre, q, j - 1)).state);
    }
  }

  lemma {:induction false} BesideNext(step: Step, c: Config, u: Universe, s0: State, pre: seq<StateHash>, s: State,
                                      p: StateHash, q: seq<StateHash>, j: nat, t: State)
    requires Resting(c, u, s) && Outgrows(u, s, p, q) && j + 1 < |q| && Beside(s, q, j, t) && t.bestTip == s.bestTip
    requires t == Run(step, c, u, s0, After(pre, q, j)).state
    ensures var t' := Run(step, c, u, s0, After(pre, q, j + 1)).state;
            Beside(s, q, j + 1, t') && t'.bestTip == s.bestTip
  {
    FeedBeside(step, c, u, s, p, q, j, t);
    FedNext(step, c, u, s0, pre, q, j);
  }

  lemma {:induction false} NothingAfter(pre: seq<StateHash>, q: seq<StateHash>)
    ensures After(pre, q, 0) == pre
  {
    assert q[..0] == [] && pre + [] == pre;
  }

  /** They bring nothing into the ledger and make no deep reorg. */
  lemma {:induction false} BesideQuiet(step: Step, c: Config, u: Universe, s0: State, pre: seq<StateHash>, s: State,
                                       p: StateHash, q: seq<StateHash>, n: nat)
    requires s == Run(step, c, u, s0, pre).state && Resting(c, u, s) && Outgrows(u, s, p, q) && n < |q|
    ensures Quiet(step, c, u, s0, pre, q, Descends(u, s.canonicalRoot, s.bestTip), n)
  {
    var shallow := Descends(u, s.canonicalRoot, s.bestTip);
    forall j: nat | j < n ensures QuietAt(step, c, u, s0, pre, q, shallow, j) {
      QuietStep(step, c, u, s0, pre, s, p, q, j, shallow);
    }
  }

  lemma {:induction false} BesideLog(step: Step, c: Config, u: Universe, s0: State, pre: seq<StateHash>, s: State,
                                     p: StateHash, q: seq<StateHash>, n: nat)
    requires s == Run(step, c, u, s0, pre).state && Resting(c, u, s) && Outgrows(u, s, p, q) && n < |q|
    ensures Log(step, c, u, s0, After(pre, q, n)) == Log(step, c, u, s0, pre)
    ensures Shallow(step, c, u, s0, pre) && Descends(u, s.canonicalRoot, s.bestTip) ==>
              Shallow(step, c, u, s0, After(pre, q, n))
  {
    BesideQuiet(step, c, u, s0, pre, s, p, q, n);
    QuietRun(step, c, u, s0, pre, q, Descends(u, s.canonicalRoot, s.bestTip), n);
  }

  lemma {:induction false} QuietStep(step: Step, c: Config, u: Universe, s0: State, pre: seq<StateHash>, s: State,
                                     p: StateHash, q: seq<StateHash>, j: nat, shallow: bool)
    requires s == Run(step, c, u, s0, pre).state && Resting(c, u, s) && Outgrows(u, s, p, q) && j + 1 < |q|
    requires shallow == Descends(u, s.canonicalRoot, s.bestTip)
    ensures QuietAt(step, c, u, s0, pre, q, shallow, j)
  {
    BesideRun(step, c, u, s0, pre, s, p, q, j);
    FeedBeside(step, c, u, s, p, q, j, Run(step, c, u, s0, After(pre, q, j)).state);
  }

  lemma {:induction false} BesideNone(s: State, q: seq<StateHash>)
    requires s.dangling == []
    ensures Beside(s, q, 0, s)
  {
    assert s.root.hashes + Stretch(q, 0, 0) == s.root.hashes && s.diffs.Keys + Stretch(q, 0, 0) == s.diffs.Keys;
  }

  /** A block of the tree that is not below `p` is not below the chain above it either. */
  lemma {:induction false} OffChain(u: Universe, v: View, p: StateHash, q: seq<StateHash>, i: nat, x: StateHash)
    requires Consistent(u) && Rooted(u, v) && p in v.hashes && IsChain(u, p, q) && i < |q| && q[0] !in v.hashes
    requires x in v.hashes && !Descends(u, x, p)
    ensures !Descends(u, x, q[i])
  {
    OutsideTree(u, v, p, q, i);
    assert LinkAt(u, p, q, i);
    if i > 0 { OffChain(u, v, p, q, i - 1, x); }
  }

  // ---------------------------------------------------------- the branch overtakes

  /** All of the branch is in the tree and its last block is the best tip. */
  ghost predicate Overtaken(s: State, q: seq<StateHash>, e: State) {
    q != [] && Beside(s, q, |q|, e) && e.bestTip == q[|q| - 1]
  }

  /** If the canonical root is not below the branch, its last block makes a deep reorg. */
  lemma {:induction false} OvertakenDeep(c: Config, u: Universe, s: State, p: StateHash, q: seq<StateHash>, e: State)
    requires Resting(c, u, s) && Outgrows(u, s, p, q) && Overtaken(s, q, e) && !Descends(u, s.canonicalRoot, p)
    ensures RootSound(u, e) && Anchored(c, u, e) && Depth(u, e) == Depth(u, s) + 1
    ensures !Descends(u, e.canonicalRoot, e.bestTip)
  {
    BesideSound(c, u, s, p, q, |q|, e);
    OffChain(u, s.root, p, q, |q| - 1, s.canonicalRoot);
  }

  lemma {:induction false} BranchDeep(c: Config, u: Universe, s: State, p: StateHash, q: seq<StateHash>, t: State,
                                      h: StateHash)
    requires Resting(c, u, s) && Outgrows(u, s, p, q) && !Descends(u, s.canonicalRoot, p) && h == q[|q| - 1]
    requires Beside(s, q, |q| - 1, t) && t.bestTip == s.bestTip
    ensures !NoDeepReorg(u, t, h)
    ensures var e := Extended(u, t, h);
            && e.root.root == s.root.root && e.bestTip == h && e.canonicalRoot == s.canonicalRoot
            && e.diffs.Keys == s.diffs.Keys + Stretch(q, 0, |q|)
            && RootSound(u, e) && Anchored(c, u, e) && !Descends(u, e.canonicalRoot, e.bestTip)
  {
    ExtendBeside(c, u, s, p, q, |q| - 1, t);
    OvertakenDeep(c, u, s, p, q, Extended(u, t, h));
  }

  /** After the last block of the branch, if no pruning is due. */
  lemma {:induction false} SettledOvertaken(step: Step, c: Config, u: Universe, e: State)
    requires RootSound(u, e) && Anchored(c, u, e) && Trimmed(c, u, e) && e.dangling == []
    requires CanonicalUpdatable(c, u, e) && !Descends(u, e.canonicalRoot, e.bestTip)
    ensures var s := Settle(step, c, u, e).state;
            && Resting(c, u, s) && s.root == e.root && s.bestTip == e.bestTip
            && s.canonicalRoot == Up(u, e.bestTip, c.confirmations) && Descends(u, s.canonicalRoot, s.bestTip)
  {
    var s := Settle(step, c, u, e).state;
    SettleUnpruned(step, c, u, e);
    UpdateKeepsForest(step, c, u, e);
    DeepReport(c, u, e);
    CanonicalRootMoves(c, u, e);
    RootedDescends(u, e.root, e.canonicalRoot);
    assert Collect(u, s.canonicalRoot, Depth(u, s) - c.confirmations, s.canonicalRoot) == [];
  }

  /** Only diffs above the old canonical root are dropped. */
  lemma {:induction false} SettledDiffs(step: Step, c: Config, u: Universe, e: State, x: StateHash)
    requires RootSound(u, e) && Trimmed(c, u, e)
    ensures x in e.diffs && !Descends(u, e.canonicalRoot, x) ==> x in Settle(step, c, u, e).state.diffs
    ensures x in Settle(step, c, u, e).state.diffs ==> x in e.diffs
  {
    SettleUnpruned(step, c, u, e);
    assert Settled(u, e, RootAfter(c, u, e), x) ==> Descends(u, e.canonicalRoot, x);
  }

  // --------------------------------------------------------------- the first fork

  lemma {:induction false} FollowedClosely(c: Config, n: nat)
    requires c.updateThreshold <= c.confirmations <= n
    ensures CanonDepth(c, n) == n - c.confirmations && Moved(c, n, n - c.confirmations) == n - c.confirmations
  {}

  /** At the tip of the first chain, the second one is a branch that outgrows it. */
  lemma {:induction false} TipOutgrown(c: Config, u: Universe, r: StateHash, a: seq<StateHash>, b: seq<StateHash>,
                                       d: nat, s: State)
    requires Consistent(u) && Forked(u, r, a, b) && AtTip(u, r, a, |a|, d, s)
    requires Deep(c, |a|, d) && Moved(c, |a|, d) == d && |a| < c.pruneHeight
    ensures Resting(c, u, s) && Outgrows(u, s, r, b) && Descends(u, s.canonicalRoot, s.bestTip)
    ensures d > 0 ==> !Descends(u, s.canonicalRoot, r)
  {
    AlongSound(c, u, r, a, |a|, d, s);
    UpdateAlong(c, u, r, a, |a|, d, s);
    assert a[d..d] == [];
    ChainBlock(u, r, a, |a|);
    ChainBlock(u, r, a, d);
    FirstOutside(u, r, a, b);
    if d > 0 && Descends(u, s.canonicalRoot, r) { DescendsLength(u, s.canonicalRoot, r); }
  }

  lemma {:induction false} FirstOutside(u: Universe, r: StateHash, a: seq<StateHash>, b: seq<StateHash>)
    requires Consistent(u) && Forked(u, r, a, b)
    ensures r in UpTo(r, a, |a|) && b[0] !in UpTo(r, a, |a|)
  {
    ChainBlock(u, r, b, 1);
    if b[0] in UpTo(r, a, |a|) {
      var i := UpToMember(r, a, |a|, b[0]);
      if i > 0 { Apart(u, r, a, b, i, 1); }
    }
  }

  /** The state after the first chain, fed in order. */
  lemma {:induction false} FirstTip(step: Step, c: Config, u: Universe, r: StateHash, l: Ledger, a: seq<StateHash>)
    requires c.updateThreshold <= c.confirmations < |a| < c.pruneHeight && Consistent(u) && IsChain(u, r, a)
    ensures AtTip(u, r, a, |a|, |a| - c.confirmations, Run(step, c, u, Initial(u, r, l), a).state)
    ensures Shallow(step, c, u, Initial(u, r, l), a)
  {
    LinearRun(step, c, u, r, l, a, |a|);
    assert a[..|a|] == a;
    FollowedClosely(c, |a|);
  }

  lemma {:induction false} FirstChain(step: Step, c: Config, u: Universe, r: StateHash, l: Ledger, a: seq<StateHash>,
                                      b: seq<StateHash>)
    requires c.updateThreshold <= c.confirmations < |a| < c.pruneHeight && Consistent(u) && Forked(u, r, a, b)
    ensures var s := Run(step, c, u, Initial(u, r, l), a).state;
            && AtTip(u, r, a, |a|, |a| - c.confirmations, s) && Resting(c, u, s) && Outgrows(u, s, r, b)
            && Descends(u, s.canonicalRoot, s.bestTip) && !Descends(u, s.canonicalRoot, r)
    ensures Shallow(step, c, u, Initial(u, r, l), a)
  {
    FirstTip(step, c, u, r, l, a);
    FollowedClosely(c, |a|);
    TipOutgrown(c, u, r, a, b, |a| - c.confirmations, Run(step, c, u, Initial(u, r, l), a).state);
  }

  /** The state just before the second chain overtakes the first, and just after. */
  lemma {:induction false} BeforeOvertaking(step: Step, c: Config, u: Universe, r: StateHash, l: Ledger,
                                            a: seq<StateHash>, b: seq<StateHash>)
    requires c.updateThreshold <= c.confirmations < |a| < c.pruneHeight && Consistent(u) && Forked(u, r, a, b)
    ensures var s0 := Initial(u, r, l);
            var s, t := Run(step, c, u, s0, a).state, Run(step, c, u, s0, After(a, b, |a|)).state;
            && Beside(s, b, |a|, t) && t.bestTip == s.bestTip && Shallow(step, c, u, s0, After(a, b, |a|))
            && Log(step, c, u, s0, After(a, b, |a|)) == Log(step, c, u, s0, a)
  {
    var s := Run(step, c, u, Initial(u, r, l), a).state;
    FirstChain(step, c, u, r, l, a, b);
    BesideRun(step, c, u, Initial(u, r, l), a, s, r, b, |a|);
    BesideLog(step, c, u, Initial(u, r, l), a, s, r, b, |a|);
  }

  lemma {:induction false} Overtaking(step: Step, c: Config, u: Universe, r: StateHash, l: Ledger, a: seq<StateHash>,
                                      b: seq<StateHash>)
    requires c.updateThreshold <= c.confirmations < |a| < c.pruneHeight && Consistent(u) && Forked(u, r, a, b)
    ensures var s0 := Initial(u, r, l);
            var s, t := Run(step, c, u, s0, a).state, Run(step, c, u, s0, After(a, b, |a|)).state;
            var e := Extended(u, t, b[|a|]);
            && Accepted(u, t, b[|a|]) && ExtendsRoot(u, t, b[|a|]) && !NoDeepReorg(u, t, b[|a|])
            && Overtaken(s, b, e) && RootSound(u, e) && Anchored(c, u, e) && Depth(u, e) == |b|
            && CanonicalUpdatable(c, u, e) && !Descends(u, e.canonicalRoot, e.bestTip)
            && RootAfter(c, u, e) == BlockAt(r, b, |b| - c.confirmations)
  {
    var s0 := Initial(u, r, l);
    var s, t := Run(step, c, u, s0, a).state, Run(step, c, u, s0, After(a, b, |a|)).state;
    FirstChain(step, c, u, r, l, a, b);
    BeforeOvertaking(step, c, u, r, l, a, b);
    ExtendBeside(c, u, s, r, b, |a|, t);
    OvertakenDeep(c, u, s, r, b, Extended(u, t, b[|a|]));
    OvertakenRoot(c, u, r, a, b, Extended(u, t, b[|a|]));
  }

  lemma {:induction false} OvertakenRoot(c: Config, u: Universe, r: StateHash, a: seq<StateHash>, b: seq<StateHash>,
                                         e: State)
    requires c.updateThreshold <= c.confirmations < |a| && Consistent(u) && Forked(u, r, a, b)
    requires RootSound(u, e) && Anchored(c, u, e) && e.root.root == r && !Descends(u, e.canonicalRoot, e.bestTip)
    requires e.bestTip == b[|a|] && e.canonicalRoot == BlockAt(r, a, |a| - c.confirmations)
    ensures Depth(u, e) == |b| && CanonicalUpdatable(c, u, e)
    ensures RootAfter(c, u, e) == BlockAt(r, b, |b| - c.confirmations)
  {
    OvertakenDepth(c, u, r, a, b, e);
    ChainUp(u, r, b, |b| - c.confirmations, |b|);
    CanonicalRootIs(c, u, e, BlockAt(r, b, |b| - c.confirmations));
  }

  lemma {:induction false} OvertakenDepth(c: Config, u: Universe, r: StateHash, a: seq<StateHash>, b: seq<StateHash>,
                                          e: State)
    requires c.updateThreshold <= c.confirmations < |a| && Consistent(u) && Forked(u, r, a, b) && e.root.root == r
    requires e.bestTip == b[|a|] && e.canonicalRoot == BlockAt(r, a, |a| - c.confirmations)
    ensures Depth(u, e) == |b| && CanonicalUpdatable(c, u, e)
  {
    ChainBlock(u, r, b, |b|);
    ChainBlock(u, r, a, |a| - c.confirmations);
  }

  /** A deep reorg is reachable: a chain with more than `confirmations` blocks above the root,
      then a fork of one block more.  The last block of the fork is reported canonical along
      with everything down to the root of the tree. */
  lemma {:induction false} DeepReorgReachable(step: Step, c: Config, u: Universe, r: StateHash, l: Ledger,
                                              a: seq<StateHash>, b: seq<StateHash>)
    requires c.updateThreshold <= c.confirmations < |a| < c.pruneHeight && Consistent(u) && Forked(u, r, a, b)
    ensures var s := Run(step, c, u, Initial(u, r, l), After(a, b, |a|)).state;
            var o := Feed(step, c, u, s, b[|a|]);
            && s.canonicalRoot == BlockAt(r, a, |a| - c.confirmations)
            && !NoDeepReorg(u, s, b[|a|])
            && o.canonical == [r] + b[..|b| - c.confirmations]
            && o.state.canonicalRoot == BlockAt(r, b, |b| - c.confirmations)
  {
    var t := Run(step, c, u, Initial(u, r, l), After(a, b, |a|)).state;
    OvertakingFrom(step, c, u, r, l, a, b);
    Overtaking(step, c, u, r, l, a, b);
    OvertakingReport(c, u, r, b, Extended(u, t, b[|a|]));
    SettledRoot(step, c, u, t, b[|a|]);
  }

  lemma {:induction false} OvertakingFrom(step: Step, c: Config, u: Universe, r: StateHash, l: Ledger,
                                          a: seq<StateHash>, b: seq<StateHash>)
    requires c.updateThreshold <= c.confirmations < |a| < c.pruneHeight && Consistent(u) && Forked(u, r, a, b)
    ensures var t := Run(step, c, u, Initial(u, r, l), After(a, b, |a|)).state;
            t.canonicalRoot == BlockAt(r, a, |a| - c.confirmations) && t.root.root == r && r in t.root.hashes
  {
    FirstChain(step, c, u, r, l, a, b);
    BeforeOvertaking(step, c, u, r, l, a, b);
  }

  lemma {:induction false} OvertakingReport(c: Config, u: Universe, r: StateHash, b: seq<StateHash>, e: State)
    requires IsChain(u, r, b) && c.confirmations <= |b| && e.root.root == r
    requires RootSound(u, e) && Anchored(c, u, e) && !Descends(u, e.canonicalRoot, e.bestTip)
    requires CanonicalUpdatable(c, u, e) && RootAfter(c, u, e) == BlockAt(r, b, |b| - c.confirmations)
    ensures Report(c, u, e) == [r] + b[..|b| - c.confirmations]
  {
    DeepReport(c, u, e);
    ChainDescends(u, r, b, 0, |b| - c.confirmations);
    assert b[0..|b| - c.confirmations] == b[..|b| - c.confirmations];
  }

  lemma {:induction false} SettledRoot(step: Step, c: Config, u: Universe, s: State, h: StateHash)
    requires Accepted(u, s, h) && ExtendsRoot(u, s, h)
    ensures Feed(step, c, u, s, h).state.canonicalRoot == RootAfter(c, u, Extended(u, s, h))
    ensures Feed(step, c, u, s, h).canonical == Report(c, u, Extended(u, s, h))
    ensures StepLog(c, u, s, h) == KnownBlocks(Extended(u, s, h).diffs, Report(c, u, Extended(u, s, h)))
  {
    UpdateKeepsForest(step, c, u, Extended(u, s, h));
  }

  // ------------------------------------------------------------- fresh feeds

  /** A branch that is new to a tree is new to a feed of its blocks. */
  lemma {:induction false} BranchFresh(u: Universe, r: StateHash, pre: seq<StateHash>, v: View, p: StateHash,
                                       q: seq<StateHash>, j: nat)
    requires Consistent(u) && Rooted(u, v) && p in v.hashes && IsChain(u, p, q) && j <= |q|
    requires q != [] ==> q[0] !in v.hashes
    requires FreshFeed(u, r, pre) && Elems(pre) <= v.hashes && r in v.hashes
    ensures FreshFeed(u, r, After(pre, q, j))
  {
    if j == 0 {
      assert After(pre, q, 0) == pre;
    } else {
      var hs := After(pre, q, j - 1);
      BranchFresh(u, r, pre, v, p, q, j - 1);
      OutsideTree(u, v, p, q, j - 1);
      AfterNext(pre, q, j - 1);
      if q[j - 1] in hs {
        assert q[j - 1] !in Elems(pre);
        var k :| 0 <= k < j - 1 && q[..j - 1][k] == q[j - 1];
        OutsideTree(u, v, p, q, k);
      }
      FreshOneMore(u, r, hs, q[j - 1]);
    }
  }

  lemma {:induction false} ForkFeedFresh(u: Universe, r: StateHash, a: seq<StateHash>, b: seq<StateHash>,
                                         pre: seq<StateHash>, j: nat)
    requires Consistent(u) && Forked(u, r, a, b) && FreshFeed(u, r, pre) && Elems(pre) <= Elems(a) && j <= |b|
    ensures FreshFeed(u, r, After(pre, b, j))
  {
    ChainRooted(u, r, a, |a|);
    FirstOutside(u, r, a, b);
    assert a[..|a|] == a;
    BranchFresh(u, r, pre, View(r, UpTo(r, a, |a|)), r, b, j);
  }

  lemma {:induction false} ChainFresh(u: Universe, r: StateHash, a: seq<StateHash>)
    requires Consistent(u) && IsChain(u, r, a)
    ensures FreshFeed(u, r, a)
  {
    forall i | 0 <= i < |a| ensures a[i] in u && a[i] != r { ChainBlock(u, r, a, i + 1); ChainBlock(u, r, a, 0); }
    forall i, j | 0 <= i < j < |a| ensures a[i] != a[j] { ChainBlock(u, r, a, i + 1); ChainBlock(u, r, a, j + 1); }
  }

  lemma {:induction false} AroundFresh(u: Universe, r: StateHash, a: seq<StateHash>, m: nat)
    requires FreshFeed(u, r, a) && m < |a|
    ensures FreshFeed(u, r, Around(a, m, |a|)) && Elems(Around(a, m, |a|)) <= Elems(a) && a[m] !in Around(a, m, |a|)
  {
    var hs := Around(a, m, |a|);
    assert forall i :: 0 <= i < |hs| ==> hs[i] == if i < m then a[i] else a[i + 1];
  }

  lemma {:induction false} FreshOneMore(u: Universe, r: StateHash, hs: seq<StateHash>, h: StateHash)
    requires FreshFeed(u, r, hs) && h in u && h != r && h !in hs
    ensures FreshFeed(u, r, hs + [h])
  {}

  lemma {:induction false} LateFresh(u: Universe, r: StateHash, a: seq<StateHash>, m: nat)
    requires Consistent(u) && IsChain(u, r, a) && m < |a|
    ensures FreshFeed(u, r, LateBlock(a, m)) && Elems(LateBlock(a, m)) <= Elems(a)
    ensures FreshFeed(u, r, Around(a, m, |a|))
  {
    ChainFresh(u, r, a);
    AroundFresh(u, r, a, m);
    FreshOneMore(u, r, Around(a, m, |a|), a[m]);
  }

  // ------------------------------------------------------- the ledger afterwards

  lemma {:induction false} ChainKnown(diffs: map<StateHash, LedgerDiff>, q: seq<StateHash>, n: nat)
    requires n <= |q| && Stretch(q, 0, |q|) <= diffs.Keys
    ensures KnownBlocks(diffs, q[..n]) == q[..n]
  {
    forall x | x in q[..n] ensures x in diffs {
      var i :| 0 <= i < n && q[..n][i] == x;
      StretchHas(q, 0, |q|, i);
    }
    KnownAll(diffs, q[..n]);
  }

  lemma {:induction false} OvertakingFresh(u: Universe, r: StateHash, a: seq<StateHash>, b: seq<StateHash>)
    requires Consistent(u) && Forked(u, r, a, b)
    ensures FreshFeed(u, r, After(a, b, |a|) + [b[|a|]])
  {
    ChainFresh(u, r, a);
    ForkFeedFresh(u, r, a, b, a, |b|);
    AfterNext(a, b, |a|);
  }

  lemma {:induction false} OvertakingIsFirst(step: Step, c: Config, u: Universe, r: StateHash, l: Ledger,
                                             a: seq<StateHash>, b: seq<StateHash>)
    requires c.updateThreshold <= c.confirmations < |a| < c.pruneHeight && Consistent(u) && Forked(u, r, a, b)
    ensures FirstDeep(step, c, u, r, l, After(a, b, |a|), b[|a|])
  {
    BeforeOvertaking(step, c, u, r, l, a, b);
    Overtaking(step, c, u, r, l, a, b);
    OvertakingFresh(u, r, a, b);
  }

  lemma {:induction false} OvertakingForks(step: Step, c: Config, u: Universe, r: StateHash, l: Ledger,
                                           a: seq<StateHash>, b: seq<StateHash>)
    requires c.updateThreshold <= c.confirmations < |a| < c.pruneHeight && Consistent(u) && Forked(u, r, a, b)
    ensures ForksAt(c, u, Run(step, c, u, Initial(u, r, l), After(a, b, |a|)).state, b[|a|], r)
  {
    OvertakingFrom(step, c, u, r, l, a, b);
    Overtaking(step, c, u, r, l, a, b);
    ChainDescends(u, r, a, 0, |a| - c.confirmations);
    ChainDescends(u, r, b, 0, |b| - c.confirmations);
  }

  /** The diffs of the second chain are all known when it overtakes. */
  lemma {:induction false} OvertakingKnows(step: Step, c: Config, u: Universe, r: StateHash, l: Ledger,
                                           a: seq<StateHash>, b: seq<StateHash>)
    requires c.updateThreshold <= c.confirmations < |a| < c.pruneHeight && Consistent(u) && Forked(u, r, a, b)
    ensures var e := Extended(u, Run(step, c, u, Initial(u, r, l), After(a, b, |a|)).state, b[|a|]);
            var n := |b| - c.confirmations;
            Path(u, r, BlockAt(r, b, n)) == b[..n] && KnownBlocks(e.diffs, b[..n]) == b[..n]
  {
    var e, n := Extended(u, Run(step, c, u, Initial(u, r, l), After(a, b, |a|)).state, b[|a|]), |b| - c.confirmations;
    Overtaking(step, c, u, r, l, a, b);
    ChainDescends(u, r, b, 0, n);
    assert b[0..n] == b[..n];
    ChainKnown(e.diffs, b, n);
  }

  /** After such a fork, whatever the diffs: the canonical part of the overtaken chain stays in the
      ledger, and that of the new chain is added to it. */
  lemma {:induction false} ForkLedgerIff(step: Step, c: Config, u: Universe, r: StateHash, l: Ledger,
                                         a: seq<StateHash>, b: seq<StateHash>)
    requires ValidConfig(c) && c.updateThreshold <= c.confirmations < |a| < c.pruneHeight && Consistent(u)
    requires Forked(u, r, a, b)
    ensures var s := Feed(step, c, u, Run(step, c, u, Initial(u, r, l), After(a, b, |a|)).state, b[|a|]).state;
            var left, new_ := a[..|a| - c.confirmations], b[..|b| - c.confirmations];
            && s.ledger == FoldBlocks(step, u, FoldBlocks(step, u, l, left), new_)
            && LedgerAt(step, u, r, l, s.canonicalRoot) == FoldBlocks(step, u, l, new_)
            && (s.ledger == LedgerAt(step, u, r, l, s.canonicalRoot) <==>
                FoldBlocks(step, u, FoldBlocks(step, u, l, left), new_) == FoldBlocks(step, u, l, new_))
  {
    var d := |a| - c.confirmations;
    OvertakingIsFirst(step, c, u, r, l, a, b);
    OvertakingForks(step, c, u, r, l, a, b);
    OvertakingKnows(step, c, u, r, l, a, b);
    DeepReorgReachable(step, c, u, r, l, a, b);
    FirstDeepReorgIff(step, c, u, r, l, After(a, b, |a|), b[|a|], r);
    ChainDescends(u, r, a, 0, d);
    assert a[0..d] == a[..d];
  }

  /** Only block `x` has account diffs. */
  ghost predicate OnlyPays(u: Universe, x: StateHash) {
    forall h :: h in u && h != x ==> u[h].diff == []
  }

  lemma {:induction false} NothingPaid(step: Step, u: Universe, l: Ledger, hs: seq<StateHash>, x: StateHash)
    requires OnlyPays(u, x) && x !in hs
    ensures FoldBlocks(step, u, l, hs) == l
  {
    if hs != [] {
      NothingPaid(step, u, l, hs[..|hs| - 1], x);
      assert hs[|hs| - 1] in hs;
    }
  }

  /** A chain pays what its first block pays. */
  lemma {:induction false} PaidOnce(step: Step, u: Universe, r: StateHash, l: Ledger, a: seq<StateHash>, d: nat)
    requires Consistent(u) && IsChain(u, r, a) && 0 < d <= |a| && a[0] in u && OnlyPays(u, a[0])
    ensures FoldBlocks(step, u, l, a[..d]) == ApplyDiff(step, l, u[a[0]].diff)
  {
    var rest := a[1..d];
    assert a[..d] == [a[0]] + rest;
    FoldBlocksConcat(step, u, l, [a[0]], rest);
    assert [a[0]][..0] == [] && FoldBlocks(step, u, l, [a[0]]) == ApplyDiff(step, l, u[a[0]].diff);
    ChainBlock(u, r, a, 1);
    if a[0] in rest {
      var k :| 0 <= k < |rest| && rest[k] == a[0];
      ChainBlock(u, r, a, k + 2);
    }
    NothingPaid(step, u, ApplyDiff(step, l, u[a[0]].diff), rest, a[0]);
  }

  lemma {:induction false} NeverPaid(step: Step, u: Universe, r: StateHash, l: Ledger, a: seq<StateHash>,
                                     b: seq<StateHash>, t: nat)
    requires Consistent(u) && Forked(u, r, a, b) && t <= |b| && OnlyPays(u, a[0])
    ensures FoldBlocks(step, u, l, b[..t]) == l
  {
    var new_ := b[..t];
    if a[0] in new_ {
      var k :| 0 <= k < |new_| && new_[k] == a[0];
      Apart(u, r, a, b, 1, k + 1);
    }
    NothingPaid(step, u, l, new_, a[0]);
  }

  /** If only the first block of the overtaken chain pays, the ledger is that of the canonical root
      precisely if it pays nothing. */
  lemma {:induction false} DeepReorgSpoilsLedger(step: Step, c: Config, u: Universe, r: StateHash, l: Ledger,
                                                 a: seq<StateHash>, b: seq<StateHash>)
    requires ValidConfig(c) && c.updateThreshold <= c.confirmations < |a| < c.pruneHeight && Consistent(u)
    requires Forked(u, r, a, b) && a[0] in u && OnlyPays(u, a[0])
    ensures var s := Feed(step, c, u, Run(step, c, u, Initial(u, r, l), After(a, b, |a|)).state, b[|a|]).state;
            s.ledger == LedgerAt(step, u, r, l, s.canonicalRoot) <==> ApplyDiff(step, l, u[a[0]].diff) == l
  {
    var d := |a| - c.confirmations;
    ForkLedgerIff(step, c, u, r, l, a, b);
    PaidOnce(step, u, r, l, a, d);
    NeverPaid(step, u, r, l, a, b, |b| - c.confirmations);
    NeverPaid(step, u, r, ApplyDiff(step, l, u[a[0]].diff), a, b, |b| - c.confirmations);
  }

  // ----------------------------------------------------------------- a second fork

  /** A third chain, above the first block of the second one and longer than it by one. */
  ghost predicate ForkedTwice(u: Universe, r: StateHash, a: seq<StateHash>, b: seq<StateHash>, q: seq<StateHash>) {
    && Forked(u, r, a, b) && IsChain(u, b[0], q) && |q| == |b| && q[0] != b[1]
    && Beats(u, b[|b| - 1], q[|q| - 2])
  }

  lemma {:induction false} OvertakenTree(u: Universe, r: StateHash, a: seq<StateHash>, b: seq<StateHash>, d: nat,
                                         s: State, e: State)
    requires AtTip(u, r, a, |a|, d, s) && Overtaken(s, b, e)
    ensures e.root == View(r, UpTo(r, a, |a|) + Stretch(b, 0, |b|)) && e.bestTip == b[|b| - 1] && e.dangling == []
  {}

  lemma {:induction false} SecondTree(step: Step, c: Config, u: Universe, r: StateHash, l: Ledger, a: seq<StateHash>,
                                      b: seq<StateHash>)
    requires c.updateThreshold <= c.confirmations < |a| < c.pruneHeight && Consistent(u) && Forked(u, r, a, b)
    ensures var e := Extended(u, Run(step, c, u, Initial(u, r, l), After(a, b, |a|)).state, b[|a|]);
            e.root == View(r, UpTo(r, a, |a|) + Stretch(b, 0, |b|)) && e.bestTip == b[|a|] && e.dangling == []
  {
    var s0 := Initial(u, r, l);
    var s, t := Run(step, c, u, s0, a).state, Run(step, c, u, s0, After(a, b, |a|)).state;
    OvertakenAtTip(step, c, u, r, l, a, b, s, t);
    OvertakenTree(u, r, a, b, |a| - c.confirmations, s, Extended(u, t, b[|a|]));
  }

  lemma {:induction false} OvertakenAtTip(step: Step, c: Config, u: Universe, r: StateHash, l: Ledger,
                                          a: seq<StateHash>, b: seq<StateHash>, s: State, t: State)
    requires c.updateThreshold <= c.confirmations < |a| < c.pruneHeight && Consistent(u) && Forked(u, r, a, b)
    requires s == Run(step, c, u, Initial(u, r, l), a).state
    requires t == Run(step, c, u, Initial(u, r, l), After(a, b, |a|)).state
    ensures AtTip(u, r, a, |a|, |a| - c.confirmations, s) && Overtaken(s, b, Extended(u, t, b[|a|]))
  {
    FirstChain(step, c, u, r, l, a, b);
    Overtaking(step, c, u, r, l, a, b);
  }

  /** A deep reorg ends in rest. */
  lemma {:induction false} DeepEnds(step: Step, c: Config, u: Universe, s: State, h: StateHash, e: State)
    requires e == Extended(u, s, h) && Accepted(u, s, h) && ExtendsRoot(u, s, h)
    requires RootSound(u, e) && Anchored(c, u, e) && Trimmed(c, u, e) && e.dangling == []
    requires CanonicalUpdatable(c, u, e) && !Descends(u, e.canonicalRoot, e.bestTip)
    ensures var s' := Feed(step, c, u, s, h).state;
            && Resting(c, u, s') && s'.root == e.root && s'.bestTip == e.bestTip
            && s'.canonicalRoot == Up(u, e.bestTip, c.confirmations)
  {
    SettledOvertaken(step, c, u, e);
  }

  lemma {:induction false} SecondStep(step: Step, c: Config, u: Universe, r: StateHash, l: Ledger, a: seq<StateHash>,
                                      b: seq<StateHash>, t: State)
    requires c.updateThreshold <= c.confirmations < |a| < c.pruneHeight - 1 && Consistent(u) && Forked(u, r, a, b)
    requires t == Run(step, c, u, Initial(u, r, l), After(a, b, |a|)).state
    ensures var s := Feed(step, c, u, t, b[|a|]).state;
            && Resting(c, u, s) && s.root == View(r, UpTo(r, a, |a|) + Stretch(b, 0, |b|))
            && s.bestTip == b[|a|] && s.canonicalRoot == BlockAt(r, b, |b| - c.confirmations)
  {
    Overtaking(step, c, u, r, l, a, b);
    SecondTree(step, c, u, r, l, a, b);
    DeepEnds(step, c, u, t, b[|a|], Extended(u, t, b[|a|]));
    ChainUp(u, r, b, |b| - c.confirmations, |b|);
  }

  /** The state after the second chain. */
  lemma {:induction false} SecondChain(step: Step, c: Config, u: Universe, r: StateHash, l: Ledger, a: seq<StateHash>,
                                       b: seq<StateHash>)
    requires c.updateThreshold <= c.confirmations < |a| < c.pruneHeight - 1 && Consistent(u) && Forked(u, r, a, b)
    ensures var s := Run(step, c, u, Initial(u, r, l), After(a, b, |b|)).state;
            && Resting(c, u, s) && s.root == View(r, UpTo(r, a, |a|) + Stretch(b, 0, |b|))
            && s.bestTip == b[|a|] && s.canonicalRoot == BlockAt(r, b, |b| - c.confirmations)
  {
    SecondStep(step, c, u, r, l, a, b, Run(step, c, u, Initial(u, r, l), After(a, b, |a|)).state);
    LastFed(step, c, u, Initial(u, r, l), a, b);
  }

  /** The diff of its first block is still there; that of the root is not. */
  lemma {:induction false} SecondChainDiffs(step: Step, c: Config, u: Universe, r: StateHash, l: Ledger,
                                            a: seq<StateHash>, b: seq<StateHash>)
    requires ValidConfig(c) && c.updateThreshold <= c.confirmations < |a| < c.pruneHeight - 1 && Consistent(u)
    requires Forked(u, r, a, b)
    ensures var s := Run(step, c, u, Initial(u, r, l), After(a, b, |b|)).state; b[0] in s.diffs && r !in s.diffs
  {
    SecondEntries(step, c, u, r, l, a, b, Run(step, c, u, Initial(u, r, l), After(a, b, |a|)).state);
    LastFed(step, c, u, Initial(u, r, l), a, b);
  }

  lemma {:induction false} SecondEntries(step: Step, c: Config, u: Universe, r: StateHash, l: Ledger,
                                         a: seq<StateHash>, b: seq<StateHash>, t: State)
    requires ValidConfig(c) && c.updateThreshold <= c.confirmations < |a| < c.pruneHeight - 1 && Consistent(u)
    requires Forked(u, r, a, b) && t == Run(step, c, u, Initial(u, r, l), After(a, b, |a|)).state
    ensures var s := Feed(step, c, u, t, b[|a|]).state; b[0] in s.diffs && r !in s.diffs
  {
    var s := Run(step, c, u, Initial(u, r, l), a).state;
    EntriesBefore(step, c, u, r, l, a, b, s, t);
    EntriesSettled(step, c, u, r, l, a, b, t);
  }

  lemma {:induction false} EntriesBefore(step: Step, c: Config, u: Universe, r: StateHash, l: Ledger,
                                         a: seq<StateHash>, b: seq<StateHash>, s: State, t: State)
    requires ValidConfig(c) && c.updateThreshold <= c.confirmations < |a| < c.pruneHeight && Consistent(u)
    requires Forked(u, r, a, b) && s == Run(step, c, u, Initial(u, r, l), a).state
    requires t == Run(step, c, u, Initial(u, r, l), After(a, b, |a|)).state
    ensures var e := Extended(u, t, b[|a|]);
            b[0] in e.diffs && r !in e.diffs && !Descends(u, e.canonicalRoot, b[0])
  {
    SpentRoot(step, c, u, r, l, a, s);
    FirstEntry(step, c, u, r, l, a, b, s, t);
    RootEntry(step, c, u, r, l, a, b, s, t);
    SideBlock(u, r, a, b, |a| - c.confirmations);
  }

  lemma {:induction false} FirstEntry(step: Step, c: Config, u: Universe, r: StateHash, l: Ledger, a: seq<StateHash>,
                                      b: seq<StateHash>, s: State, t: State)
    requires c.updateThreshold <= c.confirmations < |a| < c.pruneHeight && Consistent(u) && Forked(u, r, a, b)
    requires s == Run(step, c, u, Initial(u, r, l), a).state
    requires t == Run(step, c, u, Initial(u, r, l), After(a, b, |a|)).state
    ensures var e := Extended(u, t, b[|a|]); b[0] in e.diffs && e.canonicalRoot == s.canonicalRoot
  {
    OvertakenEntry(step, c, u, r, l, a, b, s, t, b[0]);
    StretchHas(b, 0, |b|, 0);
  }

  lemma {:induction false} RootEntry(step: Step, c: Config, u: Universe, r: StateHash, l: Ledger, a: seq<StateHash>,
                                     b: seq<StateHash>, s: State, t: State)
    requires c.updateThreshold <= c.confirmations < |a| < c.pruneHeight && Consistent(u) && Forked(u, r, a, b)
    requires s == Run(step, c, u, Initial(u, r, l), a).state && r !in s.diffs
    requires t == Run(step, c, u, Initial(u, r, l), After(a, b, |a|)).state
    ensures r !in Extended(u, t, b[|a|]).diffs
  {
    OvertakenEntry(step, c, u, r, l, a, b, s, t, r);
    RootNotAbove(u, r, b, |b|);
  }

  lemma {:induction false} OvertakenEntry(step: Step, c: Config, u: Universe, r: StateHash, l: Ledger,
                                          a: seq<StateHash>, b: seq<StateHash>, s: State, t: State, x: StateHash)
    requires c.updateThreshold <= c.confirmations < |a| < c.pruneHeight && Consistent(u) && Forked(u, r, a, b)
    requires s == Run(step, c, u, Initial(u, r, l), a).state
    requires t == Run(step, c, u, Initial(u, r, l), After(a, b, |a|)).state
    ensures var e := Extended(u, t, b[|a|]);
            e.canonicalRoot == s.canonicalRoot && (x in e.diffs <==> x in s.diffs || x in Stretch(b, 0, |b|))
  {
    OvertakenAtTip(step, c, u, r, l, a, b, s, t);
  }

  lemma {:induction false} SpentRoot(step: Step, c: Config, u: Universe, r: StateHash, l: Ledger, a: seq<StateHash>,
                                     s: State)
    requires ValidConfig(c) && c.updateThreshold <= c.confirmations < |a| < c.pruneHeight && Consistent(u)
    requires IsChain(u, r, a) && s == Run(step, c, u, Initial(u, r, l), a).state
    ensures r !in s.diffs && s.canonicalRoot == BlockAt(r, a, |a| - c.confirmations)
  {
    FirstTip(step, c, u, r, l, a);
    ChainSpends(step, c, u, r, l, a, s);
    ChainDescends(u, r, a, 0, |a| - c.confirmations);
    ChainBlock(u, r, a, |a| - c.confirmations);
  }

  lemma {:induction false} ChainSpends(step: Step, c: Config, u: Universe, r: StateHash, l: Ledger, a: seq<StateHash>,
                                       s: State)
    requires ValidConfig(c) && c.updateThreshold <= c.confirmations < |a| < c.pruneHeight && Consistent(u)
    requires IsChain(u, r, a) && s == Run(step, c, u, Initial(u, r, l), a).state
    ensures Spent(u, s)
  {
    FirstTip(step, c, u, r, l, a);
    ChainFresh(u, r, a);
    RunSpends(step, c, u, r, l, a);
  }

  lemma {:induction false} SideBlock(u: Universe, r: StateHash, a: seq<StateHash>, b: seq<StateHash>, d: nat)
    requires Consistent(u) && Forked(u, r, a, b) && 0 < d <= |a|
    ensures !Descends(u, BlockAt(r, a, d), b[0])
  {
    ChainBlock(u, r, a, d);
    assert LinkAt(u, r, b, 0);
    Apart(u, r, a, b, d, 1);
    if Descends(u, BlockAt(r, a, d), r) { DescendsLength(u, BlockAt(r, a, d), r); }
  }

  lemma {:induction false} EntriesSettled(step: Step, c: Config, u: Universe, r: StateHash, l: Ledger,
                                          a: seq<StateHash>, b: seq<StateHash>, t: State)
    requires c.updateThreshold <= c.confirmations < |a| < c.pruneHeight - 1 && Consistent(u)
    requires Forked(u, r, a, b) && t == Run(step, c, u, Initial(u, r, l), After(a, b, |a|)).state
    requires var e := Extended(u, t, b[|a|]);
             b[0] in e.diffs && r !in e.diffs && !Descends(u, e.canonicalRoot, b[0])
    ensures var s := Feed(step, c, u, t, b[|a|]).state; b[0] in s.diffs && r !in s.diffs
  {
    Overtaking(step, c, u, r, l, a, b);
    SettledDiffs(step, c, u, Extended(u, t, b[|a|]), b[0]);
    SettledDiffs(step, c, u, Extended(u, t, b[|a|]), r);
  }

  lemma {:induction false} RootNotAbove(u: Universe, r: StateHash, b: seq<StateHash>, j: nat)
    requires Consistent(u) && IsChain(u, r, b) && j <= |b|
    ensures r !in Stretch(b, 0, j)
  {
    if r in Stretch(b, 0, j) {
      var k := StretchMember(b, 0, j, r);
      ChainBlock(u, r, b, k + 1);
    }
  }

  lemma {:induction false} OutgrowsSecond(c: Config, u: Universe, r: StateHash, a: seq<StateHash>, b: seq<StateHash>,
                                          q: seq<StateHash>, s: State)
    requires c.confirmations < |a| && Consistent(u) && ForkedTwice(u, r, a, b, q)
    requires s.root == View(r, UpTo(r, a, |a|) + Stretch(b, 0, |b|)) && s.bestTip == b[|a|]
    requires s.canonicalRoot == BlockAt(r, b, |b| - c.confirmations)
    ensures Outgrows(u, s, b[0], q) && !Descends(u, s.canonicalRoot, b[0])
  {
    ThirdOutside(u, r, a, b, q);
    ChainBlock(u, r, b, 1);
    ChainBlock(u, r, b, |b|);
    ChainBlock(u, r, b, |b| - c.confirmations);
    if Descends(u, s.canonicalRoot, b[0]) { DescendsLength(u, s.canonicalRoot, b[0]); }
  }

  /** The third chain outgrows the second. */
  lemma {:induction false} ThirdOutgrows(step: Step, c: Config, u: Universe, r: StateHash, l: Ledger,
                                         a: seq<StateHash>, b: seq<StateHash>, q: seq<StateHash>)
    requires c.updateThreshold <= c.confirmations < |a| < c.pruneHeight - 1 && Consistent(u)
    requires ForkedTwice(u, r, a, b, q)
    ensures var s := Run(step, c, u, Initial(u, r, l), After(a, b, |b|)).state;
            Resting(c, u, s) && Outgrows(u, s, b[0], q) && !Descends(u, s.canonicalRoot, b[0])
  {
    SecondChain(step, c, u, r, l, a, b);
    OutgrowsSecond(c, u, r, a, b, q, Run(step, c, u, Initial(u, r, l), After(a, b, |b|)).state);
  }

  lemma {:induction false} ThirdOutside(u: Universe, r: StateHash, a: seq<StateHash>, b: seq<StateHash>,
                                        q: seq<StateHash>)
    requires Consistent(u) && ForkedTwice(u, r, a, b, q)
    ensures var hs := UpTo(r, a, |a|) + Stretch(b, 0, |b|); b[0] in hs && q[0] !in hs
  {
    StretchHas(b, 0, |b|, 0);
    assert LinkAt(u, b[0], q, 0);
    ChainBlock(u, r, b, 1);
    ChainBlock(u, b[0], q, 1);
    if q[0] in Stretch(b, 0, |b|) {
      var k := StretchMember(b, 0, |b|, q[0]);
      ChainBlock(u, r, b, k + 1);
    }
    if q[0] in UpTo(r, a, |a|) {
      var i := UpToMember(r, a, |a|, q[0]);
      ChainBlock(u, r, a, i);
      assert LinkAt(u, r, a, i - 1);
      Apart(u, r, a, b, i - 1, 1);
    }
  }

  /** When a branch overtakes deeply, it is reported along with everything below it. */
  lemma {:induction false} BranchReport(c: Config, u: Universe, p: StateHash, q: seq<StateHash>, e: State)
    requires c.confirmations < |q| && IsChain(u, p, q) && e.bestTip == q[|q| - 1]
    requires RootSound(u, e) && Anchored(c, u, e) && !Descends(u, e.canonicalRoot, e.bestTip)
    requires CanonicalUpdatable(c, u, e) && Depth(u, e) >= c.confirmations
    ensures var n := |q| - c.confirmations;
            Report(c, u, e) == [e.root.root] + Path(u, e.root.root, q[n - 1]) && RootAfter(c, u, e) == q[n - 1]
  {
    ChainUp(u, p, q, |q| - c.confirmations, |q|);
    CanonicalRootMoves(c, u, e);
    DeepReport(c, u, e);
  }

  lemma {:induction false} ThirdReport(c: Config, u: Universe, s: State, p: StateHash, q: seq<StateHash>, e: State)
    requires c.updateThreshold <= c.confirmations < |q| && Resting(c, u, s) && Outgrows(u, s, p, q)
    requires !Descends(u, s.canonicalRoot, p) && Overtaken(s, q, e)
    requires Len(u, s.canonicalRoot) + c.confirmations <= Len(u, s.bestTip)
    ensures CanonicalUpdatable(c, u, e)
    ensures var n := |q| - c.confirmations;
            Report(c, u, e) == [s.root.root] + Path(u, s.root.root, q[n - 1]) && RootAfter(c, u, e) == q[n - 1]
  {
    OvertakenDeep(c, u, s, p, q, e);
    ThirdUpdatable(c, u, s, e);
    BranchReport(c, u, p, q, e);
  }

  lemma {:induction false} ThirdUpdatable(c: Config, u: Universe, s: State, e: State)
    requires c.updateThreshold <= c.confirmations && Len(u, s.canonicalRoot) + c.confirmations <= Len(u, s.bestTip)
    requires Depth(u, e) == Depth(u, s) + 1 && e.root.root == s.root.root && e.canonicalRoot == s.canonicalRoot
    requires RootSound(u, s) && s.canonicalRoot in s.root.hashes
    ensures CanonicalUpdatable(c, u, e) && Depth(u, e) >= c.confirmations
  {
    RootedDescends(u, s.root, s.canonicalRoot);
  }

  lemma {:induction false} ThirdPath(u: Universe, r: StateHash, b: seq<StateHash>, q: seq<StateHash>, n: nat)
    requires Consistent(u) && |b| > 0 && IsChain(u, r, b) && IsChain(u, b[0], q) && 0 < n <= |q|
    ensures Path(u, r, q[n - 1]) == [b[0]] + q[..n]
  {
    ChainDescends(u, r, b, 0, 1);
    ChainDescends(u, b[0], q, 0, n);
    DescendsTransitive(u, r, b[0], q[n - 1]);
    assert b[0..1] == [b[0]] && q[0..n] == q[..n];
  }

  lemma {:induction false} RootNotThird(u: Universe, r: StateHash, b: seq<StateHash>, q: seq<StateHash>)
    requires Consistent(u) && |b| > 0 && IsChain(u, r, b) && IsChain(u, b[0], q)
    ensures r !in Stretch(q, 0, |q|)
  {
    ChainBlock(u, r, b, 1);
    if r in Stretch(q, 0, |q|) {
      var k := StretchMember(q, 0, |q|, r);
      ChainBlock(u, b[0], q, k + 1);
    }
  }

  lemma {:induction false} ThirdKnown(diffs: map<StateHash, LedgerDiff>, r: StateHash, x: StateHash,
                                      q: seq<StateHash>, n: nat)
    requires r !in diffs && x in diffs && n <= |q| && Stretch(q, 0, |q|) <= diffs.Keys
    ensures KnownBlocks(diffs, [r] + ([x] + q[..n])) == [x] + q[..n]
  {
    Joined(r, [x], q[..n]);
    KnownConcat(diffs, [r] + [x], q[..n]);
    KnownConcat(diffs, [r], [x]);
    KnownNone(diffs, [r]);
    KnownAll(diffs, [x]);
    ChainKnown(diffs, q, n);
  }

  lemma {:induction false} ThirdOvertakes(step: Step, c: Config, u: Universe, s: State, p: StateHash,
                                          q: seq<StateHash>, t: State)
    requires c.updateThreshold <= c.confirmations < |q| && Resting(c, u, s) && Outgrows(u, s, p, q)
    requires !Descends(u, s.canonicalRoot, p) && Beside(s, q, |q| - 1, t) && t.bestTip == s.bestTip
    requires Len(u, s.canonicalRoot) + c.confirmations <= Len(u, s.bestTip)
    ensures var n, h := |q| - c.confirmations, q[|q| - 1];
            var e := Extended(u, t, h);
            && StepLog(c, u, t, h) == KnownBlocks(e.diffs, [s.root.root] + Path(u, s.root.root, q[n - 1]))
            && Feed(step, c, u, t, h).state.canonicalRoot == q[n - 1]
            && e.diffs.Keys == s.diffs.Keys + Stretch(q, 0, |q|)
  {
    ExtendBeside(c, u, s, p, q, |q| - 1, t);
    ThirdReport(c, u, s, p, q, Extended(u, t, q[|q| - 1]));
    SettledRoot(step, c, u, t, q[|q| - 1]);
  }

  lemma {:induction false} ThirdAdds(u: Universe, r: StateHash, b: seq<StateHash>, q: seq<StateHash>, n: nat,
                                     diffs: map<StateHash, LedgerDiff>)
    requires Consistent(u) && |b| > 0 && IsChain(u, r, b) && IsChain(u, b[0], q) && 0 < n <= |q|
    requires b[0] in diffs && r !in diffs && Stretch(q, 0, |q|) <= diffs.Keys
    ensures Path(u, r, q[n - 1]) == [b[0]] + q[..n]
    ensures KnownBlocks(diffs, [r] + Path(u, r, q[n - 1])) == [b[0]] + q[..n]
  {
    ThirdPath(u, r, b, q, n);
    ThirdKnown(diffs, r, b[0], q, n);
  }

  /** The diff of the second chain's first block is known as it was before. */
  lemma {:induction false} ThirdDiffs(u: Universe, r: StateHash, b: seq<StateHash>, q: seq<StateHash>,
                                      keys: set<StateHash>, diffs: map<StateHash, LedgerDiff>)
    requires Consistent(u) && |b| > 0 && IsChain(u, r, b) && IsChain(u, b[0], q)
    requires b[0] in keys && r !in keys && diffs.Keys == keys + Stretch(q, 0, |q|)
    ensures b[0] in diffs && r !in diffs && Stretch(q, 0, |q|) <= diffs.Keys
  {
    RootNotThird(u, r, b, q);
  }

  lemma {:induction false} ThirdAddsAgain(step: Step, c: Config, u: Universe, r: StateHash, b: seq<StateHash>,
                                          q: seq<StateHash>, s: State, t: State)
    requires c.updateThreshold <= c.confirmations < |q| && |b| > 0 && IsChain(u, r, b)
    requires Resting(c, u, s) && Outgrows(u, s, b[0], q) && !Descends(u, s.canonicalRoot, b[0])
    requires Beside(s, q, |q| - 1, t) && t.bestTip == s.bestTip && s.root.root == r
    requires b[0] in s.diffs && r !in s.diffs && Len(u, s.canonicalRoot) + c.confirmations <= Len(u, s.bestTip)
    ensures var n, h := |q| - c.confirmations, q[|q| - 1];
            && StepLog(c, u, t, h) == [b[0]] + q[..n]
            && Feed(step, c, u, t, h).state.canonicalRoot == q[n - 1]
            && Path(u, r, q[n - 1]) == [b[0]] + q[..n]
  {
    var diffs := Extended(u, t, q[|q| - 1]).diffs;
    ThirdOvertakes(step, c, u, s, b[0], q, t);
    ThirdDiffs(u, r, b, q, s.diffs.Keys, diffs);
    ThirdAdds(u, r, b, q, |q| - c.confirmations, diffs);
  }

  lemma {:induction false} OvertakingRoots(step: Step, c: Config, u: Universe, r: StateHash, l: Ledger,
                                           a: seq<StateHash>, b: seq<StateHash>)
    requires c.updateThreshold <= c.confirmations < |a| < c.pruneHeight && Consistent(u) && Forked(u, r, a, b)
    ensures var t := Run(step, c, u, Initial(u, r, l), After(a, b, |a|)).state;
            && Path(u, r, t.canonicalRoot) == a[..|a| - c.confirmations]
            && RootAfter(c, u, Extended(u, t, b[|a|])) == BlockAt(r, b, |b| - c.confirmations)
  {
    var d := |a| - c.confirmations;
    DeepReorgReachable(step, c, u, r, l, a, b);
    Overtaking(step, c, u, r, l, a, b);
    ChainDescends(u, r, a, 0, d);
    assert a[0..d] == a[..d];
  }

  /** The log of the first two chains. */
  lemma {:induction false} SecondChainLog(step: Step, c: Config, u: Universe, r: StateHash, l: Ledger,
                                          a: seq<StateHash>, b: seq<StateHash>)
    requires ValidConfig(c) && c.updateThreshold <= c.confirmations < |a| < c.pruneHeight && Consistent(u)
    requires Forked(u, r, a, b) && r in u
    ensures Log(step, c, u, Initial(u, r, l), After(a, b, |b|)) ==
              a[..|a| - c.confirmations] + b[..|b| - c.confirmations]
  {
    SecondStepLog(step, c, u, r, l, a, b, After(a, b, |a|));
    LastLogged(step, c, u, Initial(u, r, l), a, b);
  }

  lemma {:induction false} SecondStepLog(step: Step, c: Config, u: Universe, r: StateHash, l: Ledger,
                                         a: seq<StateHash>, b: seq<StateHash>, hs: seq<StateHash>)
    requires ValidConfig(c) && c.updateThreshold <= c.confirmations < |a| < c.pruneHeight && Consistent(u)
    requires Forked(u, r, a, b) && hs == After(a, b, |a|)
    ensures Log(step, c, u, Initial(u, r, l), hs) == a[..|a| - c.confirmations]
    ensures StepLog(c, u, Run(step, c, u, Initial(u, r, l), hs).state, b[|a|]) == b[..|b| - c.confirmations]
  {
    OvertakingIsFirst(step, c, u, r, l, a, b);
    OvertakingForks(step, c, u, r, l, a, b);
    OvertakingKnows(step, c, u, r, l, a, b);
    OvertakingRoots(step, c, u, r, l, a, b);
    FirstDeepParts(step, c, u, r, l, hs, b[|a|], r);
  }

  lemma {:induction false} FirstDeepParts(step: Step, c: Config, u: Universe, r: StateHash, l: Ledger,
                                          hs: seq<StateHash>, h: StateHash, f: StateHash)
    requires ValidConfig(c) && Consistent(u) && r in u && FirstDeep(step, c, u, r, l, hs, h)
    requires ForksAt(c, u, Run(step, c, u, Initial(u, r, l), hs).state, h, f)
    ensures var s := Run(step, c, u, Initial(u, r, l), hs).state;
            var e := Extended(u, s, h);
            && Log(step, c, u, Initial(u, r, l), hs) == Path(u, r, s.canonicalRoot)
            && StepLog(c, u, s, h) == KnownBlocks(e.diffs, Path(u, f, RootAfter(c, u, e)))
  {
    assert (hs + [h])[..|hs|] == hs;
    FreshPrefix(u, r, hs + [h]);
    BeforeDeep(step, c, u, r, l, hs, h);
    ShallowRunLog(step, c, u, r, l, hs);
    DeepStepLog(c, u, Run(step, c, u, Initial(u, r, l), hs).state, h, f);
  }

  /** A feed of all three chains. */
  ghost function Threefold(a: seq<StateHash>, b: seq<StateHash>, q: seq<StateHash>, j: nat): seq<StateHash>
    requires j <= |q|
  {
    After(After(a, b, |b|), q, j)
  }

  lemma {:induction false} ThreefoldFresh(u: Universe, r: StateHash, a: seq<StateHash>, b: seq<StateHash>,
                                          q: seq<StateHash>)
    requires Consistent(u) && ForkedTwice(u, r, a, b, q)
    ensures FreshFeed(u, r, Threefold(a, b, q, |q|))
  {
    var hs := UpTo(r, a, |a|) + Stretch(b, 0, |b|);
    ChainFresh(u, r, a);
    ForkFeedFresh(u, r, a, b, a, |b|);
    ThirdOutside(u, r, a, b, q);
    TwoRooted(u, r, a, b);
    assert a[..|a|] == a && b[0..|b|] == b[..|b|];
    BranchFresh(u, r, After(a, b, |b|), View(r, hs), b[0], q, |q|);
  }

  lemma {:induction false} TwoRooted(u: Universe, r: StateHash, a: seq<StateHash>, b: seq<StateHash>)
    requires Consistent(u) && Forked(u, r, a, b)
    ensures Rooted(u, View(r, UpTo(r, a, |a|) + Stretch(b, 0, |b|)))
  {
    ChainRooted(u, r, a, |a|);
    ChainRooted(u, r, b, |b|);
    assert b[0..|b|] == b[..|b|];
    assert UpTo(r, a, |a|) + UpTo(r, b, |b|) == UpTo(r, a, |a|) + Stretch(b, 0, |b|);
  }

  /** The state before the third chain overtakes. */
  lemma {:induction false} ThirdChain(step: Step, c: Config, u: Universe, r: StateHash, l: Ledger, a: seq<StateHash>,
                                      b: seq<StateHash>, q: seq<StateHash>, s: State)
    requires c.updateThreshold <= c.confirmations < |a| < c.pruneHeight - 1 && Consistent(u)
    requires ForkedTwice(u, r, a, b, q) && s == Run(step, c, u, Initial(u, r, l), After(a, b, |b|)).state
    ensures var t := Run(step, c, u, Initial(u, r, l), Threefold(a, b, q, |q| - 1)).state;
            Beside(s, q, |q| - 1, t) && t.bestTip == s.bestTip
  {
    ThirdOutgrows(step, c, u, r, l, a, b, q);
    BesideRun(step, c, u, Initial(u, r, l), After(a, b, |b|), s, b[0], q, |q| - 1);
  }

  lemma {:induction false} ThirdChainLog(step: Step, c: Config, u: Universe, r: StateHash, l: Ledger,
                                         a: seq<StateHash>, b: seq<StateHash>, q: seq<StateHash>, s: State)
    requires c.updateThreshold <= c.confirmations < |a| < c.pruneHeight - 1 && Consistent(u)
    requires ForkedTwice(u, r, a, b, q) && s == Run(step, c, u, Initial(u, r, l), After(a, b, |b|)).state
    ensures Log(step, c, u, Initial(u, r, l), Threefold(a, b, q, |q| - 1)) ==
              Log(step, c, u, Initial(u, r, l), After(a, b, |b|))
  {
    ThirdOutgrows(step, c, u, r, l, a, b, q);
    BesideLog(step, c, u, Initial(u, r, l), After(a, b, |b|), s, b[0], q, |q| - 1);
  }

  lemma {:induction false} SecondChainDeep(step: Step, c: Config, u: Universe, r: StateHash, l: Ledger,
                                           a: seq<StateHash>, b: seq<StateHash>)
    requires c.updateThreshold <= c.confirmations < |a| < c.pruneHeight - 1 && Consistent(u) && Forked(u, r, a, b)
    ensures var s := Run(step, c, u, Initial(u, r, l), After(a, b, |b|)).state;
            s.root.root == r && Len(u, s.canonicalRoot) + c.confirmations <= Len(u, s.bestTip)
  {
    SecondChain(step, c, u, r, l, a, b);
    ChainBlock(u, r, b, |b|);
    ChainBlock(u, r, b, |b| - c.confirmations);
  }

  lemma {:induction false} ThirdStep(step: Step, c: Config, u: Universe, r: StateHash, l: Ledger, a: seq<StateHash>,
                                     b: seq<StateHash>, q: seq<StateHash>, t: State)
    requires ValidConfig(c) && c.updateThreshold <= c.confirmations < |a| < c.pruneHeight - 1 && Consistent(u)
    requires ForkedTwice(u, r, a, b, q)
    requires t == Run(step, c, u, Initial(u, r, l), Threefold(a, b, q, |q| - 1)).state
    ensures var n, h := |q| - c.confirmations, q[|q| - 1];
            && StepLog(c, u, t, h) == [b[0]] + q[..n]
            && Feed(step, c, u, t, h).state.canonicalRoot == q[n - 1]
            && Path(u, r, q[n - 1]) == [b[0]] + q[..n]
  {
    var s := Run(step, c, u, Initial(u, r, l), After(a, b, |b|)).state;
    SecondChainDeep(step, c, u, r, l, a, b);
    SecondChainDiffs(step, c, u, r, l, a, b);
    ThirdOutgrows(step, c, u, r, l, a, b, q);
    ThirdChain(step, c, u, r, l, a, b, q, s);
    ThirdAddsAgain(step, c, u, r, b, q, s, t);
  }

  /** Later deep reorgs apply blocks again: a first fork leaves the diffs of the new canonical chain
      in the map, so that a second one, above its first block, brings that block in once more. */
  lemma {:induction false} AppliedTwice(step: Step, c: Config, u: Universe, r: StateHash, l: Ledger,
                                        a: seq<StateHash>, b: seq<StateHash>, q: seq<StateHash>)
    requires ValidConfig(c) && c.updateThreshold <= c.confirmations < |a| < c.pruneHeight - 1 && Consistent(u)
    requires ForkedTwice(u, r, a, b, q)
    ensures var s := Run(step, c, u, Initial(u, r, l), Threefold(a, b, q, |q|)).state;
            var before := a[..|a| - c.confirmations] + b[..|b| - c.confirmations];
            var chain := [b[0]] + q[..|q| - c.confirmations];
            && Log(step, c, u, Initial(u, r, l), Threefold(a, b, q, |q|)) == before + chain
            && b[0] in before && Path(u, r, s.canonicalRoot) == chain
  {
    var s := Run(step, c, u, Initial(u, r, l), After(a, b, |b|)).state;
    ThirdChainLog(step, c, u, r, l, a, b, q, s);
    ThirdStep(step, c, u, r, l, a, b, q, Run(step, c, u, Initial(u, r, l), Threefold(a, b, q, |q| - 1)).state);
    SecondChainLog(step, c, u, r, l, a, b);
    LastFed(step, c, u, Initial(u, r, l), After(a, b, |b|), q);
    LastLogged(step, c, u, Initial(u, r, l), After(a, b, |b|), q);
    assert b[..|b| - c.confirmations][0] == b[0];
  }

  /** After the two forks, whatever the diffs. */
  lemma {:induction false} TwiceLedgerIff(step: Step, c: Config, u: Universe, r: StateHash, l: Ledger,
                                          a: seq<StateHash>, b: seq<StateHash>, q: seq<StateHash>)
    requires ValidConfig(c) && c.updateThreshold <= c.confirmations < |a| < c.pruneHeight - 1 && Consistent(u)
    requires ForkedTwice(u, r, a, b, q)
    ensures var s := Run(step, c, u, Initial(u, r, l), Threefold(a, b, q, |q|)).state;
            var before := a[..|a| - c.confirmations] + b[..|b| - c.confirmations];
            var chain := [b[0]] + q[..|q| - c.confirmations];
            && s.ledger == FoldBlocks(step, u, FoldBlocks(step, u, l, before), chain)
            && (s.ledger == LedgerAt(step, u, r, l, s.canonicalRoot) <==>
                FoldBlocks(step, u, FoldBlocks(step, u, l, before), chain) == FoldBlocks(step, u, l, chain))
  {
    AppliedTwice(step, c, u, r, l, a, b, q);
    ThreefoldFresh(u, r, a, b, q);
    RunFoldsLog(step, c, u, r, l, Threefold(a, b, q, |q|));
    FoldBlocksConcat(step, u, l, a[..|a| - c.confirmations] + b[..|b| - c.confirmations],
                     [b[0]] + q[..|q| - c.confirmations]);
  }

  /** If only the first block of the second chain pays, it pays twice. */
  lemma {:induction false} PaidTwice(step: Step, c: Config, u: Universe, r: StateHash, l: Ledger, a: seq<StateHash>,
                                     b: seq<StateHash>, q: seq<StateHash>)
    requires ValidConfig(c) && c.updateThreshold <= c.confirmations < |a| < c.pruneHeight - 1 && Consistent(u)
    requires ForkedTwice(u, r, a, b, q) && b[0] in u && OnlyPays(u, b[0])
    ensures var s := Run(step, c, u, Initial(u, r, l), Threefold(a, b, q, |q|)).state;
            var once := ApplyDiff(step, l, u[b[0]].diff);
            s.ledger == ApplyDiff(step, once, u[b[0]].diff) && LedgerAt(step, u, r, l, s.canonicalRoot) == once
  {
    var d, n := |a| - c.confirmations, |b| - c.confirmations;
    var once := ApplyDiff(step, l, u[b[0]].diff);
    TwiceLedgerIff(step, c, u, r, l, a, b, q);
    AppliedTwice(step, c, u, r, l, a, b, q);
    FoldBlocksConcat(step, u, l, a[..d], b[..n]);
    ElsewhereUnpaid(step, u, r, l, a, b, d);
    PaidOnce(step, u, r, l, b, n);
    ThirdPays(step, u, r, l, b, q, n);
    ThirdPays(step, u, r, once, b, q, n);
  }

  lemma {:induction false} ElsewhereUnpaid(step: Step, u: Universe, r: StateHash, l: Ledger, a: seq<StateHash>,
                                           b: seq<StateHash>, t: nat)
    requires Consistent(u) && Forked(u, r, a, b) && t <= |a| && OnlyPays(u, b[0])
    ensures FoldBlocks(step, u, l, a[..t]) == l
  {
    var part := a[..t];
    if b[0] in part {
      var k :| 0 <= k < |part| && part[k] == b[0];
      Apart(u, r, a, b, k + 1, 1);
    }
    NothingPaid(step, u, l, part, b[0]);
  }

  lemma {:induction false} ThirdPays(step: Step, u: Universe, r: StateHash, l: Ledger, b: seq<StateHash>,
                                     q: seq<StateHash>, n: nat)
    requires Consistent(u) && |b| > 0 && IsChain(u, b[0], q) && n <= |q| && b[0] in u && OnlyPays(u, b[0])
    ensures FoldBlocks(step, u, l, [b[0]] + q[..n]) == ApplyDiff(step, l, u[b[0]].diff)
  {
    var part := q[..n];
    FoldBlocksConcat(step, u, l, [b[0]], part);
    assert [b[0]][..0] == [] && FoldBlocks(step, u, l, [b[0]]) == ApplyDiff(step, l, u[b[0]].diff);
    if b[0] in part {
      var k :| 0 <= k < |part| && part[k] == b[0];
      ChainBlock(u, b[0], q, k + 1);
    }
    NothingPaid(step, u, ApplyDiff(step, l, u[b[0]].diff), part, b[0]);
  }

  // -------------------------------------------------- losing the canonical root

  /** A canonical root that is not above the new root goes with the rest. */
  lemma {:induction false} PrunedAway(step: Step, c: Config, u: Universe, r: StateHash, b: seq<StateHash>, e: State)
    requires IsChain(u, r, b) && RootSound(u, e) && Depth(u, e) == |b| >= c.pruneHeight && c.k <= |b|
    requires !CanonicalUpdatable(c, u, e) && e.bestTip == BlockAt(r, b, |b|)
    requires !Descends(u, BlockAt(r, b, |b| - c.k), e.canonicalRoot)
    ensures Settle(step, c, u, e).state.canonicalRoot !in Settle(step, c, u, e).state.root.hashes
  {
    LevelsAre(u, e);
    ChainUp(u, r, b, |b| - c.k, |b|);
  }

  lemma {:induction false} LevelsAre(u: Universe, e: State)
    requires RootSound(u, e)
    ensures Levels(u, e.root) == Depth(u, e) + 1
  {
    LastTopExists(u, e.root.hashes);
  }

  lemma {:induction false} BranchesApart(u: Universe, r: StateHash, a: seq<StateHash>, b: seq<StateHash>, i: nat,
                                         j: nat)
    requires Consistent(u) && Forked(u, r, a, b) && i <= |a| && 0 < j <= |b|
    ensures !Descends(u, BlockAt(r, b, j), BlockAt(r, a, i))
  {
    if Descends(u, BlockAt(r, b, j), BlockAt(r, a, i)) {
      DescendsLength(u, BlockAt(r, b, j), BlockAt(r, a, i));
      ChainBlock(u, r, a, i);
      ChainBlock(u, r, b, j);
      ChainUp(u, r, a, j, i);
      Apart(u, r, a, b, j, j);
    }
  }

  /** With a larger update threshold the canonical root is still on the overtaken branch when
      the tree is pruned, and goes with it. */
  lemma {:induction false} OvertakenPruned(step: Step, c: Config, u: Universe, r: StateHash, a: seq<StateHash>,
                                           b: seq<StateHash>, d: nat, e: State)
    requires Consistent(u) && Forked(u, r, a, b) && 0 < d <= |a| && RootSound(u, e) && e.root.root == r
    requires e.bestTip == b[|a|] && e.canonicalRoot == BlockAt(r, a, d)
    requires |b| - d < c.updateThreshold && |b| >= c.pruneHeight && c.k < |b|
    ensures Settle(step, c, u, e).state.canonicalRoot !in Settle(step, c, u, e).state.root.hashes
  {
    ChainBlock(u, r, b, |b|);
    ChainBlock(u, r, a, d);
    BranchesApart(u, r, a, b, d, |b| - c.k);
    PrunedAway(step, c, u, r, b, e);
  }

  lemma {:induction false} JumpAll(step: Step, c: Config, u: Universe, r: StateHash, l: Ledger, a: seq<StateHash>)
    requires Consistent(u) && IsChain(u, r, a) && 2 <= |a| < c.pruneHeight && c.confirmations <= |a|
    requires c.updateThreshold <= |a|
    ensures AtTip(u, r, a, |a|, |a| - c.confirmations, Run(step, c, u, Initial(u, r, l), LateBlock(a, 0)).state)
  {
    MovesOnce(c, |a|);
    JumpRun(step, c, u, r, l, a, 0);
  }

  lemma {:induction false} MovesOnce(c: Config, n: nat)
    requires c.confirmations <= n && c.updateThreshold <= n
    ensures Moved(c, n, CanonDepth(c, 0)) == n - c.confirmations
  {}

  lemma {:induction false} LosingFeedFresh(u: Universe, r: StateHash, a: seq<StateHash>, b: seq<StateHash>)
    requires Consistent(u) && Forked(u, r, a, b)
    ensures FreshFeed(u, r, After(LateBlock(a, 0), b, |b|))
  {
    LateFresh(u, r, a, 0);
    ForkFeedFresh(u, r, a, b, LateBlock(a, 0), |b|);
  }

  lemma {:induction false} LosingState(c: Config, u: Universe, r: StateHash, a: seq<StateHash>, b: seq<StateHash>,
                                       d: nat, s: State, t: State)
    requires Forked(u, r, a, b) && AtTip(u, r, a, |a|, d, s)
    requires Resting(c, u, s) && Outgrows(u, s, r, b) && Beside(s, b, |a|, t) && t.bestTip == s.bestTip
    ensures Accepted(u, t, b[|a|]) && ExtendsRoot(u, t, b[|a|])
    ensures var e := Extended(u, t, b[|a|]);
            RootSound(u, e) && e.root.root == r && e.bestTip == b[|a|] && e.canonicalRoot == BlockAt(r, a, d)
  {
    ExtendBeside(c, u, s, r, b, |a|, t);
    BesideSound(c, u, s, r, b, |b|, Extended(u, t, b[|a|]));
  }

  /** After a feed that ends at the tip of the first chain, the second one, up to its last block. */
  lemma {:induction false} LosingRun(step: Step, c: Config, u: Universe, r: StateHash, a: seq<StateHash>,
                                     b: seq<StateHash>, d: nat, s0: State, pre: seq<StateHash>, s: State)
    requires Consistent(u) && Forked(u, r, a, b) && Deep(c, |a|, d) && Moved(c, |a|, d) == d && |a| < c.pruneHeight
    requires AtTip(u, r, a, |a|, d, s) && s == Run(step, c, u, s0, pre).state
    ensures var t := Run(step, c, u, s0, After(pre, b, |a|)).state;
            var e := Extended(u, t, b[|a|]);
            && Accepted(u, t, b[|a|]) && ExtendsRoot(u, t, b[|a|])
            && RootSound(u, e) && e.root.root == r && e.bestTip == b[|a|] && e.canonicalRoot == BlockAt(r, a, d)
  {
    TipOutgrown(c, u, r, a, b, d, s);
    BesideRun(step, c, u, s0, pre, s, r, b, |a|);
    LosingState(c, u, r, a, b, d, s, Run(step, c, u, s0, After(pre, b, |a|)).state);
  }

  lemma {:induction false} PrunedFeed(step: Step, c: Config, u: Universe, s: State, h: StateHash)
    requires Accepted(u, s, h) && ExtendsRoot(u, s, h)
    requires var s' := Settle(step, c, u, Extended(u, s, h)).state; s'.canonicalRoot !in s'.root.hashes
    ensures var s' := Feed(step, c, u, s, h).state; s'.canonicalRoot !in s'.root.hashes
  {}

  lemma {:induction false} LosingStep(step: Step, c: Config, u: Universe, r: StateHash, l: Ledger, a: seq<StateHash>,
                                      b: seq<StateHash>, t: State)
    requires ValidConfig(c) && c.updateThreshold > c.confirmations + 1 && |a| == c.pruneHeight - 1
    requires Consistent(u) && Forked(u, r, a, b)
    requires t == Run(step, c, u, Initial(u, r, l), After(LateBlock(a, 0), b, |a|)).state
    ensures var s := Feed(step, c, u, t, b[|a|]).state; s.canonicalRoot !in s.root.hashes
  {
    var d, s0 := |a| - c.confirmations, Initial(u, r, l);
    JumpAll(step, c, u, r, l, a);
    LosingRun(step, c, u, r, a, b, d, s0, LateBlock(a, 0), Run(step, c, u, s0, LateBlock(a, 0)).state);
    OvertakenPruned(step, c, u, r, a, b, d, Extended(u, t, b[|a|]));
    PrunedFeed(step, c, u, t, b[|a|]);
  }

  /** The first chain arrives with its first block last, so that the canonical root moves once,
      up to `confirmations` blocks below its tip; then the second chain. */
  lemma {:induction false} CanonicalRootLost(step: Step, c: Config, u: Universe, r: StateHash, l: Ledger,
                                             a: seq<StateHash>, b: seq<StateHash>)
    requires ValidConfig(c) && c.updateThreshold > c.confirmations + 1 && |a| == c.pruneHeight - 1
    requires Consistent(u) && Forked(u, r, a, b)
    ensures var s := Run(step, c, u, Initial(u, r, l), After(LateBlock(a, 0), b, |b|)).state;
            s.canonicalRoot !in s.root.hashes
  {
    LosingStep(step, c, u, r, l, a, b, Run(step, c, u, Initial(u, r, l), After(LateBlock(a, 0), b, |a|)).state);
    LastFed(step, c, u, Initial(u, r, l), LateBlock(a, 0), b);
  }
}
