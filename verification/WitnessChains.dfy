/** Runs along a chain: block after block, or with a stretch of it arriving as a branch of its
    own before the block below it. */
module WitnessChains {
  import opened Accounts
  import opened Blocks
  import opened Ledgers
  import opened WitnessTree
  import opened WitnessForest
  import opened WitnessRuns
  import opened WitnessOrder

  const SETTINGS: Config := MainnetConfig(MAINNET_TRANSITION_FRONTIER_K, PRUNE_INTERVAL_DEFAULT)

  /** A block without diffs. */
  function Plain(h: StateHash, parent: StateHash, length: nat): Pcb {
    Pcb(h, parent, length, "g", length, h, [])
  }

  lemma {:induction false} ShallowOne(step: Step, c: Config, u: Universe, s: State, hs: seq<StateHash>, h: StateHash)
    ensures Shallow(step, c, u, s, hs + [h]) <==>
              Shallow(step, c, u, s, hs) && NoDeepReorg(u, Run(step, c, u, s, hs).state, h)
  {
    assert (hs + [h])[..|hs|] == hs;
  }

  /** A block that touches no branch starts a new one. */
  lemma {:induction false} FeedNew(step: Step, c: Config, u: Universe, s: State, h: StateHash)
    requires Accepted(u, s, h) && !IsChildIn(u, s.root, h)
    requires forall i ::
               0 <= i < |s.dangling| ==> !IsParentOfRoot(u, s.dangling[i], h) && !IsChildIn(u, s.dangling[i], h)
    ensures var s' := Feed(step, c, u, s, h).state;
            && s'.root == s.root && s'.bestTip == s.bestTip && s'.canonicalRoot == s.canonicalRoot
            && s'.dangling == s.dangling + [View(h, {h})]
  {
    assert FirstTouch(u, s.dangling, h) == |s.dangling|;
  }

  lemma {:induction false} GrowOnly(u: Universe, d: View, h: StateHash)
    requires Consistent(u) && Rooted(u, d) && h in u && h !in d.hashes && IsChildIn(u, d, h)
    ensures DanglingAfter(u, [d], h) == [View(d.root, d.hashes + {h})]
  {
    DanglingGateAdmits(u, d, h);
    NotBothWays(u, d, h);
    GrowRooted(u, d, h);
    assert FirstTouch(u, [d], h) == 0;
    var v := View(d.root, d.hashes + {h});
    assert Grow(u, d, h) == v && [d][0 := v] == [v];
    NoMatch(u, [v], h);
  }

  /** A child of the only dangling branch joins it. */
  lemma {:induction false} FeedGrow(step: Step, c: Config, u: Universe, s: State, d: View, h: StateHash)
    requires Consistent(u) && Rooted(u, d) && s.dangling == [d] && h in u && h !in d.hashes
    requires Accepted(u, s, h) && IsChildIn(u, d, h) && !IsChildIn(u, s.root, h)
    ensures var s' := Feed(step, c, u, s, h).state;
            && s'.root == s.root && s'.bestTip == s.bestTip && s'.canonicalRoot == s.canonicalRoot
            && s'.dangling == [View(d.root, d.hashes + {h})]
  {
    GrowOnly(u, d, h);
  }

  lemma {:induction false} FeedWithoutPrune(step: Step, c: Config, u: Universe, s: State, h: StateHash)
    requires Accepted(u, s, h) && ExtendsRoot(u, s, h) && Levels(u, Extended(u, s, h).root) <= c.pruneHeight
    ensures var s', e := Feed(step, c, u, s, h).state, Extended(u, s, h); s'.root == e.root && s'.bestTip == e.bestTip
  {
    UpdateKeepsForest(step, c, u, Extended(u, s, h));
  }

  lemma {:induction false} OnlyBranch(d: View)
    ensures AllHashes([d]) == d.hashes
  {
    assert [d] == [] + [d];
    AllHashesSnoc([], d);
  }

  // -------------------------------------------------------------------- chains

  /** Block `i` of the chain `a` above `r`, which is block 0. */
  ghost function BlockAt(r: StateHash, a: seq<StateHash>, i: nat): StateHash
    requires i <= |a|
  {
    if i == 0 then r else a[i - 1]
  }

  ghost predicate LinkAt(u: Universe, r: StateHash, a: seq<StateHash>, i: nat)
    requires i < |a|
  {
    a[i] in u && u[a[i]].parentHash == BlockAt(r, a, i)
  }

  ghost predicate IsChain(u: Universe, r: StateHash, a: seq<StateHash>) {
    r in u && forall i: nat {:trigger LinkAt(u, r, a, i)} :: i < |a| ==> LinkAt(u, r, a, i)
  }

  lemma {:induction false} ChainBlock(u: Universe, r: StateHash, a: seq<StateHash>, i: nat)
    requires Consistent(u) && IsChain(u, r, a) && i <= |a|
    ensures BlockAt(r, a, i) in u && Len(u, BlockAt(r, a, i)) == Len(u, r) + i
  {
    if i > 0 {
      assert LinkAt(u, r, a, i - 1) && Linked(u, a[i - 1]);
      ChainBlock(u, r, a, i - 1);
    }
  }

  lemma {:induction false} ChainDescends(u: Universe, r: StateHash, a: seq<StateHash>, i: nat, j: nat)
    requires Consistent(u) && IsChain(u, r, a) && i <= j <= |a|
    ensures Descends(u, BlockAt(r, a, i), BlockAt(r, a, j))
    ensures Up(u, BlockAt(r, a, j), j - i) == BlockAt(r, a, i)
    ensures Path(u, BlockAt(r, a, i), BlockAt(r, a, j)) == a[i..j]
  {
    ChainBlock(u, r, a, i);
    ChainBlock(u, r, a, j);
    if i < j {
      assert LinkAt(u, r, a, j - 1) && Linked(u, a[j - 1]);
      ChainBlock(u, r, a, j - 1);
      ChainDescends(u, r, a, i, j - 1);
      assert a[i..j] == a[i..j - 1] + [a[j - 1]];
    }
  }

  ghost function UpTo(r: StateHash, a: seq<StateHash>, n: nat): set<StateHash>
    requires n <= |a|
  {
    {r} + Elems(a[..n])
  }

  lemma {:induction false} UpToMember(r: StateHash, a: seq<StateHash>, n: nat, x: StateHash) returns (i: nat)
    requires n <= |a| && x in UpTo(r, a, n)
    ensures i <= n && x == BlockAt(r, a, i)
  {
    if x == r { return 0; }
    var k :| 0 <= k < n && a[..n][k] == x;
    i := k + 1;
  }

  lemma {:induction false} UpToHas(r: StateHash, a: seq<StateHash>, i: nat, n: nat)
    requires i <= n <= |a|
    ensures BlockAt(r, a, i) in UpTo(r, a, n)
  {
    if i > 0 { assert a[..n][i - 1] == a[i - 1]; }
  }

  lemma {:induction false} UpToNext(r: StateHash, a: seq<StateHash>, n: nat)
    requires n < |a|
    ensures UpTo(r, a, n + 1) == UpTo(r, a, n) + {a[n]}
  {
    assert a[..n + 1] == a[..n] + [a[n]];
  }

  /** A block further up is not in the lower part. */
  lemma {:induction false} NotYet(u: Universe, r: StateHash, a: seq<StateHash>, n: nat, i: nat)
    requires Consistent(u) && IsChain(u, r, a) && n < i <= |a|
    ensures BlockAt(r, a, i) !in UpTo(r, a, n)
  {
    ChainBlock(u, r, a, i);
    if BlockAt(r, a, i) in UpTo(r, a, n) {
      var k := UpToMember(r, a, n, BlockAt(r, a, i));
      ChainBlock(u, r, a, k);
    }
  }

  lemma {:induction false} ChainRooted(u: Universe, r: StateHash, a: seq<StateHash>, n: nat)
    requires Consistent(u) && IsChain(u, r, a) && n <= |a|
    ensures Rooted(u, View(r, UpTo(r, a, n))) && IsTop(u, UpTo(r, a, n), BlockAt(r, a, n))
  {
    ChainBlock(u, r, a, n);
    UpToHas(r, a, n, n);
    forall x | x in UpTo(r, a, n)
      ensures x in u && Len(u, x) <= Len(u, BlockAt(r, a, n)) && (x != r ==> u[x].parentHash in UpTo(r, a, n))
    {
      var i := UpToMember(r, a, n, x);
      ChainBlock(u, r, a, i);
      if i > 0 {
        assert LinkAt(u, r, a, i - 1);
        UpToHas(r, a, i - 1, n);
      }
    }
  }

  // ------------------------------------------------------- growing at the tip

  /** The root branch is the chain up to block `n`, and the canonical root is block `d`. */
  ghost predicate AtTip(u: Universe, r: StateHash, a: seq<StateHash>, n: nat, d: nat, s: State) {
    && d <= n <= |a|
    && s.root == View(r, UpTo(r, a, n)) && s.dangling == []
    && s.bestTip == BlockAt(r, a, n) && s.canonicalRoot == BlockAt(r, a, d)
  }

  /** The canonical root has not moved yet, or is deep enough. */
  ghost predicate Deep(c: Config, n: nat, d: nat) {
    d == 0 || d + c.confirmations <= n
  }

  /** Where a canonical update moves the canonical root. */
  ghost function Moved(c: Config, n: nat, d: nat): nat {
    if n - d >= c.updateThreshold && n >= c.confirmations then n - c.confirmations else d
  }

  ghost function CanonDepth(c: Config, n: nat): (d: nat)
    ensures d <= n && Deep(c, n, d)
  {
    if n == 0 then 0 else Moved(c, n, CanonDepth(c, n - 1))
  }

  lemma {:induction false} AlongSound(c: Config, u: Universe, r: StateHash, a: seq<StateHash>, n: nat, d: nat, e: State)
    requires Consistent(u) && IsChain(u, r, a) && AtTip(u, r, a, n, d, e) && Deep(c, n, d)
    ensures RootSound(u, e) && Anchored(c, u, e) && Depth(u, e) == n && Descends(u, e.canonicalRoot, e.bestTip)
    ensures CanonicalUpdatable(c, u, e) <==> n - d >= c.updateThreshold
  {
    ChainRooted(u, r, a, n);
    ChainBlock(u, r, a, n);
    ChainBlock(u, r, a, d);
    UpToHas(r, a, d, n);
    ChainDescends(u, r, a, d, n);
  }

  lemma {:induction false} ChainUp(u: Universe, r: StateHash, a: seq<StateHash>, i: nat, j: nat)
    requires Consistent(u) && IsChain(u, r, a) && i <= j <= |a|
    ensures Up(u, BlockAt(r, a, j), j - i) == BlockAt(r, a, i)
  {
    ChainDescends(u, r, a, i, j);
  }

  /** Where the canonical root goes when it and the best tip are on the chain. */
  lemma {:induction false} RootMovesTo(c: Config, u: Universe, r: StateHash, a: seq<StateHash>, n: nat, d: nat,
                                       e: State)
    requires Consistent(u) && IsChain(u, r, a) && d <= n <= |a| && Deep(c, n, d)
    requires RootSound(u, e) && Anchored(c, u, e) && Depth(u, e) == n
    requires (CanonicalUpdatable(c, u, e) <==> n - d >= c.updateThreshold)
    requires e.bestTip == BlockAt(r, a, n) && e.canonicalRoot == BlockAt(r, a, d)
    ensures d <= Moved(c, n, d) <= n && RootAfter(c, u, e) == BlockAt(r, a, Moved(c, n, d))
  {
    if n >= c.confirmations { ChainUp(u, r, a, n - c.confirmations, n); }
    CanonicalRootIs(c, u, e, BlockAt(r, a, Moved(c, n, d)));
  }

  /** A canonical update along the chain. */
  lemma {:induction false} UpdateAlong(c: Config, u: Universe, r: StateHash, a: seq<StateHash>, n: nat, d: nat,
                                       e: State)
    requires Consistent(u) && IsChain(u, r, a) && AtTip(u, r, a, n, d, e) && Deep(c, n, d)
    ensures RootSound(u, e) && Anchored(c, u, e) && Depth(u, e) == n
    ensures d <= Moved(c, n, d) <= n && RootAfter(c, u, e) == BlockAt(r, a, Moved(c, n, d))
    ensures Report(c, u, e) == a[d..Moved(c, n, d)]
  {
    AlongSound(c, u, r, a, n, d, e);
    RootMovesTo(c, u, r, a, n, d, e);
    ReportIsThePath(c, u, e);
    ChainDescends(u, r, a, d, Moved(c, n, d));
  }

  /** A child of the root branch, when nothing dangles. */
  lemma {:induction false} OnTop(c: Config, u: Universe, s: State, h: StateHash)
    requires RootSound(u, s) && s.dangling == [] && h in u && h !in s.root.hashes && u[h].parentHash in s.root.hashes
    ensures Accepted(u, s, h) && ExtendsRoot(u, s, h)
    ensures var e := Extended(u, s, h);
            && e.root == View(s.root.root, s.root.hashes + {h}) && e.dangling == []
            && e.bestTip == Prefer(u, s.bestTip, h) && e.canonicalRoot == s.canonicalRoot
    ensures ExtendRoot(u, s, h).bestTip == Extended(u, s, h).bestTip
  {
    assert Linked(u, h);
    RootedDescends(u, s.root, u[h].parentHash);
    assert s.root.hashes + {h} + AllHashes([]) == s.root.hashes + {h};
  }

  /** Settling when no pruning is due. */
  lemma {:induction false} SettleUnpruned(step: Step, c: Config, u: Universe, e: State)
    requires RootSound(u, e) && Trimmed(c, u, e)
    ensures Settle(step, c, u, e).state == UpdateCanonical(step, c, u, e)
  {
    LastTopExists(u, e.root.hashes);
    UpdateKeepsForest(step, c, u, e);
  }

  lemma {:induction false} SettleAlong(step: Step, c: Config, u: Universe, r: StateHash, a: seq<StateHash>, n: nat,
                                       d: nat, e: State)
    requires Consistent(u) && IsChain(u, r, a) && AtTip(u, r, a, n, d, e) && Deep(c, n, d) && n < c.pruneHeight
    ensures AtTip(u, r, a, n, Moved(c, n, d), Settle(step, c, u, e).state)
  {
    UpdateAlong(c, u, r, a, n, d, e);
    SettleUnpruned(step, c, u, e);
    UpdateKeepsForest(step, c, u, e);
  }

  lemma {:induction false} ExtendAlong(c: Config, u: Universe, r: StateHash, a: seq<StateHash>, n: nat, d: nat,
                                       s: State)
    requires Consistent(u) && IsChain(u, r, a) && AtTip(u, r, a, n, d, s) && n < |a|
    ensures Accepted(u, s, a[n]) && ExtendsRoot(u, s, a[n]) && AtTip(u, r, a, n + 1, d, Extended(u, s, a[n]))
    ensures NoDeepReorg(u, s, a[n])
  {
    ChainRooted(u, r, a, n);
    assert LinkAt(u, r, a, n);
    NotYet(u, r, a, n, n + 1);
    OnTop(c, u, s, a[n]);
    ChainBlock(u, r, a, n);
    ChainBlock(u, r, a, n + 1);
    BeatsOrder(u, a[n], BlockAt(r, a, n), r);
    UpToNext(r, a, n);
    ChainDescends(u, r, a, d, n + 1);
  }

  /** Feeding a chain in order. */
  lemma {:induction false} LinearRun(step: Step, c: Config, u: Universe, r: StateHash, l: Ledger, a: seq<StateHash>,
                                     n: nat)
    requires Consistent(u) && IsChain(u, r, a) && n <= |a| && (n == 0 || n < c.pruneHeight)
    ensures AtTip(u, r, a, n, CanonDepth(c, n), Run(step, c, u, Initial(u, r, l), a[..n]).state)
    ensures Shallow(step, c, u, Initial(u, r, l), a[..n])
  {
    if n == 0 {
      assert a[..0] == [] && UpTo(r, a, 0) == {r};
    } else {
      var s := Run(step, c, u, Initial(u, r, l), a[..n - 1]).state;
      LinearRun(step, c, u, r, l, a, n - 1);
      assert a[..n] == a[..n - 1] + [a[n - 1]];
      RunOne(step, c, u, Initial(u, r, l), a[..n - 1], a[n - 1]);
      ShallowOne(step, c, u, Initial(u, r, l), a[..n - 1], a[n - 1]);
      ExtendAlong(c, u, r, a, n - 1, CanonDepth(c, n - 1), s);
      SettleAlong(step, c, u, r, a, n, CanonDepth(c, n - 1), Extended(u, s, a[n - 1]));
    }
  }

  // ---------------------------------------------------- a stretch that comes aside

  ghost function Stretch(a: seq<StateHash>, i: nat, j: nat): set<StateHash>
    requires i <= j <= |a|
  {
    Elems(a[i..j])
  }

  /** As `AtTip`, with the blocks from `m` + 2 up to `j` in a branch of their own. */
  ghost predicate Aside(u: Universe, r: StateHash, a: seq<StateHash>, m: nat, d: nat, j: nat, s: State) {
    && m + 2 <= j <= |a|
    && AtTip(u, r, a, m, d, s.(dangling := []))
    && s.dangling == [View(a[m + 1], Stretch(a, m + 1, j))]
  }

  lemma {:induction false} StretchMember(a: seq<StateHash>, i: nat, j: nat, x: StateHash) returns (k: nat)
    requires i <= j <= |a| && x in Stretch(a, i, j)
    ensures i <= k < j && a[k] == x
  {
    var part := a[i..j];
    var t :| 0 <= t < |part| && part[t] == x;
    k := i + t;
  }

  lemma {:induction false} StretchHas(a: seq<StateHash>, i: nat, j: nat, k: nat)
    requires i <= k < j <= |a|
    ensures a[k] in Stretch(a, i, j)
  {
    assert a[i..j][k - i] == a[k];
  }

  lemma {:induction false} StretchNext(a: seq<StateHash>, i: nat, j: nat)
    requires i <= j < |a|
    ensures Stretch(a, i, j + 1) == Stretch(a, i, j) + {a[j]}
  {
    assert a[i..j + 1] == a[i..j] + [a[j]];
  }

  lemma {:induction false} StretchOne(a: seq<StateHash>, i: nat)
    requires i < |a|
    ensures Stretch(a, i, i + 1) == {a[i]}
  {
    assert a[i..i + 1] == [a[i]];
  }

  lemma {:induction false} StretchBlock(u: Universe, r: StateHash, a: seq<StateHash>, i: nat, j: nat, x: StateHash)
    requires Consistent(u) && IsChain(u, r, a) && i < j <= |a| && x in Stretch(a, i, j)
    ensures x in u && Len(u, x) <= Len(u, a[j - 1]) && (x == a[j - 1] || Len(u, x) < Len(u, a[j - 1]))
    ensures x != a[i] ==> u[x].parentHash in Stretch(a, i, j)
    ensures j < |a| ==> x != a[j]
  {
    var k := StretchMember(a, i, j, x);
    ChainBlock(u, r, a, k + 1);
    ChainBlock(u, r, a, j);
    assert LinkAt(u, r, a, k);
    if k > i { StretchHas(a, i, j, k - 1); }
    if j < |a| { ChainBlock(u, r, a, j + 1); }
  }

  lemma {:induction false} StretchRooted(u: Universe, r: StateHash, a: seq<StateHash>, i: nat, j: nat)
    requires Consistent(u) && IsChain(u, r, a) && i < j <= |a|
    ensures Rooted(u, View(a[i], Stretch(a, i, j)))
    ensures j < |a| ==> a[j] !in Stretch(a, i, j)
  {
    StretchHas(a, i, j, i);
    forall x | x in Stretch(a, i, j) { StretchBlock(u, r, a, i, j, x); }
  }

  /** Only the last block of a stretch is that high. */
  lemma {:induction false} StretchTop(u: Universe, r: StateHash, a: seq<StateHash>, i: nat, j: nat)
    requires Consistent(u) && IsChain(u, r, a) && i < j <= |a|
    ensures LastTop(u, Stretch(a, i, j)) == a[j - 1]
  {
    var hs := Stretch(a, i, j);
    StretchHas(a, i, j, j - 1);
    forall x | x in hs ensures x in u { StretchBlock(u, r, a, i, j, x); }
    LastTopExists(u, hs);
    StretchBlock(u, r, a, i, j, LastTop(u, hs));
  }

  /** A block above the next one does not extend the root branch. */
  lemma {:induction false} NotOnTop(u: Universe, r: StateHash, a: seq<StateHash>, m: nat, j: nat)
    requires Consistent(u) && IsChain(u, r, a) && m < j < |a|
    ensures a[j] in u && u[a[j]].parentHash == a[j - 1] && !IsChildIn(u, View(r, UpTo(r, a, m)), a[j])
    ensures Len(u, r) <= Len(u, a[j])
  {
    assert LinkAt(u, r, a, j);
    NotYet(u, r, a, m, j);
    ChainBlock(u, r, a, j + 1);
  }

  /** A state that has only its dangling branches changed. */
  ghost predicate SameRoot(s: State, s': State) {
    s'.root == s.root && s'.bestTip == s.bestTip && s'.canonicalRoot == s.canonicalRoot
  }

  lemma {:induction false} StartAside(step: Step, c: Config, u: Universe, r: StateHash, a: seq<StateHash>, m: nat,
                                      d: nat, s: State)
    requires Consistent(u) && IsChain(u, r, a) && AtTip(u, r, a, m, d, s) && m + 2 <= |a|
    ensures Aside(u, r, a, m, d, m + 2, Feed(step, c, u, s, a[m + 1]).state) && NoDeepReorg(u, s, a[m + 1])
  {
    NotOnTop(u, r, a, m, m + 1);
    FeedNew(step, c, u, s, a[m + 1]);
    StretchOne(a, m + 1);
    assert [] + [View(a[m + 1], {a[m + 1]})] == [View(a[m + 1], {a[m + 1]})];
  }

  /** The branch, as something that the next block joins. */
  lemma {:induction false} NextJoins(u: Universe, r: StateHash, a: seq<StateHash>, m: nat, j: nat)
    requires Consistent(u) && IsChain(u, r, a) && m + 2 <= j < |a|
    ensures var d, h := View(a[m + 1], Stretch(a, m + 1, j)), a[j];
            && Rooted(u, d) && h in u && h !in d.hashes && IsChildIn(u, d, h)
            && !IsChildIn(u, View(r, UpTo(r, a, m)), h) && Len(u, r) <= Len(u, h)
  {
    NotOnTop(u, r, a, m, j);
    StretchRooted(u, r, a, m + 1, j);
    StretchHas(a, m + 1, j, j - 1);
  }

  lemma {:induction false} OutsideRoot(u: Universe, s: State, h: StateHash)
    requires !IsChildIn(u, s.root, h)
    ensures NoDeepReorg(u, s, h)
  {}

  lemma {:induction false} AsideStep(u: Universe, r: StateHash, a: seq<StateHash>, m: nat, d: nat, j: nat, s: State,
                                     s': State)
    requires Aside(u, r, a, m, d, j, s) && j < |a| && SameRoot(s, s')
    requires s'.dangling == [View(a[m + 1], Stretch(a, m + 1, j + 1))]
    ensures Aside(u, r, a, m, d, j + 1, s')
  {}

  lemma {:induction false} GrowAside(step: Step, c: Config, u: Universe, r: StateHash, a: seq<StateHash>, m: nat,
                                     d: nat, j: nat, s: State)
    requires Consistent(u) && IsChain(u, r, a) && Aside(u, r, a, m, d, j, s) && j < |a|
    ensures Aside(u, r, a, m, d, j + 1, Feed(step, c, u, s, a[j]).state) && NoDeepReorg(u, s, a[j])
  {
    NextJoins(u, r, a, m, j);
    FeedGrow(step, c, u, s, View(a[m + 1], Stretch(a, m + 1, j)), a[j]);
    StretchNext(a, m + 1, j);
    AsideStep(u, r, a, m, d, j, s, Feed(step, c, u, s, a[j]).state);
    OutsideRoot(u, s, a[j]);
  }

  lemma {:induction false} OneMatch(u: Universe, d: View, h: StateHash)
    requires IsParentOfRoot(u, d, h)
    ensures Matching(u, [d], h) == [d] && Others(u, [d], h) == []
    ensures AllHashes([d]) == d.hashes && Tips(u, [d]) == [LastTop(u, d.hashes)]
    ensures BestOf(u, Tips(u, [d])) == LastTop(u, d.hashes)
  {
    assert [d] == [] + [d];
    OnlyBranch(d);
  }

  lemma {:induction false} UpToStretch(r: StateHash, a: seq<StateHash>, m: nat)
    requires m + 2 <= |a|
    ensures UpTo(r, a, m) + {a[m]} + Stretch(a, m + 1, |a|) == UpTo(r, a, |a|)
  {
    assert a[..|a|] == a[..m] + [a[m]] + a[m + 1..|a|];
  }

  /** The tip of the branch is preferred to both. */
  lemma {:induction false} AsideTip(u: Universe, r: StateHash, a: seq<StateHash>, m: nat)
    requires Consistent(u) && IsChain(u, r, a) && m + 2 <= |a|
    ensures Prefer(u, Prefer(u, BlockAt(r, a, m), a[|a| - 1]), a[m]) == a[|a| - 1]
  {
    ChainBlock(u, r, a, m);
    ChainBlock(u, r, a, m + 1);
    ChainBlock(u, r, a, |a|);
    BeatsOrder(u, a[|a| - 1], BlockAt(r, a, m), a[m]);
    BeatsOrder(u, a[m], a[|a| - 1], a[m]);
  }

  lemma {:induction false} AsideExtends(u: Universe, r: StateHash, a: seq<StateHash>, m: nat, d: nat, s: State)
    requires Consistent(u) && IsChain(u, r, a) && Aside(u, r, a, m, d, |a|, s)
    ensures Accepted(u, s, a[m]) && ExtendsRoot(u, s, a[m])
    ensures IsParentOfRoot(u, s.dangling[0], a[m])
  {
    assert LinkAt(u, r, a, m) && LinkAt(u, r, a, m + 1);
    ChainBlock(u, r, a, m);
    ChainBlock(u, r, a, m + 1);
    UpToHas(r, a, m, m);
  }

  /** What the parent of the only dangling branch makes of the root branch. */
  lemma {:induction false} ExtendByOne(u: Universe, s: State, d: View, h: StateHash)
    requires s.dangling == [d] && IsParentOfRoot(u, d, h) && ExtendsRoot(u, s, h)
    ensures var e := Extended(u, s, h);
            && e.root == View(s.root.root, s.root.hashes + {h} + d.hashes) && e.dangling == []
            && e.bestTip == Prefer(u, Prefer(u, s.bestTip, LastTop(u, d.hashes)), h)
            && e.canonicalRoot == s.canonicalRoot
            && ExtendRoot(u, s, h).bestTip == e.bestTip
  {
    OneMatch(u, d, h);
  }

  /** The missing block joins the two. */
  lemma {:induction false} JoinAside(c: Config, u: Universe, r: StateHash, a: seq<StateHash>, m: nat, d: nat, s: State)
    requires Consistent(u) && IsChain(u, r, a) && Aside(u, r, a, m, d, |a|, s)
    ensures AtTip(u, r, a, |a|, d, Extended(u, s, a[m]))
    ensures ExtendRoot(u, s, a[m]).bestTip == Extended(u, s, a[m]).bestTip
  {
    AsideExtends(u, r, a, m, d, s);
    ExtendByOne(u, s, s.dangling[0], a[m]);
    StretchTop(u, r, a, m + 1, |a|);
    AsideTip(u, r, a, m);
    UpToStretch(r, a, m);
  }

  lemma {:induction false} JoinNoReorg(c: Config, u: Universe, r: StateHash, a: seq<StateHash>, m: nat, d: nat,
                                       s: State)
    requires Consistent(u) && IsChain(u, r, a) && Aside(u, r, a, m, d, |a|, s)
    ensures NoDeepReorg(u, s, a[m])
  {
    JoinAside(c, u, r, a, m, d, s);
    ChainDescends(u, r, a, d, |a|);
  }

  /** The chain up to block `j`, without block `m` + 1. */
  ghost function Around(a: seq<StateHash>, m: nat, j: nat): seq<StateHash>
    requires m + 1 <= j <= |a|
  {
    a[..m] + a[m + 1..j]
  }

  lemma {:induction false} AroundNext(a: seq<StateHash>, m: nat, j: nat)
    requires m + 1 <= j < |a|
    ensures Around(a, m, j + 1) == Around(a, m, j) + [a[j]]
    ensures Around(a, m, m + 1) == a[..m]
  {
    assert a[m + 1..j + 1] == a[m + 1..j] + [a[j]];
  }

  lemma {:induction false} AsideRun(step: Step, c: Config, u: Universe, r: StateHash, l: Ledger, a: seq<StateHash>,
                                    m: nat, j: nat)
    requires Consistent(u) && IsChain(u, r, a) && m + 2 <= j <= |a| && (m == 0 || m < c.pruneHeight)
    ensures Aside(u, r, a, m, CanonDepth(c, m), j, Run(step, c, u, Initial(u, r, l), Around(a, m, j)).state)
    ensures Shallow(step, c, u, Initial(u, r, l), Around(a, m, j))
  {
    if j == m + 2 {
      AsideFirst(step, c, u, r, l, a, m, j);
    } else {
      AsideRun(step, c, u, r, l, a, m, j - 1);
      AsideNext(step, c, u, r, Initial(u, r, l), a, m, CanonDepth(c, m), j,
                Run(step, c, u, Initial(u, r, l), Around(a, m, j - 1)).state);
    }
  }

  lemma {:induction false} AsideFirst(step: Step, c: Config, u: Universe, r: StateHash, l: Ledger, a: seq<StateHash>,
                                      m: nat, j: nat)
    requires Consistent(u) && IsChain(u, r, a) && j == m + 2 <= |a| && (m == 0 || m < c.pruneHeight)
    ensures Aside(u, r, a, m, CanonDepth(c, m), j, Run(step, c, u, Initial(u, r, l), Around(a, m, j)).state)
    ensures Shallow(step, c, u, Initial(u, r, l), Around(a, m, j))
  {
    AroundNext(a, m, m + 1);
    LinearRun(step, c, u, r, l, a, m);
    StartAside(step, c, u, r, a, m, CanonDepth(c, m), Run(step, c, u, Initial(u, r, l), a[..m]).state);
    AroundFed(step, c, u, Initial(u, r, l), a, m, m + 1);
  }

  lemma {:induction false} AsideNext(step: Step, c: Config, u: Universe, r: StateHash, s0: State, a: seq<StateHash>,
                                     m: nat, d: nat, j: nat, t: State)
    requires Consistent(u) && IsChain(u, r, a) && 0 < j <= |a| && Aside(u, r, a, m, d, j - 1, t)
    requires t == Run(step, c, u, s0, Around(a, m, j - 1)).state && Shallow(step, c, u, s0, Around(a, m, j - 1))
    ensures Aside(u, r, a, m, d, j, Run(step, c, u, s0, Around(a, m, j)).state)
    ensures Shallow(step, c, u, s0, Around(a, m, j))
  {
    GrowAside(step, c, u, r, a, m, d, j - 1, t);
    AroundFed(step, c, u, s0, a, m, j - 1);
  }

  lemma {:induction false} AroundFed(step: Step, c: Config, u: Universe, s: State, a: seq<StateHash>, m: nat, j: nat)
    requires m + 1 <= j < |a|
    ensures var t := Run(step, c, u, s, Around(a, m, j)).state;
            && Run(step, c, u, s, Around(a, m, j + 1)).state == Feed(step, c, u, t, a[j]).state
            && (Shallow(step, c, u, s, Around(a, m, j)) && NoDeepReorg(u, t, a[j]) ==>
                Shallow(step, c, u, s, Around(a, m, j + 1)))
  {
    AroundNext(a, m, j);
    RunOne(step, c, u, s, Around(a, m, j), a[j]);
    ShallowOne(step, c, u, s, Around(a, m, j), a[j]);
  }

  /** The chain with block `m` + 1 last. */
  ghost function LateBlock(a: seq<StateHash>, m: nat): seq<StateHash>
    requires m < |a|
  {
    Around(a, m, |a|) + [a[m]]
  }

  /** If a block comes after those above it, the best tip rises by all of them at once. */
  lemma {:induction false} JumpRun(step: Step, c: Config, u: Universe, r: StateHash, l: Ledger, a: seq<StateHash>,
                                   m: nat)
    requires Consistent(u) && IsChain(u, r, a) && m + 2 <= |a| < c.pruneHeight
    ensures var s := Run(step, c, u, Initial(u, r, l), Around(a, m, |a|)).state;
            && s.bestTip == BlockAt(r, a, m)
            && ExtendsRoot(u, s, a[m]) && AtTip(u, r, a, |a|, CanonDepth(c, m), Extended(u, s, a[m]))
            && Run(step, c, u, Initial(u, r, l), LateBlock(a, m)).state ==
                Settle(step, c, u, Extended(u, s, a[m])).state
    ensures AtTip(u, r, a, |a|, Moved(c, |a|, CanonDepth(c, m)),
                  Run(step, c, u, Initial(u, r, l), LateBlock(a, m)).state)
    ensures Shallow(step, c, u, Initial(u, r, l), LateBlock(a, m))
  {
    var s0, d, init := Initial(u, r, l), CanonDepth(c, m), Around(a, m, |a|);
    AsideRun(step, c, u, r, l, a, m, |a|);
    var s := Run(step, c, u, s0, init).state;
    AsideExtends(u, r, a, m, d, s);
    JoinAside(c, u, r, a, m, d, s);
    JoinNoReorg(c, u, r, a, m, d, s);
    RunOne(step, c, u, s0, init, a[m]);
    ShallowOne(step, c, u, s0, init, a[m]);
    JumpDeep(c, m, |a|);
    SettleAlong(step, c, u, r, a, |a|, d, Extended(u, s, a[m]));
  }

  lemma {:induction false} JumpDeep(c: Config, m: nat, n: nat)
    requires m <= n
    ensures Deep(c, n, CanonDepth(c, m))
  {}
}
