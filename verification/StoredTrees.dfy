/** The witness tree beside a store of blocks: what the tree holds is stored, and a step keeps it
    so. */
module StoredTrees {
  import opened Accounts
  import opened Blocks
  import opened Ledgers
  import opened WitnessTree
  import opened WitnessForest
  import opened WitnessRuns
  import opened WitnessOrder
  import opened BranchLists
  import opened ChainIndexes
  import opened IndexerStores

  lemma {:induction false} WithinConsistent(u: Universe, b: Universe)
    requires Consistent(u) && Ascending(u) && Within(b, u)
    ensures Consistent(b) && Ascending(b)
  {
    forall h | h in b ensures Linked(b, h) { assert Linked(u, h); SameGenesis(u, b); }
    forall h | HasParent(b, h) ensures b[b[h].parentHash].slot < b[h].slot {
      assert HasParent(u, h) by { assert Linked(u, h); }
    }
  }

  lemma {:induction false} SameGenesis(u: Universe, b: Universe)
    requires Consistent(u) && Within(b, u)
    ensures b != map[] ==> Genesis(b) == Genesis(u)
  {
    forall h | h in b ensures b[h].genesisHash == Genesis(u) { assert Linked(u, h); }
  }

  /** Every block of the tree is stored, and so is the chain from genesis to its root. */
  ghost predicate TreeStored(u: Universe, b: Universe, g: StateHash, s: State) {
    Within(b, u) && Members(s) <= b.Keys && Descends(b, g, s.root.root)
  }

  lemma {:induction false} ChainStored(u: Universe, b: Universe, g: StateHash, s: State, x: StateHash)
    requires Consistent(u) && Consistent(b) && Rooted(u, s.root) && TreeStored(u, b, g, s) && x in s.root.hashes
    ensures Descends(b, g, x)
    decreases Len(u, x)
  {
    if x != s.root.root {
      assert Linked(u, x) && Linked(b, x);
      ChainStored(u, b, g, s, u[x].parentHash);
    }
  }

  /** An ancestor in the universe, not below genesis, is an ancestor in the store. */
  lemma {:induction false} AncestorStored(u: Universe, b: Universe, g: StateHash, x: StateHash, tip: StateHash)
    requires Consistent(u) && Consistent(b) && Within(b, u) && Descends(b, g, tip) && Descends(u, x, tip)
    requires Len(u, g) <= Len(u, x)
    ensures Descends(b, x, tip)
    decreases Len(u, tip)
  {
    DescendsLength(b, g, tip);
    DescendsLength(u, x, tip);
    if x != tip {
      assert Linked(b, tip) && tip != g;
      AncestorStored(u, b, g, x, u[tip].parentHash);
    }
  }

  lemma {:induction false} ExtendStored(u: Universe, b: Universe, b': Universe, g: StateHash, s: State, p: Pcb)
    requires Forest(u, s) && Fresh(u, s, p.stateHash)
    requires Known(u, p) && Consistent(b) && Consistent(b') && TreeStored(u, b, g, s) && p.stateHash !in b
    requires b' == b[p.stateHash := p]
    ensures TreeStored(u, b', g, Extended(u, s, p.stateHash))
  {
    ExtendedForest(u, s, p.stateHash);
    PathGrows(b, b', g, s.root.root);
  }

  lemma {:induction false} PruneStored(c: Config, u: Universe, b: Universe, g: StateHash, s: State)
    requires ValidConfig(c) && RootSound(u, s) && Consistent(b) && TreeStored(u, b, g, s)
    ensures TreeStored(u, b, g, Prune(c, u, s))
  {
    PruneDue(c, u, s);
    PruneSound(c, u, s);
    if Levels(u, s.root) > c.pruneHeight {
      TipAncestor(u, s.root, s.bestTip, c.k);
      ChainStored(u, b, g, s, Up(u, s.bestTip, c.k));
    }
  }

  /** One step keeps the tree stored. */
  lemma {:induction false} FeedStored(step: Step, c: Config, u: Universe, b: Universe, b': Universe, g: StateHash,
                                      s: State, p: Pcb)
    requires ValidConfig(c) && Forest(u, s) && Fresh(u, s, p.stateHash)
    requires Known(u, p) && Consistent(b) && Consistent(b') && TreeStored(u, b, g, s) && p.stateHash !in b
    requires b' == b[p.stateHash := p]
    ensures TreeStored(u, b', g, Feed(step, c, u, s, p.stateHash).state)
  {
    var h := p.stateHash;
    var e := Extended(u, s, h);
    ExtendStored(u, b, b', g, s, p);
    if !Accepted(u, s, h) {
      StoredStill(u, b, b', g, s, p);
    } else if ExtendsRoot(u, s, h) {
      ExtendedForest(u, s, h);
      var s1 := UpdateCanonical(step, c, u, e);
      assert s1.root == e.root && s1.dangling == e.dangling && s1.bestTip == e.bestTip;
      PruneStored(c, u, b', g, s1);
    }
  }

  lemma {:induction false} StoredStill(u: Universe, b: Universe, b': Universe, g: StateHash, s: State, p: Pcb)
    requires Known(u, p) && Consistent(b) && Consistent(b') && TreeStored(u, b, g, s) && p.stateHash !in b
    requires b' == b[p.stateHash := p]
    ensures TreeStored(u, b', g, s)
  {
    PathGrows(b, b', g, s.root.root);
  }

  lemma {:induction false} AncestorOnChain(b: Universe, g: StateHash, x: StateHash, tip: StateHash)
    requires Consistent(b) && Ascending(b) && Descends(b, g, x) && Descends(b, x, tip)
    ensures Descends(b, g, tip) && x in b
    ensures var chain := Chain(b, g, tip);
            x in chain && 0 <= Len(b, x) - Len(b, g) < |chain| && chain[Len(b, x) - Len(b, g)] == x
  {
    DescendsTransitive(b, g, x, tip);
    PathMembers(b, g, tip);
    ChainAt(b, g, tip);
    var chain := Chain(b, g, tip);
    assert x in chain by { if x == g { assert chain[0] == g; } else { assert x in Path(b, g, tip); } }
    var i :| 0 <= i < |chain| && chain[i] == x;
  }

  /** A reported block lies on the store's best chain, at its own height and slot. */
  lemma {:induction false} ReportedOnChain(c: Config, u: Universe, b: Universe, g: StateHash, e: State, x: StateHash)
    requires Consistent(u) && Consistent(b) && Ascending(b) && RootSound(u, e) && TreeStored(u, b, g, e)
    requires x in Report(c, u, e)
    ensures Descends(b, g, e.bestTip) && x in b
    ensures var chain := Chain(b, g, e.bestTip);
            x in chain && 0 <= Len(b, x) - Len(b, g) < |chain| && chain[Len(b, x) - Len(b, g)] == x
  {
    ReportedBlocksAreDeep(c, u, e, x);
    ChainStored(u, b, g, e, x);
    ChainStored(u, b, g, e, e.bestTip);
    DescendsLength(b, g, x);
    AncestorStored(u, b, g, x, e.bestTip);
    AncestorOnChain(b, g, x, e.bestTip);
  }

  lemma {:induction false} NewTipStored(step: Step, c: Config, u: Universe, b: Universe, b': Universe, g: StateHash,
                                        s: State, p: Pcb)
    requires ValidConfig(c) && Forest(u, s) && Anchored(c, u, s) && Fresh(u, s, p.stateHash)
    requires KeepsAnchor(c, u, s, p.stateHash)
    requires Known(u, p) && Consistent(b) && Consistent(b') && TreeStored(u, b, g, s) && p.stateHash !in b
    requires b' == b[p.stateHash := p]
    ensures var s' := Feed(step, c, u, s, p.stateHash).state;
            && TreeStored(u, b', g, s') && Descends(b', g, s'.bestTip)
            && Len(b', s.bestTip) == Len(u, s.bestTip) <= Len(u, s'.bestTip) == Len(b', s'.bestTip)
  {
    var s' := Feed(step, c, u, s, p.stateHash).state;
    FeedKeepsForest(step, c, u, s, p.stateHash);
    FeedStored(step, c, u, b, b', g, s, p);
    ChainStored(u, b', g, s', s'.bestTip);
  }

  lemma {:induction false} FeedTip(step: Step, c: Config, u: Universe, s: State, h: StateHash)
    ensures Feed(step, c, u, s, h).state.bestTip ==
            if Accepted(u, s, h) && ExtendsRoot(u, s, h) then Extended(u, s, h).bestTip else s.bestTip
  {}

  /** What the pipeline needs of a step: the new block fits the store, the tree stays stored,
      and the best tip leads back to genesis and is no lower. */
  lemma {:induction false} PipelineStep(step: Step, c: Config, u: Universe, b: Universe, b': Universe, g: StateHash,
                                        s: State, p: Pcb)
    requires ValidConfig(c) && Forest(u, s) && Anchored(c, u, s) && Ascending(u) && KeepsAnchor(c, u, s, p.stateHash)
    requires Known(u, p) && Consistent(b) && TreeStored(u, b, g, s) && p.stateHash !in b && b' == b[p.stateHash := p]
    ensures Fresh(u, s, p.stateHash) && Consistent(b') && Ascending(b')
    ensures var s', e := Feed(step, c, u, s, p.stateHash).state, Extended(u, s, p.stateHash);
            && TreeStored(u, b', g, s') && Descends(b', g, s'.bestTip)
            && Len(b', s.bestTip) == Len(u, s.bestTip) <= Len(u, s'.bestTip) == Len(b', s'.bestTip)
            && RootSound(u, e) && TreeStored(u, b', g, e)
            && s'.bestTip == (if Accepted(u, s, p.stateHash) && ExtendsRoot(u, s, p.stateHash)
                              then e.bestTip else s.bestTip)
  {
    WithinConsistent(u, b');
    NewTipStored(step, c, u, b, b', g, s, p);
    ExtendStored(u, b, b', g, s, p);
    ExtendedForest(u, s, p.stateHash);
    FeedTip(step, c, u, s, p.stateHash);
  }

  /** The genesis block alone, in the tree and in the store. */
  lemma {:induction false} GenesisStored(u: Universe, p: Pcb, b: Universe, l: Ledger)
    requires Consistent(u) && Ascending(u) && Known(u, p) && b == map[p.stateHash := p]
    ensures TreeStored(u, b, p.stateHash, Initial(u, p.stateHash, l)) && Consistent(b)
  {
    WithinConsistent(u, b);
  }

  /** A block that is not stored yet is new to the tree and fits the store. */
  lemma {:induction false} BlockFits(u: Universe, b: Universe, g: StateHash, s: State, p: Pcb)
    requires Consistent(u) && Ascending(u) && Known(u, p) && TreeStored(u, b, g, s) && p.stateHash !in b
    ensures Fresh(u, s, p.stateHash) && Consistent(b[p.stateHash := p]) && Ascending(b[p.stateHash := p])
  {
    WithinConsistent(u, b[p.stateHash := p]);
  }

  /** What the stores need to know of a step from `s` through the extended state `e` to the
      outcome `o`: they have its blocks, and the best tip and the canonical root move only if the
      root branch is extended. */
  ghost predicate Followable(c: Config, u: Universe, b: Universe, g: StateHash, s: State, e: State, o: Outcome,
                             moved: bool) {
    && TreeStored(u, b, g, o.state)
    && Len(b, s.bestTip) == Len(u, s.bestTip) && Len(u, s.canonicalRoot) <= Len(u, s.bestTip)
    && (if moved
        then && RootSound(u, e) && Anchored(c, u, e) && TreeStored(u, b, g, e) && e.canonicalRoot == s.canonicalRoot
             && o.canonical == Report(c, u, e) && o.state.canonicalRoot == RootAfter(c, u, e) &&
               o.state.bestTip == e.bestTip
             && Descends(b, g, e.bestTip) && Len(u, s.bestTip) <= Len(u, e.bestTip) == Len(b, e.bestTip)
        else o.canonical == [] && o.state.canonicalRoot == s.canonicalRoot && o.state.bestTip == s.bestTip)
  }

  /** What a step does to the canonical root, and what it reports. */
  lemma {:induction false} StepCanonical(step: Step, c: Config, u: Universe, s: State, h: StateHash)
    requires ValidConfig(c) && Forest(u, s) && Anchored(c, u, s) && Fresh(u, s, h) && KeepsAnchor(c, u, s, h)
    ensures var o, e := Feed(step, c, u, s, h), Extended(u, s, h);
            && e.canonicalRoot == s.canonicalRoot && Len(u, s.canonicalRoot) <= Len(u, s.bestTip)
            && (if Accepted(u, s, h) && ExtendsRoot(u, s, h)
                then o.canonical == Report(c, u, e) && o.state.canonicalRoot == RootAfter(c, u, e) && Anchored(c, u, e)
                else o.canonical == [] && o.state.canonicalRoot == s.canonicalRoot)
  {
    if Accepted(u, s, h) && ExtendsRoot(u, s, h) {
      ExtendedFollows(c, u, s, h);
      UpdateKeepsForest(step, c, u, Extended(u, s, h));
    }
  }

  lemma {:induction false} StepFollowable(step: Step, c: Config, u: Universe, b: Universe, g: StateHash, s: State,
                                          p: Pcb)
    requires ValidConfig(c) && Forest(u, s) && Anchored(c, u, s) && Ascending(u) && KeepsAnchor(c, u, s, p.stateHash)
    requires Known(u, p) && Consistent(b) && TreeStored(u, b, g, s) && p.stateHash !in b
    ensures Fresh(u, s, p.stateHash) && Consistent(b[p.stateHash := p]) && Ascending(b[p.stateHash := p])
    ensures Followable(c, u, b[p.stateHash := p], g, s, Extended(u, s, p.stateHash), Feed(step, c, u, s, p.stateHash),
                       Accepted(u, s, p.stateHash) && ExtendsRoot(u, s, p.stateHash))
  {
    PipelineStep(step, c, u, b, b[p.stateHash := p], g, s, p);
    StepCanonical(step, c, u, s, p.stateHash);
  }

  lemma {:induction false} NextInFeed(u: Universe, r: StateHash, hs: seq<StateHash>, i: nat)
    requires FreshFeed(u, r, hs) && SortedByLength(u, hs) && i < |hs|
    ensures FreshFeed(u, r, hs[..i + 1]) && SortedByLength(u, hs[..i + 1])
    ensures hs[..i + 1] == hs[..i] + [hs[i]]
    ensures hs[i] !in Elems(hs[..i]) + {r} && Elems(hs[..i + 1]) + {r} == Elems(hs[..i]) + {r} + {hs[i]}
  {
    var upTo := hs[..i + 1];
    assert upTo == hs[..i] + [hs[i]];
    assert forall k :: 0 <= k < |upTo| ==> upTo[k] == hs[k];
  }

  lemma {:induction false} SortedNext(step: Step, c: Config, u: Universe, r: StateHash, l: Ledger, hs: seq<StateHash>,
                                      i: nat)
    requires ValidConfig(c) && Consistent(u) && r in u && FreshFeed(u, r, hs) && SortedByLength(u, hs) && i < |hs|
    requires c.updateThreshold <= c.confirmations
    ensures var s := Run(step, c, u, Initial(u, r, l), hs[..i]).state;
            && Run(step, c, u, Initial(u, r, l), hs[..i + 1]).state == Feed(step, c, u, s, hs[i]).state
            && Len(u, Feed(step, c, u, s, hs[i]).state.bestTip) <= Len(u, s.bestTip) + 1
  {
    var upTo := hs[..i + 1];
    NextInFeed(u, r, hs, i);
    assert upTo[..|upTo| - 1] == hs[..i] && upTo[|upTo| - 1] == hs[i];
    SortedRise(step, c, u, r, l, upTo);
  }

  lemma {:induction false} OneMoreKey(b: Universe, p: Pcb)
    ensures b[p.stateHash := p].Keys == b.Keys + {p.stateHash}
  {}
}
