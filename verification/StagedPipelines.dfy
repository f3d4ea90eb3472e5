/** The running ledger beside the staged ledgers: a block goes to the block store, then to the
    witness tree, and for newly canonical blocks the running ledger is persisted. */
module StagedPipelines {
  import opened Accounts
  import opened Blocks
  import opened Ledgers
  import opened NamedLedgers
  import opened RunningNames
  import opened WitnessTree
  import opened WitnessForest
  import opened WitnessRuns
  import opened WitnessOrder
  import opened LedgerBatches
  import opened BranchLists
  import opened CanonicalWalk
  import opened Extensions
  import opened ChainIndexes
  import opened IndexerStates
  import opened StagedLedgerStores
  import opened StoredTrees

  /** A block above genesis has its chain back to the parent of genesis. */
  lemma {:induction false} DescendsGrounded(b: Universe, g: StateHash, prev: StateHash, x: StateHash)
    requires Consistent(b) && g in b && b[g].parentHash == prev && Descends(b, g, x)
    ensures Grounded(b, prev, x)
    decreases Len(b, x)
  {
    if x != g { DescendsGrounded(b, g, prev, b[x].parentHash); }
  }

  /** The ledger that the store computes for a block is the one that the tree folds to it. */
  lemma {:induction false} HereIsAt(step: Step, u: Universe, b: Universe, prev: StateHash, l0: Ledger, r: StateHash,
                                    l: Ledger, x: StateHash)
    requires Consistent(u) && Consistent(b) && Within(b, u) && prev !in b && r in b && b[r].parentHash == prev
    requires Descends(b, r, x)
    requires LedgerAt(step, b, prev, l0, r) == l
    ensures LedgerAt(step, b, prev, l0, x) == LedgerAt(step, u, r, l, x)
    decreases Len(b, x)
  {
    DescendsGrounded(b, r, prev, x);
    if x != r {
      var p := b[x].parentHash;
      assert Linked(b, x) && Linked(u, x);
      HereIsAt(step, u, b, prev, l0, r, l, p);
      LedgerStep(step, b, prev, l0, x);
      assert Path(u, r, x) == Path(u, r, p) + [x];
    }
  }

  lemma {:induction false} UpdateNormal(step: Step, c: Config, u: Universe, e: State)
    requires KeepsKey(step) && Normal(e.ledger)
    ensures Normal(UpdateCanonical(step, c, u, e).ledger)
  {
    ApplyDiffsNormal(step, e.ledger, Flatten(KnownDiffs(e.diffs, Report(c, u, e))));
  }

  lemma {:induction false} FeedNormal(step: Step, c: Config, u: Universe, s: State, h: StateHash)
    requires KeepsKey(step) && Normal(s.ledger)
    ensures Normal(Feed(step, c, u, s, h).state.ledger)
  {
    UpdateNormal(step, c, u, Extended(u, s, h));
  }

  /** The blocks of a batch to persist are all distinct, and all on a chain from genesis. */
  ghost predicate Batch(b: Universe, prev: StateHash, bs: seq<Block>) {
    && (forall i :: 0 <= i < |bs| ==> Grounded(b, prev, bs[i].stateHash))
    && (forall i, j :: 0 <= i < j < |bs| ==> bs[i].stateHash != bs[j].stateHash)
  }

  lemma {:induction false} ReportBatch(c: Config, u: Universe, b: Universe, g: StateHash, prev: StateHash, e: State,
                                       bs: seq<Block>)
    requires Consistent(u) && Consistent(b) && RootSound(u, e) && Anchored(c, u, e) && TreeStored(u, b, g, e)
    requires g in b && b[g].parentHash == prev && HashesOf(bs) == Report(c, u, e)
    ensures Batch(b, prev, bs)
  {
    var p := Report(c, u, e);
    forall i | 0 <= i < |bs| ensures Grounded(b, prev, bs[i].stateHash) {
      assert p[i] == bs[i].stateHash && p[i] in p;
      ReportedBlocksAreDeep(c, u, e, p[i]);
      ChainStored(u, b, g, e, p[i]);
      DescendsGrounded(b, g, prev, p[i]);
    }
    forall i, j | 0 <= i < j < |bs| ensures bs[i].stateHash != bs[j].stateHash {
      assert p[i] == bs[i].stateHash && p[j] == bs[j].stateHash;
      ReportHeights(c, u, e, i);
      ReportHeights(c, u, e, j);
    }
  }

  /** What one step reports is a batch. */
  lemma {:induction false} BatchOf(step: Step, c: Config, u: Universe, b: Universe, g: StateHash, prev: StateHash,
                                   s: State, p: Pcb, bs: seq<Block>)
    requires ValidConfig(c) && Forest(u, s) && Anchored(c, u, s) && Ascending(u) && KeepsAnchor(c, u, s, p.stateHash)
    requires Known(u, p) && Consistent(b) && TreeStored(u, b, g, s) && p.stateHash !in b && g in b
    requires b[g].parentHash == prev
    requires HashesOf(bs) == Feed(step, c, u, s, p.stateHash).canonical
    ensures Batch(b[p.stateHash := p], prev, bs)
    ensures TreeStored(u, b[p.stateHash := p], g, Feed(step, c, u, s, p.stateHash).state)
  {
    var b', e := b[p.stateHash := p], Extended(u, s, p.stateHash);
    StepFollowable(step, c, u, b, g, s, p);
    if Accepted(u, s, p.stateHash) && ExtendsRoot(u, s, p.stateHash) {
      ReportBatch(c, u, b', g, prev, e, bs);
    } else {
      assert |bs| == |HashesOf(bs)| == 0;
    }
  }

  /** The reported blocks whose ledger is persisted. */
  lemma {:induction false} AtCadenceIs(u: Universe, bs: seq<Block>, cadence: nat, x: StateHash)
    requires cadence > 0 && RealBlocks(u, bs)
    ensures x in AtCadence(bs, cadence) <==> x in HashesOf(bs) && Len(u, x) % cadence == 0
  {
    if x in AtCadence(bs, cadence) {
      var i :| 0 <= i < |bs| && bs[i].length % cadence == 0 && bs[i].stateHash == x;
      assert RealAt(u, bs, i) && HashesOf(bs)[i] == x;
    }
    if x in HashesOf(bs) {
      var i :| 0 <= i < |bs| && HashesOf(bs)[i] == x;
      assert RealAt(u, bs, i);
    }
  }

  lemma {:induction false} GenesisLedger(step: Step, p: Pcb, l0: Ledger, b: Universe)
    requires Consistent(b) && p.parentHash !in b && b == map[p.stateHash := p] && KeepsKey(step) && Normal(l0)
    ensures var l := ApplyDiff(step, l0, p.diff); Normal(l) && l == LedgerAt(step, b, p.parentHash, l0, p.stateHash)
  {
    ApplyDiffsNormal(step, l0, Flatten(p.diff));
    LedgerStep(step, b, p.parentHash, l0, p.stateHash);
    assert Path(b, p.parentHash, p.parentHash) == [];
  }

  ghost predicate LedgerOf(step: Step, u: Universe, r: StateHash, l: Ledger, o: Outcome, x: StateHash) {
    x in o.canonical ==> o.state.ledger == LedgerAt(step, u, r, l, x)
  }

  /** The ledger after the step is that of every block reported. */
  ghost predicate LedgerOfAll(step: Step, u: Universe, r: StateHash, l: Ledger, o: Outcome) {
    forall x {:trigger LedgerOf(step, u, r, l, o, x)} :: LedgerOf(step, u, r, l, o, x)
  }

  /** In a sorted run the ledger after a step is that of every block that the step reports. */
  lemma {:induction false} SortedFits(step: Step, c: Config, u: Universe, r: StateHash, l: Ledger, hs: seq<StateHash>,
                                      h: StateHash)
    requires ValidConfig(c) && c.updateThreshold <= c.confirmations && Consistent(u) && r in u
    requires FreshFeed(u, r, hs + [h]) && SortedByLength(u, hs + [h]) && Shallow(step, c, u, Initial(u, r, l), hs + [h])
    ensures LedgerOfAll(step, u, r, l, Feed(step, c, u, Run(step, c, u, Initial(u, r, l), hs).state, h))
    ensures SortedByLength(u, hs) && Shallow(step, c, u, Initial(u, r, l), hs)
  {
    RisesByOne(step, c, u, r, l, hs, h);
    RunBefore(step, c, u, r, l, hs, h);
    ExactStep(step, c, u, r, l, Run(step, c, u, Initial(u, r, l), hs).state, h);
  }

  lemma {:induction false} RisesByOne(step: Step, c: Config, u: Universe, r: StateHash, l: Ledger, hs: seq<StateHash>,
                                      h: StateHash)
    requires ValidConfig(c) && c.updateThreshold <= c.confirmations && Consistent(u) && r in u
    requires FreshFeed(u, r, hs + [h]) && SortedByLength(u, hs + [h])
    ensures var s := Run(step, c, u, Initial(u, r, l), hs).state;
            Len(u, Feed(step, c, u, s, h).state.bestTip) <= Len(u, s.bestTip) + 1
    ensures SortedByLength(u, hs)
  {
    var all := hs + [h];
    assert all[..|hs|] == hs && all[|hs|] == h;
    SortedNext(step, c, u, r, l, all, |hs|);
    assert forall i :: 0 <= i < |hs| ==> all[i] == hs[i];
  }

  lemma {:induction false} NextOfRun(step: Step, c: Config, u: Universe, r: StateHash, l: Ledger, hs: seq<StateHash>,
                                     h: StateHash)
    requires FreshFeed(u, r, hs) && h in u && h !in Elems(hs) + {r}
    ensures FreshFeed(u, r, hs + [h]) && Elems(hs + [h]) + {r} == Elems(hs) + {r} + {h}
    ensures Run(step, c, u, Initial(u, r, l), hs + [h]).state ==
              Feed(step, c, u, Run(step, c, u, Initial(u, r, l), hs).state, h).state
  {
    assert (hs + [h])[..|hs|] == hs;
  }

  /** The state before the last block of a run without deep reorgs. */
  lemma {:induction false} RunBefore(step: Step, c: Config, u: Universe, r: StateHash, l: Ledger, hs: seq<StateHash>,
                                     h: StateHash)
    requires ValidConfig(c) && c.updateThreshold <= c.confirmations && Consistent(u) && r in u
    requires FreshFeed(u, r, hs + [h]) && Shallow(step, c, u, Initial(u, r, l), hs + [h])
    ensures var s := Run(step, c, u, Initial(u, r, l), hs).state;
            && Forest(u, s) && Anchored(c, u, s) && Fresh(u, s, h) && NoDeepReorg(u, s, h) && Close(c, u, s)
            && DiffsKept(u, s) && LedgerExact(step, u, r, l, s)
    ensures Shallow(step, c, u, Initial(u, r, l), hs)
  {
    var s0, all := Initial(u, r, l), hs + [h];
    assert all[..|hs|] == hs && all[|hs|] == h;
    FreshPrefix(u, r, all);
    RunKeepsForest(step, c, u, r, l, hs);
    RunKeepsLedger(step, c, u, r, l, hs);
    RunStaysClose(step, c, u, r, l, hs);
    NextIsFresh(u, r, all, Run(step, c, u, s0, hs).state);
  }

  lemma {:induction false} ExactStep(step: Step, c: Config, u: Universe, r: StateHash, l: Ledger, s: State,
                                     h: StateHash)
    requires ValidConfig(c) && Forest(u, s) && Anchored(c, u, s) && Fresh(u, s, h) && NoDeepReorg(u, s, h)
    requires Close(c, u, s)
    requires DiffsKept(u, s) && LedgerExact(step, u, r, l, s)
    requires Len(u, Feed(step, c, u, s, h).state.bestTip) <= Len(u, s.bestTip) + 1
    ensures LedgerOfAll(step, u, r, l, Feed(step, c, u, s, h))
  {
    var o := Feed(step, c, u, s, h);
    FeedTip(step, c, u, s, h);
    forall x ensures LedgerOf(step, u, r, l, o, x) {
      if x in o.canonical { SingleRisePersistsExactly(step, c, u, r, l, s, h, x); }
    }
  }

  /** If the ledger after a step is that of every block reported, so it is for the store. */
  lemma {:induction false} ReportedHere(step: Step, c: Config, u: Universe, b: Universe, g: StateHash, prev: StateHash,
                                        l0: Ledger, s: State, p: Pcb, l: Ledger)
    requires ValidConfig(c) && Forest(u, s) && Anchored(c, u, s) && Ascending(u) && KeepsAnchor(c, u, s, p.stateHash)
    requires Known(u, p) && Consistent(b) && TreeStored(u, b, g, s) && p.stateHash !in b && g in b
    requires b[g].parentHash == prev && prev !in u
    requires LedgerAt(step, b[p.stateHash := p], prev, l0, g) == l
    requires LedgerOfAll(step, u, g, l, Feed(step, c, u, s, p.stateHash))
    ensures var o := Feed(step, c, u, s, p.stateHash);
            forall x :: x in o.canonical ==> LedgerAt(step, b[p.stateHash := p], prev, l0, x) == o.state.ledger
  {
    var b', e, o := b[p.stateHash := p], Extended(u, s, p.stateHash), Feed(step, c, u, s, p.stateHash);
    StepFollowable(step, c, u, b, g, s, p);
    forall x | x in o.canonical ensures LedgerAt(step, b', prev, l0, x) == o.state.ledger {
      assert LedgerOf(step, u, g, l, o, x);
      ReportedBlocksAreDeep(c, u, e, x);
      ChainStored(u, b', g, e, x);
      HereIsAt(step, u, b', prev, l0, g, l, x);
    }
  }

  lemma {:induction false} AloneConsistent(u: Universe, p: Pcb, b: Universe)
    requires Consistent(u) && Ascending(u) && Known(u, p) && p.parentHash !in u && b == map[p.stateHash := p]
    ensures Consistent(b) && p.parentHash !in b
  {
    GenesisStored(u, p, b, map[]);
  }

  lemma {:induction false} NothingFed(r: StateHash)
    ensures Elems([]) + {r} == {r}
  {}

  // ------------------------------------------------------------------- usernames

  lemma {:induction false} DiffsCover(step: Step, l: Ledger, m: Names, ds: seq<AccountDiff>)
    requires KeepsKey(step) && Normal(l) && Covers(l, m)
    ensures Covers(ApplyDiffs(step, l, ds), m)
  {
    if ds != [] {
      DiffsCover(step, l, m, ds[..|ds| - 1]);
      ApplyDiffsNormal(step, l, ds[..|ds| - 1]);
      DiffCovers(step, ApplyDiffs(step, l, ds[..|ds| - 1]), m, ds[|ds| - 1]);
    }
  }

  /** No account is lost on the way, so a name keeps its account. */
  lemma {:induction false} FeedCovers(step: Step, c: Config, u: Universe, s: State, h: StateHash, m: Names)
    requires KeepsKey(step) && Normal(s.ledger) && Covers(s.ledger, m)
    ensures Covers(Feed(step, c, u, s, h).state.ledger, m)
  {
    var e := Extended(u, s, h);
    FeedLedger(step, c, u, s, h);
    DiffsCover(step, s.ledger, m, Flatten(KnownDiffs(e.diffs, Report(c, u, e))));
  }

  lemma {:induction false} FeedLedger(step: Step, c: Config, u: Universe, s: State, h: StateHash)
    ensures var e, l := Extended(u, s, h), Feed(step, c, u, s, h).state.ledger;
            l == s.ledger || l == ApplyDiffs(step, s.ledger, Flatten(KnownDiffs(e.diffs, Report(c, u, e))))
  {
    ExtendedLedger(u, s, h);
    SettledLedger(step, c, u, Extended(u, s, h));
  }

  lemma {:induction false} ExtendedLedger(u: Universe, s: State, h: StateHash)
    ensures Extended(u, s, h).ledger == s.ledger
  {}

  lemma {:induction false} SettledLedger(step: Step, c: Config, u: Universe, e: State)
    ensures var l := Settle(step, c, u, e).state.ledger;
            l == e.ledger || l == ApplyDiffs(step, e.ledger, Flatten(KnownDiffs(e.diffs, Report(c, u, e))))
  {
    UpdatedLedger(step, c, u, e);
    PrunedLedger(c, u, WitnessTree.UpdateCanonical(step, c, u, e));
  }

  lemma {:induction false} PrunedLedger(c: Config, u: Universe, s: State)
    ensures Prune(c, u, s).ledger == s.ledger
  {}

  lemma {:induction false} UpdatedLedger(step: Step, c: Config, u: Universe, e: State)
    ensures WitnessTree.UpdateCanonical(step, c, u, e).ledger ==
              if CanonicalUpdatable(c, u, e) then ApplyDiff(step, e.ledger, KnownDiffs(e.diffs, Report(c, u, e)))
              else e.ledger
  {}

  /** Block `x` is reported when `h` follows the run `hs`, where the ledger carries the usernames `m`. */
  ghost predicate ReportedBy(step: Step, c: Config, u: Universe, says: Says, s: State, hs: seq<StateHash>, h: StateHash,
                             x: StateHash, m: Names) {
    && x in Feed(step, c, u, Run(step, c, u, s, hs).state, h).canonical
    && m == RunNames(step, c, u, says, s, hs)
  }

  ghost predicate ReportedAt(step: Step, c: Config, u: Universe, says: Says, s: State, hs: seq<StateHash>, x: StateHash,
                             m: Names, i: nat) {
    i < |hs| && ReportedBy(step, c, u, says, s, hs[..i], hs[i], x, m)
  }

  ghost predicate CarriesRun(step: Step, c: Config, u: Universe, says: Says, s: State, hs: seq<StateHash>,
                             x: StateHash, m: Names) {
    exists i: nat {:trigger ReportedAt(step, c, u, says, s, hs, x, m, i)} ::
      ReportedAt(step, c, u, says, s, hs, x, m, i)
  }

  lemma {:induction false} CarriesLonger(step: Step, c: Config, u: Universe, says: Says, s: State, hs: seq<StateHash>,
                                         h: StateHash, x: StateHash, m: Names)
    requires CarriesRun(step, c, u, says, s, hs, x, m)
    ensures CarriesRun(step, c, u, says, s, hs + [h], x, m)
  {
    var i: nat :| ReportedAt(step, c, u, says, s, hs, x, m, i);
    ReportedLonger(step, c, u, says, s, hs, hs + [h], x, m, i);
  }

  lemma {:induction false} ReportedLonger(step: Step, c: Config, u: Universe, says: Says, s: State, hs: seq<StateHash>,
                                          more: seq<StateHash>, x: StateHash, m: Names, i: nat)
    requires ReportedAt(step, c, u, says, s, hs, x, m, i) && hs <= more
    ensures ReportedAt(step, c, u, says, s, more, x, m, i)
  {
    var pre, h := hs[..i], hs[i];
    assert more[..i] == pre && more[i] == h;
    assert ReportedBy(step, c, u, says, s, pre, h, x, m);
  }

  lemma {:induction false} CarriesNow(step: Step, c: Config, u: Universe, says: Says, s: State, hs: seq<StateHash>,
                                      h: StateHash, x: StateHash)
    requires x in Feed(step, c, u, Run(step, c, u, s, hs).state, h).canonical
    ensures CarriesRun(step, c, u, says, s, hs + [h], x, RunNames(step, c, u, says, s, hs))
  {
    var more, m := hs + [h], RunNames(step, c, u, says, s, hs);
    assert more[..|hs|] == hs && more[|hs|] == h;
    assert ReportedAt(step, c, u, says, s, more, x, m, |hs|);
  }

  /** The ledger persisted for each block of `carried` but `prev` has the usernames of the step that
      reported the block. */
  ghost predicate CarriedRight(step: Step, c: Config, u: Universe, says: Says, s: State, hs: seq<StateHash>,
                               carried: map<StateHash, Names>, prev: StateHash) {
    forall x :: x in carried && x != prev ==> CarriesRun(step, c, u, says, s, hs, x, carried[x])
  }

  lemma {:induction false} CarriedRightNext(step: Step, c: Config, u: Universe, says: Says, s: State,
                                            hs: seq<StateHash>, h: StateHash, carried: map<StateHash, Names>,
                                            now: map<StateHash, Names>, done: set<StateHash>, prev: StateHash)
    requires CarriedRight(step, c, u, says, s, hs, carried, prev)
    requires Carrying(now, carried, done, RunNames(step, c, u, says, s, hs))
    requires forall x :: x in done ==> x in Feed(step, c, u, Run(step, c, u, s, hs).state, h).canonical
    ensures CarriedRight(step, c, u, says, s, hs + [h], now, prev)
  {
    var m := RunNames(step, c, u, says, s, hs);
    forall x | x in now && x != prev ensures CarriesRun(step, c, u, says, s, hs + [h], x, now[x]) {
      assert CarriedAt(now, carried, done, m, x);
      if x in done { CarriesNow(step, c, u, says, s, hs, h, x); }
      else { CarriesLonger(step, c, u, says, s, hs, h, x, carried[x]); }
    }
  }

  /** The blocks whose length is a multiple of the cadence. */
  ghost function OnCadence(u: Universe, hs: seq<StateHash>, cadence: nat): set<StateHash>
    requires cadence > 0
  {
    set x | x in hs && Len(u, x) % cadence == 0
  }

  /** The blocks that a run reports and whose length is a multiple of the cadence. */
  ghost function PersistedBy(step: Step, c: Config, u: Universe, s: State, hs: seq<StateHash>,
                             cadence: nat): set<StateHash>
    requires cadence > 0
  {
    if hs == [] then {} else
      var init, h := hs[..|hs| - 1], hs[|hs| - 1];
      PersistedBy(step, c, u, s, init, cadence) +
      OnCadence(u, Feed(step, c, u, Run(step, c, u, s, init).state, h).canonical, cadence)
  }

  /** A ledger is persisted for exactly these blocks, and for `prev`. */
  ghost predicate PersistedIn(step: Step, c: Config, u: Universe, s: State, hs: seq<StateHash>, cadence: nat,
                              carried: map<StateHash, Names>, prev: StateHash) {
    cadence > 0 && forall x :: x in carried <==> x == prev || x in PersistedBy(step, c, u, s, hs, cadence)
  }

  lemma {:induction false} PersistedInNext(step: Step, c: Config, u: Universe, s0: State, hs: seq<StateHash>,
                                           h: StateHash, cadence: nat, s: State, carried: map<StateHash, Names>,
                                           now: map<StateHash, Names>, m: Names, prev: StateHash)
    requires PersistedIn(step, c, u, s0, hs, cadence, carried, prev) && s == Run(step, c, u, s0, hs).state
    requires Carrying(now, carried, OnCadence(u, Feed(step, c, u, s, h).canonical, cadence), m)
    ensures PersistedIn(step, c, u, s0, hs + [h], cadence, now, prev)
  {
    var done := OnCadence(u, Feed(step, c, u, s, h).canonical, cadence);
    assert (hs + [h])[..|hs|] == hs;
    assert PersistedBy(step, c, u, s0, hs + [h], cadence) == PersistedBy(step, c, u, s0, hs, cadence) + done;
    forall x ensures x in now <==> x in carried || x in done { assert CarriedAt(now, carried, done, m, x); }
  }

  // ----------------------------------------------------------------- the pipeline

  class StagedPipeline {
    const state: IndexerState
    const staged: StagedLedgerStore
    const genesis: StateHash
    const ledgerCadence: nat

    /** The usernames on the MINA accounts of the running ledger. */
    var names: Names
    const says: Says

    /** The ledger at genesis, and the blocks taken in since, in order. */
    ghost const start: Ledger
    ghost var fed: seq<StateHash>

    /** The staged ledger store has the blocks of the tree in state `s`. */
    ghost predicate Staging(u: Universe, s: State)
      reads staged
    {
      && ledgerCadence > 0 && staged.Founded() && Normal(s.ledger) && staged.genesisPrev !in u
      && genesis in staged.blocks && staged.blocks[genesis].parentHash == staged.genesisPrev
      && TreeStored(u, staged.blocks, genesis, s)
    }

    ghost predicate Valid(u: Universe)
      reads this`names, state, staged
    {
      && Ascending(u) && ValidConfig(state.Settings()) && state.Valid(u) && staged.step == state.step
      && Staging(u, state.Abs()) && Covers(state.ledger, names)
    }

    /** Tree and store with the genesis block, and the ledger before it persisted. */
    constructor (ghost u: Universe, step: Step, genesisLedger: Ledger, p: Pcb, transitionFrontierLength: nat,
                 pruneInterval: nat, canonicalUpdateThreshold: nat, ledgerCadence: nat, says: Says)
      requires Consistent(u) && Ascending(u) && Known(u, p) && p.parentHash !in u
      requires KeepsKey(step) && Nameless(step) && Normal(genesisLedger) && ledgerCadence > 0
      requires ValidConfig(Config(transitionFrontierLength, pruneInterval * transitionFrontierLength,
                                  canonicalUpdateThreshold, CANONICAL_THRESHOLD))
      ensures Valid(u) && InRun(u) && fresh(state) && fresh(staged) && fed == [] && this.says == says
      ensures start == ApplyDiff(step, genesisLedger, p.diff) && genesis == p.stateHash && names == map[]
      ensures state.step == step && this.ledgerCadence == ledgerCadence
      ensures state.Settings() == Config(transitionFrontierLength, pruneInterval * transitionFrontierLength,
                                         canonicalUpdateThreshold, CANONICAL_THRESHOLD)
      ensures staged.genesisLedger == genesisLedger && staged.blocks == map[p.stateHash := p]
    {
      var blocks: Universe := map[p.stateHash := p];
      AloneConsistent(u, p, blocks);
      state := new IndexerState(u, step, genesisLedger, p, transitionFrontierLength, pruneInterval,
                                canonicalUpdateThreshold);
      staged := new StagedLedgerStore(step, blocks, p.parentHash, genesisLedger);
      genesis := p.stateHash;
      this.ledgerCadence := ledgerCadence;
      names, this.says := map[], says;
      start, fed := ApplyDiff(step, genesisLedger, p.diff), [];
      new;
      GenesisRuns(u, p);
    }

    /** Tree and store with the genesis block alone are the empty run. */
    lemma {:induction false} GenesisRuns(u: Universe, p: Pcb)
      requires Consistent(u) && Ascending(u) && Known(u, p) && p.parentHash !in u && ledgerCadence > 0
      requires genesis == p.stateHash && fed == [] && names == map[] && staged.step == state.step
      requires staged.Valid() && staged.blocks == map[p.stateHash := p] && staged.genesisPrev == p.parentHash
      requires staged.carried == map[p.parentHash := map[]]
      requires start == ApplyDiff(state.step, staged.genesisLedger, p.diff)
      requires state.Abs() == Initial(u, genesis, start)
      ensures Staging(u, state.Abs()) && Covers(state.ledger, names) && InRun(u)
    {
      GenesisStored(u, p, staged.blocks, start);
      GenesisLedger(state.step, p, staged.genesisLedger, staged.blocks);
      NothingFed(genesis);
    }

    /** The blocks of a batch for which the ledger is persisted. */
    ghost function Chosen(u: Universe, hs: seq<StateHash>): set<StateHash>
      requires ledgerCadence > 0
    {
      OnCadence(u, hs, ledgerCadence)
    }

    /** The ledger fits the blocks of a batch for which it is persisted. */
    ghost predicate AllFit(u: Universe, hs: seq<StateHash>, l: Ledger, m: Names, before: map<StateHash, Names>)
      requires ledgerCadence > 0
      reads staged`blocks
    {
      forall x {:trigger staged.Fits(x, l, m, before)} :: x in Chosen(u, hs) ==> staged.Fits(x, l, m, before)
    }

    /** Persists the running ledger, with its usernames, for the newly canonical blocks. */
    method PersistBatch(ghost u: Universe, bs: seq<Block>, l: Ledger)
      requires ledgerCadence > 0 && staged.Founded() && RealBlocks(u, bs)
      requires Batch(staged.blocks, staged.genesisPrev, bs)
      modifies staged`persisted, staged`sorted, staged`carried
      ensures staged.Founded() && Carrying(staged.carried, old(staged.carried), Chosen(u, HashesOf(bs)), names)
      ensures old(staged.Valid()) ==>
                (staged.Valid() <==> AllFit(u, HashesOf(bs), Named(l, names), names, old(staged.carried)))
    {
      staged.PersistLedgers(bs, Named(l, names), names, ledgerCadence);
      forall x ensures x in AtCadence(bs, ledgerCadence) <==> x in Chosen(u, HashesOf(bs)) {
        AtCadenceIs(u, bs, ledgerCadence, x);
      }
      assert AtCadence(bs, ledgerCadence) == Chosen(u, HashesOf(bs));
      if old(staged.Valid()) {
        forall x ensures staged.PersistedExact(x) <==>
                         (x in Chosen(u, HashesOf(bs)) ==> staged.Fits(x, Named(l, names), names, old(staged.carried)))
        {
          assert old(staged.PersistedExact(x));
        }
      }
    }

    /** Adds the block to the tree. */
    method GrowTree(ghost u: Universe, p: Pcb) returns (moved: bool, tip: StateHash, bs: seq<Block>)
      requires ValidConfig(state.Settings()) && state.Valid(u) && Known(u, p) && Fresh(u, state.Abs(), p.stateHash)
      requires KeepsAnchor(state.Settings(), u, state.Abs(), p.stateHash)
      modifies state
      ensures state.Valid(u) && RealBlocks(u, bs) && tip == state.bestTip.stateHash
      ensures Outcome(state.Abs(), HashesOf(bs)) ==
                Feed(state.step, state.Settings(), u, old(state.Abs()), p.stateHash)
      ensures moved <==> Accepted(u, old(state.Abs()), p.stateHash) && ExtendsRoot(u, old(state.Abs()), p.stateHash)
    {
      var ext;
      ext, bs := state.AddBlockToWitnessTree(u, p);
      moved := IsRootExtension(ext);
      tip := if moved then ext.block.stateHash else state.bestTip.stateHash;
    }

    /** Follows the step `o` that the tree has taken: the ledger `l` is persisted, then the usernames
        of the new best tip are written to it. */
    method FollowTree(ghost u: Universe, ghost o: Outcome, l: Ledger, moved: bool, tip: StateHash, bs: seq<Block>)
      requires Staging(u, o.state) && Covers(l, names) && l == o.state.ledger
      requires HashesOf(bs) == o.canonical && RealBlocks(u, bs) && Batch(staged.blocks, staged.genesisPrev, bs)
      modifies this`names, staged`persisted, staged`sorted, staged`carried
      ensures Staging(u, o.state) && Covers(l, names)
      ensures names == if moved then Renamed(old(names), says(tip), l) else old(names)
      ensures Carrying(staged.carried, old(staged.carried), Chosen(u, o.canonical), old(names))
      ensures old(staged.Valid()) ==>
                (staged.Valid() <==> AllFit(u, o.canonical, Named(l, old(names)), old(names), old(staged.carried)))
    {
      PersistBatch(u, bs, l);
      if moved {
        RenamedCovers(names, says(tip), l);
        names := WriteUsernames(names, says(tip), l);
      }
    }

    /** The tree takes in block `p`, which is new to the blocks `b` stored before, and the staged
        ledgers follow. */
    method GrowAndPersist(ghost u: Universe, p: Pcb, ghost b: Universe)
      requires Ascending(u) && ValidConfig(state.Settings()) && state.Valid(u) && Known(u, p)
      requires Fresh(u, state.Abs(), p.stateHash) && KeepsAnchor(state.Settings(), u, state.Abs(), p.stateHash)
      requires Consistent(b) && TreeStored(u, b, genesis, state.Abs()) && p.stateHash !in b && genesis in b
      requires staged.blocks == b[p.stateHash := p] && b[genesis].parentHash == staged.genesisPrev
      requires ledgerCadence > 0 && staged.Founded() && staged.genesisPrev !in u && staged.step == state.step
      requires Normal(state.ledger) && Covers(state.ledger, names)
      modifies this`names, state, staged`persisted, staged`sorted, staged`carried
      ensures state.Valid(u) && Staging(u, state.Abs()) && Covers(state.ledger, names)
      ensures state.Abs() == Feed(state.step, state.Settings(), u, old(state.Abs()), p.stateHash).state
      ensures names == NamesNext(state.step, state.Settings(), u, says, old(state.Abs()), p.stateHash, old(names))
      ensures var o := Feed(state.step, state.Settings(), u, old(state.Abs()), p.stateHash);
              && Carrying(staged.carried, old(staged.carried), Chosen(u, o.canonical), old(names))
              && (old(staged.Valid()) ==>
                    (staged.Valid() <==>
                       AllFit(u, o.canonical, Named(o.state.ledger, old(names)), old(names), old(staged.carried))))
    {
      ghost var c, s := state.Settings(), state.Abs();
      ghost var o := Feed(state.step, c, u, s, p.stateHash);
      var moved, tip, bs := GrowTree(u, p);
      BatchOf(state.step, c, u, b, genesis, staged.genesisPrev, s, p, bs);
      FeedNormal(state.step, c, u, s, p.stateHash);
      FeedCovers(state.step, c, u, s, p.stateHash, names);
      FollowTree(u, o, state.ledger, moved, tip, bs);
    }

    /** Takes in a block that is not stored yet.  The ledger that is persisted is the running one,
        with the usernames written so far; the staged ledgers stay right precisely if it fits the
        blocks for which it is persisted. */
    method AddNewBlock(ghost u: Universe, p: Pcb)
      requires Valid(u) && Known(u, p) && KeepsAnchor(state.Settings(), u, state.Abs(), p.stateHash)
      requires p.stateHash !in staged.blocks
      modifies this`names, state, staged
      ensures Valid(u) && staged.blocks == old(staged.blocks)[p.stateHash := p]
      ensures staged.LedgerHere(genesis) == old(staged.LedgerHere(genesis))
      ensures state.Abs() == Feed(state.step, state.Settings(), u, old(state.Abs()), p.stateHash).state
      ensures names == NamesNext(state.step, state.Settings(), u, says, old(state.Abs()), p.stateHash, old(names))
      ensures var o := Feed(state.step, state.Settings(), u, old(state.Abs()), p.stateHash);
              && Carrying(staged.carried, old(staged.carried), Chosen(u, o.canonical), old(names))
              && (old(staged.Valid()) ==>
                    (staged.Valid() <==>
                       AllFit(u, o.canonical, Named(state.ledger, old(names)), old(names), old(staged.carried))))
    {
      ghost var b := staged.blocks;
      BlockFits(u, b, genesis, state.Abs(), p);
      staged.AddBlock(p);
      GrowAndPersist(u, p, b);
    }

    // ------------------------------------------------------------------------ runs

    ghost function Begun(u: Universe): State {
      Initial(u, genesis, start)
    }

    /** The tree is that of the run `fed`, and so are the usernames on the running ledger and on
        every ledger that was persisted on the way.  If the run was sorted by length and without
        deep reorgs, each such ledger is, apart from its usernames, that of its block. */
    ghost predicate InRun(u: Universe)
      reads this, state, staged
    {
      IsRun(u, fed, state.Abs(), names, staged.blocks, staged.carried) && staged.LedgerHere(genesis) == start &&
        (Orderly(u, fed) ==> staged.Valid())
    }

    ghost predicate IsRun(u: Universe, hs: seq<StateHash>, s: State, m: Names, b: Universe,
                          carried: map<StateHash, Names>) {
      && FreshFeed(u, genesis, hs) && b.Keys == Elems(hs) + {genesis}
      && s == Run(state.step, state.Settings(), u, Begun(u), hs).state
      && m == RunNames(state.step, state.Settings(), u, says, Begun(u), hs)
      && CarriedRight(state.step, state.Settings(), u, says, Begun(u), hs, carried, staged.genesisPrev)
      && PersistedIn(state.step, state.Settings(), u, Begun(u), hs, ledgerCadence, carried, staged.genesisPrev)
    }

    lemma {:induction false} IsRunNext(u: Universe, hs: seq<StateHash>, s: State, m: Names, b: Universe,
                                       carried: map<StateHash, Names>, p: Pcb, now: map<StateHash, Names>)
      requires IsRun(u, hs, s, m, b, carried) && Known(u, p) && p.stateHash !in b && ledgerCadence > 0
      requires Carrying(now, carried, Chosen(u, Feed(state.step, state.Settings(), u, s, p.stateHash).canonical), m)
      ensures IsRun(u, hs + [p.stateHash], Feed(state.step, state.Settings(), u, s, p.stateHash).state,
                    NamesNext(state.step, state.Settings(), u, says, s, p.stateHash, m), b[p.stateHash := p], now)
    {
      var c, h := state.Settings(), p.stateHash;
      NextOfRun(state.step, c, u, genesis, start, hs, h);
      RunNamesNext(state.step, c, u, says, Begun(u), hs, h);
      OneMoreKey(b, p);
      CarriedRightNext(state.step, c, u, says, Begun(u), hs, h, carried, now,
                       Chosen(u, Feed(state.step, c, u, s, h).canonical), staged.genesisPrev);
      PersistedInNext(state.step, c, u, Begun(u), hs, h, ledgerCadence, s, carried, now, m, staged.genesisPrev);
    }

    ghost predicate Orderly(u: Universe, hs: seq<StateHash>) {
      SortedByLength(u, hs) && Shallow(state.step, state.Settings(), u, Begun(u), hs)
    }

    /** The ledger of every reported block is the running one, so it fits whatever usernames it has. */
    lemma {:induction false} LedgerFits(u: Universe, hs: seq<StateHash>, l: Ledger, m: Names,
                                        before: map<StateHash, Names>)
      requires ledgerCadence > 0 && Covers(l, m) && forall x :: x in hs ==> staged.LedgerHere(x) == l
      ensures AllFit(u, hs, Named(l, m), m, before)
    {
      forall x | x in Chosen(u, hs) ensures staged.Fits(x, Named(l, m), m, before) {
        WritesItself(l, m, if x in before then before[x] else map[]);
      }
    }

    /** In order, the ledger that is persisted fits. */
    lemma {:induction false} NextFits(u: Universe, b: Universe, hs: seq<StateHash>, p: Pcb, m: Names,
                                      before: map<StateHash, Names>)
      requires ValidConfig(state.Settings()) && state.Settings().updateThreshold <= state.Settings().confirmations
      requires Consistent(u) && genesis in u && Ascending(u) && Known(u, p) && FreshFeed(u, genesis, hs + [p.stateHash])
      requires Orderly(u, hs + [p.stateHash]) && ledgerCadence > 0
      requires var s := Run(state.step, state.Settings(), u, Begun(u), hs).state;
               && Forest(u, s) && Anchored(state.Settings(), u, s) && TreeStored(u, b, genesis, s)
               && KeepsKey(state.step) && Normal(s.ledger) && Covers(s.ledger, m)
      requires Consistent(b) && p.stateHash !in b && genesis in b && b[genesis].parentHash == staged.genesisPrev
      requires staged.genesisPrev !in u && staged.blocks == b[p.stateHash := p] && staged.step == state.step
      requires staged.LedgerHere(genesis) == start
      ensures var o := Feed(state.step, state.Settings(), u,
                            Run(state.step, state.Settings(), u, Begun(u), hs).state, p.stateHash);
              AllFit(u, o.canonical, Named(o.state.ledger, m), m, before)
      ensures Orderly(u, hs)
    {
      var c, s := state.Settings(), Run(state.step, state.Settings(), u, Begun(u), hs).state;
      var o := Feed(state.step, c, u, s, p.stateHash);
      SortedFits(state.step, c, u, genesis, start, hs, p.stateHash);
      ReportedHere(state.step, c, u, b, genesis, staged.genesisPrev, staged.genesisLedger, s, p, start);
      FeedCovers(state.step, c, u, s, p.stateHash, m);
      LedgerFits(u, o.canonical, o.state.ledger, m, before);
    }

    /** Takes in the next block of a run. */
    method AddBlock(ghost u: Universe, p: Pcb)
      requires Valid(u) && InRun(u) && state.Settings().updateThreshold <= state.Settings().confirmations
      requires Known(u, p) && p.stateHash !in staged.blocks
      modifies this`names, this`fed, state, staged
      ensures Valid(u) && InRun(u) && fed == old(fed) + [p.stateHash]
    {
      ghost var s, b, m, carried := state.Abs(), staged.blocks, names, staged.carried;
      AddNewBlock(u, p);
      IsRunNext(u, fed, s, m, b, carried, p, staged.carried);
      if Orderly(u, fed + [p.stateHash]) { NextFits(u, b, fed, p, m, carried); }
      fed := fed + [p.stateHash];
    }

    /** The staged ledger of a block, after a run in order: the block's own ledger, with the usernames
        that the running ledger had when the nearest persisted block below was reported. */
    method GetLedger(ghost u: Universe, h: StateHash) returns (r: StagedResult, ghost at: StateHash)
      requires Valid(u) && InRun(u) && Orderly(u, fed)
      modifies staged`persisted, staged`sorted, staged`carried
      ensures staged.Valid() && staged.persisted == old(staged.persisted)
      ensures r.NotFound? <==> !Grounded(staged.blocks, staged.genesisPrev, h)
      ensures r.Found? <==> Grounded(staged.blocks, staged.genesisPrev, h)
      ensures r.Found? ==>
                && Nearest(staged.blocks, old(staged.persisted), h, at) && at in old(staged.carried)
                && r.ledger == Named(staged.LedgerHere(h), old(staged.carried)[at])
                && (at != staged.genesisPrev ==>
                      CarriesRun(state.step, state.Settings(), u, says, Begun(u), fed, at, old(staged.carried)[at]))
    {
      r, at := staged.GetStagedLedger(h, false);
    }
  }
}
