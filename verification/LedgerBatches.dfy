/** The best ledger over whole runs, and the ledgers that are persisted for newly canonical
    blocks: every block of a batch gets the ledger of the last one. */
module LedgerBatches {
  import opened Accounts
  import opened Blocks
  import opened Ledgers
  import opened WitnessTree
  import opened WitnessForest
  import opened WitnessRuns

  /** Over every run without deep reorgs, the ledger plus the diffs from the canonical root to
      the best tip is the fold of all diffs from the initial root to the best tip, and none of
      these diffs is missing. */
  lemma {:induction false} RunKeepsBestLedger(step: Step, c: Config, u: Universe, r: StateHash, l: Ledger,
                                              hs: seq<StateHash>)
    requires ValidConfig(c) && Consistent(u) && r in u && FreshFeed(u, r, hs)
    requires Shallow(step, c, u, Initial(u, r, l), hs)
    ensures var s := Run(step, c, u, Initial(u, r, l), hs).state;
            && LedgerAt(step, u, s.canonicalRoot, s.ledger, s.bestTip) == LedgerAt(step, u, r, l, s.bestTip)
            && forall x :: x in Path(u, s.canonicalRoot, s.bestTip) ==>
                x in u && x in s.diffs && s.diffs[x] == u[x].diff
  {
    RunKeepsForest(step, c, u, r, l, hs);
    RunKeepsLedger(step, c, u, r, l, hs);
    var s := Run(step, c, u, Initial(u, r, l), hs).state;
    LedgerAtExtends(step, u, r, l, s.canonicalRoot, s.bestTip);
    PathDiffsKept(c, u, s, s.bestTip);
  }

  /** The canonical root is as close to the best tip as it may be. */
  ghost predicate Close(c: Config, u: Universe, s: State) {
    Len(u, s.bestTip) <= Len(u, s.canonicalRoot) + c.confirmations
  }

  lemma {:induction false} UpdateStaysClose(step: Step, c: Config, u: Universe, s: State)
    requires ValidConfig(c) && RootSound(u, s) && Anchored(c, u, s) && c.updateThreshold <= c.confirmations
    ensures Close(c, u, UpdateCanonical(step, c, u, s)) && Close(c, u, Settle(step, c, u, s).state)
  {
    CanonicalRootMoves(c, u, s);
    RootedDescends(u, s.root, s.canonicalRoot);
    if CanonicalUpdatable(c, u, s) && Depth(u, s) >= c.confirmations {
      TipAncestor(u, s.root, s.bestTip, c.confirmations);
    }
  }

  lemma {:induction false} FeedStaysClose(step: Step, c: Config, u: Universe, s: State, h: StateHash)
    requires ValidConfig(c) && Forest(u, s) && Anchored(c, u, s) && Fresh(u, s, h)
    requires c.updateThreshold <= c.confirmations && Close(c, u, s)
    ensures Close(c, u, Feed(step, c, u, s, h).state)
  {
    ExtendedForest(u, s, h);
    if Accepted(u, s, h) && ExtendsRoot(u, s, h) {
      UpdateStaysClose(step, c, u, Extended(u, s, h));
    }
  }

  lemma {:induction false} RunStaysClose(step: Step, c: Config, u: Universe, r: StateHash, l: Ledger,
                                         hs: seq<StateHash>)
    requires ValidConfig(c) && Consistent(u) && r in u && FreshFeed(u, r, hs) && c.updateThreshold <= c.confirmations
    ensures Close(c, u, Run(step, c, u, Initial(u, r, l), hs).state)
  {
    if hs != [] {
      var init, h := hs[..|hs| - 1], hs[|hs| - 1];
      var s := Run(step, c, u, Initial(u, r, l), init).state;
      FreshPrefix(u, r, hs);
      RunKeepsForest(step, c, u, r, l, init);
      RunStaysClose(step, c, u, r, l, init);
      NextIsFresh(u, r, hs, s);
      FeedStaysClose(step, c, u, s, h);
    }
  }

  /** A step reports no more blocks than the best tip has risen by. */
  lemma {:induction false} BatchAtMostRise(c: Config, u: Universe, s: State, h: StateHash)
    requires ValidConfig(c) && Forest(u, s) && Anchored(c, u, s) && Fresh(u, s, h) && ExtendsRoot(u, s, h)
    requires NoDeepReorg(u, s, h) && Close(c, u, s)
    ensures var e := Extended(u, s, h); |Report(c, u, e)| <= Len(u, e.bestTip) - Len(u, s.bestTip)
  {
    var e := Extended(u, s, h);
    ExtendedForest(u, s, h);
    assert e.canonicalRoot == s.canonicalRoot && Anchored(c, u, e);
    ReportIsThePath(c, u, e);
    CanonicalRootMoves(c, u, e);
    DescendsLength(u, e.canonicalRoot, RootAfter(c, u, e));
    if CanonicalUpdatable(c, u, e) && Depth(u, e) >= c.confirmations {
      TipAncestor(u, e.root, e.bestTip, c.confirmations);
    }
  }

  /** The ledger persisted for a reported block is the block's own ledger plus the diffs of
      the later blocks of its batch; so it is exact precisely if those change nothing, and in
      particular for the last block. */
  lemma {:induction false} PersistedLedgerIs(step: Step, c: Config, u: Universe, r: StateHash, l: Ledger, s: State,
                                             x: StateHash)
    requires RootSound(u, s) && Anchored(c, u, s) && DiffsKept(u, s) && LedgerExact(step, u, r, l, s)
    requires x in Report(c, u, s)
    ensures var persisted, top := UpdateCanonical(step, c, u, s).ledger, RootAfter(c, u, s);
            && Descends(u, x, top)
            && persisted == FoldBlocks(step, u, LedgerAt(step, u, r, l, x), Path(u, x, top))
            && (x == top ==> persisted == LedgerAt(step, u, r, l, x))
  {
    var top := RootAfter(c, u, s);
    UpdateKeepsLedger(step, c, u, r, l, s);
    ReportIsThePath(c, u, s);
    PathMembers(u, s.canonicalRoot, top);
    DescendsTransitive(u, r, s.canonicalRoot, x);
    LedgerAtExtends(step, u, r, l, x, top);
  }

  /** If the best tip rises by at most one, every ledger that the step persists is exact. */
  lemma {:induction false} SingleRisePersistsExactly(step: Step, c: Config, u: Universe, r: StateHash, l: Ledger,
                                                     s: State, h: StateHash, x: StateHash)
    requires ValidConfig(c) && Forest(u, s) && Anchored(c, u, s) && Fresh(u, s, h) && ExtendsRoot(u, s, h)
    requires NoDeepReorg(u, s, h) && Close(c, u, s) && DiffsKept(u, s) && LedgerExact(step, u, r, l, s)
    requires Len(u, Extended(u, s, h).bestTip) <= Len(u, s.bestTip) + 1 && x in Report(c, u, Extended(u, s, h))
    ensures UpdateCanonical(step, c, u, Extended(u, s, h)).ledger == LedgerAt(step, u, r, l, x)
  {
    var e := Extended(u, s, h);
    ExtendedForest(u, s, h);
    ExtendedDiffsKept(u, s, h);
    BatchAtMostRise(c, u, s, h);
    assert Report(c, u, e) == [x] by { assert |Report(c, u, e)| == 1; }
    PersistedLedgerIs(step, c, u, r, l, e, x);
  }

  // ------------------------------------------------------ when a batch is exact

  /** The next block after `i` that is marked, or the last one. */
  ghost function NextMark(marks: seq<bool>, i: nat): (j: nat)
    requires i + 1 < |marks|
    ensures i < j < |marks| && (marks[j] || j == |marks| - 1)
    decreases |marks| - i
  {
    if marks[i + 1] || i + 2 == |marks| then i + 1 else NextMark(marks, i + 1)
  }

  ghost predicate AllLast<T(!new)>(q: seq<T>, marks: seq<bool>)
    requires |q| == |marks|
  {
    forall i :: 0 <= i < |q| && marks[i] ==> q[i] == q[|q| - 1]
  }

  ghost predicate AllNext<T(!new)>(q: seq<T>, marks: seq<bool>)
    requires |q| == |marks|
  {
    forall i: nat {:trigger SameAsNext(q, marks, i)} :: i + 1 < |q| && marks[i] ==> SameAsNext(q, marks, i)
  }

  ghost predicate SameAsNext<T(!new)>(q: seq<T>, marks: seq<bool>, i: nat)
    requires |q| == |marks| && i + 1 < |q|
  {
    q[NextMark(marks, i)] == q[i]
  }

  /** Marked entries all equal the last one precisely if each equals the next. */
  lemma {:induction false} Telescope<T(!new)>(q: seq<T>, marks: seq<bool>)
    requires |q| == |marks| > 0
    ensures AllLast(q, marks) <==> AllNext(q, marks)
  {
    if AllNext(q, marks) {
      forall i | 0 <= i < |q| && marks[i] ensures q[i] == q[|q| - 1] { TelescopeFrom(q, marks, i); }
    }
    if AllLast(q, marks) {
      forall i: nat | i + 1 < |q| && marks[i] ensures SameAsNext(q, marks, i) {}
    }
  }

  lemma {:induction false} TelescopeFrom<T(!new)>(q: seq<T>, marks: seq<bool>, i: nat)
    requires |q| == |marks| && i < |q| && marks[i] && AllNext(q, marks)
    ensures q[i] == q[|q| - 1]
    decreases |q| - i
  {
    if i + 1 < |q| {
      assert SameAsNext(q, marks, i);
      if NextMark(marks, i) < |q| - 1 { TelescopeFrom(q, marks, NextMark(marks, i)); }
    }
  }

  lemma {:induction false} PathSlice(u: Universe, a: StateHash, h: StateHash, i: nat)
    requires Consistent(u) && Descends(u, a, h) && i < |Path(u, a, h)|
    ensures Path(u, a, Path(u, a, h)[i]) == Path(u, a, h)[..i + 1]
    decreases Len(u, h)
  {
    var p := Path(u, a, h);
    DescendsLength(u, a, h);
    if i + 1 < |p| {
      var up := u[h].parentHash;
      PathSlice(u, a, up, i);
      assert p[..i + 1] == Path(u, a, up)[..i + 1];
    } else {
      assert p[..i + 1] == p;
    }
  }

  /** The ledger at block `i` of a batch. */
  ghost function LedgerAlong(step: Step, u: Universe, base: Ledger, p: seq<StateHash>, i: nat): Ledger
    requires i < |p|
  {
    FoldBlocks(step, u, base, p[..i + 1])
  }

  lemma {:induction false} LedgersFollow(step: Step, u: Universe, base: Ledger, p: seq<StateHash>, i: nat, j: nat)
    requires i < j < |p|
    ensures LedgerAlong(step, u, base, p, j) == FoldBlocks(step, u, LedgerAlong(step, u, base, p, i), p[i + 1..j + 1])
  {
    assert p[..j + 1] == p[..i + 1] + p[i + 1..j + 1];
    FoldBlocksConcat(step, u, base, p[..i + 1], p[i + 1..j + 1]);
  }

  ghost function LedgersAlong(step: Step, u: Universe, base: Ledger, p: seq<StateHash>): (q: seq<Ledger>)
    ensures |q| == |p| && forall i :: 0 <= i < |p| ==> q[i] == LedgerAlong(step, u, base, p, i)
  {
    seq(|p|, i requires 0 <= i < |p| => LedgerAlong(step, u, base, p, i))
  }

  /** Which blocks of a batch have a ledger stored for them. */
  ghost function CadenceMarks(u: Universe, p: seq<StateHash>, cadence: nat): (m: seq<bool>)
    requires cadence > 0
    ensures |m| == |p| && forall i :: 0 <= i < |p| ==> m[i] == (Len(u, p[i]) % cadence == 0)
  {
    seq(|p|, i requires 0 <= i < |p| => Len(u, p[i]) % cadence == 0)
  }

  /** From block `i` to the next one with a stored ledger, or to the end of the batch, the diffs
      change nothing. */
  ghost predicate IdleFrom(step: Step, u: Universe, base: Ledger, p: seq<StateHash>, m: seq<bool>, i: nat)
    requires |m| == |p| && i + 1 < |p|
  {
    FoldBlocks(step, u, LedgerAlong(step, u, base, p, i), p[i + 1..NextMark(m, i) + 1]) ==
        LedgerAlong(step, u, base, p, i)
  }

  ghost predicate NothingBetween(step: Step, u: Universe, base: Ledger, p: seq<StateHash>, cadence: nat)
    requires cadence > 0
  {
    var m := CadenceMarks(u, p, cadence);
    forall i: nat {:trigger IdleFrom(step, u, base, p, m, i)} ::
        i + 1 < |p| && m[i] ==> IdleFrom(step, u, base, p, m, i)
  }

  lemma {:induction false} IdleIsSame(step: Step, u: Universe, base: Ledger, p: seq<StateHash>, m: seq<bool>, i: nat)
    requires |m| == |p| && i + 1 < |p|
    ensures IdleFrom(step, u, base, p, m, i) <==> SameAsNext(LedgersAlong(step, u, base, p), m, i)
  {
    LedgersFollow(step, u, base, p, i, NextMark(m, i));
  }

  lemma {:induction false} BetweenIsNext(step: Step, u: Universe, base: Ledger, p: seq<StateHash>, cadence: nat)
    requires cadence > 0
    ensures NothingBetween(step, u, base, p, cadence) <==>
              AllNext(LedgersAlong(step, u, base, p), CadenceMarks(u, p, cadence))
  {
    var q, m := LedgersAlong(step, u, base, p), CadenceMarks(u, p, cadence);
    if AllNext(q, m) {
      forall i: nat | i + 1 < |p| && m[i] ensures IdleFrom(step, u, base, p, m, i) {
        assert SameAsNext(q, m, i);
        IdleIsSame(step, u, base, p, m, i);
      }
    }
    if NothingBetween(step, u, base, p, cadence) {
      forall i: nat | i + 1 < |q| && m[i] ensures SameAsNext(q, m, i) {
        assert IdleFrom(step, u, base, p, m, i);
        IdleIsSame(step, u, base, p, m, i);
      }
    }
  }

  /** What is stored for the blocks of a batch, the ledger of the last one, is right for them. */
  ghost predicate BatchExact(step: Step, u: Universe, base: Ledger, p: seq<StateHash>, cadence: nat)
    requires cadence > 0 && p != []
  {
    AllLast(LedgersAlong(step, u, base, p), CadenceMarks(u, p, cadence))
  }

  lemma {:induction false} BatchExactIff(step: Step, u: Universe, base: Ledger, p: seq<StateHash>, cadence: nat)
    requires cadence > 0 && p != []
    ensures BatchExact(step, u, base, p, cadence) <==> NothingBetween(step, u, base, p, cadence)
  {
    BetweenIsNext(step, u, base, p, cadence);
    Telescope(LedgersAlong(step, u, base, p), CadenceMarks(u, p, cadence));
  }

  // -------------------------------------------------- the batch of a canonical update

  /** What a canonical update stores for the blocks that it reports is their ledger. */
  ghost predicate StoredExactly(step: Step, c: Config, u: Universe, r: StateHash, l: Ledger, s: State, cadence: nat)
    requires cadence > 0
  {
    forall x :: x in Report(c, u, s) && Len(u, x) % cadence == 0 ==>
        UpdateCanonical(step, c, u, s).ledger == LedgerAt(step, u, r, l, x)
  }

  lemma {:induction false} ReportLedgers(step: Step, c: Config, u: Universe, r: StateHash, l: Ledger, s: State, i: nat)
    requires RootSound(u, s) && Anchored(c, u, s) && LedgerExact(step, u, r, l, s) && i < |Report(c, u, s)|
    ensures LedgerAt(step, u, r, l, Report(c, u, s)[i]) == LedgerAlong(step, u, s.ledger, Report(c, u, s), i)
  {
    var p, top := Report(c, u, s), RootAfter(c, u, s);
    ReportIsThePath(c, u, s);
    PathSlice(u, s.canonicalRoot, top, i);
    PathMembers(u, s.canonicalRoot, top);
    assert p[i] in p;
    LedgerAtExtends(step, u, r, l, s.canonicalRoot, p[i]);
  }

  lemma {:induction false} UpdateLedgerIsLast(step: Step, c: Config, u: Universe, r: StateHash, l: Ledger, s: State)
    requires RootSound(u, s) && Anchored(c, u, s) && DiffsKept(u, s) && LedgerExact(step, u, r, l, s)
    requires Report(c, u, s) != []
    ensures var p := Report(c, u, s); UpdateCanonical(step, c, u, s).ledger == LedgerAt(step, u, r, l, p[|p| - 1])
  {
    UpdateKeepsLedger(step, c, u, r, l, s);
  }

  lemma {:induction false} SameLast(q: seq<Ledger>, m: seq<bool>, p: seq<StateHash>, u: Universe, cadence: nat,
                                    last: Ledger, at: StateHash -> Ledger)
    requires cadence > 0 && |q| == |p| > 0 && m == CadenceMarks(u, p, cadence) && last == q[|q| - 1]
    requires forall i :: 0 <= i < |p| ==> q[i] == at(p[i])
    ensures AllLast(q, m) <==> forall x :: x in p && Len(u, x) % cadence == 0 ==> last == at(x)
  {
    if AllLast(q, m) {
      forall x | x in p && Len(u, x) % cadence == 0 ensures last == at(x) {
        var i :| 0 <= i < |p| && p[i] == x;
        assert m[i];
      }
    }
    if forall x :: x in p && Len(u, x) % cadence == 0 ==> last == at(x) {
      forall i | 0 <= i < |q| && m[i] ensures q[i] == q[|q| - 1] { assert p[i] in p; }
    }
  }

  lemma {:induction false} StoredIsBatch(step: Step, c: Config, u: Universe, r: StateHash, l: Ledger, s: State,
                                         cadence: nat)
    requires cadence > 0 && RootSound(u, s) && Anchored(c, u, s) && DiffsKept(u, s) && LedgerExact(step, u, r, l, s)
    requires Report(c, u, s) != []
    ensures StoredExactly(step, c, u, r, l, s, cadence) <==> BatchExact(step, u, s.ledger, Report(c, u, s), cadence)
  {
    var p := Report(c, u, s);
    var q, m := LedgersAlong(step, u, s.ledger, p), CadenceMarks(u, p, cadence);
    UpdateLedgerIsLast(step, c, u, r, l, s);
    forall i | 0 <= i < |p| ensures q[i] == LedgerAt(step, u, r, l, p[i]) { ReportLedgers(step, c, u, r, l, s, i); }
    SameLast(q, m, p, u, cadence, UpdateCanonical(step, c, u, s).ledger, x => LedgerAt(step, u, r, l, x));
  }

  /** The stored ledgers of a batch are exact precisely if nothing happens between a block with a
      stored ledger and the next such block or the end of the batch. */
  lemma {:induction false} StoredExactlyIff(step: Step, c: Config, u: Universe, r: StateHash, l: Ledger, s: State,
                                            cadence: nat)
    requires cadence > 0 && RootSound(u, s) && Anchored(c, u, s) && DiffsKept(u, s) && LedgerExact(step, u, r, l, s)
    ensures StoredExactly(step, c, u, r, l, s, cadence) <==> NothingBetween(step, u, s.ledger, Report(c, u, s), cadence)
  {
    if Report(c, u, s) != [] {
      StoredIsBatch(step, c, u, r, l, s, cadence);
      BatchExactIff(step, u, s.ledger, Report(c, u, s), cadence);
    }
  }

  /** Every block of the batch but the first has a diff that leaves its parent's ledger as it is. */
  ghost predicate BatchIdle(step: Step, u: Universe, base: Ledger, p: seq<StateHash>) {
    forall i: nat {:trigger LedgerAlong(step, u, base, p, i)} :: i + 1 < |p| ==>
      FoldBlocks(step, u, LedgerAlong(step, u, base, p, i), [p[i + 1]]) == LedgerAlong(step, u, base, p, i)
  }

  lemma {:induction false} EveryBlockStored(step: Step, u: Universe, base: Ledger, p: seq<StateHash>)
    ensures NothingBetween(step, u, base, p, 1) <==> BatchIdle(step, u, base, p)
  {
    var m := CadenceMarks(u, p, 1);
    forall i: nat {:trigger NextMark(m, i)} | i + 1 < |p| ensures NextMark(m, i) == i + 1 &&
      p[i + 1..NextMark(m, i) + 1] == [p[i + 1]] {}
    if BatchIdle(step, u, base, p) {
      forall i: nat | i + 1 < |p| && m[i] ensures IdleFrom(step, u, base, p, m, i) { assert NextMark(m, i) == i + 1; }
    }
    if NothingBetween(step, u, base, p, 1) {
      forall i: nat {:trigger LedgerAlong(step, u, base, p, i)} | i + 1 < |p|
        ensures FoldBlocks(step, u, LedgerAlong(step, u, base, p, i), [p[i + 1]]) == LedgerAlong(step, u, base, p, i)
      {
        assert m[i] && IdleFrom(step, u, base, p, m, i) && NextMark(m, i) == i + 1;
      }
    }
  }

  /** Whatever the cadence, the stored ledgers of an idle batch are exact; and if every block gets
      one, only those of an idle batch are. */
  lemma {:induction false} IdleBatchIff(step: Step, c: Config, u: Universe, r: StateHash, l: Ledger, s: State,
                                        cadence: nat)
    requires cadence > 0 && RootSound(u, s) && Anchored(c, u, s) && DiffsKept(u, s) && LedgerExact(step, u, r, l, s)
    ensures StoredExactly(step, c, u, r, l, s, 1) <==> BatchIdle(step, u, s.ledger, Report(c, u, s))
    ensures BatchIdle(step, u, s.ledger, Report(c, u, s)) ==> StoredExactly(step, c, u, r, l, s, cadence)
  {
    StoredExactlyIff(step, c, u, r, l, s, 1);
    EveryBlockStored(step, u, s.ledger, Report(c, u, s));
  }
}
