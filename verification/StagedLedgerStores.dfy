/** The staged ledger store: whichever ledgers are persisted, a staged ledger is the fold
    of all diffs from genesis. */
module StagedLedgerStores {
  import opened Accounts
  import opened Blocks
  import opened Ledgers
  import opened NamedLedgers
  import opened Reorgs
  import opened StagedLedgers

  /** The chain of `h` leads back to `prev`, the parent of the genesis block, which holds the
      genesis ledger and is no block itself. */
  ghost predicate Grounded(u: Universe, prev: StateHash, h: StateHash)
    decreases Len(u, h)
  {
    h == prev || (h in u && (u[h].parentHash == prev || (HasParent(u, h) && Grounded(u, prev, u[h].parentHash))))
  }

  lemma {:induction false} LedgerStep(step: Step, u: Universe, prev: StateHash, l: Ledger, h: StateHash)
    requires Consistent(u) && prev !in u && h in u
    ensures Grounded(u, prev, h) <==> Grounded(u, prev, u[h].parentHash)
    ensures Grounded(u, prev, h) ==>
              LedgerAt(step, u, prev, l, h) == ApplyDiff(step, LedgerAt(step, u, prev, l, u[h].parentHash), u[h].diff)
  {
    var p := u[h].parentHash;
    assert Linked(u, h);
    if p == prev {
      assert Path(u, prev, h) == [h] && Path(u, prev, prev) == [];
    } else if HasParent(u, h) {
      assert Path(u, prev, h) == Path(u, prev, p) + [h];
    }
  }

  function AppendVec(ds: seq<LedgerDiff>): LedgerDiff {
    if ds == [] then [] else ds[0] + AppendVec(ds[1..])
  }

  /** `diffs` are the diffs of the blocks from `h` down to just above `cur`. */
  ghost predicate Walked(step: Step, u: Universe, prev: StateHash, l: Ledger, h: StateHash, cur: StateHash,
                         diffs: seq<LedgerDiff>) {
    && (Grounded(u, prev, h) <==> Grounded(u, prev, cur))
    && (Grounded(u, prev, h) ==>
          ApplyDiff(step, LedgerAt(step, u, prev, l, cur), AppendVec(Reverse(diffs))) == LedgerAt(step, u, prev, l, h))
  }

  lemma {:induction false} WalkBack(step: Step, u: Universe, prev: StateHash, l: Ledger, h: StateHash, cur: StateHash,
                                    diffs: seq<LedgerDiff>)
    requires Consistent(u) && prev !in u && cur in u && Walked(step, u, prev, l, h, cur, diffs)
    ensures Walked(step, u, prev, l, h, u[cur].parentHash, diffs + [u[cur].diff])
  {
    LedgerStep(step, u, prev, l, cur);
    ReverseSnoc(diffs, u[cur].diff);
    var rest := AppendVec(Reverse(diffs));
    assert ([u[cur].diff] + Reverse(diffs))[1..] == Reverse(diffs);
    ApplyDiffAppend(step, LedgerAt(step, u, prev, l, u[cur].parentHash), u[cur].diff, rest);
  }

  datatype StagedResult = Found(ledger: Ledger) | NotFound | BlockMissing

  /** A grounded block has the same chain in a larger store. */
  lemma {:induction false} GroundedGrows(step: Step, u: Universe, u': Universe, prev: StateHash, l: Ledger,
                                         h: StateHash)
    requires Consistent(u) && Consistent(u') && Within(u, u') && prev !in u' && Grounded(u, prev, h)
    ensures Grounded(u', prev, h) && LedgerAt(step, u', prev, l, h) == LedgerAt(step, u, prev, l, h)
    decreases Len(u, h)
  {
    if h == prev {
      assert Path(u, prev, h) == [] && Path(u', prev, h) == [];
    } else {
      assert Linked(u, h) && Linked(u', h);
      if u[h].parentHash == prev {
        assert Grounded(u, prev, prev) && Path(u, prev, prev) == [] && Path(u', prev, prev) == [];
      } else {
        GroundedGrows(step, u, u', prev, l, u[h].parentHash);
      }
      LedgerStep(step, u, prev, l, h);
      LedgerStep(step, u', prev, l, h);
    }
  }

  /** The blocks of a batch for which the ledger is written. */
  function AtCadence(bs: seq<Block>, cadence: nat): (hs: set<StateHash>)
    requires cadence > 0
  {
    set i | 0 <= i < |bs| && bs[i].length % cadence == 0 :: bs[i].stateHash
  }

  lemma {:induction false} NextAtCadence(bs: seq<Block>, cadence: nat, i: nat)
    requires cadence > 0 && i < |bs| && forall j, k :: 0 <= j < k < |bs| ==> bs[j].stateHash != bs[k].stateHash
    ensures AtCadence(bs[..i + 1], cadence) ==
            if bs[i].length % cadence == 0 then AtCadence(bs[..i], cadence) + {bs[i].stateHash}
            else AtCadence(bs[..i], cadence)
    ensures bs[i].stateHash !in AtCadence(bs[..i], cadence)
  {
    var upTo := bs[..i + 1];
    assert upTo == bs[..i] + [bs[i]];
    forall h | h in AtCadence(bs[..i], cadence) ensures h in AtCadence(upTo, cadence) {
      var j :| 0 <= j < i && bs[..i][j].length % cadence == 0 && bs[..i][j].stateHash == h;
      assert upTo[j] == bs[..i][j];
    }
    assert upTo[i] == bs[i];
  }

  /** The blocks of `done` carry the usernames `m`, the others what they carried before. */
  ghost predicate CarriedAt(now: map<StateHash, Names>, before: map<StateHash, Names>, done: set<StateHash>, m: Names,
                            h: StateHash) {
    && (h in now <==> h in before || h in done)
    && (h in now ==> now[h] == if h in done then m else before[h])
  }

  ghost predicate Carrying(now: map<StateHash, Names>, before: map<StateHash, Names>, done: set<StateHash>, m: Names) {
    forall h {:trigger CarriedAt(now, before, done, m, h)} :: CarriedAt(now, before, done, m, h)
  }

  lemma {:induction false} CarryOne(now: map<StateHash, Names>, before: map<StateHash, Names>, done: set<StateHash>,
                                    m: Names, h: StateHash)
    requires Carrying(now, before, done, m)
    ensures Carrying(now[h := m], before, done + {h}, m)
  {
    var now', done' := now[h := m], done + {h};
    forall x ensures CarriedAt(now', before, done', m, x) { assert CarriedAt(now, before, done, m, x); }
  }

  lemma {:induction false} CarryNone(before: map<StateHash, Names>, m: Names)
    ensures Carrying(before, before, {}, m)
  {
    forall x ensures CarriedAt(before, before, {}, m, x) {}
  }

  /** The first block with a persisted ledger on the way down from `h`. */
  ghost predicate Nearest(u: Universe, persisted: set<StateHash>, h: StateHash, at: StateHash)
    decreases if h in u then u[h].length + 1 else 0
  {
    if h in persisted then at == h
    else Linked(u, h) && Nearest(u, persisted, u[h].parentHash, at)
  }

  /** A ledger written where there is none, or over one with other usernames, is what is then there. */
  lemma {:induction false} WritesItself(l: Ledger, m: Names, before: Names)
    ensures Overwritten(Named(l, m), map[], Named(l, m))
    ensures Overwritten(Named(l, m), Named(l, before), Named(l, m))
  {
    forall t: TokenAddress, p: PublicKey
      ensures OverwrittenAt(Named(l, m), map[], Named(l, m), t, p)
      ensures OverwrittenAt(Named(l, m), Named(l, before), Named(l, m), t, p)
    {
      NamedGet(l, m, t, p);
      NamedGet(l, before, t, p);
    }
  }

  /** The entries of block `h` are those of its ledger `l` with the usernames that it carries. */
  ghost predicate EntriesExact(sorted: Sorted, carried: map<StateHash, Names>, h: StateHash, l: Ledger) {
    Snapshot(sorted, h, if h in carried then Named(l, carried[h]) else map[])
  }

  lemma {:induction false} OthersExact(sorted: Sorted, sorted0: Sorted, carried: map<StateHash, Names>, h: StateHash,
                                       m: Names, x: StateHash, l: Ledger)
    requires OthersKept(sorted, sorted0, h) && x != h
    ensures EntriesExact(sorted, carried[h := m], x, l) <==> EntriesExact(sorted0, carried, x, l)
  {
    OthersSnapshot(sorted, sorted0, h, x, if x in carried then Named(l, carried[x]) else map[]);
  }

  /** Writing `l` gives the block's ledger `here` with the usernames `m`, over what is persisted
      there already, if anything. */
  ghost predicate Writes(l: Ledger, here: Ledger, m: Names, carried: map<StateHash, Names>, h: StateHash) {
    Overwritten(l, if h in carried then Named(here, carried[h]) else map[], Named(here, m))
  }

  lemma {:induction false} EntryIff(sorted: Sorted, sorted0: Sorted, carried: map<StateHash, Names>, h: StateHash,
                                    l: Ledger, m: Names, here: Ledger)
    requires Written(sorted, sorted0, h, l) && EntriesExact(sorted0, carried, h, here)
    ensures EntriesExact(sorted, carried[h := m], h, here) <==> Writes(l, here, m, carried, h)
  {
    WrittenIff(sorted, sorted0, h, if h in carried then Named(here, carried[h]) else map[], l, Named(here, m));
  }

  class StagedLedgerStore {
    const step: Step
    const genesisPrev: StateHash
    ghost const genesisLedger: Ledger
    var blocks: Universe
    var persisted: set<StateHash>
    var sorted: Sorted

    /** The usernames on each persisted ledger. */
    ghost var carried: map<StateHash, Names>

    ghost function LedgerHere(h: StateHash): Ledger
      reads this`blocks
    {
      LedgerAt(step, blocks, genesisPrev, genesisLedger, h)
    }

    /** What is persisted for a block, if anything, is its ledger with the usernames it carries. */
    ghost predicate PersistedExact(h: StateHash)
      reads this
    {
      && (h in persisted <==> h in carried)
      && (h in carried ==> Grounded(blocks, genesisPrev, h) && Covers(LedgerHere(h), carried[h]))
      && EntriesExact(sorted, carried, h, LedgerHere(h))
    }

    /** What does not depend on the ledgers that are persisted. */
    ghost predicate Founded()
      reads this
    {
      && KeepsKey(step) && Nameless(step) && Consistent(blocks) && genesisPrev !in blocks && Normal(genesisLedger)
      && genesisPrev in persisted
    }

    ghost predicate Valid()
      reads this
    {
      Founded() && forall h {:trigger PersistedExact(h)} :: PersistedExact(h)
    }

    /** Writing `l` for block `h` is right: over what is persisted there already, if anything, it
        gives the block's ledger with the usernames `m`. */
    ghost predicate Fits(h: StateHash, l: Ledger, m: Names, before: map<StateHash, Names>)
      reads this`blocks
    {
      Covers(LedgerHere(h), m) && Writes(l, LedgerHere(h), m, before, h)
    }

    lemma {:induction false} LedgerHereNormal(h: StateHash)
      requires KeepsKey(step) && Normal(genesisLedger)
      ensures Normal(LedgerHere(h))
    {
      FoldBlocksNormal(step, blocks, genesisLedger, Path(blocks, genesisPrev, h));
    }

    /** A store with the genesis ledger persisted. */
    constructor (step: Step, blocks: Universe, genesisPrev: StateHash, genesisLedger: Ledger)
      requires KeepsKey(step) && Nameless(step) && Consistent(blocks) && genesisPrev !in blocks && Normal(genesisLedger)
      ensures Valid() && this.step == step && this.blocks == blocks && this.genesisPrev == genesisPrev
      ensures this.genesisLedger == genesisLedger && persisted == {genesisPrev} && carried == map[genesisPrev := map[]]
    {
      this.step, this.blocks, this.genesisPrev := step, blocks, genesisPrev;
      this.genesisLedger := genesisLedger;
      var empty: Sorted := map[];
      var written := WriteAccounts(empty, genesisPrev, genesisLedger);
      NothingFiledAt(genesisPrev);
      NoNames(genesisLedger);
      WritesItself(genesisLedger, map[], map[]);
      WrittenIff(written, empty, genesisPrev, map[], genesisLedger, genesisLedger);
      sorted, persisted, carried := written, {genesisPrev}, map[genesisPrev := map[]];
      new;
      forall h ensures PersistedExact(h) {
        if h != genesisPrev { NothingFiledAt(h); OthersSnapshot(sorted, empty, genesisPrev, h, map[]); }
      }
    }

    /** A new block: what is persisted stays right. */
    method AddBlock(p: Pcb)
      requires Founded() && p.stateHash !in blocks && p.stateHash != genesisPrev && Consistent(blocks[p.stateHash := p])
      modifies this`blocks
      ensures Founded() && blocks == old(blocks)[p.stateHash := p]
      ensures forall h :: old(PersistedExact(h)) ==> PersistedExact(h)
      ensures forall h :: old(Grounded(blocks, genesisPrev, h)) ==>
                Grounded(blocks, genesisPrev, h) && LedgerHere(h) == old(LedgerHere(h))
    {
      ghost var before := blocks;
      blocks := blocks[p.stateHash := p];
      forall h | Grounded(before, genesisPrev, h)
        ensures Grounded(blocks, genesisPrev, h)
        ensures LedgerHere(h) == LedgerAt(step, before, genesisPrev, genesisLedger, h)
      {
        GroundedGrows(step, before, blocks, genesisPrev, genesisLedger, h);
      }
    }

    /** Persists a ledger with the usernames `m` for a block; no other block is affected, and the
        block's own entry stays right precisely if the ledger fits. */
    method AddStagedLedger(h: StateHash, l: Ledger, ghost m: Names)
      requires Founded() && Grounded(blocks, genesisPrev, h)
      modifies this`persisted, this`sorted, this`carried
      ensures Founded() && persisted == old(persisted) + {h} && carried == old(carried)[h := m]
      ensures forall x {:trigger PersistedExact(x)} :: x != h ==> (PersistedExact(x) <==> old(PersistedExact(x)))
      ensures old(PersistedExact(h)) ==> (PersistedExact(h) <==> Fits(h, l, m, old(carried)))
      ensures Written(sorted, old(sorted), h, l)
    {
      ghost var sorted0 := sorted;
      sorted := WriteAccounts(sorted, h, l);
      persisted, carried := persisted + {h}, carried[h := m];
      forall x | x != h ensures PersistedExact(x) <==> old(PersistedExact(x)) {
        OthersExact(sorted, sorted0, old(carried), h, m, x, LedgerHere(x));
      }
      if old(PersistedExact(h)) { EntryIff(sorted, sorted0, old(carried), h, l, m, LedgerHere(h)); }
    }

    /** Apart from `done`, the same entries are right as before, and those of `done` stayed right
        precisely if the ledger fits. */
    ghost predicate ExactBut(exact: iset<StateHash>, done: set<StateHash>, l: Ledger, m: Names,
                             before: map<StateHash, Names>)
      reads this
    {
      forall x {:trigger PersistedExact(x)} ::
        && (x !in done ==> (PersistedExact(x) <==> x in exact))
        && (x in done && x in exact ==> (PersistedExact(x) <==> Fits(x, l, m, before)))
    }

    method PersistNext(h: StateHash, l: Ledger, ghost m: Names, ghost exact: iset<StateHash>,
                       ghost done: set<StateHash>, ghost before: map<StateHash, Names>)
      requires Founded() && Grounded(blocks, genesisPrev, h)
      requires Carrying(carried, before, done, m) && h !in done && ExactBut(exact, done, l, m, before)
      modifies this`persisted, this`sorted, this`carried
      ensures Founded() && persisted == old(persisted) + {h}
      ensures Carrying(carried, before, done + {h}, m) && ExactBut(exact, done + {h}, l, m, before)
    {
      assert PersistedExact(h) <==> h in exact;
      assert CarriedAt(carried, before, done, m, h);
      SameFit(h, l, m, carried, before);
      CarryOne(carried, before, done, m, h);
      AddStagedLedger(h, l, m);
    }

    lemma {:induction false} SameFit(h: StateHash, l: Ledger, m: Names, now: map<StateHash, Names>,
                                     before: map<StateHash, Names>)
      requires (h in now <==> h in before) && (h in now ==> now[h] == before[h])
      ensures Fits(h, l, m, now) <==> Fits(h, l, m, before)
    {}

    /** Persists the running ledger, with its usernames `m`, for the newly canonical blocks whose
        length is a multiple of the cadence.  No other block is affected, and the entry of such
        a block stays right precisely if the ledger fits. */
    method PersistLedgers(bs: seq<Block>, l: Ledger, ghost m: Names, cadence: nat)
      requires Founded() && cadence > 0
      requires forall i :: 0 <= i < |bs| ==> Grounded(blocks, genesisPrev, bs[i].stateHash)
      requires forall i, j :: 0 <= i < j < |bs| ==> bs[i].stateHash != bs[j].stateHash
      modifies this`persisted, this`sorted, this`carried
      ensures Founded() && persisted == old(persisted) + AtCadence(bs, cadence)
      ensures Carrying(carried, old(carried), AtCadence(bs, cadence), m)
      ensures forall x {:trigger PersistedExact(x)} ::
                old(PersistedExact(x)) ==>
                    (PersistedExact(x) <==> (x in AtCadence(bs, cadence) ==> Fits(x, l, m, old(carried))))
      ensures forall x {:trigger PersistedExact(x)} ::
                x !in AtCadence(bs, cadence) ==> (PersistedExact(x) <==> old(PersistedExact(x)))
    {
      ghost var before, first := carried, persisted;
      ghost var exact := iset x | PersistedExact(x);
      CarryNone(before, m);
      assert AtCadence(bs[..0], cadence) == {};
      for i := 0 to |bs|
        invariant Founded() && persisted == first + AtCadence(bs[..i], cadence)
        invariant Carrying(carried, before, AtCadence(bs[..i], cadence), m)
        invariant ExactBut(exact, AtCadence(bs[..i], cadence), l, m, before)
      {
        NextAtCadence(bs, cadence, i);
        if bs[i].length % cadence == 0 {
          PersistNext(bs[i].stateHash, l, m, exact, AtCadence(bs[..i], cadence), before);
        }
      }
      assert bs[..|bs|] == bs;
    }

    /** The ledger at a block: the nearest persisted ledger below it plus the diffs in between,
        with the usernames of that ledger; optionally persisted for later. */
    method GetStagedLedger(h: StateHash, memoize: bool) returns (r: StagedResult, ghost at: StateHash)
      requires Valid()
      modifies this`persisted, this`sorted, this`carried
      ensures Valid() && persisted == old(persisted) + if memoize && r.Found? then {h} else {}
      ensures r.NotFound? <==> !Grounded(blocks, genesisPrev, h)
      ensures r.BlockMissing? <==> h == genesisPrev && memoize
      ensures r.Found? ==> Nearest(blocks, old(persisted), h, at) && at in old(carried)
      ensures r.Found? ==> r.ledger == Named(LedgerHere(h), old(carried)[at])
    {
      var cur, diffs := h, [];
      ghost var u, prev, l0 := blocks, genesisPrev, genesisLedger;
      at := h;
      while cur !in persisted
        invariant Valid() && persisted == old(persisted) && carried == old(carried)
        invariant Walked(step, u, prev, l0, h, cur, diffs)
        invariant forall x {:trigger Nearest(u, persisted, cur, x)} ::
                    Nearest(u, persisted, cur, x) ==> Nearest(u, persisted, h, x)
        decreases if cur in u then Len(u, cur) + 1 else 0
      {
        assert PersistedExact(cur);
        if cur !in blocks { return NotFound, at; }
        assert Linked(u, cur);
        WalkBack(step, u, prev, l0, h, cur, diffs);
        forall x | Nearest(u, persisted, u[cur].parentHash, x) ensures Nearest(u, persisted, h, x) {
          assert Nearest(u, persisted, cur, x);
        }
        diffs := diffs + [blocks[cur].diff];
        cur := blocks[cur].parentHash;
      }
      at := cur;
      assert PersistedExact(cur) && Nearest(u, persisted, cur, cur);
      ghost var m := carried[cur];
      var ledger := LedgerFrom(h, cur, diffs);
      if memoize {
        if h !in blocks { return BlockMissing, at; }
        Memoize(h, ledger, m);
      }
      r := Found(ledger);
    }

    /** Reads a persisted ledger and applies the diffs above it. */
    method LedgerFrom(ghost h: StateHash, cur: StateHash, diffs: seq<LedgerDiff>) returns (r: Ledger)
      requires Valid() && cur in carried && Walked(step, blocks, genesisPrev, genesisLedger, h, cur, diffs)
      ensures Grounded(blocks, genesisPrev, h) && r == Named(LedgerHere(h), carried[cur])
      ensures Covers(LedgerHere(h), carried[cur])
    {
      assert PersistedExact(cur);
      LedgerHereNormal(cur);
      NamedNormal(LedgerHere(cur), carried[cur]);
      r := BuildStagedLedger(sorted, cur, Named(LedgerHere(cur), carried[cur]));
      NamedDiffs(step, LedgerHere(cur), carried[cur], Flatten(AppendVec(Reverse(diffs))));
      r := ApplyDiffInPlace(step, r, AppendVec(Reverse(diffs)));
    }

    /** Persists a staged ledger that has been computed. */
    method Memoize(h: StateHash, l: Ledger, ghost m: Names)
      requires Valid() && Grounded(blocks, genesisPrev, h) && l == Named(LedgerHere(h), m) && Covers(LedgerHere(h), m)
      modifies this`persisted, this`sorted, this`carried
      ensures Valid() && persisted == old(persisted) + {h}
    {
      assert PersistedExact(h);
      WritesItself(LedgerHere(h), m, if h in carried then carried[h] else map[]);
      AddStagedLedger(h, l, m);
      assert PersistedExact(h);
    }
  }

  lemma {:induction false} NothingFiledAt(h: StateHash)
    ensures NoEntries(map[], h)
  {
    forall t: TokenAddress, p: PublicKey ensures AccountFiled(map[], h, map[], t, p) {}
  }
}
