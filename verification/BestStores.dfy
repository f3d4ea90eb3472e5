/** The best ledger beside the other indexes of the best chain: one best-tip update moves them all,
    and over any run of such updates the balance-sort indexes stay those of the account table. */
module BestStores {
  import opened Accounts
  import opened Blocks
  import opened Ledgers
  import opened Reorgs
  import opened IndexerStores
  import opened BestLedgers
  import opened BestLedgerStores

  function HashesIn(bs: seq<BlockUpdate>): seq<StateHash> {
    seq(|bs|, i requires 0 <= i < |bs| => bs[i].stateHash)
  }

  /** The ledger after the blocks `off`, newest first, are unapplied and the blocks `on` applied. */
  ghost function Swapped(u: Universe, l: Ledger, off: seq<StateHash>, on: seq<StateHash>): Ledger {
    FoldBlocks(BestApplied, u, FoldBlocks(Unapplied, u, l, off), on)
  }

  lemma {:induction false} SwappedNormal(u: Universe, l: Ledger, off: seq<StateHash>, on: seq<StateHash>)
    requires Normal(l)
    ensures Normal(Swapped(u, l, off, on))
  {
    StepsKeepKey();
    FoldBlocksNormal(Unapplied, u, l, off);
    FoldBlocksNormal(BestApplied, u, FoldBlocks(Unapplied, u, l, off), on);
  }

  lemma {:induction false} EntryHashes(u: Universe, hs: seq<StateHash>, cut: nat, top: nat)
    ensures HashesIn(Entries(u, hs, cut, top)) == hs
    ensures HashesIn(Reverse(Entries(u, hs, cut, top))) == Reverse(hs)
  {
    var es := Entries(u, hs, cut, top);
    forall i | 0 <= i < |hs| ensures es[i].stateHash == hs[i] { EntriesAt(u, hs, cut, top, i); }
    forall i | 0 <= i < |hs| ensures Reverse(es)[i].stateHash == Reverse(hs)[i] {
      ReverseAt(es, i);
      ReverseAt(hs, i);
    }
  }

  // ------------------------------------------------------------ the count of accounts

  type Created = StateHash -> seq<AccountKey>

  /** How many accounts the blocks create. */
  ghost function CreatedSum(created: Created, hs: seq<StateHash>): nat {
    if hs == [] then 0 else CreatedSum(created, hs[..|hs| - 1]) + |created(hs[|hs| - 1])|
  }

  lemma {:induction false} CreatedSumConcat(created: Created, p: seq<StateHash>, q: seq<StateHash>)
    ensures CreatedSum(created, p + q) == CreatedSum(created, p) + CreatedSum(created, q)
  {
    if q == [] {
      assert p + q == p;
    } else {
      assert (p + q)[..|p + q| - 1] == p + q[..|q| - 1];
      CreatedSumConcat(created, p, q[..|q| - 1]);
    }
  }

  lemma {:induction false} CreatedSumReverse(created: Created, hs: seq<StateHash>)
    ensures CreatedSum(created, Reverse(hs)) == CreatedSum(created, hs)
  {
    if hs != [] {
      var first, rest := [hs[0]], hs[1..];
      CreatedSumReverse(created, rest);
      assert hs == first + rest && Reverse(hs) == Reverse(rest) + first;
      CreatedSumConcat(created, first, rest);
      CreatedSumConcat(created, Reverse(rest), first);
    }
  }

  method CountCreated(created: Created, bs: seq<BlockUpdate>) returns (n: nat)
    ensures n == CreatedSum(created, HashesIn(bs))
  {
    n := 0;
    for i := 0 to |bs|
      invariant n == CreatedSum(created, HashesIn(bs[..i]))
    {
      assert HashesIn(bs[..i + 1]) == HashesIn(bs[..i]) + [bs[i].stateHash];
      CreatedSumConcat(created, HashesIn(bs[..i]), [bs[i].stateHash]);
      assert [bs[i].stateHash][..0] == [] && CreatedSum(created, [bs[i].stateHash]) == |created(bs[i].stateHash)|;
      n := n + |created(bs[i].stateHash)|;
    }
    assert bs[..|bs|] == bs;
  }

  // ------------------------------------------------------------ back to the fork

  /** Unapplying block `h`, right after it was applied, restores the ledger. */
  ghost predicate UndoneHere(u: Universe, g: StateHash, l: Ledger, h: StateHash) {
    h in u ==> Undone(LedgerAt(BestApplied, u, g, l, u[h].parentHash), Flatten(u[h].diff))
  }

  /** So it is for every block above `x` up to `h`. */
  ghost predicate UndoneAlong(u: Universe, g: StateHash, l: Ledger, x: StateHash, h: StateHash) {
    forall y {:trigger UndoneHere(u, g, l, y)} :: y in Path(u, x, h) ==> UndoneHere(u, g, l, y)
  }

  lemma {:induction false} UnapplyOne(u: Universe, g: StateHash, l: Ledger, h: StateHash)
    requires Consistent(u) && Descends(u, g, h) && h != g && Normal(l)
    ensures var back := FoldBlocks(Unapplied, u, LedgerAt(BestApplied, u, g, l, h), [h]);
            back == LedgerAt(BestApplied, u, g, l, u[h].parentHash) <==> UndoneHere(u, g, l, h)
  {
    var p, ds := u[h].parentHash, Flatten(u[h].diff);
    var before := LedgerAt(BestApplied, u, g, l, p);
    assert HasParent(u, h) && Path(u, g, h) == Path(u, g, p) + [h];
    assert LedgerAt(BestApplied, u, g, l, h) == ApplyDiffs(BestApplied, before, ds);
    StepsKeepKey();
    FoldBlocksNormal(BestApplied, u, l, Path(u, g, p));
    LedgerUndoneIff(before, ds);
    assert [h][..0] == [];
  }

  /** If every block on the way is undone, unapplying them leads back to the ledger at the fork. */
  lemma {:induction false} UnapplyPath(u: Universe, g: StateHash, l: Ledger, x: StateHash, h: StateHash)
    requires Consistent(u) && Descends(u, g, x) && Descends(u, x, h) && Normal(l) && UndoneAlong(u, g, l, x, h)
    ensures FoldBlocks(Unapplied, u, LedgerAt(BestApplied, u, g, l, h), Reverse(Path(u, x, h))) ==
              LedgerAt(BestApplied, u, g, l, x)
    decreases Len(u, h)
  {
    if x != h {
      var p := u[h].parentHash;
      assert HasParent(u, h) && Path(u, x, h) == Path(u, x, p) + [h];
      assert h in Path(u, x, h) && UndoneHere(u, g, l, h);
      DescendsTransitive(u, g, x, h);
      NotBelowParent(u, g, x, h);
      UnapplyOne(u, g, l, h);
      ReverseSnoc(Path(u, x, p), h);
      FoldBlocksConcat(Unapplied, u, LedgerAt(BestApplied, u, g, l, h), [h], Reverse(Path(u, x, p)));
      UnapplyPath(u, g, l, x, p);
    }
  }

  lemma {:induction false} NotBelowParent(u: Universe, g: StateHash, x: StateHash, h: StateHash)
    requires Consistent(u) && Descends(u, g, x) && Descends(u, x, h) && x != h
    ensures h != g
  {
    DescendsLength(u, g, x);
    DescendsLength(u, x, h);
  }

  /** A reorg all of whose unapplied blocks are undone leads to the ledger of the new tip. */
  lemma {:induction false} ReorgLedger(u: Universe, g: StateHash, l: Ledger, x: StateHash, old_: StateHash,
                                       new_: StateHash)
    requires Consistent(u) && Descends(u, g, x) && Descends(u, x, old_) && Descends(u, x, new_) && Normal(l)
    requires UndoneAlong(u, g, l, x, old_)
    ensures Swapped(u, LedgerAt(BestApplied, u, g, l, old_), Reverse(Path(u, x, old_)), Path(u, x, new_)) ==
              LedgerAt(BestApplied, u, g, l, new_)
  {
    UnapplyPath(u, g, l, x, old_);
    LedgerAtExtends(BestApplied, u, g, l, x, new_);
  }

  // -------------------------------------------------------------------- the store

  /** The best tip after each of `tips` was offered: shorter ones are refused. */
  ghost function LastSet(u: Universe, tip: StateHash, tips: seq<StateHash>): StateHash {
    if tips == [] then tip else
      var before, next := LastSet(u, tip, tips[..|tips| - 1]), tips[|tips| - 1];
      if Len(u, before) <= Len(u, next) then next else before
  }

  class BestStore {
    const store: IndexerStore
    const best: BestLedgerStore

    /** The accounts that each block creates. */
    const created: Created
    var numAccounts: nat

    /** The genesis ledger and its number of accounts, and the ledger that the table holds. */
    ghost const start: Ledger
    ghost const startAccounts: nat
    ghost var held: Ledger

    /** The account table holds a ledger, and the sort indexes are those of the table. */
    ghost predicate TableExact()
      reads this, best
    {
      && Normal(held) && Holds(best.accounts, held)
      && AllExact(best.accounts, best.sort, best.zkappAccounts, best.zkappSort)
    }

    /** The number of accounts is that of the accounts created on the best chain. */
    ghost predicate Counted()
      reads this, store
      requires store.bestTip.Some?
    {
      numAccounts == startAccounts + CreatedSum(created, store.BestPath())
    }

    ghost predicate Valid()
      reads this, store, best
    {
      store.Valid() && Normal(start) && TableExact() && Counted()
    }

    /** The table holds the ledger of the best tip. */
    ghost predicate OnBestChain()
      reads this, store
      requires store.bestTip.Some?
    {
      held == LedgerAt(BestApplied, store.blocks, store.genesis, start, store.bestTip.value)
    }

    constructor (store: IndexerStore, best: BestLedgerStore, created: Created, numAccounts: nat, ghost start: Ledger)
      requires store.Valid() && store.bestTip == Some(store.genesis)
      requires Normal(start) && Holds(best.accounts, start)
      requires AllExact(best.accounts, best.sort, best.zkappAccounts, best.zkappSort)
      ensures Valid() && OnBestChain() && this.store == store && this.best == best && held == start
    {
      this.store, this.best, this.created, this.numAccounts := store, best, created, numAccounts;
      this.start, startAccounts, held := start, numAccounts, start;
      new;
      assert store.BestPath() == [];
    }

    /** Counts and moves the accounts. */
    method UpdateAccounts(upd: DbBlockUpdate)
      requires TableExact()
      modifies this`numAccounts, this`held, best
      ensures TableExact() && held == Swapped(store.blocks, old(held), HashesIn(upd.unapply), HashesIn(upd.apply))
      ensures var on, off := CreatedSum(created, HashesIn(upd.apply)), CreatedSum(created, HashesIn(upd.unapply));
              numAccounts == if off <= old(numAccounts) + on then old(numAccounts) + on - off else 0
    {
      var on := CountCreated(created, upd.apply);
      var off := CountCreated(created, upd.unapply);
      numAccounts := if on >= off then numAccounts + (on - off) else SaturatingSub(numAccounts, off - on);
      SwappedNormal(store.blocks, held, HashesIn(upd.unapply), HashesIn(upd.apply));
      best.UpdateBestAccounts(store.blocks, HashesIn(upd.unapply), HashesIn(upd.apply), created, held);
      held := Swapped(store.blocks, held, HashesIn(upd.unapply), HashesIn(upd.apply));
    }

    /** Moves the accounts from the chain of `old_` to that of `new_`, which part at `x`. */
    method FollowTip(upd: DbBlockUpdate, ghost x: StateHash, ghost old_: StateHash, ghost new_: StateHash)
      requires TableExact() && Normal(start) && Consistent(store.blocks) && Descends(store.blocks, store.genesis, x)
      requires Descends(store.blocks, x, old_) && Descends(store.blocks, x, new_)
      requires var u := store.blocks;
               && upd.unapply == Reverse(Entries(u, Path(u, x, old_), Len(u, old_), Len(u, new_)))
               && upd.apply == Entries(u, Path(u, x, new_), Len(u, old_), Len(u, new_))
      requires numAccounts == startAccounts + CreatedSum(created, Path(store.blocks, store.genesis, old_))
      modifies this`numAccounts, this`held, best
      ensures TableExact()
      ensures numAccounts == startAccounts + CreatedSum(created, Path(store.blocks, store.genesis, new_))
      ensures held ==
                Swapped(store.blocks, old(held), Reverse(Path(store.blocks, x, old_)), Path(store.blocks, x, new_))
      ensures old(held) == LedgerAt(BestApplied, store.blocks, store.genesis, start, old_) ==>
                UndoneAlong(store.blocks, store.genesis, start, x, old_) ==>
                held == LedgerAt(BestApplied, store.blocks, store.genesis, start, new_)
    {
      ghost var u, g := store.blocks, store.genesis;
      EntryHashes(u, Path(u, x, old_), Len(u, old_), Len(u, new_));
      EntryHashes(u, Path(u, x, new_), Len(u, old_), Len(u, new_));
      CountsMove(created, u, g, x, old_, new_);
      UpdateAccounts(upd);
      if UndoneAlong(u, g, start, x, old_) { ReorgLedger(u, g, start, x, old_, new_); }
    }

    /** Makes a stored block the best tip: the accounts of the old chain are taken back, those of
        the new one written.  All indexes stay exact; the table holds the ledger of the new tip
        if it held that of the old one and every block that was taken off is undone. */
    method SetBestBlock(new_: StateHash) returns (ok: bool, ghost x: StateHash)
      requires Valid() && Descends(store.blocks, store.genesis, new_)
      modifies this`numAccounts, this`held, best
      modifies store`bestTip, store`canonicityLength, store`canonicitySlot, store`production
      modifies store`usernames, store`snarkTotal, store`internalTotal
      ensures Valid() && (ok <==> old(Len(store.blocks, store.bestTip.value)) <= Len(store.blocks, new_))
      ensures store.bestTip.value == if ok then new_ else old(store.bestTip.value)
      ensures ok ==> IsFork(store.blocks, old(store.bestTip.value), new_, x)
      ensures var u, old_ := store.blocks, old(store.bestTip.value);
              held == if ok then Swapped(u, old(held), Reverse(Path(u, x, old_)), Path(u, x, new_)) else old(held)
      ensures ok && old(OnBestChain()) ==>
                UndoneAlong(store.blocks, store.genesis, start, x, old(store.bestTip.value)) ==> OnBestChain()
      ensures old(store.SlotsExact()) ==> store.SlotsExact()
      ensures old(store.HeightsSound()) ==> store.HeightsSound()
    {
      ghost var old_ := store.bestTip.value;
      var upd;
      upd, x := ReorgBlocks(store.blocks, store.genesis, store.bestTip.value, new_);
      ghost var fork;
      ok, fork := store.SetBestBlock(new_);
      if ok { FollowTip(upd.value, x, old_, new_); }
    }

    /** Over any run of best tips, whatever its reorgs, every index stays exact. */
    method SetBestBlocks(tips: seq<StateHash>)
      requires Valid() && store.SlotsExact() && store.HeightsSound()
      requires forall i :: 0 <= i < |tips| ==> Descends(store.blocks, store.genesis, tips[i])
      modifies this`numAccounts, this`held, best
      modifies store`bestTip, store`canonicityLength, store`canonicitySlot, store`production
      modifies store`usernames, store`snarkTotal, store`internalTotal
      ensures Valid() && store.SlotsExact() && store.HeightsSound()
      ensures store.bestTip.value == LastSet(store.blocks, old(store.bestTip.value), tips)
    {
      ghost var first := store.bestTip.value;
      for i := 0 to |tips|
        invariant Valid() && store.SlotsExact() && store.HeightsSound()
        invariant store.bestTip.value == LastSet(store.blocks, first, tips[..i])
      {
        assert tips[..i + 1][..i] == tips[..i];
        var _, _ := SetBestBlock(tips[i]);
      }
      assert tips[..|tips|] == tips;
    }
  }

  lemma {:induction false} CountsMove(created: Created, u: Universe, g: StateHash, x: StateHash, old_: StateHash,
                                      new_: StateHash)
    requires Consistent(u) && Descends(u, g, x) && Descends(u, x, old_) && Descends(u, x, new_)
    ensures CreatedSum(created, Path(u, g, old_)) ==
              CreatedSum(created, Path(u, g, x)) + CreatedSum(created, Reverse(Path(u, x, old_)))
    ensures CreatedSum(created, Path(u, g, new_)) ==
              CreatedSum(created, Path(u, g, x)) + CreatedSum(created, Path(u, x, new_))
  {
    DescendsTransitive(u, g, x, old_);
    DescendsTransitive(u, g, x, new_);
    CreatedSumConcat(created, Path(u, g, x), Path(u, x, old_));
    CreatedSumConcat(created, Path(u, g, x), Path(u, x, new_));
    CreatedSumReverse(created, Path(u, x, old_));
  }
}
