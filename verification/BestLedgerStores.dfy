/** Updating the best ledger: one account, a block's diffs grouped by account, and the load
    of a genesis ledger. */
module BestLedgerStores {
  import opened Accounts
  import opened Blocks
  import opened Ledgers
  import opened BestLedgers

  type AccountTable = map<AccountKey, Account>
  type Sort = map<BalanceKey, Account>

  /** What the caller says the account was: whether a zkapp account, and its balance. */
  type Before = Option<(bool, nat)>

  function Summary(a: Option<Account>): Before {
    if a.Some? then Some((a.value.zkapp.Some?, a.value.balance)) else None
  }

  ghost function OldBalance(before: Before): Option<nat> {
    if before.Some? then Some(before.value.1) else None
  }

  ghost function OldZkappBalance(before: Before): Option<nat> {
    if before.Some? && before.value.0 then Some(before.value.1) else None
  }

  /** A removal without a previous account is no removal. */
  ghost function AccountsAfter(accounts: AccountTable, t: TokenAddress, p: PublicKey, before: Before,
                               after: Option<Account>): AccountTable {
    if after.Some? then accounts[(t, p) := after.value]
    else if before.Some? then accounts - {(t, p)}
    else accounts
  }

  ghost predicate BothExact(accounts: AccountTable, sort: Sort, zkappSort: Sort) {
    SortExact(accounts, sort) && ZkappSortExact(accounts, zkappSort)
  }

  ghost predicate IsNoop(before: Before, after: Option<Account>) {
    before.None? && after.None?
  }

  lemma {:induction false} AccountsAfterStored(accounts: AccountTable, t: TokenAddress, p: PublicKey, before: Before,
                                               after: Option<Account>, t': TokenAddress, p': PublicKey)
    ensures Stored(AccountsAfter(accounts, t, p, before, after), t', p') ==
            if (t', p') == (t, p) && !IsNoop(before, after) then after else Stored(accounts, t', p')
  {}

  /** An update leaves the sort indexes exact precisely if the old entries of the account go
      away: by the balance that the caller names, or by being overwritten. */
  lemma {:induction false} UpdateKeepsSortIff(accounts: AccountTable, sort: Sort, t: TokenAddress, p: PublicKey,
                                              before: Before, after: Option<Account>)
    requires SortExact(accounts, sort)
    ensures SortExact(AccountsAfter(accounts, t, p, before, after),
                      Resorted(sort, t, p, OldBalance(before), after)) <==>
            IsNoop(before, after) || Replaced(Stored(accounts, t, p), OldBalance(before), after)
  {
    var accounts' := AccountsAfter(accounts, t, p, before, after);
    var sort' := Resorted(sort, t, p, OldBalance(before), after);
    assert SortOk(accounts, sort, t, p);
    AccountsAfterStored(accounts, t, p, before, after, t, p);
    if !IsNoop(before, after) {
      ResortedIff(sort, t, p, Stored(accounts, t, p), OldBalance(before), after);
      assert SortOk(accounts', sort', t, p) <==> Replaced(Stored(accounts, t, p), OldBalance(before), after);
    }
    forall t': TokenAddress, p': PublicKey | (t', p') != (t, p) ensures SortOk(accounts', sort', t', p') {
      assert SortOk(accounts, sort, t', p');
      AccountsAfterStored(accounts, t, p, before, after, t', p');
      ResortedOthers(sort, t, p, OldBalance(before), after, t', p', Stored(accounts, t', p'));
    }
  }

  lemma {:induction false} UpdateKeepsZkappSortIff(accounts: AccountTable, sort: Sort, t: TokenAddress, p: PublicKey,
                                                   before: Before, after: Option<Account>)
    requires ZkappSortExact(accounts, sort)
    ensures ZkappSortExact(AccountsAfter(accounts, t, p, before, after),
                           Resorted(sort, t, p, OldZkappBalance(before), ZkappOnly(after))) <==>
            IsNoop(before, after) ||
              Replaced(ZkappOnly(Stored(accounts, t, p)), OldZkappBalance(before), ZkappOnly(after))
  {
    var accounts' := AccountsAfter(accounts, t, p, before, after);
    var sort' := Resorted(sort, t, p, OldZkappBalance(before), ZkappOnly(after));
    assert ZkappSortOk(accounts, sort, t, p);
    AccountsAfterStored(accounts, t, p, before, after, t, p);
    if !IsNoop(before, after) {
      ResortedIff(sort, t, p, ZkappOnly(Stored(accounts, t, p)), OldZkappBalance(before), ZkappOnly(after));
      assert ZkappSortOk(accounts', sort', t, p) <==>
               Replaced(ZkappOnly(Stored(accounts, t, p)), OldZkappBalance(before), ZkappOnly(after));
    }
    forall t': TokenAddress, p': PublicKey | (t', p') != (t, p) ensures ZkappSortOk(accounts', sort', t', p') {
      assert ZkappSortOk(accounts, sort, t', p');
      AccountsAfterStored(accounts, t, p, before, after, t', p');
      ResortedOthers(sort, t, p, OldZkappBalance(before), ZkappOnly(after), t', p',
                     ZkappOnly(Stored(accounts, t', p')));
    }
  }

  /** The accounts are those of the ledger. */
  ghost predicate Holds(accounts: AccountTable, l: Ledger) {
    forall t: TokenAddress, p: PublicKey {:trigger HoldsAt(accounts, l, t, p)} :: HoldsAt(accounts, l, t, p)
  }

  ghost predicate HoldsAt(accounts: AccountTable, l: Ledger, t: TokenAddress, p: PublicKey) {
    Stored(accounts, t, p) == Get(l, t, p)
  }

  /** Groups in `todo` are still to be applied to the accounts of `l`. */
  ghost predicate Applying(step: Step, accounts: AccountTable, l: Ledger, ds: seq<AccountDiff>, todo: set<AccountKey>) {
    forall t: TokenAddress, p: PublicKey {:trigger AppliedAt(step, accounts, l, ds, todo, t, p)} ::
        AppliedAt(step, accounts, l, ds, todo, t, p)
  }

  ghost predicate AppliedAt(step: Step, accounts: AccountTable, l: Ledger, ds: seq<AccountDiff>, todo: set<AccountKey>,
                            t: TokenAddress, p: PublicKey) {
    Stored(accounts, t, p) == if (t, p) in todo then Get(l, t, p) else Grouped(step, Get(l, t, p), ds, t, p)
  }

  lemma {:induction false} ApplyingStart(step: Step, accounts: AccountTable, l: Ledger, ds: seq<AccountDiff>, m: Groups)
    requires Holds(accounts, l) && GroupsOf(m, ds)
    ensures Applying(step, accounts, l, ds, m.Keys)
  {
    forall t: TokenAddress, p: PublicKey ensures AppliedAt(step, accounts, l, ds, m.Keys, t, p) {
      assert HoldsAt(accounts, l, t, p) && GroupOk(m, ds, t, p);
    }
  }

  lemma {:induction false} ApplyingNext(step: Step, accounts: AccountTable, l: Ledger, ds: seq<AccountDiff>,
                                        todo: set<AccountKey>, t: TokenAddress, p: PublicKey)
    requires Applying(step, accounts, l, ds, todo) && (t, p) in todo && Filter(ds, t, p) != []
    ensures Stored(accounts, t, p) == Get(l, t, p)
    ensures Applying(step, accounts[(t, p) := FoldAccount(step, OrEmpty(Get(l, t, p), t, p), Filter(ds, t, p))], l, ds,
                     todo - {(t, p)})
  {
    assert AppliedAt(step, accounts, l, ds, todo, t, p);
    var accounts' := accounts[(t, p) := FoldAccount(step, OrEmpty(Get(l, t, p), t, p), Filter(ds, t, p))];
    var todo' := todo - {(t, p)};
    forall t': TokenAddress, p': PublicKey ensures AppliedAt(step, accounts', l, ds, todo', t', p') {
      assert AppliedAt(step, accounts, l, ds, todo, t', p');
    }
  }

  /** Groups visited in any order leave the accounts of the sequential fold. */
  lemma {:induction false} ApplyingDone(step: Step, accounts: AccountTable, l: Ledger, ds: seq<AccountDiff>)
    requires KeepsKey(step) && Normal(l) && Applying(step, accounts, l, ds, {})
    ensures Normal(ApplyDiffs(step, l, ds)) && Holds(accounts, ApplyDiffs(step, l, ds))
  {
    ApplyDiffsNormal(step, l, ds);
    var l' := ApplyDiffs(step, l, ds);
    forall t: TokenAddress, p: PublicKey ensures HoldsAt(accounts, l', t, p) {
      assert AppliedAt(step, accounts, l, ds, {}, t, p);
      GroupedIsSequential(step, l, ds, t, p);
    }
  }

  lemma {:induction false} HoldsAppliedIff(accounts: AccountTable, l: Ledger, ds: seq<AccountDiff>)
    requires Normal(l) && Holds(accounts, ApplyDiffs(BestApplied, l, ds))
    ensures Holds(accounts, ApplyDiffs(Applied, l, ds)) <==> AllIdle(l, ds)
  {
    var inLedger, stored := ApplyDiffs(Applied, l, ds), ApplyDiffs(BestApplied, l, ds);
    LedgersAgreeIff(l, ds);
    StepsKeepKey();
    ApplyDiffsNormal(Applied, l, ds);
    ApplyDiffsNormal(BestApplied, l, ds);
    if Holds(accounts, inLedger) {
      forall t: TokenAddress, p: PublicKey ensures Get(inLedger, t, p) == Get(stored, t, p) {
        assert HoldsAt(accounts, inLedger, t, p) && HoldsAt(accounts, stored, t, p);
      }
      NormalLedgersEqual(inLedger, stored);
    }
  }

  method StepThrough(step: Step, a: Account, ds: seq<AccountDiff>) returns (r: Account)
    ensures r == FoldAccount(step, a, ds)
  {
    r := a;
    for i := 0 to |ds|
      invariant r == FoldAccount(step, a, ds[..i])
    {
      assert ds[..i + 1] == ds[..i] + [ds[i]];
      FoldAccountSnoc(step, a, ds[..i], ds[i]);
      r := step(r, ds[i]);
    }
    assert ds[..|ds|] == ds;
  }

  /** A matching `before` always replaces. */
  lemma {:induction false} MatchingReplaces(accounts: AccountTable, t: TokenAddress, p: PublicKey, after: Account)
    ensures Replaced(Stored(accounts, t, p), OldBalance(Summary(Stored(accounts, t, p))), Some(after))
    ensures Replaced(ZkappOnly(Stored(accounts, t, p)), OldZkappBalance(Summary(Stored(accounts, t, p))),
                     ZkappOnly(Some(after)))
  {}

  // ------------------------------------------------------------- zkapp accounts

  ghost predicate ZkappStoredAt(accounts: AccountTable, zkapps: AccountTable, t: TokenAddress, p: PublicKey) {
    Stored(zkapps, t, p) == ZkappOnly(Stored(accounts, t, p))
  }

  /** The table of zkapp accounts has exactly the accounts that are zkapp accounts. */
  ghost predicate ZkappsExact(accounts: AccountTable, zkapps: AccountTable) {
    forall t: TokenAddress, p: PublicKey {:trigger ZkappStoredAt(accounts, zkapps, t, p)} ::
        ZkappStoredAt(accounts, zkapps, t, p)
  }

  ghost predicate AllExact(accounts: AccountTable, sort: Sort, zkapps: AccountTable, zkappSort: Sort) {
    BothExact(accounts, sort, zkappSort) && ZkappsExact(accounts, zkapps)
  }

  /** No step makes a zkapp account an ordinary one. */
  ghost predicate KeepsZkapp(step: Step) {
    forall a: Account, d: AccountDiff :: a.zkapp.Some? ==> step(a, d).zkapp.Some?
  }

  lemma {:induction false} StepsKeepZkapp()
    ensures KeepsZkapp(BestApplied) && KeepsZkapp(Unapplied)
  {}

  lemma {:induction false} FoldKeepsZkapp(step: Step, a: Account, ds: seq<AccountDiff>)
    requires KeepsZkapp(step) && a.zkapp.Some?
    ensures FoldAccount(step, a, ds).zkapp.Some?
  {
    if ds != [] { FoldKeepsZkapp(step, a, ds[..|ds| - 1]); }
  }

  lemma {:induction false} ReplaceKeepsZkapps(accounts: AccountTable, zkapps: AccountTable, t: TokenAddress,
                                              p: PublicKey, after: Account)
    requires ZkappsExact(accounts, zkapps)
    requires ZkappOnly(Stored(accounts, t, p)).Some? ==> after.zkapp.Some?
    ensures ZkappsExact(accounts[(t, p) := after], if after.zkapp.Some? then zkapps[(t, p) := after] else zkapps)
  {
    var accounts', zkapps' := accounts[(t, p) := after], if after.zkapp.Some? then zkapps[(t, p) := after] else zkapps;
    forall t': TokenAddress, p': PublicKey ensures ZkappStoredAt(accounts', zkapps', t', p') {
      assert ZkappStoredAt(accounts, zkapps, t', p');
    }
  }

  class BestLedgerStore {
    var accounts: AccountTable
    var sort: Sort
    var zkappAccounts: AccountTable
    var zkappSort: Sort

    /** An empty store. */
    constructor ()
      ensures accounts == map[] && AllExact(accounts, sort, zkappAccounts, zkappSort)
    {
      accounts, sort, zkappAccounts, zkappSort := map[], map[], map[], map[];
      new;
      EmptyExact();
    }

    /** Puts, replaces or removes one account. */
    method UpdateBestAccount(p: PublicKey, t: TokenAddress, before: Before, after: Option<Account>)
      modifies this
      ensures accounts == AccountsAfter(old(accounts), t, p, before, after)
      ensures sort == Resorted(old(sort), t, p, OldBalance(before), after)
      ensures zkappSort == Resorted(old(zkappSort), t, p, OldZkappBalance(before), ZkappOnly(after))
      ensures zkappAccounts == if after.Some? && after.value.zkapp.Some? then old(zkappAccounts)[(t, p) := after.value]
                               else if after.None? && OldZkappBalance(before).Some? then old(zkappAccounts) - {(t, p)}
                               else old(zkappAccounts)
    {
      if after.None? {
        if before.Some? {
          accounts := accounts - {(t, p)};
          sort := sort - {(t, before.value.1, p)};
          if before.value.0 {
            zkappAccounts := zkappAccounts - {(t, p)};
            zkappSort := zkappSort - {(t, before.value.1, p)};
          }
        }
        return;
      }
      if before.Some? {
        sort := sort - {(t, before.value.1, p)};
        if before.value.0 { zkappSort := zkappSort - {(t, before.value.1, p)}; }
      }
      accounts := accounts[(t, p) := after.value];
      sort := sort[(t, after.value.balance, p) := after.value];
      if after.value.zkapp.Some? {
        zkappAccounts := zkappAccounts[(t, p) := after.value];
        zkappSort := zkappSort[(t, after.value.balance, p) := after.value];
      }
    }

    /** Updates one account to a new value, telling the truth about the old one. */
    method ReplaceAccount(p: PublicKey, t: TokenAddress, after: Account)
      requires AllExact(accounts, sort, zkappAccounts, zkappSort)
      requires ZkappOnly(Stored(accounts, t, p)).Some? ==> after.zkapp.Some?
      modifies this
      ensures accounts == old(accounts)[(t, p) := after] && AllExact(accounts, sort, zkappAccounts, zkappSort)
    {
      var before := Summary(Stored(accounts, t, p));
      MatchingReplaces(accounts, t, p, after);
      UpdateKeepsSortIff(accounts, sort, t, p, before, Some(after));
      UpdateKeepsZkappSortIff(accounts, zkappSort, t, p, before, Some(after));
      ReplaceKeepsZkapps(accounts, zkappAccounts, t, p, after);
      UpdateBestAccount(p, t, before, Some(after));
    }

    /** Steps the accounts through the diffs of one block, grouped by account, the groups in any
        order. */
    method StepGroups(step: Step, ds: seq<AccountDiff>, ghost l: Ledger)
      requires KeepsKey(step) && KeepsZkapp(step) && Normal(l) && Holds(accounts, l)
      requires AllExact(accounts, sort, zkappAccounts, zkappSort)
      modifies this
      ensures Normal(ApplyDiffs(step, l, ds)) && Holds(accounts, ApplyDiffs(step, l, ds))
      ensures AllExact(accounts, sort, zkappAccounts, zkappSort)
    {
      var groups := AggregateTokenAccountDiffs(ds);
      var todo := groups.Keys;
      ApplyingStart(step, accounts, l, ds, groups);
      while todo != {}
        invariant todo <= groups.Keys && Applying(step, accounts, l, ds, todo)
        invariant AllExact(accounts, sort, zkappAccounts, zkappSort)
        decreases |todo|
      {
        var key :| key in todo;
        var (t, p) := key;
        assert GroupOk(groups, ds, t, p);
        ApplyingNext(step, accounts, l, ds, todo, t, p);
        var after := StepThrough(step, OrEmpty(Stored(accounts, t, p), t, p), groups[key]);
        if ZkappOnly(Stored(accounts, t, p)).Some? { FoldKeepsZkapp(step, accounts[key], groups[key]); }
        ReplaceAccount(p, t, after);
        todo := todo - {key};
      }
      ApplyingDone(step, accounts, l, ds);
    }

    /** Applies the diffs of one block.  The accounts are those of the ledger's own fold precisely
        if the actions diffs of the block are idle. */
    method ApplyBlock(ds: seq<AccountDiff>, ghost l: Ledger)
      requires Normal(l) && Holds(accounts, l) && AllExact(accounts, sort, zkappAccounts, zkappSort)
      modifies this
      ensures Normal(ApplyDiffs(BestApplied, l, ds)) && Holds(accounts, ApplyDiffs(BestApplied, l, ds))
      ensures Holds(accounts, ApplyDiffs(Applied, l, ds)) <==> AllIdle(l, ds)
      ensures AllExact(accounts, sort, zkappAccounts, zkappSort)
    {
      StepsKeepKey();
      StepsKeepZkapp();
      StepGroups(BestApplied, ds, l);
      HoldsAppliedIff(accounts, l, ds);
    }

    /** Unapplies the diffs of one block.  The accounts that the block created are meant to be
        removed, but a removal without a previous account is none: they all stay. */
    method UnapplyBlock(ds: seq<AccountDiff>, created: seq<AccountKey>, ghost l: Ledger)
      requires Normal(l) && Holds(accounts, l) && AllExact(accounts, sort, zkappAccounts, zkappSort)
      modifies this
      ensures Normal(ApplyDiffs(Unapplied, l, ds)) && Holds(accounts, ApplyDiffs(Unapplied, l, ds))
      ensures AllExact(accounts, sort, zkappAccounts, zkappSort)
    {
      StepsKeepKey();
      StepsKeepZkapp();
      StepGroups(Unapplied, ds, l);
      for i := 0 to |created|
        invariant Holds(accounts, ApplyDiffs(Unapplied, l, ds)) && AllExact(accounts, sort, zkappAccounts, zkappSort)
      {
        UpdateBestAccount(created[i].1, created[i].0, None, None);
      }
    }

    /** A best-tip update: the blocks of the old chain unapplied, then those of the new chain
        applied. */
    method UpdateBestAccounts(u: Universe, unapply: seq<StateHash>, apply: seq<StateHash>,
                              created: StateHash -> seq<AccountKey>, ghost l: Ledger)
      requires Normal(l) && Holds(accounts, l) && AllExact(accounts, sort, zkappAccounts, zkappSort)
      modifies this
      ensures Holds(accounts, FoldBlocks(BestApplied, u, FoldBlocks(Unapplied, u, l, unapply), apply))
      ensures unapply == [] ==>
                (Holds(accounts, FoldBlocks(Applied, u, l, apply)) <==> AllIdle(l, BlockDiffs(u, apply)))
      ensures AllExact(accounts, sort, zkappAccounts, zkappSort)
    {
      for i := 0 to |unapply|
        invariant Normal(FoldBlocks(Unapplied, u, l, unapply[..i]))
        invariant Holds(accounts, FoldBlocks(Unapplied, u, l, unapply[..i]))
        invariant AllExact(accounts, sort, zkappAccounts, zkappSort)
      {
        assert unapply[..i + 1][..i] == unapply[..i] && unapply[..i + 1][i] == unapply[i];
        if unapply[i] in u {
          UnapplyBlock(Flatten(u[unapply[i]].diff), created(unapply[i]), FoldBlocks(Unapplied, u, l, unapply[..i]));
        }
      }
      assert unapply[..|unapply|] == unapply;
      ApplyBlocks(u, apply, FoldBlocks(Unapplied, u, l, unapply));
    }

    method ApplyBlocks(u: Universe, hs: seq<StateHash>, ghost l: Ledger)
      requires Normal(l) && Holds(accounts, l) && AllExact(accounts, sort, zkappAccounts, zkappSort)
      modifies this
      ensures Holds(accounts, FoldBlocks(BestApplied, u, l, hs)) && AllExact(accounts, sort, zkappAccounts, zkappSort)
      ensures Holds(accounts, FoldBlocks(Applied, u, l, hs)) <==> AllIdle(l, BlockDiffs(u, hs))
    {
      for i := 0 to |hs|
        invariant Normal(FoldBlocks(BestApplied, u, l, hs[..i]))
        invariant Holds(accounts, FoldBlocks(BestApplied, u, l, hs[..i]))
        invariant AllExact(accounts, sort, zkappAccounts, zkappSort)
      {
        assert hs[..i + 1][..i] == hs[..i] && hs[..i + 1][i] == hs[i];
        if hs[i] in u {
          ApplyBlock(Flatten(u[hs[i]].diff), FoldBlocks(BestApplied, u, l, hs[..i]));
        }
      }
      assert hs[..|hs|] == hs;
      FoldBlocksIsApply(Applied, u, l, hs);
      FoldBlocksIsApply(BestApplied, u, l, hs);
      HoldsAppliedIff(accounts, l, BlockDiffs(u, hs));
    }

    /** Loads a genesis ledger, claiming of every account that it was not there before.  The
        sort indexes stay exact precisely if none was there under another balance, nor as a
        zkapp account that is none now. */
    method LoadGenesis(l: Ledger)
      requires AllExact(accounts, sort, zkappAccounts, zkappSort)
      modifies this
      ensures Merged(accounts, old(accounts), l) && MergedZkapps(zkappAccounts, old(zkappAccounts), l)
      ensures BothExact(accounts, sort, zkappSort) <==> LoadsCleanly(old(accounts), l)
      ensures AllExact(accounts, sort, zkappAccounts, zkappSort) <==> LoadsCleanly(old(accounts), l)
    {
      ghost var accounts0, zkapps0, done: set<AccountKey> := accounts, zkappAccounts, {};
      LoadStart(accounts, sort, zkappSort, l);
      var tokens := l.Keys;
      while tokens != {}
        invariant tokens <= l.Keys && Loading(accounts, sort, zkappSort, accounts0, l, done)
        invariant LoadingZkapps(zkappAccounts, zkapps0, l, done)
        invariant forall t: TokenAddress, p: PublicKey :: (t, p) in done <==> t in l && t !in tokens && p in l[t]
        decreases |tokens|
      {
        var t :| t in tokens;
        tokens := tokens - {t};
        var pks := l[t].Keys;
        ghost var before := done;
        while pks != {}
          invariant pks <= l[t].Keys && Loading(accounts, sort, zkappSort, accounts0, l, done)
          invariant LoadingZkapps(zkappAccounts, zkapps0, l, done)
          invariant forall t': TokenAddress, p: PublicKey ::
                      (t', p) in done <==> (t', p) in before || (t' == t && p in l[t] && p !in pks)
          decreases |pks|
        {
          var p :| p in pks;
          LoadNext(accounts, sort, zkappSort, accounts0, l, done, t, p);
          LoadZkappNext(zkappAccounts, zkapps0, l, done, t, p);
          UpdateBestAccount(p, t, None, Some(l[t][p]));
          pks, done := pks - {p}, done + {(t, p)};
        }
      }
      LoadDone(accounts, sort, zkappSort, accounts0, l, done);
      LoadZkappsDone(accounts, zkappAccounts, accounts0, zkapps0, l, done);
    }
  }

  // ------------------------------------------------------------- genesis ledger

  ghost predicate MergedAt(accounts: AccountTable, accounts0: AccountTable, l: Ledger, t: TokenAddress, p: PublicKey) {
    Stored(accounts, t, p) == if Get(l, t, p).Some? then Get(l, t, p) else Stored(accounts0, t, p)
  }

  /** The accounts of `l`, and those that were there otherwise. */
  ghost predicate Merged(accounts: AccountTable, accounts0: AccountTable, l: Ledger) {
    forall t: TokenAddress, p: PublicKey {:trigger MergedAt(accounts, accounts0, l, t, p)} ::
        MergedAt(accounts, accounts0, l, t, p)
  }

  /** The zkapp accounts of `l`, and those that were there otherwise. */
  ghost predicate MergedZkappAt(zkapps: AccountTable, zkapps0: AccountTable, l: Ledger, t: TokenAddress, p: PublicKey) {
    Stored(zkapps, t, p) == if ZkappOnly(Get(l, t, p)).Some? then Get(l, t, p) else Stored(zkapps0, t, p)
  }

  ghost predicate MergedZkapps(zkapps: AccountTable, zkapps0: AccountTable, l: Ledger) {
    forall t: TokenAddress, p: PublicKey {:trigger MergedZkappAt(zkapps, zkapps0, l, t, p)} ::
        MergedZkappAt(zkapps, zkapps0, l, t, p)
  }

  ghost predicate CleanAt(accounts: AccountTable, l: Ledger, t: TokenAddress, p: PublicKey) {
    Get(l, t, p).Some? ==>
      && Replaced(Stored(accounts, t, p), None, Get(l, t, p))
      && Replaced(ZkappOnly(Stored(accounts, t, p)), None, ZkappOnly(Get(l, t, p)))
  }

  ghost predicate LoadsCleanly(accounts: AccountTable, l: Ledger) {
    forall t: TokenAddress, p: PublicKey {:trigger CleanAt(accounts, l, t, p)} :: CleanAt(accounts, l, t, p)
  }

  /** Into an empty store every genesis ledger loads cleanly. */
  lemma {:induction false} EmptyLoadsCleanly(l: Ledger)
    ensures LoadsCleanly(map[], l)
  {
    forall t: TokenAddress, p: PublicKey ensures CleanAt(map[], l, t, p) {}
  }

  /** The accounts in `done` are loaded. */
  ghost predicate LoadedAt(accounts: AccountTable, sort: Sort, zkappSort: Sort, accounts0: AccountTable, l: Ledger,
                           done: set<AccountKey>, t: TokenAddress, p: PublicKey) {
    && Stored(accounts, t, p) == (if (t, p) in done then Get(l, t, p) else Stored(accounts0, t, p))
    && (SortOk(accounts, sort, t, p) <==> ((t, p) in done ==> Replaced(Stored(accounts0, t, p), None, Get(l, t, p))))
    && (ZkappSortOk(accounts, zkappSort, t, p) <==>
          ((t, p) in done ==> Replaced(ZkappOnly(Stored(accounts0, t, p)), None, ZkappOnly(Get(l, t, p)))))
  }

  ghost predicate Loading(accounts: AccountTable, sort: Sort, zkappSort: Sort, accounts0: AccountTable, l: Ledger,
                          done: set<AccountKey>) {
    forall t: TokenAddress, p: PublicKey {:trigger LoadedAt(accounts, sort, zkappSort, accounts0, l, done, t, p)} ::
      LoadedAt(accounts, sort, zkappSort, accounts0, l, done, t, p)
  }

  ghost predicate LoadedZkappAt(zkapps: AccountTable, zkapps0: AccountTable, l: Ledger, done: set<AccountKey>,
                                t: TokenAddress, p: PublicKey) {
    Stored(zkapps, t, p) ==
      if (t, p) in done && ZkappOnly(Get(l, t, p)).Some? then Get(l, t, p) else Stored(zkapps0, t, p)
  }

  ghost predicate LoadingZkapps(zkapps: AccountTable, zkapps0: AccountTable, l: Ledger, done: set<AccountKey>) {
    forall t: TokenAddress, p: PublicKey {:trigger LoadedZkappAt(zkapps, zkapps0, l, done, t, p)} ::
        LoadedZkappAt(zkapps, zkapps0, l, done, t, p)
  }

  lemma {:induction false} LoadZkappNext(zkapps: AccountTable, zkapps0: AccountTable, l: Ledger, done: set<AccountKey>,
                                         t: TokenAddress, p: PublicKey)
    requires LoadingZkapps(zkapps, zkapps0, l, done) && Get(l, t, p).Some?
    ensures var a := Get(l, t, p).value;
            LoadingZkapps(if a.zkapp.Some? then zkapps[(t, p) := a] else zkapps, zkapps0, l, done + {(t, p)})
  {
    var a := Get(l, t, p).value;
    var zkapps' := if a.zkapp.Some? then zkapps[(t, p) := a] else zkapps;
    forall t': TokenAddress, p': PublicKey ensures LoadedZkappAt(zkapps', zkapps0, l, done + {(t, p)}, t', p') {
      assert LoadedZkappAt(zkapps, zkapps0, l, done, t', p');
    }
  }

  lemma {:induction false} LoadZkappsDone(accounts: AccountTable, zkapps: AccountTable, accounts0: AccountTable,
                                          zkapps0: AccountTable, l: Ledger, done: set<AccountKey>)
    requires Merged(accounts, accounts0, l) && LoadingZkapps(zkapps, zkapps0, l, done)
    requires ZkappsExact(accounts0, zkapps0)
    requires forall t: TokenAddress, p: PublicKey :: (t, p) in done <==> t in l && p in l[t]
    ensures MergedZkapps(zkapps, zkapps0, l)
    ensures LoadsCleanly(accounts0, l) ==> ZkappsExact(accounts, zkapps)
  {
    forall t: TokenAddress, p: PublicKey
      ensures MergedZkappAt(zkapps, zkapps0, l, t, p)
      ensures LoadsCleanly(accounts0, l) ==> ZkappStoredAt(accounts, zkapps, t, p)
    {
      assert LoadedZkappAt(zkapps, zkapps0, l, done, t, p) && ZkappStoredAt(accounts0, zkapps0, t, p);
      assert MergedAt(accounts, accounts0, l, t, p);
      assert LoadsCleanly(accounts0, l) ==> CleanAt(accounts0, l, t, p);
    }
  }

  lemma {:induction false} LoadStart(accounts: AccountTable, sort: Sort, zkappSort: Sort, l: Ledger)
    requires BothExact(accounts, sort, zkappSort)
    ensures Loading(accounts, sort, zkappSort, accounts, l, {})
  {
    forall t: TokenAddress, p: PublicKey ensures LoadedAt(accounts, sort, zkappSort, accounts, l, {}, t, p) {
      assert SortOk(accounts, sort, t, p) && ZkappSortOk(accounts, zkappSort, t, p);
    }
  }

  lemma {:induction false} LoadNext(accounts: AccountTable, sort: Sort, zkappSort: Sort, accounts0: AccountTable,
                                    l: Ledger, done: set<AccountKey>, t: TokenAddress, p: PublicKey)
    requires Loading(accounts, sort, zkappSort, accounts0, l, done) && (t, p) !in done && Get(l, t, p).Some?
    ensures var a := Get(l, t, p);
            Loading(AccountsAfter(accounts, t, p, None, a), Resorted(sort, t, p, None, a),
                    Resorted(zkappSort, t, p, None, ZkappOnly(a)),
                    accounts0, l, done + {(t, p)})
  {
    var a := Get(l, t, p);
    var accounts', done' := AccountsAfter(accounts, t, p, None, a), done + {(t, p)};
    var sort', zkappSort' := Resorted(sort, t, p, None, a), Resorted(zkappSort, t, p, None, ZkappOnly(a));
    forall t': TokenAddress, p': PublicKey ensures LoadedAt(accounts', sort', zkappSort', accounts0, l, done', t', p') {
      assert LoadedAt(accounts, sort, zkappSort, accounts0, l, done, t', p');
      var was := Stored(accounts, t', p');
      if (t', p') == (t, p) {
        ResortedIff(sort, t, p, was, None, a);
        ResortedIff(zkappSort, t, p, ZkappOnly(was), None, ZkappOnly(a));
      } else {
        ResortedOthers(sort, t, p, None, a, t', p', was);
        ResortedOthers(zkappSort, t, p, None, ZkappOnly(a), t', p', ZkappOnly(was));
      }
    }
  }

  lemma {:induction false} LoadDone(accounts: AccountTable, sort: Sort, zkappSort: Sort, accounts0: AccountTable,
                                    l: Ledger, done: set<AccountKey>)
    requires Loading(accounts, sort, zkappSort, accounts0, l, done)
    requires forall t: TokenAddress, p: PublicKey :: (t, p) in done <==> t in l && p in l[t]
    ensures Merged(accounts, accounts0, l)
    ensures BothExact(accounts, sort, zkappSort) <==> LoadsCleanly(accounts0, l)
  {
    forall t: TokenAddress, p: PublicKey
      ensures MergedAt(accounts, accounts0, l, t, p)
      ensures CleanAt(accounts0, l, t, p) <==> SortOk(accounts, sort, t, p) && ZkappSortOk(accounts, zkappSort, t, p)
    {
      assert LoadedAt(accounts, sort, zkappSort, accounts0, l, done, t, p);
    }
    if LoadsCleanly(accounts0, l) {
      forall t: TokenAddress, p: PublicKey ensures SortOk(accounts, sort, t, p) { assert CleanAt(accounts0, l, t, p); }
      forall t: TokenAddress, p: PublicKey ensures ZkappSortOk(accounts, zkappSort, t, p) {
        assert CleanAt(accounts0, l, t, p);
      }
    }
    if BothExact(accounts, sort, zkappSort) {
      forall t: TokenAddress, p: PublicKey ensures CleanAt(accounts0, l, t, p) {
        assert SortOk(accounts, sort, t, p) && ZkappSortOk(accounts, zkappSort, t, p);
      }
    }
  }

  lemma {:induction false} EmptyExact()
    ensures AllExact(map[], map[], map[], map[])
  {
    forall t: TokenAddress, p: PublicKey ensures ZkappStoredAt(map[], map[], t, p) {}
    forall t: TokenAddress, p: PublicKey ensures SortOk(map[], map[], t, p) {}
    forall t: TokenAddress, p: PublicKey ensures ZkappSortOk(map[], map[], t, p) {}
  }
}
