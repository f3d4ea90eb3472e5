/** The best ledger as the store keeps it: accounts under their key, and two indexes that
    sort all accounts, and the zkapp accounts, by balance. */
module BestLedgers {
  import opened Accounts
  import opened Ledgers
  import opened ActionDiffs
  import opened Unapplying
  import opened Restoring

  type AccountKey = (TokenAddress, PublicKey)
  type BalanceKey = (TokenAddress, nat, PublicKey)

  function Stored(accounts: map<AccountKey, Account>, t: TokenAddress, p: PublicKey): Option<Account> {
    if (t, p) in accounts then Some(accounts[(t, p)]) else None
  }

  // --------------------------------------------------------------- sort indexes

  /** The index has exactly one entry for the account if `wanted`, under its balance, and
      none otherwise. */
  ghost predicate SortedBy(sort: map<BalanceKey, Account>, t: TokenAddress, p: PublicKey, wanted: Option<Account>) {
    forall b: nat ::
      && ((t, b, p) in sort <==> wanted.Some? && wanted.value.balance == b)
      && ((t, b, p) in sort ==> sort[(t, b, p)] == wanted.value)
  }

  ghost function ZkappOnly(a: Option<Account>): Option<Account> {
    if a.Some? && a.value.zkapp.Some? then a else None
  }

  ghost predicate SortOk(accounts: map<AccountKey, Account>, sort: map<BalanceKey, Account>, t: TokenAddress,
                         p: PublicKey) {
    SortedBy(sort, t, p, Stored(accounts, t, p))
  }

  ghost predicate ZkappSortOk(accounts: map<AccountKey, Account>, sort: map<BalanceKey, Account>, t: TokenAddress,
                              p: PublicKey) {
    SortedBy(sort, t, p, ZkappOnly(Stored(accounts, t, p)))
  }

  ghost predicate SortExact(accounts: map<AccountKey, Account>, sort: map<BalanceKey, Account>) {
    forall t: TokenAddress, p: PublicKey {:trigger SortOk(accounts, sort, t, p)} :: SortOk(accounts, sort, t, p)
  }

  ghost predicate ZkappSortExact(accounts: map<AccountKey, Account>, sort: map<BalanceKey, Account>) {
    forall t: TokenAddress, p: PublicKey {:trigger ZkappSortOk(accounts, sort, t, p)} ::
        ZkappSortOk(accounts, sort, t, p)
  }

  /** Whether the old entry goes away: there is none, it is removed by balance, or it is
      overwritten. */
  ghost predicate Replaced(was: Option<Account>, removed: Option<nat>, now: Option<Account>) {
    || was.None?
    || (removed.Some? && removed.value == was.value.balance)
    || (now.Some? && now.value.balance == was.value.balance)
  }

  /** One entry removed and one put in. */
  ghost function Resorted(sort: map<BalanceKey, Account>, t: TokenAddress, p: PublicKey, removed: Option<nat>,
                          now: Option<Account>): map<BalanceKey, Account> {
    var less := if removed.Some? then sort - {(t, removed.value, p)} else sort;
    if now.Some? then less[(t, now.value.balance, p) := now.value] else less
  }

  /** The index is right for the account precisely if its old entry goes away. */
  lemma {:induction false} ResortedIff(sort: map<BalanceKey, Account>, t: TokenAddress, p: PublicKey,
                                       was: Option<Account>, removed: Option<nat>, now: Option<Account>)
    requires SortedBy(sort, t, p, was)
    ensures SortedBy(Resorted(sort, t, p, removed, now), t, p, now) <==> Replaced(was, removed, now)
  {
    var after := Resorted(sort, t, p, removed, now);
    if Replaced(was, removed, now) {
      assert forall b: nat :: (t, b, p) in after <==> now.Some? && now.value.balance == b;
    } else {
      assert (t, was.value.balance, p) in after;
    }
  }

  lemma {:induction false} ResortedOthers(sort: map<BalanceKey, Account>, t: TokenAddress, p: PublicKey,
                                          removed: Option<nat>, now: Option<Account>, t': TokenAddress, p': PublicKey,
                                          wanted: Option<Account>)
    requires (t', p') != (t, p)
    ensures SortedBy(Resorted(sort, t, p, removed, now), t', p', wanted) <==> SortedBy(sort, t', p', wanted)
  {
    var after := Resorted(sort, t, p, removed, now);
    assert forall b: nat ::
             ((t', b, p') in after <==> (t', b, p') in sort) &&
               ((t', b, p') in after ==> after[(t', b, p')] == sort[(t', b, p')]);
  }

  // ------------------------------------------------------------ grouping by key

  /** The diffs of one token account, in order. */
  function Filter(ds: seq<AccountDiff>, t: TokenAddress, p: PublicKey): seq<AccountDiff> {
    if ds == [] then []
    else
      var d := ds[|ds| - 1];
      Filter(ds[..|ds| - 1], t, p) + if TokenOf(d) == t && d.publicKey == p then [d] else []
  }

  function OrEmpty(a: Option<Account>, t: TokenAddress, p: PublicKey): Account {
    if a.Some? then a.value else EmptyAccount(p, t)
  }

  /** The account that the grouped update leaves. */
  ghost function Grouped(step: Step, a: Option<Account>, ds: seq<AccountDiff>, t: TokenAddress,
                         p: PublicKey): Option<Account> {
    var own := Filter(ds, t, p);
    if own == [] then a else Some(FoldAccount(step, OrEmpty(a, t, p), own))
  }

  /** The sequential fold, seen from one account, is the fold of its own diffs. */
  lemma {:induction false} GroupedIsSequential(step: Step, l: Ledger, ds: seq<AccountDiff>, t: TokenAddress,
                                               p: PublicKey)
    requires KeepsKey(step) && Normal(l)
    ensures Normal(ApplyDiffs(step, l, ds))
    ensures Get(ApplyDiffs(step, l, ds), t, p) == Grouped(step, Get(l, t, p), ds, t, p)
  {
    if ds != [] {
      var init, d := ds[..|ds| - 1], ds[|ds| - 1];
      GroupedIsSequential(step, l, init, t, p);
      ApplyAccountDiffGet(step, ApplyDiffs(step, l, init), d, t, p);
      var own := Filter(init, t, p);
      FoldAccountSnoc(step, OrEmpty(Get(l, t, p), t, p), own, d);
      assert own + [] == own;
    }
  }

  // ------------------------------------------------- the ledger's fold and the store's

  /** The actions diffs to one token account change nothing of it. */
  ghost predicate IdleAt(l: Ledger, ds: seq<AccountDiff>, t: TokenAddress, p: PublicKey) {
    ActionsIdle(OrEmpty(Get(l, t, p), t, p), Filter(ds, t, p))
  }

  ghost predicate AllIdle(l: Ledger, ds: seq<AccountDiff>) {
    forall t: TokenAddress, p: PublicKey {:trigger IdleAt(l, ds, t, p)} :: IdleAt(l, ds, t, p)
  }

  lemma {:induction false} AccountsAgreeIff(l: Ledger, ds: seq<AccountDiff>, t: TokenAddress, p: PublicKey)
    requires Normal(l)
    ensures Get(ApplyDiffs(Applied, l, ds), t, p) == Get(ApplyDiffs(BestApplied, l, ds), t, p) <==> IdleAt(l, ds, t, p)
  {
    StepsKeepKey();
    GroupedIsSequential(Applied, l, ds, t, p);
    GroupedIsSequential(BestApplied, l, ds, t, p);
    FoldsAgreeIff(OrEmpty(Get(l, t, p), t, p), Filter(ds, t, p));
  }

  /** The best ledger of the store is that of the ledger's own fold precisely if the actions
      diffs change nothing of their accounts. */
  lemma {:induction false} LedgersAgreeIff(l: Ledger, ds: seq<AccountDiff>)
    requires Normal(l)
    ensures ApplyDiffs(Applied, l, ds) == ApplyDiffs(BestApplied, l, ds) <==> AllIdle(l, ds)
  {
    var inLedger, stored := ApplyDiffs(Applied, l, ds), ApplyDiffs(BestApplied, l, ds);
    StepsKeepKey();
    ApplyDiffsNormal(Applied, l, ds);
    ApplyDiffsNormal(BestApplied, l, ds);
    if inLedger == stored {
      forall t: TokenAddress, p: PublicKey ensures IdleAt(l, ds, t, p) { AccountsAgreeIff(l, ds, t, p); }
    }
    if AllIdle(l, ds) {
      forall t: TokenAddress, p: PublicKey ensures Get(inLedger, t, p) == Get(stored, t, p) {
        assert IdleAt(l, ds, t, p);
        AccountsAgreeIff(l, ds, t, p);
      }
      NormalLedgersEqual(inLedger, stored);
    }
  }

  /** Without actions diffs the two always agree. */
  lemma {:induction false} NoActionsAgree(l: Ledger, ds: seq<AccountDiff>)
    requires Normal(l) && !HasActions(ds)
    ensures AllIdle(l, ds) && ApplyDiffs(Applied, l, ds) == ApplyDiffs(BestApplied, l, ds)
  {
    forall t: TokenAddress, p: PublicKey ensures IdleAt(l, ds, t, p) { FilterNoActions(ds, t, p); }
    LedgersAgreeIff(l, ds);
  }

  lemma {:induction false} FilterNoActions(ds: seq<AccountDiff>, t: TokenAddress, p: PublicKey)
    requires !HasActions(ds)
    ensures !HasActions(Filter(ds, t, p))
  {
    if ds != [] {
      var init := ds[..|ds| - 1];
      assert forall i :: 0 <= i < |init| ==> init[i] == ds[i];
      FilterNoActions(init, t, p);
    }
  }

  /** Applying and then unapplying a block, seen from one account: an account without diffs is left
      alone, one that the block creates stays, and any other one is as it was precisely if its
      own diffs return it. */
  lemma {:induction false} BlockUndoneIff(l: Ledger, ds: seq<AccountDiff>, t: TokenAddress, p: PublicKey)
    requires Normal(l)
    ensures var back := Get(ApplyDiffs(Unapplied, ApplyDiffs(BestApplied, l, ds), ds), t, p);
            back == Get(l, t, p) <==> UndoneAt(l, ds, t, p)
    ensures var back := Get(ApplyDiffs(Unapplied, ApplyDiffs(BestApplied, l, ds), ds), t, p);
            var a, own := OrEmpty(Get(l, t, p), t, p), Filter(ds, t, p);
            own != [] ==>
              && back.Some? && back.value.balance >= a.balance
              && (back.value.balance == a.balance <==> NoCreationFee(own) && CoveredBothWays(a.balance, own))
  {
    StepsKeepKey();
    GroupedIsSequential(BestApplied, l, ds, t, p);
    GroupedIsSequential(Unapplied, ApplyDiffs(BestApplied, l, ds), ds, t, p);
    UnapplyRestoresIff(OrEmpty(Get(l, t, p), t, p), Filter(ds, t, p));
    AccountRestoredIff(OrEmpty(Get(l, t, p), t, p), Filter(ds, t, p));
  }

  ghost predicate UndoneAt(l: Ledger, ds: seq<AccountDiff>, t: TokenAddress, p: PublicKey) {
    Filter(ds, t, p) != [] ==> Get(l, t, p).Some? && Returns(Get(l, t, p).value, Filter(ds, t, p))
  }

  /** The block creates no account, and the diffs of every account return it. */
  ghost predicate Undone(l: Ledger, ds: seq<AccountDiff>) {
    forall t: TokenAddress, p: PublicKey {:trigger UndoneAt(l, ds, t, p)} :: UndoneAt(l, ds, t, p)
  }

  lemma {:induction false} LedgerUndoneIff(l: Ledger, ds: seq<AccountDiff>)
    requires Normal(l)
    ensures ApplyDiffs(Unapplied, ApplyDiffs(BestApplied, l, ds), ds) == l <==> Undone(l, ds)
  {
    var back := ApplyDiffs(Unapplied, ApplyDiffs(BestApplied, l, ds), ds);
    StepsKeepKey();
    ApplyDiffsNormal(BestApplied, l, ds);
    ApplyDiffsNormal(Unapplied, ApplyDiffs(BestApplied, l, ds), ds);
    forall t: TokenAddress, p: PublicKey ensures Get(back, t, p) == Get(l, t, p) <==> UndoneAt(l, ds, t, p) {
      BlockUndoneIff(l, ds, t, p);
    }
    if Undone(l, ds) {
      forall t: TokenAddress, p: PublicKey ensures Get(back, t, p) == Get(l, t, p) { assert UndoneAt(l, ds, t, p); }
      NormalLedgersEqual(back, l);
    }
  }

  // ---------------------------------------------------------------- aggregation

  type Groups = map<AccountKey, seq<AccountDiff>>

  /** Every group is the filter for its key, and there is one for every key with a diff. */
  ghost predicate GroupsOf(m: Groups, ds: seq<AccountDiff>) {
    forall t: TokenAddress, p: PublicKey {:trigger GroupOk(m, ds, t, p)} :: GroupOk(m, ds, t, p)
  }

  ghost predicate GroupOk(m: Groups, ds: seq<AccountDiff>, t: TokenAddress, p: PublicKey) {
    && ((t, p) in m <==> Filter(ds, t, p) != [])
    && ((t, p) in m ==> m[(t, p)] == Filter(ds, t, p))
  }

  /** Aggregates diffs per token account. */
  method AggregateTokenAccountDiffs(ds: seq<AccountDiff>) returns (m: Groups)
    ensures GroupsOf(m, ds)
  {
    m := map[];
    NoGroups();
    for i := 0 to |ds|
      invariant GroupsOf(m, ds[..i])
    {
      var d := ds[i];
      var key := (TokenOf(d), d.publicKey);
      NextGroup(m, ds, i);
      if key in m {
        m := m[key := m[key] + [d]];
      } else {
        m := m[key := [d]];
      }
    }
    assert ds[..|ds|] == ds;
  }

  lemma {:induction false} NoGroups()
    ensures GroupsOf(map[], [])
  {
    forall t: TokenAddress, p: PublicKey ensures GroupOk(map[], [], t, p) {}
  }

  lemma {:induction false} NextGroup(m: Groups, ds: seq<AccountDiff>, i: nat)
    requires i < |ds| && GroupsOf(m, ds[..i])
    ensures var d := ds[i]; var key := (TokenOf(d), d.publicKey);
            GroupsOf(m[key := if key in m then m[key] + [d] else [d]], ds[..i + 1])
  {
    var d := ds[i];
    var key := (TokenOf(d), d.publicKey);
    var m' := m[key := if key in m then m[key] + [d] else [d]];
    var upTo := ds[..i + 1];
    assert upTo[..i] == ds[..i] && upTo[i] == d;
    forall t: TokenAddress, p: PublicKey ensures GroupOk(m', upTo, t, p) {
      assert GroupOk(m, ds[..i], t, p);
      assert Filter(ds[..i], t, p) + [] == Filter(ds[..i], t, p);
    }
  }
}
