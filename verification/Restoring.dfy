/** Unapplying a block after applying it, for the rest of an account: nonce, delegate and what
    only zkapp diffs write. */
module Restoring {
  import opened Accounts
  import opened Unapplying

  // -------------------------------------------------------------------- delegate

  predicate HasDelegation(ds: seq<AccountDiff>) {
    exists i :: 0 <= i < |ds| && ds[i].Delegation?
  }

  lemma {:induction false} HasDelegationSnoc(ds: seq<AccountDiff>)
    requires ds != []
    ensures HasDelegation(ds) <==> HasDelegation(ds[..|ds| - 1]) || ds[|ds| - 1].Delegation?
  {
    var init := ds[..|ds| - 1];
    if HasDelegation(init) {
      var i :| 0 <= i < |init| && init[i].Delegation?;
      assert ds[i].Delegation?;
    }
    if HasDelegation(ds) && !ds[|ds| - 1].Delegation? {
      var i :| 0 <= i < |ds| && ds[i].Delegation?;
      assert init[i].Delegation?;
    }
  }

  /** An unapplied delegation leaves the account its own delegate, whatever it was before. */
  lemma {:induction false} DelegateWalks(a: Account, ds: seq<AccountDiff>)
    ensures FoldAccount(BestApplied, a, ds).publicKey == a.publicKey == FoldAccount(Unapplied, a, ds).publicKey
    ensures !HasDelegation(ds) ==> FoldAccount(BestApplied, a, ds).delegate == a.delegate
    ensures FoldAccount(Unapplied, a, ds).delegate == if HasDelegation(ds) then a.publicKey else a.delegate
  {
    if ds != [] {
      DelegateWalks(a, ds[..|ds| - 1]);
      HasDelegationSnoc(ds);
    }
  }

  /** The delegate comes back precisely if the block does not delegate, or the account was its own
      delegate. */
  lemma {:induction false} DelegateRestoredIff(a: Account, ds: seq<AccountDiff>)
    ensures FoldAccount(Unapplied, FoldAccount(BestApplied, a, ds), ds).delegate == a.delegate <==>
              (HasDelegation(ds) ==> a.delegate == a.publicKey)
  {
    DelegateWalks(a, ds);
    DelegateWalks(FoldAccount(BestApplied, a, ds), ds);
  }

  /** A second delegation, unapplied, takes the first one back too. */
  lemma {:induction false} Redelegated(a: Account, delegate: PublicKey, nonce: nat)
    requires a.delegate != a.publicKey
    ensures var ds := [Delegation(a.publicKey, delegate, nonce)];
            FoldAccount(Unapplied, FoldAccount(BestApplied, a, ds), ds).delegate != a.delegate
  {
    var ds := [Delegation(a.publicKey, delegate, nonce)];
    assert ds[0].Delegation?;
    DelegateRestoredIff(a, ds);
  }

  // ----------------------------------------------------------------------- nonce

  predicate PaysWithNonce(update: UpdateType) {
    update.Debit? && update.nonce.Some?
  }

  /** The diff carries the account's new nonce. */
  predicate SetsNonce(d: AccountDiff) {
    match d
    case Payment(_, _, _, update) => PaysWithNonce(update)
    case FeeTransfer(_, _, update) => PaysWithNonce(update)
    case FeeTransferViaCoinbase(_, _, update) => PaysWithNonce(update)
    case Delegation(_, _, _) => true
    case FailedTransactionNonce(_, _) => true
    case _ => false
  }

  function NewNonce(d: AccountDiff): nat
    requires SetsNonce(d)
  {
    match d
    case Payment(_, _, _, update) => update.nonce.value
    case FeeTransfer(_, _, update) => update.nonce.value
    case FeeTransferViaCoinbase(_, _, update) => update.nonce.value
    case Delegation(_, _, nonce) => nonce
    case FailedTransactionNonce(_, nonce) => nonce
  }

  function NextNonce(n: Option<nat>): nat {
    var nonce := if n.Some? then n.value else 0;
    if nonce < MAX_NONCE then nonce + 1 else MAX_NONCE
  }

  /** The nonce after the diffs are applied. */
  function NonceAfter(n: Option<nat>, ds: seq<AccountDiff>): Option<nat> {
    if ds == [] then n
    else
      var before, d := NonceAfter(n, ds[..|ds| - 1]), ds[|ds| - 1];
      if SetsNonce(d) then Some(NewNonce(d)) else if d.ZkappIncrementNonce? then Some(NextNonce(before)) else before
  }

  /** What the unapplied diff makes of the nonce `n`. */
  function TakenBack(n: Option<nat>, d: AccountDiff): Option<nat>
    requires SetsNonce(d)
  {
    if d.FailedTransactionNonce? then if d.newNonce > 0 then Some(d.newNonce - 1) else None
    else if n == Some(0) then None
    else Some(NonceBefore(NewNonce(d)))
  }

  /** The nonce after the diffs are unapplied. */
  function NonceBack(n: Option<nat>, ds: seq<AccountDiff>): Option<nat> {
    if ds == [] then n
    else
      var before, d := NonceBack(n, ds[..|ds| - 1]), ds[|ds| - 1];
      if SetsNonce(d) then TakenBack(before, d) else before
  }

  lemma {:induction false} NonceWalks(a: Account, ds: seq<AccountDiff>)
    ensures FoldAccount(BestApplied, a, ds).nonce == NonceAfter(a.nonce, ds)
    ensures FoldAccount(Unapplied, a, ds).nonce == NonceBack(a.nonce, ds)
  {
    if ds != [] {
      var init, d := ds[..|ds| - 1], ds[|ds| - 1];
      NonceWalks(a, init);
      NonceStep(FoldAccount(BestApplied, a, init), d);
      NonceStep(FoldAccount(Unapplied, a, init), d);
    }
  }

  lemma {:induction false} NonceStep(a: Account, d: AccountDiff)
    ensures BestApplied(a, d).nonce ==
              if SetsNonce(d) then Some(NewNonce(d))
              else if d.ZkappIncrementNonce? then Some(NextNonce(a.nonce)) else a.nonce
    ensures Unapplied(a, d).nonce == if SetsNonce(d) then TakenBack(a.nonce, d) else a.nonce
  {}

  /** The last diff that carries a nonce. */
  function LastSetting(ds: seq<AccountDiff>): (k: Option<nat>)
    ensures k.Some? ==> k.value < |ds| && SetsNonce(ds[k.value])
  {
    if ds == [] then None
    else if SetsNonce(ds[|ds| - 1]) then Some(|ds| - 1)
    else LastSetting(ds[..|ds| - 1])
  }

  /** Only the last such diff decides what is left. */
  lemma {:induction false} BackIsLast(n: Option<nat>, ds: seq<AccountDiff>)
    ensures var k := LastSetting(ds);
            NonceBack(n, ds) == if k.None? then n else TakenBack(NonceBack(n, ds[..k.value]), ds[k.value])
  {
    if ds != [] && !SetsNonce(ds[|ds| - 1]) {
      var init, k := ds[..|ds| - 1], LastSetting(ds);
      BackIsLast(n, init);
      if k.Some? { assert init[..k.value] == ds[..k.value]; }
    }
  }

  /** The nonce is zero at the point where diff `k` is unapplied. */
  ghost predicate ZeroBefore(n: Option<nat>, ds: seq<AccountDiff>, k: nat)
    requires k <= |ds|
    decreases k
  {
    var j := LastSetting(ds[..k]);
    if j.None? then n == Some(0)
    else if ds[j.value].FailedTransactionNonce? then NewNonce(ds[j.value]) == 1
    else !ZeroBefore(n, ds, j.value) && NewNonce(ds[j.value]) <= 1
  }

  lemma {:induction false} ZeroBeforeIs(n: Option<nat>, ds: seq<AccountDiff>, k: nat)
    requires k <= |ds|
    ensures NonceBack(n, ds[..k]) == Some(0) <==> ZeroBefore(n, ds, k)
    decreases k
  {
    var part, j := ds[..k], LastSetting(ds[..k]);
    BackIsLast(n, part);
    if j.Some? {
      assert part[..j.value] == ds[..j.value] && part[j.value] == ds[j.value];
      ZeroBeforeIs(n, ds, j.value);
    }
  }

  predicate NoIncrement(ds: seq<AccountDiff>) {
    forall i :: 0 <= i < |ds| ==> !ds[i].ZkappIncrementNonce?
  }

  lemma {:induction false} IncrementsStay(n: Option<nat>, ds: seq<AccountDiff>)
    requires LastSetting(ds).None?
    ensures var after := NonceAfter(n, ds);
            && (after == n <==> NoIncrement(ds) || n == Some(MAX_NONCE))
            && (after != n ==>
                  && after.Some? && after.value <= MAX_NONCE
                  && (n.Some? && n.value <= MAX_NONCE ==> n.value < after.value))
  {
    if ds != [] {
      var init, d := ds[..|ds| - 1], ds[|ds| - 1];
      IncrementsStay(n, init);
      NoIncrementSnoc(ds);
      assert NonceAfter(n, ds) == if d.ZkappIncrementNonce? then Some(NextNonce(NonceAfter(n, init)))
                                  else NonceAfter(n, init);
    }
  }

  lemma {:induction false} NoIncrementSnoc(ds: seq<AccountDiff>)
    requires ds != []
    ensures NoIncrement(ds) <==> NoIncrement(ds[..|ds| - 1]) && !ds[|ds| - 1].ZkappIncrementNonce?
  {
    assert ds == ds[..|ds| - 1] + [ds[|ds| - 1]];
  }

  /** When the nonce comes back: if no diff carries a nonce, precisely if none increments it (or it
      cannot be incremented); otherwise it must be what the last such diff makes of it. */
  ghost predicate NonceReturns(n: Option<nat>, ds: seq<AccountDiff>) {
    var k := LastSetting(ds);
    if k.None? then NoIncrement(ds) || n == Some(MAX_NONCE)
    else
      var d := ds[k.value];
      if d.FailedTransactionNonce? then n == if NewNonce(d) > 0 then Some(NewNonce(d) - 1) else None
      else if ZeroBefore(NonceAfter(n, ds), ds, k.value) then n == None
      else n == Some(NonceBefore(NewNonce(d)))
  }

  lemma {:induction false} NonceRestoredIff(a: Account, ds: seq<AccountDiff>)
    ensures FoldAccount(Unapplied, FoldAccount(BestApplied, a, ds), ds).nonce == a.nonce <==> NonceReturns(a.nonce, ds)
  {
    var mid, k := FoldAccount(BestApplied, a, ds), LastSetting(ds);
    NonceWalks(a, ds);
    NonceWalks(mid, ds);
    BackIsLast(mid.nonce, ds);
    if k.None? { IncrementsStay(a.nonce, ds); } else { ZeroBeforeIs(mid.nonce, ds, k.value); }
  }

  /** Two payments of one sender in a block: the nonce comes back one too high, or not at all. */
  lemma {:induction false} TwoPayments(a: Account, token: TokenAddress, amount: nat, m: nat)
    requires a.nonce == Some(m) && m + 2 <= MAX_NONCE
    ensures var first, second := Payment(a.publicKey, token, amount, Debit(Some(m + 1))),
                Payment(a.publicKey, token, amount, Debit(Some(m + 2)));
            FoldAccount(Unapplied, FoldAccount(BestApplied, a, [first, second]), [first, second]).nonce ==
              if m == 0 then None else Some(m + 1)
  {
    var first := Payment(a.publicKey, token, amount, Debit(Some(m + 1)));
    var second := Payment(a.publicKey, token, amount, Debit(Some(m + 2)));
    var ds := [first, second];
    var mid := FoldAccount(BestApplied, a, ds);
    NonceWalks(a, ds);
    assert SetsNonce(second) && mid.nonce == Some(m + 2);
    NonceWalks(mid, ds);
    BackIsLast(mid.nonce, ds);
    assert ds[..1] == [first] && NonceBack(mid.nonce, [first]) == Some(m) by {
      assert [first][..0] == [];
    }
  }

  // ----------------------------------------------------------- the whole account

  /** What only zkapp diffs write is the same. */
  ghost predicate SameZkapp(a: Account, a': Account) {
    && a'.zkapp == a.zkapp && a'.permissions == a.permissions && a'.timing == a.timing
    && a'.tokenSymbol == a.tokenSymbol && a'.votingFor == a.votingFor
  }

  lemma {:induction false} UnappliedZkapp(a: Account, d: AccountDiff)
    ensures SameZkapp(a, Unapplied(a, d))
  {}

  ghost predicate SameHolder(a: Account, a': Account) {
    a'.token == a.token && a'.other == a.other && a'.username == a.username
  }

  lemma {:induction false} UnappliedHolder(a: Account, d: AccountDiff)
    ensures SameHolder(a, Unapplied(a, d))
  {}

  lemma {:induction false} AppliedHolder(a: Account, d: AccountDiff)
    ensures SameHolder(a, BestApplied(a, d))
  {}

  /** Unapplying leaves it as it is, and no step writes the token or the other fields. */
  lemma {:induction false} ZkappStays(a: Account, ds: seq<AccountDiff>)
    ensures SameZkapp(a, FoldAccount(Unapplied, a, ds)) && SameHolder(a, FoldAccount(Unapplied, a, ds))
    ensures SameHolder(a, FoldAccount(BestApplied, a, ds))
  {
    if ds != [] {
      var init, d := ds[..|ds| - 1], ds[|ds| - 1];
      ZkappStays(a, init);
      UnappliedZkapp(FoldAccount(Unapplied, a, init), d);
      UnappliedHolder(FoldAccount(Unapplied, a, init), d);
      AppliedHolder(FoldAccount(BestApplied, a, init), d);
    }
  }

  /** When a block that is applied and then unapplied leaves an account as it was. */
  ghost predicate Returns(a: Account, ds: seq<AccountDiff>) {
    && NoCreationFee(ds) && CoveredBothWays(a.balance, ds)
    && NonceReturns(a.nonce, ds)
    && (HasDelegation(ds) ==> a.delegate == a.publicKey)
    && SameZkapp(a, FoldAccount(BestApplied, a, ds))
  }

  lemma {:induction false} AccountRestoredIff(a: Account, ds: seq<AccountDiff>)
    ensures FoldAccount(Unapplied, FoldAccount(BestApplied, a, ds), ds) == a <==> Returns(a, ds)
  {
    UnapplyRestoresIff(a, ds);
    NonceRestoredIff(a, ds);
    DelegateRestoredIff(a, ds);
    DelegateWalks(a, ds);
    DelegateWalks(FoldAccount(BestApplied, a, ds), ds);
    ZkappStays(a, ds);
    ZkappStays(FoldAccount(BestApplied, a, ds), ds);
  }
}
