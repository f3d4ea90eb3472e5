/** Unapplying a block after applying it: when the balance of an account comes back.

    Both passes go through the diffs in the same order, and both subtract with saturation. */
module Unapplying {
  import opened Accounts

  type Change = AccountDiff -> int

  function PaymentChange(amount: nat, update: UpdateType): int {
    if update.Credit? then amount as int else -(amount as int)
  }

  /** What a diff adds to the balance when it is applied. */
  function Added(d: AccountDiff): int {
    match d
    case Payment(_, _, amount, update) => PaymentChange(amount, update)
    case FeeTransfer(_, amount, update) => PaymentChange(amount, update)
    case FeeTransferViaCoinbase(_, amount, update) => PaymentChange(amount, update)
    case Coinbase(_, amount) => amount
    case ZkappAccountCreationFee(_, amount) => amount
    case _ => 0
  }

  /** What it adds when it is unapplied: an account creation fee is not taken back. */
  function AddedBack(d: AccountDiff): int {
    if d.ZkappAccountCreationFee? then 0 else -Added(d)
  }

  function Total(f: Change, ds: seq<AccountDiff>): int {
    if ds == [] then 0 else Total(f, ds[..|ds| - 1]) + f(ds[|ds| - 1])
  }

  /** The balance after the changes, never below zero. */
  function Walk(f: Change, b: nat, ds: seq<AccountDiff>): nat {
    if ds == [] then b
    else
      var next := Walk(f, b, ds[..|ds| - 1]) + f(ds[|ds| - 1]);
      if next < 0 then 0 else next
  }

  ghost predicate Covered(f: Change, b: int, ds: seq<AccountDiff>) {
    forall k {:trigger ds[..k]} :: 0 <= k <= |ds| ==> 0 <= b + Total(f, ds[..k])
  }

  /** A balance is never less than the plain sum, and is the plain sum precisely if no prefix
      of the changes overdraws it. */
  lemma {:induction false} WalkIsSumIff(f: Change, b: nat, ds: seq<AccountDiff>)
    ensures Walk(f, b, ds) >= b + Total(f, ds)
    ensures Walk(f, b, ds) == b + Total(f, ds) <==> Covered(f, b, ds)
  {
    if ds == [] {
      assert ds[..0] == ds;
    } else {
      var init := ds[..|ds| - 1];
      WalkIsSumIff(f, b, init);
      CoveredSnoc(f, b, ds);
    }
  }

  lemma {:induction false} CoveredSnoc(f: Change, b: int, ds: seq<AccountDiff>)
    requires ds != []
    ensures Covered(f, b, ds) <==> Covered(f, b, ds[..|ds| - 1]) && 0 <= b + Total(f, ds)
  {
    var init := ds[..|ds| - 1];
    assert ds[..|ds|] == ds;
    forall k | 0 <= k <= |init| ensures init[..k] == ds[..k] {}
    if Covered(f, b, ds) {
      forall k | 0 <= k <= |init| ensures 0 <= b + Total(f, init[..k]) { assert init[..k] == ds[..k]; }
    }
    if Covered(f, b, init) && 0 <= b + Total(f, ds) {
      forall k | 0 <= k <= |ds| ensures 0 <= b + Total(f, ds[..k]) {
        if k < |ds| { assert init[..k] == ds[..k]; }
      }
    }
  }

  lemma {:induction false} TotalSplit(f: Change, ds: seq<AccountDiff>, k: nat)
    requires k <= |ds|
    ensures Total(f, ds) == Total(f, ds[..k]) + Total(f, ds[k..])
  {
    if k == |ds| {
      assert ds[..k] == ds && ds[k..] == [];
    } else {
      var init, tail := ds[..|ds| - 1], ds[k..];
      TotalSplit(f, init, k);
      assert init[..k] == ds[..k] && init[k..] == tail[..|tail| - 1] && tail[|tail| - 1] == ds[|ds| - 1];
    }
  }

  /** The balances of the two passes are such walks. */
  lemma {:induction false} BalancesWalk(a: Account, ds: seq<AccountDiff>)
    ensures FoldAccount(Applied, a, ds).balance == Walk(Added, a.balance, ds)
    ensures FoldAccount(BestApplied, a, ds).balance == Walk(Added, a.balance, ds)
    ensures FoldAccount(Unapplied, a, ds).balance == Walk(AddedBack, a.balance, ds)
  {
    if ds != [] {
      BalancesWalk(a, ds[..|ds| - 1]);
      StepBalances(FoldAccount(Applied, a, ds[..|ds| - 1]), ds[|ds| - 1]);
      StepBalances(FoldAccount(BestApplied, a, ds[..|ds| - 1]), ds[|ds| - 1]);
      StepBalances(FoldAccount(Unapplied, a, ds[..|ds| - 1]), ds[|ds| - 1]);
    }
  }

  lemma {:induction false} StepBalances(a: Account, d: AccountDiff)
    ensures Applied(a, d).balance == BestApplied(a, d).balance
    ensures Applied(a, d).balance == if a.balance + Added(d) < 0 then 0 else a.balance + Added(d)
    ensures Unapplied(a, d).balance == if a.balance + AddedBack(d) < 0 then 0 else a.balance + AddedBack(d)
  {}

  predicate IsCreationFee(d: AccountDiff) {
    d.ZkappAccountCreationFee? && d.amount > 0
  }

  predicate NoCreationFee(ds: seq<AccountDiff>) {
    forall i :: 0 <= i < |ds| ==> !IsCreationFee(ds[i])
  }

  lemma {:induction false} FeeStays(d: AccountDiff)
    ensures Added(d) + AddedBack(d) >= 0
    ensures Added(d) + AddedBack(d) == 0 <==> !IsCreationFee(d)
  {}

  lemma {:induction false} NoCreationFeeSnoc(ds: seq<AccountDiff>)
    requires ds != []
    ensures NoCreationFee(ds) <==> NoCreationFee(ds[..|ds| - 1]) && !IsCreationFee(ds[|ds| - 1])
  {
    assert ds == ds[..|ds| - 1] + [ds[|ds| - 1]];
  }

  lemma {:induction false} FeesStay(ds: seq<AccountDiff>)
    ensures Total(Added, ds) + Total(AddedBack, ds) >= 0
    ensures Total(Added, ds) + Total(AddedBack, ds) == 0 <==> NoCreationFee(ds)
  {
    if ds != [] {
      FeesStay(ds[..|ds| - 1]);
      FeeStays(ds[|ds| - 1]);
      NoCreationFeeSnoc(ds);
    }
  }

  /** No prefix and no suffix of the diffs takes more than the balance before them. */
  ghost predicate CoveredBothWays(b: nat, ds: seq<AccountDiff>) {
    && (forall k {:trigger ds[..k]} :: 0 <= k <= |ds| ==> 0 <= b + Total(Added, ds[..k]))
    && (forall k {:trigger ds[k..]} :: 0 <= k <= |ds| ==> 0 <= b + Total(Added, ds[k..]))
  }

  lemma {:induction false} SuffixesCovered(b: nat, ds: seq<AccountDiff>)
    requires NoCreationFee(ds)
    ensures Covered(AddedBack, b + Total(Added, ds), ds) <==>
            forall k {:trigger ds[k..]} :: 0 <= k <= |ds| ==> 0 <= b + Total(Added, ds[k..])
  {
    forall k | 0 <= k <= |ds|
      ensures b + Total(Added, ds) + Total(AddedBack, ds[..k]) == b + Total(Added, ds[k..])
    {
      TotalSplit(Added, ds, k);
      FeesStay(ds[..k]);
    }
    if Covered(AddedBack, b + Total(Added, ds), ds) {
      forall k | 0 <= k <= |ds| ensures 0 <= b + Total(Added, ds[k..]) {
        assert 0 <= b + Total(Added, ds) + Total(AddedBack, ds[..k]);
      }
    }
  }

  /** Applying and then unapplying a block never lowers a balance, and restores it precisely if
      the block creates no zkapp account and overdraws in neither direction. */
  lemma {:induction false} UnapplyRestoresIff(a: Account, ds: seq<AccountDiff>)
    ensures var back := FoldAccount(Unapplied, FoldAccount(BestApplied, a, ds), ds).balance;
            && back >= a.balance
            && (back == a.balance <==> NoCreationFee(ds) && CoveredBothWays(a.balance, ds))
  {
    var mid := FoldAccount(BestApplied, a, ds);
    BalancesWalk(a, ds);
    BalancesWalk(mid, ds);
    WalkIsSumIff(Added, a.balance, ds);
    WalkIsSumIff(AddedBack, mid.balance, ds);
    FeesStay(ds);
    if NoCreationFee(ds) { SuffixesCovered(a.balance, ds); }
  }

  /** A credit and a debit of the same amount, on an empty account, leave the amount behind once
      they are unapplied. */
  lemma {:induction false} CreditThenDebit(pk: PublicKey, token: TokenAddress, amount: nat)
    requires amount > 0
    ensures var ds := [Payment(pk, token, amount, Credit), Payment(pk, token, amount, Debit(None))];
            var mid := FoldAccount(BestApplied, EmptyAccount(pk, token), ds);
            mid.balance == 0 && FoldAccount(Unapplied, mid, ds).balance == amount
  {
    var credit, debit := Payment(pk, token, amount, Credit), Payment(pk, token, amount, Debit(None));
    var ds := [credit, debit];
    assert ds[..1] == [credit] && ds[..1][..0] == [];
    var a := EmptyAccount(pk, token);
    assert FoldAccount(BestApplied, a, ds[..1]) == BestApplied(a, credit);
    var mid := FoldAccount(BestApplied, a, ds);
    assert FoldAccount(Unapplied, mid, ds[..1]) == Unapplied(mid, credit);
  }
}
