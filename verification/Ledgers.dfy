/** Ledgers and the plain left fold of block diffs, the reference against which the
    running ledger of the witness tree, the staged ledgers and the best ledger are
    measured. */
module Ledgers {
  import opened Accounts
  import opened Blocks

  type Ledger = map<TokenAddress, map<PublicKey, Account>>

  function Get(l: Ledger, token: TokenAddress, pk: PublicKey): Option<Account> {
    if token in l && pk in l[token] then Some(l[token][pk]) else None
  }

  /** Accounts are filed under their public key and no token ledger is empty. */
  ghost predicate Normal(l: Ledger) {
    && (forall t, p :: t in l && p in l[t] ==> l[t][p].publicKey == p)
    && (forall t :: t in l ==> l[t] != map[])
  }

  function InsertAccount(l: Ledger, a: Account, token: TokenAddress): (r: Ledger)
    ensures Get(r, token, a.publicKey) == Some(a)
    ensures forall t, p :: (t, p) != (token, a.publicKey) ==> Get(r, t, p) == Get(l, t, p)
    ensures forall t :: t in r <==> t in l || t == token
  {
    if token in l then l[token := l[token][a.publicKey := a]]
    else l[token := map[a.publicKey := a]]
  }

  function RemoveAccount(l: Ledger, token: TokenAddress, pk: PublicKey): Ledger {
    if token in l then l[token := l[token] - {pk}] else l
  }

  /** The account is taken out (or made up), stepped, and put back. */
  function ApplyAccountDiff(step: Step, l: Ledger, d: AccountDiff): Ledger {
    var account := match Get(l, TokenOf(d), d.publicKey)
      case Some(a) => a
      case None => EmptyAccount(d.publicKey, TokenOf(d));
    InsertAccount(RemoveAccount(l, TokenOf(d), d.publicKey), step(account, d), TokenOf(d))
  }

  /** Left fold, last diff outermost. */
  function ApplyDiffs(step: Step, l: Ledger, ds: seq<AccountDiff>): Ledger {
    if ds == [] then l else ApplyAccountDiff(step, ApplyDiffs(step, l, ds[..|ds| - 1]), ds[|ds| - 1])
  }

  function Flatten(d: LedgerDiff): seq<AccountDiff> {
    if d == [] then [] else d[0] + Flatten(d[1..])
  }

  function ApplyDiff(step: Step, l: Ledger, d: LedgerDiff): Ledger {
    ApplyDiffs(step, l, Flatten(d))
  }

  /** One account diff touches exactly one token account. */
  lemma {:induction false} ApplyAccountDiffGet(step: Step, l: Ledger, d: AccountDiff, t: TokenAddress, p: PublicKey)
    requires KeepsKey(step) && Normal(l)
    ensures Normal(ApplyAccountDiff(step, l, d))
    ensures Get(ApplyAccountDiff(step, l, d), t, p) ==
            if (t, p) == (TokenOf(d), d.publicKey)
            then Some(step(if Get(l, t, p).Some? then Get(l, t, p).value else EmptyAccount(p, t), d))
            else Get(l, t, p)
  {
    assert Get(RemoveAccount(l, TokenOf(d), d.publicKey), t, p) ==
           if (t, p) == (TokenOf(d), d.publicKey) then None else Get(l, t, p);
    ApplyAccountDiffNormal(step, l, d);
  }

  lemma {:induction false} ApplyAccountDiffNormal(step: Step, l: Ledger, d: AccountDiff)
    requires KeepsKey(step) && Normal(l)
    ensures Normal(ApplyAccountDiff(step, l, d))
  {
    var account := if Get(l, TokenOf(d), d.publicKey).Some? then Get(l, TokenOf(d), d.publicKey).value
                   else EmptyAccount(d.publicKey, TokenOf(d));
    ReplaceNormal(l, TokenOf(d), d.publicKey, step(account, d));
  }

  lemma {:induction false} ReplaceNormal(l: Ledger, token: TokenAddress, pk: PublicKey, a: Account)
    requires Normal(l) && a.publicKey == pk
    ensures Normal(InsertAccount(RemoveAccount(l, token, pk), a, token))
  {
    var r := InsertAccount(RemoveAccount(l, token, pk), a, token);
    forall t: TokenAddress | t in r ensures r[t] != map[] {
      if t == token { assert pk in r[t]; } else { assert r[t] == l[t]; }
    }
  }

  lemma {:induction false} ApplyDiffsNormal(step: Step, l: Ledger, ds: seq<AccountDiff>)
    requires KeepsKey(step) && Normal(l)
    ensures Normal(ApplyDiffs(step, l, ds))
  {
    if ds != [] {
      var last := ds[|ds| - 1];
      ApplyDiffsNormal(step, l, ds[..|ds| - 1]);
      ApplyAccountDiffGet(step, ApplyDiffs(step, l, ds[..|ds| - 1]), last, TokenOf(last), last.publicKey);
    }
  }

  /** Normal ledgers are determined by their accounts. */
  lemma {:induction false} NormalLedgersEqual(l: Ledger, l': Ledger)
    requires Normal(l) && Normal(l')
    requires forall t, p :: Get(l, t, p) == Get(l', t, p)
    ensures l == l'
  {
    forall t ensures (t in l) == (t in l') {
      if t in l { var p :| p in l[t]; assert Get(l', t, p).Some?; }
      if t in l' { var p :| p in l'[t]; assert Get(l, t, p).Some?; }
    }
    forall t | t in l ensures l[t] == l'[t] {
      forall p ensures (p in l[t]) == (p in l'[t]) && (p in l[t] ==> l[t][p] == l'[t][p]) {
        assert Get(l, t, p) == Get(l', t, p);
      }
    }
  }

  lemma {:induction false} ApplyDiffsConcat(step: Step, l: Ledger, a: seq<AccountDiff>, b: seq<AccountDiff>)
    ensures ApplyDiffs(step, l, a + b) == ApplyDiffs(step, ApplyDiffs(step, l, a), b)
  {
    if b == [] {
      assert a + b == a;
    } else {
      assert (a + b)[..|a + b| - 1] == a + b[..|b| - 1];
      ApplyDiffsConcat(step, l, a, b[..|b| - 1]);
    }
  }

  lemma {:induction false} FlattenConcat(a: LedgerDiff, b: LedgerDiff)
    ensures Flatten(a + b) == Flatten(a) + Flatten(b)
  {
    if a == [] {
      assert a + b == b;
    } else {
      FlattenConcat(a[1..], b);
      assert (a + b)[1..] == a[1..] + b && (a + b)[0] == a[0];
      assert a[0] + (Flatten(a[1..]) + Flatten(b)) == Flatten(a) + Flatten(b);
    }
  }

  /** Applying an appended diff is applying its two parts in turn. */
  lemma {:induction false} ApplyDiffAppend(step: Step, l: Ledger, a: LedgerDiff, b: LedgerDiff)
    ensures ApplyDiff(step, l, a + b) == ApplyDiff(step, ApplyDiff(step, l, a), b)
  {
    FlattenConcat(a, b);
    ApplyDiffsConcat(step, l, Flatten(a), Flatten(b));
  }

  /** The mutating form: a loop over commands, each a loop over its account diffs. */
  method ApplyDiffInPlace(step: Step, l: Ledger, d: LedgerDiff) returns (r: Ledger)
    ensures r == ApplyDiff(step, l, d)
  {
    r := l;
    for i := 0 to |d|
      invariant r == ApplyDiff(step, l, d[..i])
    {
      r := ApplyCommand(step, r, d[i]);
      NextCommand(step, l, d, i);
    }
    assert d[..|d|] == d;
  }

  method ApplyCommand(step: Step, l: Ledger, ds: seq<AccountDiff>) returns (r: Ledger)
    ensures r == ApplyDiffs(step, l, ds)
  {
    r := l;
    for j := 0 to |ds|
      invariant r == ApplyDiffs(step, l, ds[..j])
    {
      assert ds[..j + 1][..j] == ds[..j];
      r := ApplyAccountDiff(step, r, ds[j]);
    }
    assert ds[..|ds|] == ds;
  }

  lemma {:induction false} NextCommand(step: Step, l: Ledger, d: LedgerDiff, i: nat)
    requires i < |d|
    ensures ApplyDiff(step, l, d[..i + 1]) == ApplyDiffs(step, ApplyDiff(step, l, d[..i]), d[i])
  {
    assert d[..i + 1] == d[..i] + [d[i]] && Flatten([d[i]]) == d[i];
    ApplyDiffAppend(step, l, d[..i], [d[i]]);
  }

  // -------------------------------------------------------------- block folds

  /** The ledger after the blocks `hs`, oldest first. */
  ghost function FoldBlocks(step: Step, u: Universe, l: Ledger, hs: seq<StateHash>): Ledger {
    if hs == [] then l
    else
      var before := FoldBlocks(step, u, l, hs[..|hs| - 1]);
      var h := hs[|hs| - 1];
      if h in u then ApplyDiff(step, before, u[h].diff) else before
  }

  /** The ledger at block `h`, given the ledger `l` at its ancestor `a`. */
  ghost function LedgerAt(step: Step, u: Universe, a: StateHash, l: Ledger, h: StateHash): Ledger {
    FoldBlocks(step, u, l, Path(u, a, h))
  }

  lemma {:induction false} FoldBlocksConcat(step: Step, u: Universe, l: Ledger, p: seq<StateHash>, q: seq<StateHash>)
    ensures FoldBlocks(step, u, l, p + q) == FoldBlocks(step, u, FoldBlocks(step, u, l, p), q)
  {
    if q == [] {
      assert p + q == p;
    } else {
      assert (p + q)[..|p + q| - 1] == p + q[..|q| - 1];
      FoldBlocksConcat(step, u, l, p, q[..|q| - 1]);
    }
  }

  /** All the account diffs of the blocks `hs`, in order. */
  ghost function BlockDiffs(u: Universe, hs: seq<StateHash>): seq<AccountDiff> {
    if hs == [] then []
    else
      var h := hs[|hs| - 1];
      BlockDiffs(u, hs[..|hs| - 1]) + if h in u then Flatten(u[h].diff) else []
  }

  lemma {:induction false} FoldBlocksIsApply(step: Step, u: Universe, l: Ledger, hs: seq<StateHash>)
    ensures FoldBlocks(step, u, l, hs) == ApplyDiffs(step, l, BlockDiffs(u, hs))
  {
    if hs != [] {
      var init, h := hs[..|hs| - 1], hs[|hs| - 1];
      FoldBlocksIsApply(step, u, l, init);
      if h in u {
        ApplyDiffsConcat(step, l, BlockDiffs(u, init), Flatten(u[h].diff));
      } else {
        assert BlockDiffs(u, init) + [] == BlockDiffs(u, init);
      }
    }
  }

  lemma {:induction false} FoldBlocksNormal(step: Step, u: Universe, l: Ledger, hs: seq<StateHash>)
    requires KeepsKey(step) && Normal(l)
    ensures Normal(FoldBlocks(step, u, l, hs))
  {
    if hs != [] {
      FoldBlocksNormal(step, u, l, hs[..|hs| - 1]);
      var h := hs[|hs| - 1];
      if h in u {
        ApplyDiffsNormal(step, FoldBlocks(step, u, l, hs[..|hs| - 1]), Flatten(u[h].diff));
      }
    }
  }

  /** Extending a fold along a chain. */
  lemma {:induction false} LedgerAtExtends(step: Step, u: Universe, a: StateHash, l: Ledger, b: StateHash, c: StateHash)
    requires Consistent(u) && Descends(u, a, b) && Descends(u, b, c)
    ensures LedgerAt(step, u, a, l, c) == LedgerAt(step, u, b, LedgerAt(step, u, a, l, b), c)
  {
    DescendsTransitive(u, a, b, c);
    FoldBlocksConcat(step, u, l, Path(u, a, b), Path(u, b, c));
  }
}
