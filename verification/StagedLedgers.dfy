/** Staged ledgers: some blocks have their whole ledger persisted, account by account; for
    any other block the ledger is the nearest persisted one plus the diffs in between. */
module StagedLedgers {
  import opened Accounts
  import opened Blocks
  import opened Ledgers

  /** Key of the balance-sorted column family. */
  type SortKey = (StateHash, TokenAddress, nat, PublicKey)

  type Sorted = map<SortKey, Account>

  /** What the store holds for one account of one ledger. */
  ghost predicate AccountFiled(sorted: Sorted, h: StateHash, l: Ledger, t: TokenAddress, p: PublicKey) {
    forall b: nat ::
      && ((h, t, b, p) in sorted <==> Get(l, t, p).Some? && Get(l, t, p).value.balance == b)
      && ((h, t, b, p) in sorted ==> sorted[(h, t, b, p)] == Get(l, t, p).value)
  }

  /** The entries filed under `h` are the accounts of `l`, each under its balance. */
  ghost predicate Snapshot(sorted: Sorted, h: StateHash, l: Ledger) {
    forall t: TokenAddress, p: PublicKey {:trigger AccountFiled(sorted, h, l, t, p)} :: AccountFiled(sorted, h, l, t, p)
  }

  ghost predicate NoEntries(sorted: Sorted, h: StateHash) {
    Snapshot(sorted, h, map[])
  }

  /** Two ledgers with the same snapshot are equal. */
  lemma {:induction false} SnapshotDetermines(sorted: Sorted, h: StateHash, l: Ledger, l': Ledger)
    requires Normal(l) && Normal(l') && Snapshot(sorted, h, l) && Snapshot(sorted, h, l')
    ensures l == l'
  {
    forall t: TokenAddress, p: PublicKey ensures Get(l, t, p) == Get(l', t, p) {
      assert AccountFiled(sorted, h, l, t, p) && AccountFiled(sorted, h, l', t, p);
      if Get(l, t, p).Some? { assert (h, t, Get(l, t, p).value.balance, p) in sorted; }
      if Get(l', t, p).Some? { assert (h, t, Get(l', t, p).value.balance, p) in sorted; }
    }
    NormalLedgersEqual(l, l');
  }

  // -------------------------------------------------------- writing a snapshot

  ghost predicate HasBalance(l: Ledger, t: TokenAddress, p: PublicKey, b: nat) {
    Get(l, t, p).Some? && Get(l, t, p).value.balance == b
  }

  /** What the store holds for one account once `l` has been written for block `h`: nothing is
      removed, and an entry is overwritten only under the same balance. */
  ghost predicate AccountWritten(sorted: Sorted, sorted0: Sorted, h: StateHash, l: Ledger, t: TokenAddress,
                                 p: PublicKey) {
    forall b: nat ::
      && ((h, t, b, p) in sorted <==> (h, t, b, p) in sorted0 || HasBalance(l, t, p, b))
      && ((h, t, b, p) in sorted ==>
            sorted[(h, t, b, p)] == if HasBalance(l, t, p, b) then Get(l, t, p).value else sorted0[(h, t, b, p)])
  }

  ghost predicate Written(sorted: Sorted, sorted0: Sorted, h: StateHash, l: Ledger) {
    && OthersKept(sorted, sorted0, h)
    && (forall t: TokenAddress, p: PublicKey {:trigger AccountWritten(sorted, sorted0, h, l, t, p)} ::
          AccountWritten(sorted, sorted0, h, l, t, p))
  }

  /** Writing the account of `l` over that of `base` leaves that of `target`: an account is replaced
      only by one with the same balance. */
  ghost predicate OverwrittenAt(l: Ledger, base: Ledger, target: Ledger, t: TokenAddress, p: PublicKey) {
    if Get(l, t, p).None? then Get(target, t, p) == Get(base, t, p)
    else
      && Get(target, t, p) == Get(l, t, p)
      && (Get(base, t, p).Some? ==> Get(base, t, p).value.balance == Get(l, t, p).value.balance)
  }

  ghost predicate Overwritten(l: Ledger, base: Ledger, target: Ledger) {
    forall t: TokenAddress, p: PublicKey {:trigger OverwrittenAt(l, base, target, t, p)} ::
      OverwrittenAt(l, base, target, t, p)
  }

  lemma {:induction false} WrittenAccountIff(sorted: Sorted, sorted0: Sorted, h: StateHash, base: Ledger, l: Ledger,
                                             target: Ledger, t: TokenAddress, p: PublicKey)
    requires AccountWritten(sorted, sorted0, h, l, t, p) && AccountFiled(sorted0, h, base, t, p)
    ensures AccountFiled(sorted, h, target, t, p) <==> OverwrittenAt(l, base, target, t, p)
  {
    if Get(l, t, p).Some? {
      var b := Get(l, t, p).value.balance;
      assert (h, t, b, p) in sorted && sorted[(h, t, b, p)] == Get(l, t, p).value;
    }
    if Get(base, t, p).Some? {
      var b := Get(base, t, p).value.balance;
      assert (h, t, b, p) in sorted0 && (h, t, b, p) in sorted;
      assert !HasBalance(l, t, p, b) ==> sorted[(h, t, b, p)] == Get(base, t, p).value;
    }
    if AccountFiled(sorted, h, target, t, p) && Get(target, t, p).Some? {
      var b := Get(target, t, p).value.balance;
      assert (h, t, b, p) in sorted && sorted[(h, t, b, p)] == Get(target, t, p).value;
    }
    if OverwrittenAt(l, base, target, t, p) {
      forall b: nat
        ensures (h, t, b, p) in sorted <==> HasBalance(target, t, p, b)
        ensures (h, t, b, p) in sorted ==> sorted[(h, t, b, p)] == Get(target, t, p).value
      {
        assert (h, t, b, p) in sorted0 <==> HasBalance(base, t, p, b);
      }
    }
  }

  /** Writing a ledger over a snapshot gives a snapshot of `target` precisely if every account
      that is written has its balance already, or is new. */
  lemma {:induction false} WrittenIff(sorted: Sorted, sorted0: Sorted, h: StateHash, base: Ledger, l: Ledger,
                                      target: Ledger)
    requires Written(sorted, sorted0, h, l) && Snapshot(sorted0, h, base)
    ensures Snapshot(sorted, h, target) <==> Overwritten(l, base, target)
  {
    forall t: TokenAddress, p: PublicKey
      ensures AccountFiled(sorted, h, target, t, p) <==> OverwrittenAt(l, base, target, t, p)
    {
      assert AccountWritten(sorted, sorted0, h, l, t, p) && AccountFiled(sorted0, h, base, t, p);
      WrittenAccountIff(sorted, sorted0, h, base, l, target, t, p);
    }
    if Snapshot(sorted, h, target) {
      forall t: TokenAddress, p: PublicKey ensures OverwrittenAt(l, base, target, t, p) {
        assert AccountFiled(sorted, h, target, t, p);
      }
    }
    if Overwritten(l, base, target) {
      forall t: TokenAddress, p: PublicKey ensures AccountFiled(sorted, h, target, t, p) {
        assert OverwrittenAt(l, base, target, t, p);
      }
    }
  }

  /** Entries under other blocks are as before. */
  ghost predicate OthersKept(sorted: Sorted, sorted0: Sorted, h: StateHash) {
    forall k: SortKey {:trigger OtherKept(sorted, sorted0, h, k)} :: OtherKept(sorted, sorted0, h, k)
  }

  ghost predicate OtherKept(sorted: Sorted, sorted0: Sorted, h: StateHash, k: SortKey) {
    k.0 != h ==> (k in sorted <==> k in sorted0) && (k in sorted ==> sorted[k] == sorted0[k])
  }

  /** `done` are the accounts that have been written. */
  ghost predicate Writing(sorted: Sorted, sorted0: Sorted, h: StateHash, l: Ledger,
                          done: set<(TokenAddress, PublicKey)>) {
    && OthersKept(sorted, sorted0, h)
    && (forall t: TokenAddress, p: PublicKey {:trigger WrittenSoFar(sorted, sorted0, h, l, done, t, p)} ::
          WrittenSoFar(sorted, sorted0, h, l, done, t, p))
  }

  ghost predicate WrittenSoFar(sorted: Sorted, sorted0: Sorted, h: StateHash, l: Ledger,
                               done: set<(TokenAddress, PublicKey)>, t: TokenAddress, p: PublicKey) {
    AccountWritten(sorted, sorted0, h, if (t, p) in done then l else map[], t, p)
  }

  lemma {:induction false} WriteOne(sorted: Sorted, sorted0: Sorted, h: StateHash, l: Ledger,
                                    done: set<(TokenAddress, PublicKey)>, t: TokenAddress, p: PublicKey)
    requires Writing(sorted, sorted0, h, l, done) && (t, p) !in done && Get(l, t, p).Some?
    ensures Writing(sorted[(h, t, Get(l, t, p).value.balance, p) := Get(l, t, p).value], sorted0, h, l, done + {(t, p)})
  {
    var key: SortKey := (h, t, Get(l, t, p).value.balance, p);
    var sorted' := sorted[key := Get(l, t, p).value];
    var done' := done + {(t, p)};
    forall k: SortKey ensures OtherKept(sorted', sorted0, h, k) { assert OtherKept(sorted, sorted0, h, k); }
    forall t': TokenAddress, p': PublicKey ensures WrittenSoFar(sorted', sorted0, h, l, done', t', p') {
      assert WrittenSoFar(sorted, sorted0, h, l, done, t', p');
    }
  }

  ghost predicate AllAccounts(l: Ledger, done: set<(TokenAddress, PublicKey)>) {
    forall t: TokenAddress, p: PublicKey :: (t, p) in done <==> t in l && p in l[t]
  }

  lemma {:induction false} AllWritten(sorted: Sorted, sorted0: Sorted, h: StateHash, l: Ledger,
                                      done: set<(TokenAddress, PublicKey)>)
    requires Writing(sorted, sorted0, h, l, done) && AllAccounts(l, done)
    ensures Written(sorted, sorted0, h, l)
  {
    forall t: TokenAddress, p: PublicKey ensures AccountWritten(sorted, sorted0, h, l, t, p) {
      assert WrittenSoFar(sorted, sorted0, h, l, done, t, p);
      assert ((t, p) in done) == Get(l, t, p).Some?;
    }
  }

  lemma {:induction false} OthersSnapshot(sorted: Sorted, sorted0: Sorted, h: StateHash, x: StateHash, lx: Ledger)
    requires OthersKept(sorted, sorted0, h) && x != h
    ensures Snapshot(sorted0, x, lx) <==> Snapshot(sorted, x, lx)
  {
    forall t: TokenAddress, p: PublicKey ensures AccountFiled(sorted0, x, lx, t, p) <==>
        AccountFiled(sorted, x, lx, t, p) {
      forall b: nat ensures OtherKept(sorted, sorted0, h, (x, t, b, p)) {}
    }
    if Snapshot(sorted0, x, lx) {
      forall t: TokenAddress, p: PublicKey ensures AccountFiled(sorted, x, lx, t, p) {
        assert AccountFiled(sorted0, x, lx, t, p);
      }
    }
    if Snapshot(sorted, x, lx) {
      forall t: TokenAddress, p: PublicKey ensures AccountFiled(sorted0, x, lx, t, p) {
        assert AccountFiled(sorted, x, lx, t, p);
      }
    }
  }

  /** Every account of the ledger, token by token. */
  method WriteAccounts(sorted0: Sorted, h: StateHash, l: Ledger) returns (sorted: Sorted)
    ensures Written(sorted, sorted0, h, l)
  {
    sorted := sorted0;
    ghost var done: set<(TokenAddress, PublicKey)> := {};
    WriteNone(sorted0, h, l);
    var tokens := l.Keys;
    while tokens != {}
      invariant tokens <= l.Keys && Writing(sorted, sorted0, h, l, done)
      invariant forall t: TokenAddress, p: PublicKey :: (t, p) in done <==> t in l && t !in tokens && p in l[t]
      decreases |tokens|
    {
      var t :| t in tokens;
      tokens := tokens - {t};
      var pks := l[t].Keys;
      ghost var before := done;
      while pks != {}
        invariant pks <= l[t].Keys && Writing(sorted, sorted0, h, l, done)
        invariant forall t': TokenAddress, p: PublicKey ::
                    (t', p) in done <==> (t', p) in before || (t' == t && p in l[t] && p !in pks)
        decreases |pks|
      {
        var p :| p in pks;
        WriteOne(sorted, sorted0, h, l, done, t, p);
        sorted := sorted[(h, t, l[t][p].balance, p) := l[t][p]];
        pks, done := pks - {p}, done + {(t, p)};
      }
    }
    AllWritten(sorted, sorted0, h, l, done);
  }

  lemma {:induction false} WriteNone(sorted0: Sorted, h: StateHash, l: Ledger)
    ensures Writing(sorted0, sorted0, h, l, {})
  {
    forall k: SortKey ensures OtherKept(sorted0, sorted0, h, k) {}
    forall t: TokenAddress, p: PublicKey ensures WrittenSoFar(sorted0, sorted0, h, l, {}, t, p) {}
  }

  // -------------------------------------------------------- reading a snapshot

  /** Every account of `l` whose entry is not in `keys` has been read. */
  ghost predicate Reading(sorted: Sorted, h: StateHash, l: Ledger, keys: set<SortKey>, r: Ledger) {
    forall t: TokenAddress, p: PublicKey {:trigger Read(h, l, keys, r, t, p)} :: Read(h, l, keys, r, t, p)
  }

  ghost predicate Read(h: StateHash, l: Ledger, keys: set<SortKey>, r: Ledger, t: TokenAddress, p: PublicKey) {
    Get(r, t, p) == if Get(l, t, p).Some? && (h, t, Get(l, t, p).value.balance, p) !in keys then Get(l, t, p) else None
  }

  lemma {:induction false} ReadOne(sorted: Sorted, h: StateHash, l: Ledger, keys: set<SortKey>, r: Ledger, k: SortKey)
    requires Normal(l) && Snapshot(sorted, h, l) && Reading(sorted, h, l, keys, r) && k in keys && k in sorted
    requires k.0 == h
    requires forall x :: x in keys ==> x in sorted && x.0 == h
    ensures Reading(sorted, h, l, keys - {k}, InsertAccount(r, sorted[k], k.1))
  {
    var t, p := k.1, k.3;
    assert AccountFiled(sorted, h, l, t, p) && k == (h, t, k.2, p);
    assert sorted[k] == Get(l, t, p).value && sorted[k].publicKey == p;
    var r' := InsertAccount(r, sorted[k], t);
    forall t': TokenAddress, p': PublicKey ensures Read(h, l, keys - {k}, r', t', p') {
      assert Read(h, l, keys, r, t', p');
    }
  }

  /** Reads all entries of a block, in any order, into a new ledger. */
  method BuildStagedLedger(sorted: Sorted, h: StateHash, ghost l: Ledger) returns (r: Ledger)
    requires Normal(l) && Snapshot(sorted, h, l)
    ensures r == l
  {
    r := map[];
    var keys := set k | k in sorted && k.0 == h;
    ReadNone(sorted, h, l, keys);
    while keys != {}
      invariant forall x :: x in keys ==> x in sorted && x.0 == h
      invariant Reading(sorted, h, l, keys, r) && Normal(r)
      decreases |keys|
    {
      var k :| k in keys;
      ReadOne(sorted, h, l, keys, r, k);
      InsertNormal(r, sorted[k], k.1);
      r := InsertAccount(r, sorted[k], k.1);
      keys := keys - {k};
    }
    AllRead(sorted, h, l, r);
  }

  lemma {:induction false} ReadNone(sorted: Sorted, h: StateHash, l: Ledger, keys: set<SortKey>)
    requires Snapshot(sorted, h, l) && forall k :: k in keys <==> k in sorted && k.0 == h
    ensures Reading(sorted, h, l, keys, map[])
  {
    forall t: TokenAddress, p: PublicKey ensures Read(h, l, keys, map[], t, p) {
      assert AccountFiled(sorted, h, l, t, p);
    }
  }

  lemma {:induction false} AllRead(sorted: Sorted, h: StateHash, l: Ledger, r: Ledger)
    requires Normal(l) && Normal(r) && Reading(sorted, h, l, {}, r)
    ensures r == l
  {
    forall t: TokenAddress, p: PublicKey ensures Get(r, t, p) == Get(l, t, p) { assert Read(h, l, {}, r, t, p); }
    NormalLedgersEqual(r, l);
  }

  lemma {:induction false} InsertNormal(l: Ledger, a: Account, token: TokenAddress)
    requires Normal(l)
    ensures Normal(InsertAccount(l, a, token))
  {
    var r: Ledger := InsertAccount(l, a, token);
    forall t: TokenAddress, p: PublicKey | t in r && p in r[t] ensures r[t][p].publicKey == p {
      assert Get(r, t, p) == Some(r[t][p]);
    }
    forall t: TokenAddress | t in r ensures r[t] != map[] {
      if t == token { assert a.publicKey in r[t]; } else { assert r[t] == l[t]; }
    }
  }
}
