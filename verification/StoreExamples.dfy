/** Runs of the store that leave an index wrong. */
module StoreExamples {
  import opened Accounts
  import opened Blocks
  import opened WitnessChains
  import opened Ledgers
  import opened ChainIndexes
  import opened IndexerStores
  import opened BestLedgers
  import opened BestLedgerStores

  const GENESIS: Pcb := Plain("g", "-", 1)
  const CHILD: Pcb := Plain("a", "g", 2)
  const GRANDCHILD: Pcb := Plain("b", "a", 3)

  const TWO_BLOCKS: Universe := map["g" := GENESIS, "a" := CHILD]
  const THREE_BLOCKS: Universe := map["g" := GENESIS, "a" := CHILD, "b" := GRANDCHILD]

  lemma {:induction false} TwoBlocksFit()
    ensures Consistent(TWO_BLOCKS) && Ascending(TWO_BLOCKS)
  {
    var u := TWO_BLOCKS;
    assert "g" in u && forall h :: h in u ==> u[h].genesisHash == "g";
  }

  lemma {:induction false} ThreeBlocksFit()
    ensures Consistent(THREE_BLOCKS) && Ascending(THREE_BLOCKS)
    ensures Descends(THREE_BLOCKS, "g", "b")
  {
    var u := THREE_BLOCKS;
    assert "g" in u && forall h :: h in u ==> u[h].genesisHash == "g";
    assert Linked(u, "g") && Linked(u, "a") && Linked(u, "b");
    assert Descends(u, "g", "g") && Descends(u, "g", "a");
  }

  /** A best tip two blocks higher than the last one leaves a height out of the canonicity
      index. */
  method RiseByTwo() returns (store: IndexerStore)
    ensures store.Valid() && store.bestTip == Some("b") && !store.HeightsExact()
  {
    var info := BlockInfo("pk", 0, map[], 0, 0);
    store := new IndexerStore(GENESIS, info);
    TwoBlocksFit();
    ThreeBlocksFit();
    assert map["g" := GENESIS]["a" := CHILD] == TWO_BLOCKS && TWO_BLOCKS["b" := GRANDCHILD] == THREE_BLOCKS;
    store.AddBlock(CHILD, info);
    store.AddBlock(GRANDCHILD, info);
    var ok, _ := store.SetBestBlock("b");
  }

  /** Loading a second genesis ledger with another balance for an account leaves a stale entry
      in the balance-sort index. */
  method ReloadWithOtherBalance() returns (store: BestLedgerStore)
    ensures !BothExact(store.accounts, store.sort, store.zkappSort)
  {
    var poor := EmptyAccount("pk", "mina").(balance := 1);
    var rich := poor.(balance := 2);
    var first: Ledger, second: Ledger := map["mina" := map["pk" := poor]], map["mina" := map["pk" := rich]];
    store := new BestLedgerStore();
    EmptyLoadsCleanly(first);
    store.LoadGenesis(first);
    ghost var accounts := store.accounts;
    assert MergedAt(accounts, map[], first, "mina", "pk") && Get(first, "mina", "pk") == Some(poor);
    assert Get(second, "mina", "pk") == Some(rich);
    assert !CleanAt(accounts, second, "mina", "pk");
    store.LoadGenesis(second);
  }

  /** An actions diff to an account that is no zkapp account makes it one in the ledger and not
      in the stored best ledger. */
  method ActionsMissed() returns (store: BestLedgerStore)
    ensures Holds(store.accounts, ApplyDiffs(BestApplied, map[], ACTIONS_ONLY))
    ensures !Holds(store.accounts, ApplyDiffs(Applied, map[], ACTIONS_ONLY))
  {
    store := new BestLedgerStore();
    forall t: TokenAddress, p: PublicKey ensures HoldsAt(map[], map[], t, p) {}
    assert Filter(ACTIONS_ONLY[..0], MINA_TOKEN, "pk") == [];
    assert Filter(ACTIONS_ONLY, MINA_TOKEN, "pk") == ACTIONS_ONLY && ACTIONS_ONLY[0].ZkappActions?;
    assert !IdleAt(map[], ACTIONS_ONLY, MINA_TOKEN, "pk");
    store.ApplyBlock(ACTIONS_ONLY, map[]);
  }

  const ACTIONS_ONLY: seq<AccountDiff> := [ZkappActions("pk", false, ["action"])]
}
