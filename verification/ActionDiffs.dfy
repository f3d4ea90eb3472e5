/** Where the two account steps part: an actions diff writes the action slots of an account in
    a ledger, and nothing in the stored best ledger. */
module ActionDiffs {
  import opened Accounts

  /** The account was given a zkapp part by some diff other than an actions diff. */
  predicate WrittenTo(ds: seq<AccountDiff>) {
    exists i :: 0 <= i < |ds| && WritesZkapp(ds[i])
  }

  predicate ProvedByWrite(ds: seq<AccountDiff>) {
    exists i :: 0 <= i < |ds| && WritesZkapp(ds[i]) && ds[i].proved
  }

  predicate HasActions(ds: seq<AccountDiff>) {
    exists i :: 0 <= i < |ds| && ds[i].ZkappActions?
  }

  predicate ProvedByActions(ds: seq<AccountDiff>) {
    exists i :: 0 <= i < |ds| && ds[i].ZkappActions? && ds[i].proved
  }

  /** The action slots after all the actions diffs. */
  function SlotsAfter(slots: seq<string>, ds: seq<AccountDiff>): seq<string> {
    if ds == [] then slots
    else
      var before, d := SlotsAfter(slots, ds[..|ds| - 1]), ds[|ds| - 1];
      if d.ZkappActions? then WriteActions(before, d.actions) else before
  }

  /** The actions diffs among `ds` change nothing of account `a`: it is, or is made, a zkapp
      account by other means, with the slots and the proved flag that they write. */
  predicate ActionsIdle(a: Account, ds: seq<AccountDiff>) {
    HasActions(ds) ==>
      && (a.zkapp.Some? || WrittenTo(ds))
      && SlotsAfter(ZkappOf(a).actionState, ds) == ZkappOf(a).actionState
      && (ProvedByActions(ds) ==> ZkappOf(a).proved || ProvedByWrite(ds))
  }

  /** What the diffs of an account have done to its zkapp part. */
  datatype Marks = Marks(written: bool, provedByWrite: bool, actions: bool, provedByActions: bool, slots: seq<string>)

  function MarksOf(a: Account, ds: seq<AccountDiff>): Marks {
    Marks(WrittenTo(ds), ProvedByWrite(ds), HasActions(ds), ProvedByActions(ds), SlotsAfter(ZkappOf(a).actionState, ds))
  }

  function NextMarks(m: Marks, d: AccountDiff): Marks {
    Marks(m.written || WritesZkapp(d), m.provedByWrite || (WritesZkapp(d) && d.proved),
          m.actions || d.ZkappActions?, m.provedByActions || (d.ZkappActions? && d.proved),
          if d.ZkappActions? then WriteActions(m.slots, d.actions) else m.slots)
  }

  /** How the account of the ledger, `inLedger`, and that of the store, `stored`, are related
      when both started as `a`. */
  ghost predicate Related(a: Account, m: Marks, inLedger: Account, stored: Account) {
    && inLedger.(zkapp := None) == stored.(zkapp := None)
    && (stored.zkapp.Some? <==> a.zkapp.Some? || m.written)
    && (inLedger.zkapp.Some? <==> stored.zkapp.Some? || m.actions)
    && ZkappRelated(ZkappOf(a), m, ZkappOf(inLedger), ZkappOf(stored))
  }

  ghost predicate ZkappRelated(z: Zkapp, m: Marks, inLedger: Zkapp, stored: Zkapp) {
    && stored.actionState == z.actionState
    && inLedger.actionState == m.slots
    && stored.proved == (z.proved || m.provedByWrite)
    && inLedger.proved == (stored.proved || m.provedByActions)
    && inLedger.(actionState := [], proved := false) == stored.(actionState := [], proved := false)
  }

  lemma {:induction false} LastDiff(a: Account, ds: seq<AccountDiff>)
    requires ds != []
    ensures MarksOf(a, ds) == NextMarks(MarksOf(a, ds[..|ds| - 1]), ds[|ds| - 1])
  {
    var init := ds[..|ds| - 1];
    assert ds == init + [ds[|ds| - 1]];
  }

  lemma {:induction false} ZkappRelatedStep(z: Zkapp, m: Marks, inLedger: Zkapp, stored: Zkapp, d: AccountDiff)
    requires ZkappRelated(z, m, inLedger, stored)
    ensures ZkappRelated(z, NextMarks(m, d), ZkappWritten(inLedger, d),
                         if d.ZkappActions? then stored else ZkappWritten(stored, d))
  {}

  lemma {:induction false} RelatedStep(a: Account, m: Marks, inLedger: Account, stored: Account, d: AccountDiff)
    requires Related(a, m, inLedger, stored)
    ensures Related(a, NextMarks(m, d), Applied(inLedger, d), BestApplied(stored, d))
  {
    ZkappRelatedStep(ZkappOf(a), m, ZkappOf(inLedger), ZkappOf(stored), d);
    RestIgnoresZkapp(inLedger, stored, d);
  }

  /** The other diffs neither read nor write the zkapp part. */
  lemma {:induction false} RestIgnoresZkapp(x: Account, y: Account, d: AccountDiff)
    requires x.(zkapp := None) == y.(zkapp := None)
    ensures RestApplied(x, d).(zkapp := None) == RestApplied(y, d).(zkapp := None)
    ensures RestApplied(x, d).zkapp == x.zkapp
    ensures RestApplied(y, d).zkapp == y.zkapp
  {}

  lemma {:induction false} FoldsRelated(a: Account, ds: seq<AccountDiff>)
    ensures Related(a, MarksOf(a, ds), FoldAccount(Applied, a, ds), FoldAccount(BestApplied, a, ds))
  {
    if ds != [] {
      var init := ds[..|ds| - 1];
      FoldsRelated(a, init);
      LastDiff(a, ds);
      RelatedStep(a, MarksOf(a, init), FoldAccount(Applied, a, init), FoldAccount(BestApplied, a, init), ds[|ds| - 1]);
    }
  }

  /** The two accounts are the same precisely if the actions diffs are idle. */
  lemma {:induction false} FoldsAgreeIff(a: Account, ds: seq<AccountDiff>)
    ensures FoldAccount(Applied, a, ds) == FoldAccount(BestApplied, a, ds) <==> ActionsIdle(a, ds)
  {
    FoldsRelated(a, ds);
    if !HasActions(ds) { NoActions(a, ds); }
    RelatedEqualIff(a, MarksOf(a, ds), FoldAccount(Applied, a, ds), FoldAccount(BestApplied, a, ds));
  }

  lemma {:induction false} RelatedEqualIff(a: Account, m: Marks, inLedger: Account, stored: Account)
    requires Related(a, m, inLedger, stored)
    requires !m.actions ==> m.slots == ZkappOf(a).actionState && !m.provedByActions
    ensures inLedger == stored <==>
            (m.actions ==>
              && (a.zkapp.Some? || m.written)
              && m.slots == ZkappOf(a).actionState
              && (m.provedByActions ==> ZkappOf(a).proved || m.provedByWrite))
  {}

  lemma {:induction false} NoActions(a: Account, ds: seq<AccountDiff>)
    requires !HasActions(ds)
    ensures SlotsAfter(ZkappOf(a).actionState, ds) == ZkappOf(a).actionState && !ProvedByActions(ds)
  {
    if ds != [] {
      LastDiff(a, ds);
      NoActions(a, ds[..|ds| - 1]);
    }
  }
}
