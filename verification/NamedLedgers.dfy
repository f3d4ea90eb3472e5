/** Usernames on the MINA accounts of a ledger.  No diff reads or writes them, so a ledger with
    usernames may be taken apart: into the fold of its diffs, and the names. */
module NamedLedgers {
  import opened Accounts
  import opened Ledgers

  type Names = map<PublicKey, Username>

  function WithName(a: Account, p: PublicKey, m: Names): Account {
    if p in m then a.(username := Some(m[p])) else a
  }

  /** The ledger with the usernames `m` on its MINA accounts. */
  function Named(l: Ledger, m: Names): Ledger {
    map t: TokenAddress | t in l ::
      if t == MINA_TOKEN then map p: PublicKey | p in l[t] :: WithName(l[t][p], p, m) else l[t]
  }

  function NamedIf(a: Option<Account>, t: TokenAddress, p: PublicKey, m: Names): Option<Account> {
    if a.Some? && t == MINA_TOKEN then Some(WithName(a.value, p, m)) else a
  }

  lemma {:induction false} NamedGet(l: Ledger, m: Names, t: TokenAddress, p: PublicKey)
    ensures Get(Named(l, m), t, p) == NamedIf(Get(l, t, p), t, p, m)
  {}

  lemma {:induction false} NamedNormal(l: Ledger, m: Names)
    requires Normal(l)
    ensures Normal(Named(l, m))
  {
    var r: Ledger := Named(l, m);
    forall t: TokenAddress, p: PublicKey | t in r && p in r[t] ensures r[t][p].publicKey == p {
      assert t in l && p in l[t] && l[t][p].publicKey == p;
    }
    forall t: TokenAddress | t in r ensures r[t] != map[] {
      var p :| p in l[t];
      assert p in r[t];
    }
  }

  lemma {:induction false} NoNames(l: Ledger)
    requires Normal(l)
    ensures Named(l, map[]) == l
  {
    NamedNormal(l, map[]);
    forall t: TokenAddress, p: PublicKey ensures Get(Named(l, map[]), t, p) == Get(l, t, p) {
      NamedGet(l, map[], t, p);
    }
    NormalLedgersEqual(Named(l, map[]), l);
  }

  /** Every key with a name has a MINA account. */
  ghost predicate Covers(l: Ledger, m: Names) {
    forall p {:trigger Get(l, MINA_TOKEN, p)} :: p in m ==> Get(l, MINA_TOKEN, p).Some?
  }

  /** The step neither reads nor writes the username. */
  ghost predicate Nameless(step: Step) {
    forall a, d, n {:trigger NamelessAt(step, a, d, n)} :: NamelessAt(step, a, d, n)
  }

  ghost predicate NamelessAt(step: Step, a: Account, d: AccountDiff, n: Option<Username>) {
    step(a.(username := n), d) == step(a, d).(username := n)
  }

  lemma {:induction false} AppliedNameless(a: Account, d: AccountDiff, n: Option<Username>)
    ensures Applied(a.(username := n), d) == Applied(a, d).(username := n)
  {
    RestNameless(a, d, n);
    assert ZkappOf(a.(username := n)) == ZkappOf(a);
  }

  lemma {:induction false} RestNameless(a: Account, d: AccountDiff, n: Option<Username>)
    ensures RestApplied(a.(username := n), d) == RestApplied(a, d).(username := n)
  {}

  lemma {:induction false} StepsNameless()
    ensures Nameless(Applied)
  {
    forall a, d, n ensures NamelessAt(Applied, a, d, n) { AppliedNameless(a, d, n); }
  }

  // ------------------------------------------------------------- applying diffs

  lemma {:induction false} NamedStep(step: Step, a: Account, d: AccountDiff, p: PublicKey, m: Names)
    requires Nameless(step)
    ensures step(WithName(a, p, m), d) == WithName(step(a, d), p, m)
  {
    if p in m { assert NamelessAt(step, a, d, Some(m[p])); }
  }

  lemma {:induction false} NamedDiffAt(step: Step, l: Ledger, m: Names, d: AccountDiff, t: TokenAddress, p: PublicKey)
    requires KeepsKey(step) && Nameless(step) && Normal(l) && Covers(l, m)
    ensures Get(ApplyAccountDiff(step, Named(l, m), d), t, p) == Get(Named(ApplyAccountDiff(step, l, d), m), t, p)
  {
    NamedNormal(l, m);
    NamedGet(l, m, t, p);
    NamedGet(ApplyAccountDiff(step, l, d), m, t, p);
    ApplyAccountDiffGet(step, l, d, t, p);
    ApplyAccountDiffGet(step, Named(l, m), d, t, p);
    if Get(l, t, p).Some? { NamedStep(step, Get(l, t, p).value, d, p, m); }
  }

  lemma {:induction false} DiffCovers(step: Step, l: Ledger, m: Names, d: AccountDiff)
    requires KeepsKey(step) && Normal(l) && Covers(l, m)
    ensures Covers(ApplyAccountDiff(step, l, d), m)
  {
    forall p | p in m ensures Get(ApplyAccountDiff(step, l, d), MINA_TOKEN, p).Some? {
      ApplyAccountDiffGet(step, l, d, MINA_TOKEN, p);
    }
  }

  lemma {:induction false} NamedDiff(step: Step, l: Ledger, m: Names, d: AccountDiff)
    requires KeepsKey(step) && Nameless(step) && Normal(l) && Covers(l, m)
    ensures ApplyAccountDiff(step, Named(l, m), d) == Named(ApplyAccountDiff(step, l, d), m)
  {
    NamedNormal(l, m);
    ApplyAccountDiffNormal(step, l, d);
    ApplyAccountDiffNormal(step, Named(l, m), d);
    NamedNormal(ApplyAccountDiff(step, l, d), m);
    forall t: TokenAddress, p: PublicKey
      ensures Get(ApplyAccountDiff(step, Named(l, m), d), t, p) == Get(Named(ApplyAccountDiff(step, l, d), m), t, p)
    {
      NamedDiffAt(step, l, m, d, t, p);
    }
    NormalLedgersEqual(ApplyAccountDiff(step, Named(l, m), d), Named(ApplyAccountDiff(step, l, d), m));
  }

  /** Diffs leave the usernames where they are. */
  lemma {:induction false} NamedDiffs(step: Step, l: Ledger, m: Names, ds: seq<AccountDiff>)
    requires KeepsKey(step) && Nameless(step) && Normal(l) && Covers(l, m)
    ensures ApplyDiffs(step, Named(l, m), ds) == Named(ApplyDiffs(step, l, ds), m)
    ensures Covers(ApplyDiffs(step, l, ds), m)
  {
    if ds != [] {
      var init := ds[..|ds| - 1];
      NamedDiffs(step, l, m, init);
      ApplyDiffsNormal(step, l, init);
      NamedDiff(step, ApplyDiffs(step, l, init), m, ds[|ds| - 1]);
      DiffCovers(step, ApplyDiffs(step, l, init), m, ds[|ds| - 1]);
    }
  }

  // ------------------------------------------------------------- writing usernames

  /** The names after a block's updates are written to the keys that have a MINA account. */
  function Renamed(m: Names, updates: Names, l: Ledger): Names {
    map p | p in m.Keys + updates.Keys && (p in m || Get(l, MINA_TOKEN, p).Some?) ::
      if p in updates && Get(l, MINA_TOKEN, p).Some? then updates[p] else m[p]
  }

  lemma {:induction false} RenamedCovers(m: Names, updates: Names, l: Ledger)
    requires Covers(l, m)
    ensures Covers(l, Renamed(m, updates, l))
  {}

  /** What becomes of the name of `p` once all updates but those of `todo` are written. */
  ghost predicate RenamedAt(r: Names, m: Names, updates: Names, todo: set<PublicKey>, l: Ledger, p: PublicKey) {
    var written := p in updates && p !in todo && Get(l, MINA_TOKEN, p).Some?;
    && (p in r <==> p in m || written)
    && (p in r ==> r[p] == if written then updates[p] else m[p])
  }

  ghost predicate Renaming(r: Names, m: Names, updates: Names, todo: set<PublicKey>, l: Ledger) {
    forall p {:trigger RenamedAt(r, m, updates, todo, l, p)} :: RenamedAt(r, m, updates, todo, l, p)
  }

  lemma {:induction false} RenamingNext(r: Names, m: Names, updates: Names, todo: set<PublicKey>, l: Ledger,
                                        p: PublicKey)
    requires Renaming(r, m, updates, todo, l) && p in todo && p in updates
    ensures Renaming(if Get(l, MINA_TOKEN, p).Some? then r[p := updates[p]] else r, m, updates, todo - {p}, l)
  {
    var r' := if Get(l, MINA_TOKEN, p).Some? then r[p := updates[p]] else r;
    forall q ensures RenamedAt(r', m, updates, todo - {p}, l, q) { assert RenamedAt(r, m, updates, todo, l, q); }
  }

  lemma {:induction false} RenamingDone(r: Names, m: Names, updates: Names, l: Ledger)
    requires Renaming(r, m, updates, {}, l)
    ensures r == Renamed(m, updates, l)
  {
    forall p ensures (p in r <==> p in Renamed(m, updates, l)) && (p in r ==> r[p] == Renamed(m, updates, l)[p]) {
      assert RenamedAt(r, m, updates, {}, l, p);
    }
  }

  /** Writes the usernames that a block sets to the keys that have a MINA account in the ledger. */
  method WriteUsernames(m: Names, updates: Names, l: Ledger) returns (r: Names)
    ensures r == Renamed(m, updates, l)
  {
    r := m;
    var todo := updates.Keys;
    forall p ensures RenamedAt(r, m, updates, todo, l, p) {}
    while todo != {}
      invariant todo <= updates.Keys && Renaming(r, m, updates, todo, l)
      decreases |todo|
    {
      var p :| p in todo;
      RenamingNext(r, m, updates, todo, l, p);
      if Get(l, MINA_TOKEN, p).Some? { r := r[p := updates[p]]; }
      todo := todo - {p};
    }
    RenamingDone(r, m, updates, l);
  }
}
