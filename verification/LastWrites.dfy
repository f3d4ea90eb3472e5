/** What an account looks like after a list of its diffs, told without the account steps: each
    field holds what the last diff that writes it wrote. */
module LastWrites {
  import opened Accounts
  import opened Ledgers
  import opened Unapplying
  import opened Restoring
  import opened BestLedgers

  // ------------------------------------------------------------- the last writer

  ghost predicate NoneWrites<T(!new)>(ds: seq<AccountDiff>, writes: AccountDiff -> Option<T>) {
    forall i :: 0 <= i < |ds| ==> writes(ds[i]).None?
  }

  ghost predicate LastWrite<T(!new)>(ds: seq<AccountDiff>, writes: AccountDiff -> Option<T>, k: nat, v: T) {
    k < |ds| && writes(ds[k]) == Some(v) && forall i :: k < i < |ds| ==> writes(ds[i]).None?
  }

  /** `v` is what the last writing diff writes, or `before` if none writes. */
  ghost predicate WrittenLast<T(!new)>(ds: seq<AccountDiff>, writes: AccountDiff -> Option<T>, before: T, v: T) {
    if NoneWrites(ds, writes) then v == before
    else exists k: nat {:trigger LastWrite(ds, writes, k, v)} :: LastWrite(ds, writes, k, v)
  }

  lemma {:induction false} WrittenNext<T(!new)>(ds: seq<AccountDiff>, writes: AccountDiff -> Option<T>, before: T, v: T,
                                                now: T)
    requires ds != [] && WrittenLast(ds[..|ds| - 1], writes, before, v)
    requires now == (if writes(ds[|ds| - 1]).Some? then writes(ds[|ds| - 1]).value else v)
    ensures WrittenLast(ds, writes, before, now)
  {
    var init, n := ds[..|ds| - 1], |ds| - 1;
    if writes(ds[n]).Some? {
      assert LastWrite(ds, writes, n, now);
    } else if NoneWrites(init, writes) {
      assert NoneWrites(ds, writes);
    } else {
      var k: nat :| LastWrite(init, writes, k, v);
      assert LastWrite(ds, writes, k, v) && writes(ds[k]).Some?;
    }
  }

  /** On accounts with `keeps`, every step writes what `writes` says, and nothing else, to `field`. */
  ghost predicate StepWrites<T(!new)>(step: Step, keeps: Account -> bool, field: Account -> T,
                                      writes: AccountDiff -> Option<T>) {
    forall a, d {:trigger step(a, d)} :: keeps(a) ==>
      keeps(step(a, d)) && field(step(a, d)) == if writes(d).Some? then writes(d).value else field(a)
  }

  lemma {:induction false} FoldWrites<T(!new)>(step: Step, keeps: Account -> bool, field: Account -> T,
                                               writes: AccountDiff -> Option<T>, a: Account, ds: seq<AccountDiff>)
    requires StepWrites(step, keeps, field, writes) && keeps(a)
    ensures keeps(FoldAccount(step, a, ds))
    ensures WrittenLast(ds, writes, field(a), field(FoldAccount(step, a, ds)))
  {
    if ds != [] {
      var init, d := ds[..|ds| - 1], ds[|ds| - 1];
      FoldWrites(step, keeps, field, writes, a, init);
      var before := FoldAccount(step, a, init);
      WrittenNext(ds, writes, field(a), field(before), field(step(before, d)));
    }
  }

  // ------------------------------------------------------------- who writes what

  function DelegateBy(d: AccountDiff): Option<PublicKey> {
    if d.Delegation? then Some(d.delegate) else None
  }

  function PermissionsBy(d: AccountDiff): Option<Option<string>> {
    if d.ZkappPermissions? then Some(Some(d.permissions)) else None
  }

  function TimingBy(d: AccountDiff): Option<Option<string>> {
    if d.ZkappTiming? then Some(Some(d.timing)) else None
  }

  function SymbolBy(d: AccountDiff): Option<Option<string>> {
    if d.ZkappTokenSymbol? then Some(Some(d.symbol)) else None
  }

  function VotingForBy(d: AccountDiff): Option<Option<string>> {
    if d.ZkappVotingFor? then Some(Some(d.votingFor)) else None
  }

  function KeyBy(d: AccountDiff): Option<string> {
    if d.ZkappVerificationKey? then Some(d.key) else None
  }

  function UriBy(d: AccountDiff): Option<string> {
    if d.ZkappUri? then Some(d.uri) else None
  }

  /** A state diff writes the slots for which it has a value. */
  function StateBy(j: nat): AccountDiff -> Option<string> {
    (d: AccountDiff) => if d.ZkappState? && j < |d.states| then d.states[j] else None
  }

  ghost predicate InSlot(n: nat, j: nat, i: nat) {
    n > 0 && i % n == j
  }

  /** Action `i` is the last of those that go to slot `j` of `n`. */
  ghost predicate LastInSlot(actions: seq<string>, n: nat, j: nat, i: nat) {
    && i < |actions| && InSlot(n, j, i)
    && forall m: nat {:trigger InSlot(n, j, m)} :: i < m < |actions| ==> !InSlot(n, j, m)
  }

  ghost function ActionIn(actions: seq<string>, n: nat, j: nat): Option<string> {
    if exists i: nat :: LastInSlot(actions, n, j, i)
    then var i: nat :| LastInSlot(actions, n, j, i); Some(actions[i])
    else None
  }

  ghost function ActionBy(n: nat, j: nat): AccountDiff -> Option<string> {
    (d: AccountDiff) => if d.ZkappActions? then ActionIn(d.actions, n, j) else None
  }

  /** A diff of the zkapp part makes the account a zkapp account; in the stored best ledger an
      actions diff does not. */
  predicate MakesZkapp(best: bool, d: AccountDiff) {
    d.ZkappState? || d.ZkappVerificationKey? || d.ZkappUri? || (d.ZkappActions? && !best)
  }

  predicate Proves(best: bool, d: AccountDiff) {
    MakesZkapp(best, d) && d.proved
  }

  // ------------------------------------------------------- outside the zkapp part

  function StepOf(best: bool): Step {
    if best then BestApplied else Applied
  }

  ghost predicate RestWritten(a: Account, ds: seq<AccountDiff>, b: Account) {
    && WrittenLast(ds, DelegateBy, a.delegate, b.delegate)
    && WrittenLast(ds, PermissionsBy, a.permissions, b.permissions)
    && WrittenLast(ds, TimingBy, a.timing, b.timing)
    && WrittenLast(ds, SymbolBy, a.tokenSymbol, b.tokenSymbol)
    && WrittenLast(ds, VotingForBy, a.votingFor, b.votingFor)
    && b.publicKey == a.publicKey && b.token == a.token && b.username == a.username && b.other == a.other
  }

  predicate Always(a: Account) {
    true
  }

  lemma {:induction false} DelegateWritten(best: bool, a: Account, ds: seq<AccountDiff>)
    ensures WrittenLast(ds, DelegateBy, a.delegate, FoldAccount(StepOf(best), a, ds).delegate)
  {
    FoldWrites(StepOf(best), Always, (x: Account) => x.delegate, DelegateBy, a, ds);
  }

  lemma {:induction false} PermissionsWritten(best: bool, a: Account, ds: seq<AccountDiff>)
    ensures WrittenLast(ds, PermissionsBy, a.permissions, FoldAccount(StepOf(best), a, ds).permissions)
  {
    FoldWrites(StepOf(best), Always, (x: Account) => x.permissions, PermissionsBy, a, ds);
  }

  lemma {:induction false} TimingWritten(best: bool, a: Account, ds: seq<AccountDiff>)
    ensures WrittenLast(ds, TimingBy, a.timing, FoldAccount(StepOf(best), a, ds).timing)
  {
    FoldWrites(StepOf(best), Always, (x: Account) => x.timing, TimingBy, a, ds);
  }

  lemma {:induction false} SymbolWritten(best: bool, a: Account, ds: seq<AccountDiff>)
    ensures WrittenLast(ds, SymbolBy, a.tokenSymbol, FoldAccount(StepOf(best), a, ds).tokenSymbol)
  {
    FoldWrites(StepOf(best), Always, (x: Account) => x.tokenSymbol, SymbolBy, a, ds);
  }

  lemma {:induction false} VotingForWritten(best: bool, a: Account, ds: seq<AccountDiff>)
    ensures WrittenLast(ds, VotingForBy, a.votingFor, FoldAccount(StepOf(best), a, ds).votingFor)
  {
    FoldWrites(StepOf(best), Always, (x: Account) => x.votingFor, VotingForBy, a, ds);
  }

  lemma {:induction false} HolderKept(best: bool, a: Account, ds: seq<AccountDiff>)
    ensures SameHolder(a, FoldAccount(StepOf(best), a, ds))
    ensures FoldAccount(StepOf(best), a, ds).publicKey == a.publicKey
  {
    if ds != [] {
      HolderKept(best, a, ds[..|ds| - 1]);
      HolderStep(best, FoldAccount(StepOf(best), a, ds[..|ds| - 1]), ds[|ds| - 1]);
    }
  }

  lemma {:induction false} HolderStep(best: bool, a: Account, d: AccountDiff)
    ensures SameHolder(a, StepOf(best)(a, d)) && StepOf(best)(a, d).publicKey == a.publicKey
  {}

  lemma {:induction false} RestIsWritten(best: bool, a: Account, ds: seq<AccountDiff>)
    ensures RestWritten(a, ds, FoldAccount(StepOf(best), a, ds))
  {
    DelegateWritten(best, a, ds);
    PermissionsWritten(best, a, ds);
    TimingWritten(best, a, ds);
    SymbolWritten(best, a, ds);
    VotingForWritten(best, a, ds);
    HolderKept(best, a, ds);
  }

  // --------------------------------------------------------------- the zkapp part

  /** The account is a zkapp account if it was one or a diff made it one, has the proved flag if
      it had it or a diff proves, and each field and slot holds what was last written to it. */
  ghost predicate ZkappIs(best: bool, a: Account, ds: seq<AccountDiff>, b: Account) {
    var z, z' := ZkappOf(a), ZkappOf(b);
    && (b.zkapp.Some? <==> a.zkapp.Some? || exists i :: 0 <= i < |ds| && MakesZkapp(best, ds[i]))
    && (z'.proved <==> z.proved || exists i :: 0 <= i < |ds| && Proves(best, ds[i]))
    && WrittenLast(ds, KeyBy, z.verificationKey, z'.verificationKey)
    && WrittenLast(ds, UriBy, z.uri, z'.uri)
    && z'.other == z.other
    && StatesWritten(ds, z.appState, z'.appState)
    && if best then z'.actionState == z.actionState else ActionsWritten(ds, z.actionState, z'.actionState)
  }

  ghost predicate StatesWritten(ds: seq<AccountDiff>, before: seq<string>, now: seq<string>) {
    && |now| == |before|
    && forall j: nat :: j < |now| ==> WrittenLast(ds, StateBy(j), before[j], now[j])
  }

  /** Each action slot `j` holds the last action whose index in its diff is `j` modulo the number
      of slots. */
  ghost predicate ActionsWritten(ds: seq<AccountDiff>, before: seq<string>, now: seq<string>) {
    && |now| == |before|
    && forall j: nat :: j < |now| ==> WrittenLast(ds, ActionBy(|now|, j), before[j], now[j])
  }

  lemma {:induction false} FlagStep(best: bool, a: Account, d: AccountDiff)
    ensures var b := StepOf(best)(a, d);
            && (b.zkapp.Some? <==> a.zkapp.Some? || MakesZkapp(best, d))
            && (ZkappOf(b).proved <==> ZkappOf(a).proved || Proves(best, d))
            && ZkappOf(b).other == ZkappOf(a).other
  {}

  lemma {:induction false} ZkappSet(best: bool, a: Account, ds: seq<AccountDiff>)
    ensures FoldAccount(StepOf(best), a, ds).zkapp.Some? <==>
              a.zkapp.Some? || exists i :: 0 <= i < |ds| && MakesZkapp(best, ds[i])
  {
    if ds != [] {
      ZkappSet(best, a, ds[..|ds| - 1]);
      FlagStep(best, FoldAccount(StepOf(best), a, ds[..|ds| - 1]), ds[|ds| - 1]);
      SomeSnoc(ds, (x: AccountDiff) => MakesZkapp(best, x));
    }
  }

  lemma {:induction false} ProvedSet(best: bool, a: Account, ds: seq<AccountDiff>)
    ensures var z := ZkappOf(FoldAccount(StepOf(best), a, ds));
            && (z.proved <==> ZkappOf(a).proved || exists i :: 0 <= i < |ds| && Proves(best, ds[i]))
            && z.other == ZkappOf(a).other
  {
    if ds != [] {
      ProvedSet(best, a, ds[..|ds| - 1]);
      FlagStep(best, FoldAccount(StepOf(best), a, ds[..|ds| - 1]), ds[|ds| - 1]);
      SomeSnoc(ds, (x: AccountDiff) => Proves(best, x));
    }
  }

  lemma {:induction false} SomeSnoc(ds: seq<AccountDiff>, p: AccountDiff -> bool)
    requires ds != []
    ensures var init := ds[..|ds| - 1];
            (exists i :: 0 <= i < |ds| && p(ds[i])) <==> (exists i :: 0 <= i < |init| && p(init[i])) || p(ds[|ds| - 1])
  {
    var init := ds[..|ds| - 1];
    if i :| 0 <= i < |ds| && p(ds[i]) && !p(ds[|ds| - 1]) { assert p(init[i]); }
    if i :| 0 <= i < |init| && p(init[i]) { assert p(ds[i]); }
  }

  lemma {:induction false} KeyWritten(best: bool, a: Account, ds: seq<AccountDiff>)
    ensures WrittenLast(ds, KeyBy, ZkappOf(a).verificationKey,
                        ZkappOf(FoldAccount(StepOf(best), a, ds)).verificationKey)
  {
    FoldWrites(StepOf(best), Always, (x: Account) => ZkappOf(x).verificationKey, KeyBy, a, ds);
  }

  lemma {:induction false} UriWritten(best: bool, a: Account, ds: seq<AccountDiff>)
    ensures WrittenLast(ds, UriBy, ZkappOf(a).uri, ZkappOf(FoldAccount(StepOf(best), a, ds)).uri)
  {
    FoldWrites(StepOf(best), Always, (x: Account) => ZkappOf(x).uri, UriBy, a, ds);
  }

  /** Slot `j` of a list, if there is one. */
  function SlotAt(slots: seq<string>, j: nat): string {
    if j < |slots| then slots[j] else ""
  }

  lemma {:induction false} StatesAreWritten(best: bool, a: Account, ds: seq<AccountDiff>)
    ensures StatesWritten(ds, ZkappOf(a).appState, ZkappOf(FoldAccount(StepOf(best), a, ds)).appState)
  {
    var n, b := |ZkappOf(a).appState|, FoldAccount(StepOf(best), a, ds);
    SizesKept(best, a, ds);
    forall j: nat | j < n ensures WrittenLast(ds, StateBy(j), ZkappOf(a).appState[j], ZkappOf(b).appState[j]) {
      StateWritten(best, a, ds, n, j);
    }
  }

  lemma {:induction false} StateWritten(best: bool, a: Account, ds: seq<AccountDiff>, n: nat, j: nat)
    requires n == |ZkappOf(a).appState| && j < n
    ensures WrittenLast(ds, StateBy(j), SlotAt(ZkappOf(a).appState, j),
                        SlotAt(ZkappOf(FoldAccount(StepOf(best), a, ds)).appState, j))
  {
    var sized, field := (x: Account) => |ZkappOf(x).appState| == n, (x: Account) => SlotAt(ZkappOf(x).appState, j);
    forall x, d | sized(x)
      ensures sized(StepOf(best)(x, d))
      ensures field(StepOf(best)(x, d)) == if StateBy(j)(d).Some? then StateBy(j)(d).value else field(x)
    {
      StateStep(best, x, d, j);
    }
    assert StepWrites(StepOf(best), sized, field, StateBy(j));
    FoldWrites(StepOf(best), sized, field, StateBy(j), a, ds);
  }

  lemma {:induction false} StateStep(best: bool, a: Account, d: AccountDiff, j: nat)
    requires j < |ZkappOf(a).appState|
    ensures var now := ZkappOf(StepOf(best)(a, d)).appState;
            && |now| == |ZkappOf(a).appState|
            && now[j] == if StateBy(j)(d).Some? then StateBy(j)(d).value else ZkappOf(a).appState[j]
  {}

  lemma {:induction false} SizesKept(best: bool, a: Account, ds: seq<AccountDiff>)
    ensures var z, z' := ZkappOf(a), ZkappOf(FoldAccount(StepOf(best), a, ds));
            |z'.appState| == |z.appState| && |z'.actionState| == |z.actionState|
  {
    if ds != [] {
      SizesKept(best, a, ds[..|ds| - 1]);
      SizeStep(best, FoldAccount(StepOf(best), a, ds[..|ds| - 1]), ds[|ds| - 1]);
    }
  }

  lemma {:induction false} SizeStep(best: bool, a: Account, d: AccountDiff)
    ensures var z, z' := ZkappOf(a), ZkappOf(StepOf(best)(a, d));
            |z'.appState| == |z.appState| && |z'.actionState| == |z.actionState|
  {}

  /** What one actions diff leaves in a slot. */
  lemma {:induction false} WriteActionsAt(slots: seq<string>, actions: seq<string>, j: nat)
    requires j < |slots|
    ensures var last := ActionIn(actions, |slots|, j);
            WriteActions(slots, actions)[j] == if last.Some? then last.value else slots[j]
  {
    var n := |slots|;
    if actions != [] {
      var m := |actions| - 1;
      var init := actions[..m];
      WriteActionsAt(slots, init, j);
      if InSlot(n, j, m) {
        assert LastInSlot(actions, n, j, m);
      } else {
        forall i: nat ensures LastInSlot(actions, n, j, i) <==> LastInSlot(init, n, j, i) {}
        OneLast(actions, n, j);
        OneLast(init, n, j);
      }
    }
  }

  lemma {:induction false} OneLast(actions: seq<string>, n: nat, j: nat)
    ensures forall i: nat :: LastInSlot(actions, n, j, i) ==> ActionIn(actions, n, j) == Some(actions[i])
  {}

  lemma {:induction false} ActionsAreWritten(a: Account, ds: seq<AccountDiff>)
    ensures ActionsWritten(ds, ZkappOf(a).actionState, ZkappOf(FoldAccount(Applied, a, ds)).actionState)
  {
    var n, b := |ZkappOf(a).actionState|, FoldAccount(Applied, a, ds);
    SizesKept(false, a, ds);
    forall j: nat | j < n
      ensures WrittenLast(ds, ActionBy(n, j), ZkappOf(a).actionState[j], ZkappOf(b).actionState[j])
    {
      ActionWritten(a, ds, n, j);
    }
  }

  lemma {:induction false} ActionWritten(a: Account, ds: seq<AccountDiff>, n: nat, j: nat)
    requires n == |ZkappOf(a).actionState| && j < n
    ensures WrittenLast(ds, ActionBy(n, j), SlotAt(ZkappOf(a).actionState, j),
                        SlotAt(ZkappOf(FoldAccount(Applied, a, ds)).actionState, j))
  {
    var sized, field := (x: Account) => |ZkappOf(x).actionState| == n,
      (x: Account) => SlotAt(ZkappOf(x).actionState, j);
    forall x, d | sized(x)
      ensures sized(Applied(x, d))
      ensures field(Applied(x, d)) == if ActionBy(n, j)(d).Some? then ActionBy(n, j)(d).value else field(x)
    {
      if d.ZkappActions? { WriteActionsAt(ZkappOf(x).actionState, d.actions, j); }
    }
    assert StepWrites(Applied, sized, field, ActionBy(n, j));
    FoldWrites(Applied, sized, field, ActionBy(n, j), a, ds);
  }

  lemma {:induction false} ActionsLeft(a: Account, ds: seq<AccountDiff>)
    ensures ZkappOf(FoldAccount(BestApplied, a, ds)).actionState == ZkappOf(a).actionState
  {
    if ds != [] { ActionsLeft(a, ds[..|ds| - 1]); }
  }

  lemma {:induction false} ZkappIsWritten(best: bool, a: Account, ds: seq<AccountDiff>)
    ensures ZkappIs(best, a, ds, FoldAccount(StepOf(best), a, ds))
  {
    ZkappSet(best, a, ds);
    ProvedSet(best, a, ds);
    KeyWritten(best, a, ds);
    UriWritten(best, a, ds);
    StatesAreWritten(best, a, ds);
    if best { ActionsLeft(a, ds); } else { ActionsAreWritten(a, ds); }
  }

  // ------------------------------------------------------------------ the account

  function Increments(ds: seq<AccountDiff>): nat {
    if ds == [] then 0 else Increments(ds[..|ds| - 1]) + if ds[|ds| - 1].ZkappIncrementNonce? then 1 else 0
  }

  function Bumped(n: Option<nat>, m: nat): Option<nat> {
    if m == 0 then n
    else
      var sum := (if n.Some? then n.value else 0) + m;
      Some(if sum < MAX_NONCE then sum else MAX_NONCE)
  }

  /** No diff from `k` on carries a nonce, and the one before does, if there is one. */
  ghost predicate CountedFrom(n: Option<nat>, ds: seq<AccountDiff>, k: nat, now: Option<nat>) {
    && k <= |ds| && (k > 0 ==> SetsNonce(ds[k - 1])) && (forall i :: k <= i < |ds| ==> !SetsNonce(ds[i]))
    && now == Bumped(if k > 0 then Some(NewNonce(ds[k - 1])) else n, Increments(ds[k..]))
  }

  /** The nonce is the last one that a diff carries, or the old one, plus the later increments. */
  ghost predicate NonceCounts(n: Option<nat>, ds: seq<AccountDiff>, now: Option<nat>) {
    exists k: nat {:trigger CountedFrom(n, ds, k, now)} :: CountedFrom(n, ds, k, now)
  }

  lemma {:induction false} NonceIsCounted(best: bool, a: Account, ds: seq<AccountDiff>)
    ensures NonceCounts(a.nonce, ds, FoldAccount(StepOf(best), a, ds).nonce)
  {
    var now := FoldAccount(StepOf(best), a, ds).nonce;
    if ds == [] {
      assert CountedFrom(a.nonce, ds, 0, now);
    } else {
      var init, d := ds[..|ds| - 1], ds[|ds| - 1];
      var before := FoldAccount(StepOf(best), a, init);
      NonceIsCounted(best, a, init);
      NonceStep(before, d);
      var k: nat :| CountedFrom(a.nonce, init, k, before.nonce);
      CountedNext(a.nonce, ds, k, before.nonce, now);
    }
  }

  lemma {:induction false} CountedNext(n: Option<nat>, ds: seq<AccountDiff>, k: nat, before: Option<nat>,
                                       now: Option<nat>)
    requires ds != [] && CountedFrom(n, ds[..|ds| - 1], k, before)
    requires var d := ds[|ds| - 1];
             now == if SetsNonce(d) then Some(NewNonce(d))
                    else if d.ZkappIncrementNonce? then Some(NextNonce(before)) else before
    ensures NonceCounts(n, ds, now)
  {
    var init, d := ds[..|ds| - 1], ds[|ds| - 1];
    if SetsNonce(d) {
      assert ds[|ds|..] == [];
      assert CountedFrom(n, ds, |ds|, now);
    } else {
      var tail := ds[k..];
      assert tail[..|tail| - 1] == init[k..] && tail[|tail| - 1] == d;
      assert CountedFrom(n, ds, k, now);
    }
  }

  /** The account after its diffs, in a ledger or in the stored best ledger. */
  ghost predicate AccountIs(best: bool, a: Account, ds: seq<AccountDiff>, b: Account) {
    && RestWritten(a, ds, b) && ZkappIs(best, a, ds, b)
    && NonceCounts(a.nonce, ds, b.nonce) && b.balance == Walk(Added, a.balance, ds)
  }

  lemma {:induction false} FoldIsWritten(best: bool, a: Account, ds: seq<AccountDiff>)
    ensures AccountIs(best, a, ds, FoldAccount(StepOf(best), a, ds))
  {
    RestIsWritten(best, a, ds);
    ZkappIsWritten(best, a, ds);
    NonceIsCounted(best, a, ds);
    BalancesWalk(a, ds);
  }

  // --------------------------------------------------------- nothing is left open

  lemma {:induction false} OneWrite<T(!new)>(ds: seq<AccountDiff>, writes: AccountDiff -> Option<T>, before: T, v: T,
                                             w: T)
    requires WrittenLast(ds, writes, before, v) && WrittenLast(ds, writes, before, w)
    ensures v == w
  {
    if !NoneWrites(ds, writes) {
      var i: nat, j: nat :| LastWrite(ds, writes, i, v) && LastWrite(ds, writes, j, w);
    }
  }

  lemma {:induction false} OneNonce(n: Option<nat>, ds: seq<AccountDiff>, v: Option<nat>, w: Option<nat>)
    requires NonceCounts(n, ds, v) && NonceCounts(n, ds, w)
    ensures v == w
  {
    var i: nat, j: nat :| CountedFrom(n, ds, i, v) && CountedFrom(n, ds, j, w);
  }

  lemma {:induction false} OneRest(a: Account, ds: seq<AccountDiff>, b: Account, c: Account)
    requires RestWritten(a, ds, b) && RestWritten(a, ds, c)
    ensures b == c.(balance := b.balance, nonce := b.nonce, zkapp := b.zkapp)
  {
    OneWrite(ds, DelegateBy, a.delegate, b.delegate, c.delegate);
    OneWrite(ds, PermissionsBy, a.permissions, b.permissions, c.permissions);
    OneWrite(ds, TimingBy, a.timing, b.timing, c.timing);
    OneWrite(ds, SymbolBy, a.tokenSymbol, b.tokenSymbol, c.tokenSymbol);
    OneWrite(ds, VotingForBy, a.votingFor, b.votingFor, c.votingFor);
  }

  lemma {:induction false} OneState(ds: seq<AccountDiff>, before: seq<string>, now: seq<string>, other: seq<string>)
    requires StatesWritten(ds, before, now) && StatesWritten(ds, before, other)
    ensures now == other
  {
    forall j: nat | j < |now| ensures now[j] == other[j] {
      OneWrite(ds, StateBy(j), before[j], now[j], other[j]);
    }
  }

  lemma {:induction false} OneAction(ds: seq<AccountDiff>, before: seq<string>, now: seq<string>, other: seq<string>)
    requires ActionsWritten(ds, before, now) && ActionsWritten(ds, before, other)
    ensures now == other
  {
    forall j: nat | j < |now| ensures now[j] == other[j] {
      OneWrite(ds, ActionBy(|now|, j), before[j], now[j], other[j]);
    }
  }

  lemma {:induction false} OneZkapp(best: bool, a: Account, ds: seq<AccountDiff>, b: Account, c: Account)
    requires ZkappIs(best, a, ds, b) && ZkappIs(best, a, ds, c)
    ensures b.zkapp == c.zkapp
  {
    var z, x, y := ZkappOf(a), ZkappOf(b), ZkappOf(c);
    OneWrite(ds, KeyBy, z.verificationKey, x.verificationKey, y.verificationKey);
    OneWrite(ds, UriBy, z.uri, x.uri, y.uri);
    OneState(ds, z.appState, x.appState, y.appState);
    if !best { OneAction(ds, z.actionState, x.actionState, y.actionState); }
  }

  /** The description determines the account. */
  lemma {:induction false} OneAccount(best: bool, a: Account, ds: seq<AccountDiff>, b: Account, c: Account)
    requires AccountIs(best, a, ds, b) && AccountIs(best, a, ds, c)
    ensures b == c
  {
    OneRest(a, ds, b, c);
    OneZkapp(best, a, ds, b, c);
    OneNonce(a.nonce, ds, b.nonce, c.nonce);
  }

  /** An account is described so precisely if it is the fold of the diffs. */
  lemma {:induction false} FoldIsWrittenIff(best: bool, a: Account, ds: seq<AccountDiff>, b: Account)
    ensures AccountIs(best, a, ds, b) <==> b == FoldAccount(StepOf(best), a, ds)
  {
    FoldIsWritten(best, a, ds);
    if AccountIs(best, a, ds, b) { OneAccount(best, a, ds, b, FoldAccount(StepOf(best), a, ds)); }
  }

  /** In a ledger: an account with diffs of its own, made up if it is missing, is so written by
      them, and any other one is left alone. */
  lemma {:induction false} LedgerIsWritten(best: bool, l: Ledger, ds: seq<AccountDiff>, t: TokenAddress, p: PublicKey)
    requires Normal(l)
    ensures var own, now := Filter(ds, t, p), Get(ApplyDiffs(StepOf(best), l, ds), t, p);
            if own == [] then now == Get(l, t, p)
            else now.Some? && AccountIs(best, OrEmpty(Get(l, t, p), t, p), own, now.value)
  {
    StepsKeepKey();
    GroupedIsSequential(StepOf(best), l, ds, t, p);
    FoldIsWritten(best, OrEmpty(Get(l, t, p), t, p), Filter(ds, t, p));
  }

  /** The diffs of an account: only a payment names its token. */
  lemma {:induction false} OwnDiffs(ds: seq<AccountDiff>, t: TokenAddress, p: PublicKey, d: AccountDiff)
    ensures d in Filter(ds, t, p) <==>
              d in ds && d.publicKey == p && t == if d.Payment? then d.token else MINA_TOKEN
  {
    if ds != [] { OwnDiffs(ds[..|ds| - 1], t, p, d); }
  }

  /** The zkapp part of an account that was made up for its diffs. */
  ghost predicate NewZkapp(best: bool, ds: seq<AccountDiff>, z: Zkapp) {
    && (z.proved <==> exists i :: 0 <= i < |ds| && Proves(best, ds[i]))
    && WrittenLast(ds, KeyBy, "", z.verificationKey) && WrittenLast(ds, UriBy, "", z.uri)
    && |z.appState| == 8 && |z.actionState| == 5
    && (forall j: nat :: j < 8 ==> WrittenLast(ds, StateBy(j), NO_APP_STATE, z.appState[j]))
    && (forall j: nat :: j < 5 ==>
          if best then z.actionState[j] == NO_ACTION_STATE
          else WrittenLast(ds, ActionBy(5, j), NO_ACTION_STATE, z.actionState[j]))
  }

  /** An account that first appears with `ds`: empty, and its own delegate, but for what they say. */
  ghost predicate IsNew(best: bool, t: TokenAddress, p: PublicKey, ds: seq<AccountDiff>, b: Account) {
    && b.publicKey == p && b.token == Some(t) && b.username.None?
    && b.balance == Walk(Added, 0, ds) && NonceCounts(None, ds, b.nonce)
    && WrittenLast(ds, DelegateBy, p, b.delegate)
    && WrittenLast(ds, PermissionsBy, None, b.permissions) && WrittenLast(ds, TimingBy, None, b.timing)
    && WrittenLast(ds, SymbolBy, None, b.tokenSymbol) && WrittenLast(ds, VotingForBy, None, b.votingFor)
    && (b.zkapp.Some? <==> exists i :: 0 <= i < |ds| && MakesZkapp(best, ds[i]))
    && (b.zkapp.Some? ==> NewZkapp(best, ds, b.zkapp.value))
  }

  lemma {:induction false} NewAccount(best: bool, l: Ledger, ds: seq<AccountDiff>, t: TokenAddress, p: PublicKey)
    requires Normal(l) && Get(l, t, p).None? && Filter(ds, t, p) != []
    ensures var now := Get(ApplyDiffs(StepOf(best), l, ds), t, p);
            now.Some? && IsNew(best, t, p, Filter(ds, t, p), now.value)
  {
    LedgerIsWritten(best, l, ds, t, p);
    var own, b := Filter(ds, t, p), Get(ApplyDiffs(StepOf(best), l, ds), t, p).value;
    WrittenFromNothing(best, t, p, own, b);
  }

  lemma {:induction false} WrittenFromNothing(best: bool, t: TokenAddress, p: PublicKey, ds: seq<AccountDiff>,
                                              b: Account)
    requires AccountIs(best, EmptyAccount(p, t), ds, b)
    ensures IsNew(best, t, p, ds, b)
  {}
}
