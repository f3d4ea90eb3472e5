/** A universe of three chains of any length, its blocks named by their place: the first two fork
    at the root, the third leaves the second after its first block. */
module NamedChains {
  import opened Blocks
  import opened WitnessChains
  import opened DeepReorgs

  /** The block at height `n` above the root, on the chain of the letter `letter`. */
  function Name(letter: char, n: nat): StateHash {
    seq(n, _ => letter)
  }

  function NamedChain(letter: char, n: nat): seq<StateHash> {
    seq(n, (i: nat) => Name(letter, i + 1))
  }

  /** The block at height `n` above the fork, on the third chain. */
  function Third(n: nat): StateHash {
    "b" + Name('c', n)
  }

  function ThirdNamed(n: nat): seq<StateHash> {
    seq(n, (i: nat) => Third(i + 1))
  }

  ghost function FirstNames(n: nat): set<StateHash> {
    {"r"} + (set i: nat | 1 <= i <= n :: Name('a', i)) + (set i: nat | 1 <= i <= n + 1 :: Name('b', i))
  }

  ghost function ThirdNames(n: nat): set<StateHash> {
    set i: nat | 1 <= i <= n + 1 :: Third(i)
  }

  /** Of two blocks of the same height, that of the earlier chain is preferred. */
  function Vrf(h: StateHash): string {
    if h == [] then "" else if h[|h| - 1] == 'a' then "z" else if h[|h| - 1] == 'b' then "y" else ""
  }

  /** Block `payer` has the diff `d`, the others have none. */
  function NamedBlock(h: StateHash, payer: StateHash, d: LedgerDiff): Pcb {
    var length := if h == "r" then 1 else |h| + 1;
    Pcb(h, if h == "r" then "-" else if |h| <= 1 then "r" else h[..|h| - 1], length, "g", length, Vrf(h),
        if h == payer then d else [])
  }

  ghost function ThreeChains(n: nat, payer: StateHash, d: LedgerDiff): Universe {
    map h | h in FirstNames(n) + ThirdNames(n) :: NamedBlock(h, payer, d)
  }

  lemma {:induction false} NameHas(n: nat, payer: StateHash, d: LedgerDiff, i: nat)
    ensures 1 <= i <= n ==> Name('a', i) in ThreeChains(n, payer, d)
    ensures 1 <= i <= n + 1 ==> Name('b', i) in ThreeChains(n, payer, d) && Third(i) in ThreeChains(n, payer, d)
    ensures "r" in ThreeChains(n, payer, d)
  {}

  /** A block of the universe is the one of its name. */
  lemma {:induction false} BlockIs(n: nat, payer: StateHash, d: LedgerDiff, h: StateHash)
    requires h in ThreeChains(n, payer, d)
    ensures ThreeChains(n, payer, d)[h] == NamedBlock(h, payer, d)
  {}

  /** Every name of the first two chains but the root's is one letter, repeated. */
  lemma {:induction false} NameIs(n: nat, h: StateHash) returns (letter: char)
    requires h in FirstNames(n) && h != "r"
    ensures letter in {'a', 'b'} && |h| >= 1 && h == Name(letter, |h|) && |h| <= (if letter == 'a' then n else n + 1)
  {
    if i: nat :| 1 <= i <= n && h == Name('a', i) { return 'a'; }
    var i: nat :| 1 <= i <= n + 1 && h == Name('b', i);
    return 'b';
  }

  lemma {:induction false} NamePrefix(letter: char, n: nat)
    requires n > 1
    ensures Name(letter, n)[..n - 1] == Name(letter, n - 1)
  {}

  lemma {:induction false} ThirdPrefix(n: nat)
    requires n >= 1
    ensures |Third(n)| == n + 1 && Third(n)[..n] == if n == 1 then Name('b', 1) else Third(n - 1)
  {
    assert n > 1 ==> Name('c', n)[..n - 1] == Name('c', n - 1);
  }

  lemma {:induction false} NotTheRoot(letter: char, n: nat)
    requires n >= 1 && letter in {'a', 'b'}
    ensures Name(letter, n) != "r" && Name(letter, n) != "-"
  {
    assert Name(letter, n)[0] == letter;
  }

  lemma {:induction false} NamedBlockIs(payer: StateHash, d: LedgerDiff, letter: char, i: nat)
    requires letter in {'a', 'b'} && i >= 1
    ensures var b := NamedBlock(Name(letter, i), payer, d);
            b.length == i + 1 && b.parentHash == if i == 1 then "r" else Name(letter, i - 1)
  {
    NotTheRoot(letter, i);
    if i > 1 { NamePrefix(letter, i); }
  }

  lemma {:induction false} NamedParent(n: nat, payer: StateHash, d: LedgerDiff, letter: char, i: nat)
    requires letter in {'a', 'b'} && 1 <= i <= (if letter == 'a' then n else n + 1)
    ensures var u, parent := ThreeChains(n, payer, d), if i == 1 then "r" else Name(letter, i - 1);
            && Name(letter, i) in u && u[Name(letter, i)].length == i + 1 && u[Name(letter, i)].parentHash == parent
            && parent in u && u[parent].length == i
  {
    var parent := if i == 1 then "r" else Name(letter, i - 1);
    NameHas(n, payer, d, i);
    BlockIs(n, payer, d, Name(letter, i));
    NamedBlockIs(payer, d, letter, i);
    if i > 1 {
      NameHas(n, payer, d, i - 1);
      NamedBlockIs(payer, d, letter, i - 1);
    }
    BlockIs(n, payer, d, parent);
  }

  lemma {:induction false} ThirdBlockIs(payer: StateHash, d: LedgerDiff, i: nat)
    requires i >= 1
    ensures var b := NamedBlock(Third(i), payer, d);
            b.length == i + 2 && b.parentHash == if i == 1 then Name('b', 1) else Third(i - 1)
  {
    ThirdPrefix(i);
  }

  lemma {:induction false} ThirdParent(n: nat, payer: StateHash, d: LedgerDiff, i: nat)
    requires 1 <= i <= n + 1
    ensures var u, parent := ThreeChains(n, payer, d), if i == 1 then Name('b', 1) else Third(i - 1);
            && Third(i) in u && u[Third(i)].length == i + 2 && u[Third(i)].parentHash == parent
            && parent in u && u[parent].length == i + 1
  {
    var parent := if i == 1 then Name('b', 1) else Third(i - 1);
    NameHas(n, payer, d, i);
    BlockIs(n, payer, d, Third(i));
    ThirdBlockIs(payer, d, i);
    if i > 1 {
      NameHas(n, payer, d, i - 1);
      ThirdBlockIs(payer, d, i - 1);
    } else {
      NamedBlockIs(payer, d, 'b', 1);
    }
    BlockIs(n, payer, d, parent);
  }

  lemma {:induction false} RootAlone(n: nat, payer: StateHash, d: LedgerDiff)
    ensures "-" !in ThreeChains(n, payer, d)
  {
    if "-" in FirstNames(n) {
      var letter := NameIs(n, "-");
      NotTheRoot(letter, 1);
    }
  }

  lemma {:induction false} OneGenesis(n: nat, payer: StateHash, d: LedgerDiff)
    ensures Genesis(ThreeChains(n, payer, d)) == "g"
  {
    var u := ThreeChains(n, payer, d);
    NameHas(n, payer, d, 1);
    assert "r" in u && forall h :: h in u ==> u[h].genesisHash == "g";
  }

  lemma {:induction false} ThreeChainsConsistent(n: nat, payer: StateHash, d: LedgerDiff)
    ensures Consistent(ThreeChains(n, payer, d))
  {
    var u := ThreeChains(n, payer, d);
    OneGenesis(n, payer, d);
    forall h | h in u ensures Linked(u, h) {
      BlockIs(n, payer, d, h);
      if h == "r" {
        RootAlone(n, payer, d);
      } else if h in FirstNames(n) {
        var letter := NameIs(n, h);
        NamedParent(n, payer, d, letter, |h|);
      } else {
        var i: nat :| 1 <= i <= n + 1 && h == Third(i);
        ThirdParent(n, payer, d, i);
      }
    }
  }

  // ------------------------------------------------------------------- as chains

  /** Block `i` of the first or second chain is there, under its parent. */
  ghost predicate NamedAt(u: Universe, letter: char, i: nat) {
    && Name(letter, i) in u && u[Name(letter, i)].length == i + 1 && u[Name(letter, i)].vrf == Vrf(Name(letter, i))
    && u[Name(letter, i)].parentHash == if i <= 1 then "r" else Name(letter, i - 1)
  }

  ghost predicate ThirdAt(u: Universe, i: nat) {
    && Third(i) in u && u[Third(i)].length == i + 2 && u[Third(i)].vrf == Vrf(Third(i))
    && u[Third(i)].parentHash == if i <= 1 then Name('b', 1) else Third(i - 1)
  }

  /** The three chains are there. */
  ghost predicate HasChains(u: Universe, n: nat) {
    && Consistent(u) && Genesis(u) == "g" && "r" in u
    && (forall i: nat {:trigger NamedAt(u, 'a', i)} :: 1 <= i <= n ==> NamedAt(u, 'a', i))
    && (forall i: nat {:trigger NamedAt(u, 'b', i)} :: 1 <= i <= n + 1 ==> NamedAt(u, 'b', i))
    && (forall i: nat {:trigger ThirdAt(u, i)} :: 1 <= i <= n + 1 ==> ThirdAt(u, i))
  }

  lemma {:induction false} ThreeChainsHas(n: nat, payer: StateHash, d: LedgerDiff)
    ensures HasChains(ThreeChains(n, payer, d), n)
  {
    var u := ThreeChains(n, payer, d);
    ThreeChainsConsistent(n, payer, d);
    OneGenesis(n, payer, d);
    NameHas(n, payer, d, 1);
    forall i: nat | 1 <= i <= n ensures NamedAt(u, 'a', i) { NamedThere(n, payer, d, 'a', i); }
    forall i: nat | 1 <= i <= n + 1 ensures NamedAt(u, 'b', i) { NamedThere(n, payer, d, 'b', i); }
    forall i: nat | 1 <= i <= n + 1 ensures ThirdAt(u, i) { ThirdThere(n, payer, d, i); }
  }

  lemma {:induction false} NamedThere(n: nat, payer: StateHash, d: LedgerDiff, letter: char, i: nat)
    requires letter in {'a', 'b'} && 1 <= i <= (if letter == 'a' then n else n + 1)
    ensures NamedAt(ThreeChains(n, payer, d), letter, i)
  {
    NamedParent(n, payer, d, letter, i);
    BlockIs(n, payer, d, Name(letter, i));
  }

  lemma {:induction false} ThirdThere(n: nat, payer: StateHash, d: LedgerDiff, i: nat)
    requires 1 <= i <= n + 1
    ensures ThirdAt(ThreeChains(n, payer, d), i)
  {
    ThirdParent(n, payer, d, i);
    BlockIs(n, payer, d, Third(i));
  }

  lemma {:induction false} NamedIsChain(u: Universe, n: nat, letter: char, m: nat)
    requires HasChains(u, n) && letter in {'a', 'b'} && m <= (if letter == 'a' then n else n + 1)
    ensures IsChain(u, "r", NamedChain(letter, m))
  {
    var a := NamedChain(letter, m);
    forall i: nat | i < |a| ensures LinkAt(u, "r", a, i) { assert NamedAt(u, letter, i + 1); }
  }

  lemma {:induction false} ThirdIsChain(u: Universe, n: nat)
    requires HasChains(u, n)
    ensures IsChain(u, Name('b', 1), ThirdNamed(n + 1))
  {
    var q := ThirdNamed(n + 1);
    assert NamedAt(u, 'b', 1);
    forall i: nat | i < |q| ensures LinkAt(u, Name('b', 1), q, i) { assert ThirdAt(u, i + 1); }
  }

  lemma {:induction false} VrfsDiffer(n: nat)
    requires n >= 1
    ensures Vrf(Name('a', n)) == "z" && Vrf(Name('b', n)) == "y" && Vrf(Third(n)) == ""
    ensures LexLess("y", "z") && !LexLess("z", "y") && LexLess("", "y") && !LexLess("y", "")
  {}

  lemma {:induction false} VrfDecides(u: Universe, h: StateHash, x: StateHash)
    requires Consistent(u) && Genesis(u) == "g" && h in u && x in u && u[h].length == u[x].length
    requires LexLess(u[x].vrf, u[h].vrf) && !LexLess(u[h].vrf, u[x].vrf)
    ensures Beats(u, h, x) && h != x
  {
    assert Linked(u, h) && Linked(u, x);
    GenesisHashesDiffer();
  }

  lemma {:induction false} FirstPreferred(u: Universe, n: nat, i: nat)
    requires HasChains(u, n) && 1 <= i <= n
    ensures Beats(u, Name('a', i), Name('b', i)) && Name('a', i) != Name('b', i)
  {
    assert NamedAt(u, 'a', i) && NamedAt(u, 'b', i);
    VrfsDiffer(i);
    VrfDecides(u, Name('a', i), Name('b', i));
  }

  lemma {:induction false} SecondPreferred(u: Universe, n: nat, i: nat)
    requires HasChains(u, n) && 1 <= i <= n
    ensures Beats(u, Name('b', i + 1), Third(i)) && Name('b', i + 1) != Third(i)
  {
    assert NamedAt(u, 'b', i + 1) && ThirdAt(u, i);
    VrfsDiffer(i);
    VrfsDiffer(i + 1);
    VrfDecides(u, Name('b', i + 1), Third(i));
  }

  lemma {:induction false} NamesFork(u: Universe, n: nat)
    requires HasChains(u, n) && n >= 1
    ensures Forked(u, "r", NamedChain('a', n), NamedChain('b', n + 1))
  {
    NamedIsChain(u, n, 'a', n);
    NamedIsChain(u, n, 'b', n + 1);
    FirstPreferred(u, n, 1);
    FirstPreferred(u, n, n);
  }

  lemma {:induction false} NamesForkTwice(u: Universe, n: nat)
    requires HasChains(u, n) && n >= 1
    ensures ForkedTwice(u, "r", NamedChain('a', n), NamedChain('b', n + 1), ThirdNamed(n + 1))
  {
    NamesFork(u, n);
    ThirdIsChain(u, n);
    SecondPreferred(u, n, 1);
    SecondPreferred(u, n, n);
    SecondsAre(n);
  }

  lemma {:induction false} SecondsAre(n: nat)
    requires n >= 1
    ensures var b, q := NamedChain('b', n + 1), ThirdNamed(n + 1);
            b[0] == Name('b', 1) && b[1] == Name('b', 2) && b[n] == Name('b', n + 1) && q[0] == Third(1) &&
              q[n - 1] == Third(n)
  {}

  /** There are two such chains of any length. */
  lemma {:induction false} SomeFork(n: nat) returns (u: Universe, r: StateHash, a: seq<StateHash>, b: seq<StateHash>)
    requires n >= 1
    ensures Consistent(u) && Forked(u, r, a, b) && |a| == n
  {
    u, r, a, b := ThreeChains(n, "", []), "r", NamedChain('a', n), NamedChain('b', n + 1);
    ThreeChainsHas(n, "", []);
    NamesFork(u, n);
  }
}
