/** Blocks, the order in which the indexer prefers them, and the parent links
    between them.

    A block is identified by its state hash.  A `Universe` holds every block that
    will ever be seen in a run; what a block knows of its parent is only the
    parent's state hash, which need not be in the universe. */
module Blocks {
  import opened Accounts

  type StateHash = string

  /** The bytes of a VRF output, each written as the character of that code. */
  type VrfOutput = seq<char>

  /** The account diffs of one block, command by command. */
  type LedgerDiff = seq<seq<AccountDiff>>

  /** A precomputed block, reduced to what the indexer reads from it. */
  datatype Pcb = Pcb(
    stateHash: StateHash,
    parentHash: StateHash,
    length: nat,
    genesisHash: StateHash,
    slot: nat,
    vrf: VrfOutput,
    diff: LedgerDiff)

  /** A block as stored in the witness tree; `height` is its height in its tree. */
  datatype Block = Block(
    stateHash: StateHash,
    parentHash: StateHash,
    height: nat,
    length: nat,
    genesisHash: StateHash,
    slot: nat,
    vrf: VrfOutput)

  function FromPrecomputed(p: Pcb, height: nat): Block {
    Block(p.stateHash, p.parentHash, height, p.length, p.genesisHash, p.slot, p.vrf)
  }

  const MAINNET_GENESIS_HASH: StateHash := "3NKeMoncuHab5ScarV5ViyF16cJPT4taWNSaTLS64Dp67wuXigPZ"
  const HARDFORK_GENESIS_HASH: StateHash := "3NK4BpDSekaqsG6tx8Nse2zJchRft2JpnbvMiog55WCr5xJZaKeP"

  // ---------------------------------------------------------------- comparison

  datatype Ordering = Less | Equal | Greater

  /** Lexicographic order on strings, as for state hashes and VRF outputs. */
  predicate LexLess(a: seq<char>, b: seq<char>) {
    b != [] && (a == [] || a[0] < b[0] || (a[0] == b[0] && LexLess(a[1..], b[1..])))
  }

  function CmpBytes(a: seq<char>, b: seq<char>): Ordering {
    if LexLess(a, b) then Less else if a == b then Equal else Greater
  }

  function CmpNat(a: nat, b: nat): Ordering {
    if a < b then Less else if a == b then Equal else Greater
  }

  /** `Less` means that `a` is the better block. */
  function Cmp(a: Block, b: Block): Ordering {
    if a.genesisHash == HARDFORK_GENESIS_HASH && b.genesisHash == MAINNET_GENESIS_HASH then
      Less
    else
      match (CmpNat(a.length, b.length), CmpBytes(a.vrf, b.vrf), CmpBytes(a.stateHash, b.stateHash))
      case (Greater, _, _) => Less
      case (Equal, Greater, _) => Less
      case (Equal, Equal, Greater) => Less
      case _ => Greater
  }

  predicate Better(a: Block, b: Block) {
    Cmp(a, b) == Less
  }

  lemma {:induction false} LexTrichotomy(a: seq<char>, b: seq<char>)
    ensures a != b ==> LexLess(a, b) != LexLess(b, a)
    ensures a == b ==> !LexLess(a, b)
  {
    if a != [] && b != [] && a[0] == b[0] {
      LexTrichotomy(a[1..], b[1..]);
      assert a == [a[0]] + a[1..] && b == [b[0]] + b[1..];
    }
  }

  lemma {:induction false} LexTransitive(a: seq<char>, b: seq<char>, c: seq<char>)
    requires LexLess(a, b) && LexLess(b, c)
    ensures LexLess(a, c)
  {
    if a != [] && a[0] == b[0] && b[0] == c[0] {
      LexTransitive(a[1..], b[1..], c[1..]);
    }
  }

  /** The strings agree up to `k`, where `a` ends or has the smaller character. */
  ghost predicate SmallerAt(a: seq<char>, b: seq<char>, k: nat) {
    k <= |a| && k < |b| && a[..k] == b[..k] && (k == |a| || a[k] < b[k])
  }

  /** `a` comes before `b` in the dictionary: the first difference decides. */
  ghost predicate InDictionary(a: seq<char>, b: seq<char>) {
    exists k: nat {:trigger SmallerAt(a, b, k)} :: SmallerAt(a, b, k)
  }

  lemma {:induction false} LexLessIsDictionary(a: seq<char>, b: seq<char>)
    ensures LexLess(a, b) <==> InDictionary(a, b)
  {
    if a != [] && b != [] && a[0] == b[0] {
      LexLessIsDictionary(a[1..], b[1..]);
      forall k: nat ensures SmallerAt(a, b, k + 1) <==> SmallerAt(a[1..], b[1..], k) { SmallerLater(a, b, k); }
      if k: nat :| SmallerAt(a, b, k) { assert SmallerAt(a[1..], b[1..], k - 1); }
      if k: nat :| SmallerAt(a[1..], b[1..], k) { assert SmallerAt(a, b, k + 1); }
    } else {
      forall k: nat | SmallerAt(a, b, k) ensures k == 0 { SameFirst(a, b, k); }
      assert LexLess(a, b) <==> SmallerAt(a, b, 0);
    }
  }

  lemma {:induction false} SameFirst(a: seq<char>, b: seq<char>, k: nat)
    requires SmallerAt(a, b, k)
    ensures k > 0 ==> a != [] && b != [] && a[0] == b[0]
  {
    if k > 0 { assert a[..k][0] == a[0] && b[..k][0] == b[0]; }
  }

  lemma {:induction false} SmallerLater(a: seq<char>, b: seq<char>, k: nat)
    requires a != [] && b != [] && a[0] == b[0]
    ensures SmallerAt(a, b, k + 1) <==> SmallerAt(a[1..], b[1..], k)
  {
    if k + 1 <= |a| && k + 1 <= |b| {
      assert a[..k + 1] == [a[0]] + a[1..][..k] && b[..k + 1] == [b[0]] + b[1..][..k];
      assert a[..k + 1][1..] == a[1..][..k] && b[..k + 1][1..] == b[1..][..k];
    }
  }

  /** The order of section 6.2 (Select Chain) of the Mina consensus specification:
      longer first, then the larger VRF output, then the larger state hash. */
  ghost predicate LongerChain(a: Block, b: Block) {
    || a.length > b.length
    || (a.length == b.length && InDictionary(b.vrf, a.vrf))
    || (a.length == b.length && a.vrf == b.vrf && InDictionary(b.stateHash, a.stateHash))
  }

  /** The mixed pair, for which the comparison is one-sided. */
  ghost predicate AcrossHardfork(a: Block, b: Block) {
    a.genesisHash == HARDFORK_GENESIS_HASH && b.genesisHash == MAINNET_GENESIS_HASH
  }

  /** `Cmp` is `selectLongerChain`, except that a hardfork block beats a mainnet one. */
  lemma {:induction false} CmpIsSelectLongerChain(a: Block, b: Block)
    ensures Better(a, b) <==> AcrossHardfork(a, b) || LongerChain(a, b)
    ensures Cmp(a, b) != Equal
  {
    LexLessIsDictionary(b.vrf, a.vrf);
    LexLessIsDictionary(b.stateHash, a.stateHash);
    LexTrichotomy(a.vrf, b.vrf);
    LexTrichotomy(a.stateHash, b.stateHash);
  }

  /** On distinct blocks of one genesis the comparison is a strict total order. */
  lemma {:induction false} BetterIsStrictTotalOrder(a: Block, b: Block, c: Block)
    requires a.genesisHash == b.genesisHash == c.genesisHash
    ensures !Better(a, a)
    ensures a.stateHash != b.stateHash ==> Better(a, b) != Better(b, a)
    ensures Better(a, b) && Better(b, c) ==> Better(a, c)
    ensures a.length > b.length ==> Better(a, b)
    ensures Better(a, b) ==> a.length >= b.length
  {
    GenesisHashesDiffer();
    LexTrichotomy(a.vrf, a.vrf);
    LexTrichotomy(a.stateHash, a.stateHash);
    LexTrichotomy(a.vrf, b.vrf);
    LexTrichotomy(a.stateHash, b.stateHash);
    if Better(a, b) && Better(b, c) {
      LexTrichotomy(b.vrf, c.vrf);
      LexTrichotomy(b.stateHash, c.stateHash);
      LexTrichotomy(a.vrf, c.vrf);
      LexTrichotomy(a.stateHash, c.stateHash);
      if LexLess(b.vrf, a.vrf) && LexLess(c.vrf, b.vrf) { LexTransitive(c.vrf, b.vrf, a.vrf); }
      if LexLess(b.stateHash, a.stateHash) && LexLess(c.stateHash, b.stateHash) {
        LexTransitive(c.stateHash, b.stateHash, a.stateHash);
      }
    }
  }

  lemma {:induction false} GenesisHashesDiffer()
    ensures MAINNET_GENESIS_HASH != HARDFORK_GENESIS_HASH
  {
    assert MAINNET_GENESIS_HASH[51] == 'Z' && HARDFORK_GENESIS_HASH[51] == 'P';
  }

  /** Over two networks asymmetry is lost in exactly one case: the hardfork block is
      preferred by rule while the mainnet block has the better chain. */
  lemma {:induction false} BothBetterIff(a: Block, b: Block)
    ensures Better(a, b) && Better(b, a) <==>
            (AcrossHardfork(a, b) && LongerChain(b, a)) || (AcrossHardfork(b, a) && LongerChain(a, b))
  {
    GenesisHashesDiffer();
    CmpIsSelectLongerChain(a, b);
    CmpIsSelectLongerChain(b, a);
    LongerChainAsymmetric(a, b);
  }

  lemma {:induction false} LongerChainAsymmetric(a: Block, b: Block)
    ensures !(LongerChain(a, b) && LongerChain(b, a))
  {
    LexLessIsDictionary(a.vrf, b.vrf);
    LexLessIsDictionary(b.vrf, a.vrf);
    LexLessIsDictionary(a.stateHash, b.stateHash);
    LexLessIsDictionary(b.stateHash, a.stateHash);
    LexTrichotomy(a.vrf, b.vrf);
    LexTrichotomy(a.stateHash, b.stateHash);
  }

  // ------------------------------------------------------------------ universe

  type Universe = map<StateHash, Pcb>

  /** A block is filed under its state hash, is one longer than its parent, and belongs
      to the universe's genesis. */
  ghost predicate Linked(u: Universe, h: StateHash) {
    && h in u
    && u[h].stateHash == h
    && u[h].genesisHash == Genesis(u)
    && (u[h].parentHash in u ==> u[h].length == u[u[h].parentHash].length + 1)
  }

  ghost predicate Consistent(u: Universe) {
    forall h {:trigger Linked(u, h)} :: h in u ==> Linked(u, h)
  }

  /** The blocks of `b` are blocks of `u`. */
  ghost predicate Within(b: Universe, u: Universe) {
    forall h :: h in b ==> h in u && b[h] == u[h]
  }

  /** The genesis that the blocks share. */
  ghost function Genesis(u: Universe): StateHash {
    if u == map[] then "" else var h :| h in u; u[h].genesisHash
  }

  ghost function Len(u: Universe, h: StateHash): nat {
    if h in u then u[h].length else 0
  }

  ghost predicate HasParent(u: Universe, h: StateHash) {
    Linked(u, h) && u[h].parentHash in u
  }

  /** `a` is `h` or one of its ancestors. */
  ghost predicate Descends(u: Universe, a: StateHash, h: StateHash)
    decreases if h in u then u[h].length else 0
  {
    h in u && (h == a || (HasParent(u, h) && Descends(u, a, u[h].parentHash)))
  }

  /** The blocks strictly above `a` up to and including `h`, oldest first. */
  ghost function Path(u: Universe, a: StateHash, h: StateHash): (p: seq<StateHash>)
    decreases if h in u then u[h].length else 0
  {
    if h == a then [] else if HasParent(u, h) then Path(u, a, u[h].parentHash) + [h] else [h]
  }

  /** The `k`-th ancestor. */
  ghost function Up(u: Universe, h: StateHash, k: nat): StateHash
    decreases k
  {
    if k == 0 || h !in u then h else Up(u, u[h].parentHash, k - 1)
  }

  /** `a` is the better block. */
  ghost predicate Beats(u: Universe, a: StateHash, b: StateHash) {
    a in u && b in u && Better(FromPrecomputed(u[a], 0), FromPrecomputed(u[b], 0))
  }

  lemma {:induction false} BeatsOrder(u: Universe, a: StateHash, b: StateHash, c: StateHash)
    requires Consistent(u) && a in u && b in u && c in u
    ensures !Beats(u, a, a)
    ensures a != b ==> Beats(u, a, b) != Beats(u, b, a)
    ensures Beats(u, a, b) && Beats(u, b, c) ==> Beats(u, a, c)
    ensures u[a].length > u[b].length ==> Beats(u, a, b)
    ensures Beats(u, a, b) ==> u[a].length >= u[b].length
  {
    assert Linked(u, a) && Linked(u, b) && Linked(u, c);
    BetterIsStrictTotalOrder(FromPrecomputed(u[a], 0), FromPrecomputed(u[b], 0), FromPrecomputed(u[c], 0));
  }

  lemma {:induction false} DescendsLength(u: Universe, a: StateHash, h: StateHash)
    requires Consistent(u) && Descends(u, a, h)
    ensures a in u && u[a].length <= u[h].length
    ensures u[a].length == u[h].length ==> a == h
    ensures Up(u, h, u[h].length - u[a].length) == a
    ensures |Path(u, a, h)| == u[h].length - u[a].length
    decreases u[h].length
  {
    if h != a {
      DescendsLength(u, a, u[h].parentHash);
    }
  }

  lemma {:induction false} DescendsTransitive(u: Universe, a: StateHash, b: StateHash, c: StateHash)
    requires Consistent(u) && Descends(u, a, b) && Descends(u, b, c)
    ensures Descends(u, a, c)
    ensures Path(u, a, c) == Path(u, a, b) + Path(u, b, c)
    decreases u[c].length
  {
    DescendsLength(u, a, b);
    DescendsLength(u, b, c);
    if c != b {
      DescendsTransitive(u, a, b, u[c].parentHash);
    }
  }

  /** The ancestors of a block are linearly ordered. */
  lemma {:induction false} AncestorsLinear(u: Universe, a: StateHash, b: StateHash, h: StateHash)
    requires Consistent(u) && Descends(u, a, h) && Descends(u, b, h)
    requires a in u && b in u && u[a].length <= u[b].length
    ensures Descends(u, a, b)
    decreases u[h].length
  {
    DescendsLength(u, a, h);
    DescendsLength(u, b, h);
    if h != b {
      assert a != h;
      AncestorsLinear(u, a, b, u[h].parentHash);
    }
  }

  lemma {:induction false} UpDescends(u: Universe, a: StateHash, h: StateHash, k: nat)
    requires Consistent(u) && Descends(u, a, h) && a in u && k <= u[h].length - u[a].length
    ensures Up(u, h, k) in u && u[Up(u, h, k)].length == u[h].length - k
    ensures Descends(u, a, Up(u, h, k)) && Descends(u, Up(u, h, k), h)
    decreases k
  {
    DescendsLength(u, a, h);
    if k > 0 {
      DescendsLength(u, a, u[h].parentHash);
      UpDescends(u, a, u[h].parentHash, k - 1);
    }
  }

  lemma {:induction false} PathMembers(u: Universe, a: StateHash, h: StateHash)
    requires Consistent(u) && Descends(u, a, h)
    ensures forall x :: x in Path(u, a, h) <==> Descends(u, a, x) && Descends(u, x, h) && x != a
    decreases u[h].length
  {
    DescendsLength(u, a, h);
    if h != a {
      var p := u[h].parentHash;
      PathMembers(u, a, p);
      forall x ensures x in Path(u, a, h) <==> Descends(u, a, x) && Descends(u, x, h) && x != a {
        if x == h { assert Descends(u, h, h); }
        if Descends(u, x, h) && x != h { assert Descends(u, x, p); }
      }
    } else {
      forall x | Descends(u, a, x) && Descends(u, x, a) ensures x == a {
        DescendsLength(u, a, x);
        DescendsLength(u, x, a);
      }
    }
  }
}
