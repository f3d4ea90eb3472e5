/** From one best tip to another: which blocks leave the best chain and which enter it. */
module Reorgs {
  import opened Accounts
  import opened Blocks

  datatype BlockUpdate = BlockUpdate(stateHash: StateHash, length: nat, slot: nat)

  /** Blocks to take off the old chain, newest first, and blocks to put on, oldest first. */
  datatype DbBlockUpdate = DbBlockUpdate(apply: seq<BlockUpdate>, unapply: seq<BlockUpdate>)

  function Reverse<T>(s: seq<T>): (r: seq<T>)
    ensures |r| == |s|
  {
    if s == [] then [] else Reverse(s[1..]) + [s[0]]
  }

  lemma {:induction false} ReverseSnoc<T>(s: seq<T>, x: T)
    ensures Reverse(s + [x]) == [x] + Reverse(s)
  {
    if s == [] {
      assert s + [x] == [x];
    } else {
      ReverseSnoc(s[1..], x);
      assert (s + [x])[1..] == s[1..] + [x] && (s + [x])[0] == s[0];
    }
  }

  lemma {:induction false} ReverseAt<T>(s: seq<T>, i: nat)
    requires i < |s|
    ensures Reverse(s)[i] == s[|s| - 1 - i]
  {
    if i < |s| - 1 { ReverseAt(s[1..], i); }
  }

  lemma {:induction false} ReverseTwice<T>(s: seq<T>)
    ensures Reverse(Reverse(s)) == s
  {
    forall i | 0 <= i < |s| ensures Reverse(Reverse(s))[i] == s[i] {
      ReverseAt(Reverse(s), i);
      ReverseAt(s, |s| - 1 - i);
    }
  }

  /** What is recorded for a block: blocks longer than `cut` are stamped with `top`. */
  ghost function Entry(u: Universe, h: StateHash, cut: nat, top: nat): BlockUpdate {
    BlockUpdate(h, if Len(u, h) > cut then top else Len(u, h), if h in u then u[h].slot else 0)
  }

  ghost function Entries(u: Universe, hs: seq<StateHash>, cut: nat, top: nat): (es: seq<BlockUpdate>)
    ensures |es| == |hs|
  {
    if hs == [] then [] else [Entry(u, hs[0], cut, top)] + Entries(u, hs[1..], cut, top)
  }

  lemma {:induction false} EntriesAt(u: Universe, hs: seq<StateHash>, cut: nat, top: nat, i: nat)
    requires i < |hs|
    ensures Entries(u, hs, cut, top)[i] == Entry(u, hs[i], cut, top)
  {
    if i > 0 { EntriesAt(u, hs[1..], cut, top, i - 1); }
  }

  /** The path from one block lower. */
  lemma {:induction false} PathFromParent(u: Universe, b: StateHash, tip: StateHash)
    requires Consistent(u) && Descends(u, b, tip) && HasParent(u, b)
    ensures Descends(u, u[b].parentHash, tip) && Path(u, u[b].parentHash, tip) == [b] + Path(u, b, tip)
  {
    var p := u[b].parentHash;
    assert Descends(u, p, p) && Descends(u, p, b) && p != b;
    DescendsTransitive(u, p, b, tip);
    assert Path(u, p, p) == [];
  }

  lemma {:induction false} OneMore(u: Universe, b: StateHash, tip: StateHash, cut: nat, top: nat)
    requires Consistent(u) && Descends(u, b, tip) && HasParent(u, b)
    ensures Descends(u, u[b].parentHash, tip)
    ensures Reverse(Entries(u, Path(u, u[b].parentHash, tip), cut, top)) ==
            Reverse(Entries(u, Path(u, b, tip), cut, top)) + [Entry(u, b, cut, top)]
  {
    PathFromParent(u, b, tip);
    var es := Entries(u, [b] + Path(u, b, tip), cut, top);
    assert ([b] + Path(u, b, tip))[1..] == Path(u, b, tip);
    assert es[1..] == Entries(u, Path(u, b, tip), cut, top);
  }

  /** Of two different ancestors of the same height, no block is below both tips and
      above either. */
  lemma {:induction false} NoForkAbove(u: Universe, a: StateHash, b: StateHash, old_: StateHash, new_: StateHash,
                                       y: StateHash)
    requires Consistent(u) && Descends(u, a, old_) && Descends(u, b, new_) && a in u && b in u
    requires u[a].length == u[b].length
    requires Descends(u, y, old_) && Descends(u, y, new_) && y in u && u[a].length <= u[y].length
    ensures a == b
  {
    AncestorsLinear(u, a, y, old_);
    AncestorsLinear(u, b, y, new_);
    AncestorsLinear(u, a, b, y);
    DescendsLength(u, a, b);
  }

  /** `x` is the lowest block from which the two chains run apart. */
  ghost predicate IsFork(u: Universe, old_: StateHash, new_: StateHash, x: StateHash) {
    && Descends(u, x, old_) && Descends(u, x, new_)
    && forall y :: Descends(u, y, old_) && Descends(u, y, new_) ==> Descends(u, y, x)
  }

  lemma {:induction false} MeetingIsFork(u: Universe, old_: StateHash, new_: StateHash, x: StateHash)
    requires Consistent(u) && Descends(u, x, old_) && Descends(u, x, new_)
    requires forall y :: Descends(u, y, old_) && Descends(u, y, new_) ==> Len(u, y) <= Len(u, x)
    ensures IsFork(u, old_, new_, x)
  {
    forall y | Descends(u, y, old_) && Descends(u, y, new_) ensures Descends(u, y, x) {
      DescendsLength(u, y, old_);
      DescendsLength(u, x, old_);
      AncestorsLinear(u, y, x, old_);
    }
  }

  /** Walks back from `tip` until the block is no longer than `target`. */
  method CatchUp(u: Universe, genesis: StateHash, tip: StateHash, target: nat)
    returns (b: StateHash, apply: seq<BlockUpdate>)
    requires Consistent(u) && Descends(u, genesis, tip) && genesis in u && u[genesis].length <= target
    ensures Descends(u, b, tip) && Descends(u, genesis, b)
    ensures Len(u, b) == if Len(u, tip) > target then target else Len(u, tip)
    ensures apply == Reverse(Entries(u, Path(u, b, tip), target, Len(u, tip)))
  {
    DescendsLength(u, genesis, tip);
    b, apply := tip, [];
    var length := u[tip].length;
    var steps := if length > target then length - target else 0;
    for i := 0 to steps
      invariant Descends(u, b, tip) && Descends(u, genesis, b) && b in u && u[b].length == length - i
      invariant apply == Reverse(Entries(u, Path(u, b, tip), target, length))
    {
      DescendsLength(u, genesis, b);
      if b == genesis { break; }
      OneMore(u, b, tip, target, length);
      apply := apply + [BlockUpdate(b, length, u[b].slot)];
      b := u[b].parentHash;
    }
  }

  function Parent(u: Universe, h: StateHash): Option<StateHash> {
    if h in u then Some(u[h].parentHash) else None
  }

  /** `a` and `b` are what is left of the two chains, at the same height; the blocks above
      are recorded. */
  ghost predicate Walking(u: Universe, genesis: StateHash, old_: StateHash, new_: StateHash, a: StateHash, b: StateHash,
                          upd: DbBlockUpdate) {
    var cut, top := Len(u, old_), Len(u, new_);
    && a in u && b in u && u[a].length == u[b].length
    && Descends(u, a, old_) && Descends(u, b, new_)
    && Descends(u, genesis, a) && Descends(u, genesis, b)
    && upd.apply == Reverse(Entries(u, Path(u, b, new_), cut, top))
    && upd.unapply == Reverse(Entries(u, Path(u, a, old_), cut, top))
    && forall y :: Descends(u, y, old_) && Descends(u, y, new_) ==> Len(u, y) <= u[a].length
  }

  lemma {:induction false} WalkStart(u: Universe, genesis: StateHash, old_: StateHash, new_: StateHash, b: StateHash,
                                     apply: seq<BlockUpdate>)
    requires Consistent(u) && Descends(u, genesis, old_) && Descends(u, b, new_) && Descends(u, genesis, b)
    requires Len(u, b) == Len(u, old_)
    requires apply == Reverse(Entries(u, Path(u, b, new_), Len(u, old_), Len(u, new_)))
    ensures Walking(u, genesis, old_, new_, old_, b, DbBlockUpdate(apply, []))
  {
    assert Descends(u, old_, old_) && Path(u, old_, old_) == [];
    forall y | Descends(u, y, old_) ensures Len(u, y) <= Len(u, old_) { DescendsLength(u, y, old_); }
  }

  /** While the chains have not met, neither has reached genesis. */
  lemma {:induction false} WalkStep(u: Universe, genesis: StateHash, old_: StateHash, new_: StateHash, a: StateHash,
                                    b: StateHash, upd: DbBlockUpdate)
    requires Consistent(u) && Walking(u, genesis, old_, new_, a, b, upd) && a != b
    ensures HasParent(u, a) && HasParent(u, b)
    ensures Walking(u, genesis, old_, new_, u[a].parentHash, u[b].parentHash,
                    DbBlockUpdate(upd.apply + [BlockUpdate(b, u[b].length, u[b].slot)],
                                  upd.unapply + [BlockUpdate(a, u[a].length, u[a].slot)]))
  {
    DescendsLength(u, genesis, a);
    DescendsLength(u, genesis, b);
    DescendsLength(u, a, old_);
    OneMore(u, a, old_, Len(u, old_), Len(u, new_));
    OneMore(u, b, new_, Len(u, old_), Len(u, new_));
    forall y | Descends(u, y, old_) && Descends(u, y, new_) ensures Len(u, y) < u[a].length {
      if Len(u, y) == u[a].length { NoForkAbove(u, a, b, old_, new_, y); }
    }
  }

  /** The updates that lead from the old best tip to the new one; nothing if a block that
      is needed on the way is missing, where the original stops with a panic. */
  method ReorgBlocks(u: Universe, genesis: StateHash, old_: StateHash, new_: StateHash)
    returns (r: Option<DbBlockUpdate>, ghost x: StateHash)
    requires Consistent(u) && Descends(u, genesis, old_) && Descends(u, genesis, new_)
    ensures r.Some? <==> Len(u, old_) <= Len(u, new_)
    ensures r.Some? ==> IsFork(u, old_, new_, x) && Descends(u, genesis, x)
    ensures r.Some? ==> r.value.unapply == Reverse(Entries(u, Path(u, x, old_), Len(u, old_), Len(u, new_)))
    ensures r.Some? ==> r.value.apply == Entries(u, Path(u, x, new_), Len(u, old_), Len(u, new_))
  {
    x := genesis;
    DescendsLength(u, genesis, old_);
    DescendsLength(u, genesis, new_);
    ghost var rising := Len(u, old_) <= Len(u, new_);
    var b, apply := CatchUp(u, genesis, new_, u[old_].length);
    var a, unapply := old_, [];
    if rising { WalkStart(u, genesis, old_, new_, b, apply); }
    while a != b
      invariant a in u && b in u && (!rising ==> u[a].length > u[b].length)
      invariant rising ==> Walking(u, genesis, old_, new_, a, b, DbBlockUpdate(apply, unapply))
      decreases u[a].length
    {
      if rising { WalkStep(u, genesis, old_, new_, a, b, DbBlockUpdate(apply, unapply)); }
      apply := apply + [BlockUpdate(b, u[b].length, u[b].slot)];
      unapply := unapply + [BlockUpdate(a, u[a].length, u[a].slot)];
      assert Linked(u, a) && Linked(u, b);
      if Parent(u, u[a].parentHash).None? || Parent(u, u[b].parentHash).None? {
        return None, x;
      }
      a, b := u[a].parentHash, u[b].parentHash;
    }
    x := a;
    MeetingIsFork(u, old_, new_, x);
    ReverseTwice(Entries(u, Path(u, x, new_), Len(u, old_), Len(u, new_)));
    r := Some(DbBlockUpdate(Reverse(apply), unapply));
  }
}
