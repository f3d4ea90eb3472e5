/** Removing several elements of a sequence one after another, each index lowered by the
    number of removals before it. */
module Removals {

  function Remove<T>(s: seq<T>, i: nat): seq<T>
    requires i < |s|
  {
    s[..i] + s[i + 1..]
  }

  /** The elements whose index is not listed. */
  ghost function Dropping<T>(s: seq<T>, idxs: seq<nat>): seq<T> {
    if s == [] then [] else
      Dropping(s[..|s| - 1], idxs) + if |s| - 1 in idxs then [] else [s[|s| - 1]]
  }

  ghost predicate Increasing(idxs: seq<nat>, n: nat) {
    && (forall i :: 0 <= i < |idxs| ==> idxs[i] < n)
    && (forall i, j :: 0 <= i < j < |idxs| ==> idxs[i] < idxs[j])
  }

  /** Where the part that is still untouched begins. */
  ghost function Untouched(idxs: seq<nat>, n: nat): nat
    requires n <= |idxs|
  {
    if n == 0 then 0 else idxs[n - 1] + 1
  }

  /** After `n` removals. */
  ghost predicate Removing<T>(s: seq<T>, idxs: seq<nat>, n: nat, cur: seq<T>) {
    && Increasing(idxs, |s|) && n <= |idxs|
    && cur == Dropping(s[..Untouched(idxs, n)], idxs) + s[Untouched(idxs, n)..]
    && |Dropping(s[..Untouched(idxs, n)], idxs)| == Untouched(idxs, n) - n
  }

  lemma {:induction false} DroppingNone<T>(s: seq<T>, idxs: seq<nat>, m: nat, k: nat)
    requires m <= k <= |s| && forall i :: m <= i < k ==> i !in idxs
    ensures Dropping(s[..k], idxs) == Dropping(s[..m], idxs) + s[m..k]
    decreases k
  {
    if m < k {
      assert s[..k][..k - 1] == s[..k - 1];
      DroppingNone(s, idxs, m, k - 1);
      assert s[m..k] == s[m..k - 1] + [s[k - 1]];
    } else {
      assert s[m..k] == [];
    }
  }

  lemma {:induction false} NotRemoved(idxs: seq<nat>, len: nat, n: nat, i: nat)
    requires Increasing(idxs, len) && n <= |idxs| && Untouched(idxs, n) <= i < len
    requires n < |idxs| ==> i < idxs[n]
    ensures i !in idxs
  {
    forall k | 0 <= k < |idxs| ensures idxs[k] != i {
      if k < n { assert idxs[k] <= idxs[n - 1]; } else { assert idxs[n] <= idxs[k]; }
    }
  }

  /** The lowered index hits the intended element. */
  lemma {:induction false} RemovingStep<T>(s: seq<T>, idxs: seq<nat>, n: nat, cur: seq<T>)
    requires Removing(s, idxs, n, cur) && n < |idxs|
    ensures n <= idxs[n] && idxs[n] - n < |cur| && cur[idxs[n] - n] == s[idxs[n]]
    ensures Removing(s, idxs, n + 1, Remove(cur, idxs[n] - n))
  {
    var m, k := Untouched(idxs, n), idxs[n];
    forall i | m <= i < k ensures i !in idxs { NotRemoved(idxs, |s|, n, i); }
    DroppingNone(s, idxs, m, k);
    var front := Dropping(s[..m], idxs);
    assert cur == (front + s[m..k]) + s[k..];
    assert s[..k + 1][..k] == s[..k];
    assert Dropping(s[..k + 1], idxs) == Dropping(s[..k], idxs);
  }

  lemma {:induction false} RemovingDone<T>(s: seq<T>, idxs: seq<nat>, cur: seq<T>)
    requires Removing(s, idxs, |idxs|, cur)
    ensures cur == Dropping(s, idxs)
  {
    var m := Untouched(idxs, |idxs|);
    forall i | m <= i < |s| ensures i !in idxs { NotRemoved(idxs, |s|, |idxs|, i); }
    DroppingNone(s, idxs, m, |s|);
    assert s[..|s|] == s && s[m..|s|] == s[m..];
  }

  /** The removal loop of a root extension. */
  method RemoveAll<T>(s: seq<T>, idxs: seq<nat>) returns (cur: seq<T>)
    requires Increasing(idxs, |s|)
    ensures cur == Dropping(s, idxs)
  {
    cur := s;
    for n := 0 to |idxs|
      invariant Removing(s, idxs, n, cur)
    {
      RemovingStep(s, idxs, n, cur);
      cur := Remove(cur, idxs[n] - n);
    }
    RemovingDone(s, idxs, cur);
  }
}
