/** The forest stays sound for every arrival order: branches are trees of true parent
    links, no block occurs twice, and the best tip is a highest block of the root
    branch. */
module WitnessForest {
  import opened Blocks
  import opened Removals
  import opened WitnessTree

  // ------------------------------------------------------------------ branches

  /** A branch is a tree: every block but the root has its parent in the branch. */
  ghost predicate Rooted(u: Universe, v: View) {
    && v.root in v.hashes
    && (forall h :: h in v.hashes ==> h in u)
    && (forall h :: h in v.hashes && h != v.root ==> u[h].parentHash in v.hashes)
  }

  lemma {:induction false} RootedDescends(u: Universe, v: View, h: StateHash)
    requires Consistent(u) && Rooted(u, v) && h in v.hashes
    ensures Descends(u, v.root, h) && Len(u, v.root) <= Len(u, h)
    decreases u[h].length
  {
    if h != v.root {
      assert Linked(u, h);
      RootedDescends(u, v, u[h].parentHash);
    }
  }

  /** Blocks between the root and a member are members. */
  lemma {:induction false} RootedConvex(u: Universe, v: View, x: StateHash, h: StateHash)
    requires Consistent(u) && Rooted(u, v) && h in v.hashes
    requires Descends(u, x, h) && x in u && Len(u, v.root) <= Len(u, x)
    ensures x in v.hashes
    decreases u[h].length
  {
    if x != h {
      DescendsLength(u, x, u[h].parentHash);
      assert h != v.root;
      RootedConvex(u, v, x, u[h].parentHash);
    }
  }

  /** The parent of a branch's root lies outside the branch. */
  lemma {:induction false} RootParentOutside(u: Universe, v: View)
    requires Consistent(u) && Rooted(u, v)
    ensures u[v.root].parentHash !in v.hashes
  {
    assert Linked(u, v.root);
    if u[v.root].parentHash in v.hashes {
      RootedDescends(u, v, u[v.root].parentHash);
    }
  }

  ghost predicate Separate(ds: seq<View>) {
    forall i, j :: 0 <= i < j < |ds| ==> ds[i].hashes !! ds[j].hashes
  }

  ghost predicate AllRooted(u: Universe, ds: seq<View>) {
    forall i :: 0 <= i < |ds| ==> Rooted(u, ds[i])
  }

  lemma {:induction false} AllHashesMember(ds: seq<View>, x: StateHash)
    ensures x in AllHashes(ds) <==> exists i :: 0 <= i < |ds| && x in ds[i].hashes
  {
    if ds != [] {
      var init := ds[..|ds| - 1];
      AllHashesMember(init, x);
      if x in AllHashes(init) { var i :| 0 <= i < |init| && x in init[i].hashes; assert x in ds[i].hashes; }
      if i :| 0 <= i < |ds| && x in ds[i].hashes { if i < |init| { assert x in init[i].hashes; } }
    }
  }

  /** Dangling branches are split, in order, into those that `h` is the parent of and
      the others. */
  lemma {:induction false} SplitMembers(u: Universe, ds: seq<View>, h: StateHash, d: View)
    ensures d in Matching(u, ds, h) <==> d in ds && IsParentOfRoot(u, d, h)
    ensures d in Others(u, ds, h) <==> d in ds && !IsParentOfRoot(u, d, h)
  {
    if ds != [] {
      var init, last := ds[..|ds| - 1], ds[|ds| - 1];
      SplitMembers(u, init, h, d);
      assert d in ds <==> d in init || d == last;
      var m, o := if IsParentOfRoot(u, last, h) then [last] else [], if IsParentOfRoot(u, last, h) then [] else [last];
      assert d in m <==> d == last && IsParentOfRoot(u, last, h);
      assert d in o <==> d == last && !IsParentOfRoot(u, last, h);
      assert d in Matching(u, init, h) + m <==> d in Matching(u, init, h) || d in m;
      assert d in Others(u, init, h) + o <==> d in Others(u, init, h) || d in o;
    }
  }

  lemma {:induction false} SplitHashes(u: Universe, ds: seq<View>, h: StateHash)
    ensures AllHashes(Matching(u, ds, h)) + AllHashes(Others(u, ds, h)) == AllHashes(ds)
    ensures |Matching(u, ds, h)| + |Others(u, ds, h)| == |ds|
  {
    if ds != [] {
      var init, d := ds[..|ds| - 1], ds[|ds| - 1];
      var ms, os := Matching(u, init, h), Others(u, init, h);
      SplitHashes(u, init, h);
      assert ms + [] == ms && os + [] == os;
      if IsParentOfRoot(u, d, h) { AllHashesSnoc(ms, d); } else { AllHashesSnoc(os, d); }
    }
  }

  lemma {:induction false} SplitByParent(u: Universe, ds: seq<View>, h: StateHash)
    ensures AllHashes(Matching(u, ds, h)) + AllHashes(Others(u, ds, h)) == AllHashes(ds)
    ensures forall d :: d in Matching(u, ds, h) <==> d in ds && IsParentOfRoot(u, d, h)
    ensures forall d :: d in Others(u, ds, h) <==> d in ds && !IsParentOfRoot(u, d, h)
    ensures |Matching(u, ds, h)| + |Others(u, ds, h)| == |ds|
  {
    SplitHashes(u, ds, h);
    forall d { SplitMembers(u, ds, h, d); }
  }

  lemma {:induction false} AllHashesSnoc(ds: seq<View>, d: View)
    ensures AllHashes(ds + [d]) == AllHashes(ds) + d.hashes
  {
    assert (ds + [d])[..|ds|] == ds;
  }

  lemma {:induction false} SplitSeparate(u: Universe, ds: seq<View>, h: StateHash)
    requires Separate(ds)
    ensures Separate(Others(u, ds, h))
    ensures AllHashes(Matching(u, ds, h)) !! AllHashes(Others(u, ds, h))
  {
    if ds != [] {
      var init, d := ds[..|ds| - 1], ds[|ds| - 1];
      var ms, os := Matching(u, init, h), Others(u, init, h);
      SplitSeparate(u, init, h);
      SplitHashes(u, init, h);
      assert AllHashes(init) !! d.hashes by {
        forall x | x in AllHashes(init) ensures x !in d.hashes { AllHashesMember(init, x); }
      }
      forall i | 0 <= i < |os| ensures os[i].hashes !! d.hashes {
        forall x | x in os[i].hashes ensures x !in d.hashes { AllHashesMember(os, x); }
      }
      assert ms + [] == ms && os + [] == os;
      if IsParentOfRoot(u, d, h) { AllHashesSnoc(ms, d); } else { AllHashesSnoc(os, d); }
    }
  }

  lemma {:induction false} AllHashesWithout(ds: seq<View>, i: nat)
    requires Separate(ds) && i < |ds|
    ensures Separate(Remove(ds, i))
    ensures AllHashes(Remove(ds, i)) !! ds[i].hashes
    ensures AllHashes(Remove(ds, i)) + ds[i].hashes == AllHashes(ds)
  {
    var r := Remove(ds, i);
    forall x ensures x in AllHashes(r) <==> x in AllHashes(ds) && x !in ds[i].hashes
             ensures x in ds[i].hashes ==> x in AllHashes(ds) {
      AllHashesMember(r, x);
      AllHashesMember(ds, x);
      if j :| 0 <= j < |r| && x in r[j].hashes {
        assert r[j] == if j < i then ds[j] else ds[j + 1];
      }
      if j :| 0 <= j < |ds| && x in ds[j].hashes && j != i {
        assert ds[j] == if j < i then r[j] else r[j - 1];
      }
    }
  }

  lemma {:induction false} AllHashesUpdate(ds: seq<View>, i: nat, v: View, h: StateHash)
    requires Separate(ds) && i < |ds| && v.hashes == ds[i].hashes + {h} && h !in AllHashes(ds)
    ensures Separate(ds[i := v]) && AllHashes(ds[i := v]) == AllHashes(ds) + {h}
  {
    var r := ds[i := v];
    forall x ensures x in AllHashes(r) <==> x in AllHashes(ds) || x == h {
      AllHashesMember(r, x);
      AllHashesMember(ds, x);
      if j :| 0 <= j < |r| && x in r[j].hashes { assert x in ds[j].hashes || x == h; }
      if j :| 0 <= j < |ds| && x in ds[j].hashes { assert x in r[j].hashes; }
      assert h in r[i].hashes;
    }
    forall j, k | 0 <= j < k < |r| ensures r[j].hashes !! r[k].hashes {
      assert forall l :: 0 <= l < |ds| ==> h !in ds[l].hashes by {
        forall l | 0 <= l < |ds| ensures h !in ds[l].hashes { AllHashesMember(ds, h); }
      }
    }
  }

  /** Branches grafted onto their common parent form one tree with what holds it. */
  lemma {:induction false} Graft(u: Universe, v: View, h: StateHash, ms: seq<View>)
    requires Consistent(u) && Rooted(u, v) && h in v.hashes && AllRooted(u, ms)
    requires forall m :: m in ms ==> IsParentOfRoot(u, m, h)
    ensures Rooted(u, View(v.root, v.hashes + AllHashes(ms)))
  {
    var w := View(v.root, v.hashes + AllHashes(ms));
    forall x | x in AllHashes(ms)
      ensures x in u && u[x].parentHash in w.hashes
    {
      AllHashesMember(ms, x);
      var i :| 0 <= i < |ms| && x in ms[i].hashes;
      assert ms[i] in ms;
      if x != ms[i].root { AllHashesMember(ms, u[x].parentHash); }
    }
  }

  // -------------------------------------------------------------------- forest

  /** The root branch is a tree and the best tip one of its highest blocks. */
  ghost predicate RootSound(u: Universe, s: State) {
    Consistent(u) && Rooted(u, s.root) && IsTop(u, s.root.hashes, s.bestTip)
  }

  /** Soundness of the whole forest. */
  ghost predicate Forest(u: Universe, s: State) {
    && RootSound(u, s)
    && AllRooted(u, s.dangling)
    && Separate(s.dangling)
    && AllHashes(s.dangling) !! s.root.hashes
  }

  ghost function Members(s: State): set<StateHash> {
    s.root.hashes + AllHashes(s.dangling)
  }

  ghost predicate Fresh(u: Universe, s: State, h: StateHash) {
    h in u && h !in Members(s)
  }

  lemma {:induction false} LastTopExists(u: Universe, hs: set<StateHash>)
    requires Consistent(u) && hs != {} && forall h :: h in hs ==> h in u
    ensures IsLastTop(u, hs, LastTop(u, hs))
  {
    var x :| x in hs;
    if hs == {x} {
      assert IsLastTop(u, hs, x);
    } else {
      var rest := hs - {x};
      LastTopExists(u, rest);
      var w := LastTop(u, rest);
      var best := if Len(u, x) > Len(u, w) || (Len(u, x) == Len(u, w) && Beats(u, w, x)) then x else w;
      forall y | y in hs ensures Len(u, y) <= Len(u, best) { assert y == x || y in rest; }
      forall y | IsTop(u, hs, y) && y != best ensures Beats(u, y, best) {
        assert Len(u, y) == Len(u, best);
        if y in rest {
          assert IsTop(u, rest, y);
          BeatsOrder(u, y, w, x);
          BeatsOrder(u, x, w, y);
        } else {
          BeatsOrder(u, x, w, x);
        }
      }
      assert IsLastTop(u, hs, best);
    }
  }

  /** `BestOf` picks a tip that no other tip beats. */
  lemma {:induction false} BestOfIsBest(u: Universe, tips: seq<StateHash>)
    requires Consistent(u) && tips != [] && forall t :: t in tips ==> t in u
    ensures BestOf(u, tips) in tips
    ensures forall t :: t in tips ==> !Beats(u, t, BestOf(u, tips))
  {
    var n := |tips| - 1;
    if n == 0 {
      BeatsOrder(u, tips[0], tips[0], tips[0]);
    } else {
      var init := tips[..n];
      BestOfIsBest(u, init);
      var b := BestOf(u, init);
      forall t | t in tips ensures !Beats(u, t, BestOf(u, tips)) {
        assert t in init || t == tips[n];
        BeatsOrder(u, b, tips[n], t);
        BeatsOrder(u, t, tips[n], b);
        BeatsOrder(u, tips[n], t, b);
      }
    }
  }

  lemma {:induction false} TipsAt(u: Universe, ds: seq<View>, i: nat)
    requires i < |ds|
    ensures Tips(u, ds)[i] == LastTop(u, ds[i].hashes)
  {
    if i < |ds| - 1 { TipsAt(u, ds[..|ds| - 1], i); }
  }

  /** The length pre-check never turns away a block that belongs to the branch. */
  lemma {:induction false} DanglingGateAdmits(u: Universe, d: View, h: StateHash)
    requires Consistent(u) && Rooted(u, d) && h in u
    requires IsParentOfRoot(u, d, h) || IsChildIn(u, d, h)
    ensures Touches(u, d, h)
  {
    LastTopExists(u, d.hashes);
    assert Linked(u, h) && Linked(u, d.root);
    var t := LastTop(u, d.hashes);
    assert Len(u, d.root) <= Len(u, t);
    if IsChildIn(u, d, h) { RootedDescends(u, d, u[h].parentHash); }
  }

  /** Nor does the one of the root branch. */
  lemma {:induction false} RootGateAdmits(u: Universe, s: State, h: StateHash)
    requires Forest(u, s) && h in u && IsChildIn(u, s.root, h)
    ensures ExtendsRoot(u, s, h)
  {
    assert Linked(u, h) && Len(u, u[h].parentHash) <= Len(u, s.bestTip);
  }

  /** A block is never both the parent of a branch's root and a child inside it. */
  lemma {:induction false} NotBothWays(u: Universe, d: View, h: StateHash)
    requires Consistent(u) && Rooted(u, d) && h in u
    ensures !(IsParentOfRoot(u, d, h) && IsChildIn(u, d, h))
  {
    assert Linked(u, h) && Linked(u, d.root);
    if IsParentOfRoot(u, d, h) && IsChildIn(u, d, h) {
      RootedDescends(u, d, u[h].parentHash);
    }
  }

  lemma {:induction false} GrowRooted(u: Universe, d: View, h: StateHash)
    requires Consistent(u) && Rooted(u, d) && h in u && h !in d.hashes
    requires IsParentOfRoot(u, d, h) || IsChildIn(u, d, h)
    ensures Rooted(u, Grow(u, d, h))
    ensures !IsParentOfRoot(u, Grow(u, d, h), h)
  {
    assert Linked(u, h);
    NotBothWays(u, d, h);
  }

  /** The branches merged by `update_dangling` all sit after the extended branch, so
      that removing the extended one first shifts every one of them by one. */
  lemma {:induction false} MergedBranchesComeLater(u: Universe, ds: seq<View>, h: StateHash, j: nat)
    requires Consistent(u) && AllRooted(u, ds) && h in u && h !in AllHashes(ds)
    requires FirstTouch(u, ds, h) < |ds| && j < |ds|
    requires IsParentOfRoot(u, ds[FirstTouch(u, ds, h) := Grow(u, ds[FirstTouch(u, ds, h)], h)][j], h)
    ensures FirstTouch(u, ds, h) < j
  {
    var i := FirstTouch(u, ds, h);
    if j < i {
      DanglingGateAdmits(u, ds[j], h);
    } else if j == i {
      assert h !in ds[i].hashes by { AllHashesMember(ds, h); }
      GrowRooted(u, ds[i], h);
    }
  }

  // ------------------------------------------------------------ step soundness

  lemma {:induction false} ExtendRootForest(u: Universe, s: State, h: StateHash)
    requires Forest(u, s) && Fresh(u, s, h) && ExtendsRoot(u, s, h)
    ensures Forest(u, ExtendRoot(u, s, h))
    ensures Members(ExtendRoot(u, s, h)) == Members(s) + {h}
    ensures Len(u, s.bestTip) <= Len(u, ExtendRoot(u, s, h).bestTip)
  {
    var ms := Matching(u, s.dangling, h);
    var s' := ExtendRoot(u, s, h);
    SplitHashes(u, s.dangling, h);
    SplitSeparate(u, s.dangling, h);
    MatchingRooted(u, s.dangling, h);
    var v := View(s.root.root, s.root.hashes + {h});
    assert Rooted(u, v);
    Graft(u, v, h, ms);
    assert s'.root == View(v.root, v.hashes + AllHashes(ms));
    ExtendRootTip(u, s, h);
  }

  /** The tip offered by the merged branches is a highest block of them. */
  lemma {:induction false} MergedTip(u: Universe, ms: seq<View>)
    requires Consistent(u) && AllRooted(u, ms) && ms != []
    ensures IsTop(u, AllHashes(ms), BestOf(u, Tips(u, ms))) && BestOf(u, Tips(u, ms)) in u
  {
    var tips := Tips(u, ms);
    forall i | 0 <= i < |ms| ensures IsLastTop(u, ms[i].hashes, tips[i]) && tips[i] in u {
      LastTopExists(u, ms[i].hashes);
      TipsAt(u, ms, i);
    }
    BestOfIsBest(u, tips);
    var b := BestOf(u, tips);
    var k :| 0 <= k < |tips| && tips[k] == b;
    AllHashesMember(ms, b);
    forall x | x in AllHashes(ms) ensures Len(u, x) <= Len(u, b) {
      AllHashesMember(ms, x);
      var i :| 0 <= i < |ms| && x in ms[i].hashes;
      assert tips[i] in tips;
      BeatsOrder(u, tips[i], b, b);
    }
  }

  lemma {:induction false} PreferIsTop(u: Universe, hs: set<StateHash>, tip: StateHash, more: set<StateHash>,
                                       t: StateHash)
    requires Consistent(u) && IsTop(u, hs, tip) && IsTop(u, more, t) && tip in u && t in u
    ensures IsTop(u, hs + more, Prefer(u, tip, t)) && Len(u, tip) <= Len(u, Prefer(u, tip, t))
  {
    BeatsOrder(u, t, tip, t);
  }

  lemma {:induction false} ExtendRootTip(u: Universe, s: State, h: StateHash)
    requires Forest(u, s) && h in u
    ensures IsTop(u, ExtendRoot(u, s, h).root.hashes, ExtendRoot(u, s, h).bestTip)
    ensures Len(u, s.bestTip) <= Len(u, ExtendRoot(u, s, h).bestTip)
  {
    var ms := Matching(u, s.dangling, h);
    var t1, hs := s.bestTip, s.root.hashes;
    if ms != [] {
      MatchingRooted(u, s.dangling, h);
      MergedTip(u, ms);
      t1, hs := Prefer(u, s.bestTip, BestOf(u, Tips(u, ms))), hs + AllHashes(ms);
      PreferIsTop(u, s.root.hashes, s.bestTip, AllHashes(ms), BestOf(u, Tips(u, ms)));
    }
    PreferIsTop(u, hs, t1, {h}, h);
    assert hs + {h} == ExtendRoot(u, s, h).root.hashes;
  }

  lemma {:induction false} MatchingRooted(u: Universe, ds: seq<View>, h: StateHash)
    requires AllRooted(u, ds)
    ensures AllRooted(u, Matching(u, ds, h)) && AllRooted(u, Others(u, ds, h))
    ensures forall m :: m in Matching(u, ds, h) ==> IsParentOfRoot(u, m, h)
  {
    var ms, os := Matching(u, ds, h), Others(u, ds, h);
    SplitByParent(u, ds, h);
    forall j | 0 <= j < |ms| ensures Rooted(u, ms[j]) { assert ms[j] in ms; }
    forall j | 0 <= j < |os| ensures Rooted(u, os[j]) { assert os[j] in os; }
  }

  lemma {:induction false} DanglingAfterSound(u: Universe, ds: seq<View>, h: StateHash)
    requires Consistent(u) && AllRooted(u, ds) && Separate(ds) && h in u && h !in AllHashes(ds)
    ensures var ds' := DanglingAfter(u, ds, h);
            AllRooted(u, ds') && Separate(ds') && AllHashes(ds') == AllHashes(ds) + {h}
  {
    var i := FirstTouch(u, ds, h);
    if i == |ds| {
      SnocSound(u, ds, View(h, {h}));
    } else {
      var grown := ds[i := Grow(u, ds[i], h)];
      GrowAt(u, ds, i, h);
      if Matching(u, grown, h) != [] {
        JoinAtSound(u, grown, i, h);
      }
    }
  }

  lemma {:induction false} ExtendDanglingForest(u: Universe, s: State, h: StateHash)
    requires Forest(u, s) && Fresh(u, s, h)
    ensures Forest(u, ExtendDangling(u, s, h))
    ensures Members(ExtendDangling(u, s, h)) == Members(s) + {h}
  {
    DanglingAfterSound(u, s.dangling, h);
  }

  lemma {:induction false} GrowAt(u: Universe, ds: seq<View>, i: nat, h: StateHash)
    requires Consistent(u) && AllRooted(u, ds) && Separate(ds) && h in u && h !in AllHashes(ds)
    requires i < |ds| && Touches(u, ds[i], h)
    ensures var ds' := ds[i := Grow(u, ds[i], h)];
            AllRooted(u, ds') && Separate(ds') && AllHashes(ds') == AllHashes(ds) + {h}
  {
    assert h !in ds[i].hashes by { AllHashesMember(ds, h); }
    GrowRooted(u, ds[i], h);
    AllHashesUpdate(ds, i, Grow(u, ds[i], h), h);
  }

  lemma {:induction false} JoinAtSound(u: Universe, ds: seq<View>, i: nat, h: StateHash)
    requires Consistent(u) && AllRooted(u, ds) && Separate(ds) && i < |ds| && h in ds[i].hashes
    ensures var ds' := JoinAt(u, ds, i, h);
            AllRooted(u, ds') && Separate(ds') && AllHashes(ds') == AllHashes(ds)
  {
    var rest := Remove(ds, i);
    var ms, os := Matching(u, rest, h), Others(u, rest, h);
    var merged := View(ds[i].root, ds[i].hashes + AllHashes(ms));
    AllHashesWithout(ds, i);
    SplitHashes(u, rest, h);
    SplitSeparate(u, rest, h);
    RestRooted(u, ds, i, h);
    Graft(u, ds[i], h, ms);
    SnocSound(u, os, merged);
  }

  lemma {:induction false} SnocSound(u: Universe, ds: seq<View>, d: View)
    requires AllRooted(u, ds) && Separate(ds) && Rooted(u, d) && AllHashes(ds) !! d.hashes
    ensures AllRooted(u, ds + [d]) && Separate(ds + [d]) && AllHashes(ds + [d]) == AllHashes(ds) + d.hashes
  {
    AllHashesSnoc(ds, d);
    forall j | 0 <= j < |ds| ensures ds[j].hashes !! d.hashes {
      forall x | x in ds[j].hashes ensures x !in d.hashes { AllHashesMember(ds, x); }
    }
  }

  lemma {:induction false} RestRooted(u: Universe, ds: seq<View>, i: nat, h: StateHash)
    requires AllRooted(u, ds) && i < |ds|
    ensures AllRooted(u, Matching(u, Remove(ds, i), h)) && AllRooted(u, Others(u, Remove(ds, i), h))
    ensures forall m :: m in Matching(u, Remove(ds, i), h) ==> IsParentOfRoot(u, m, h)
  {
    var rest := Remove(ds, i);
    forall j | 0 <= j < |rest| ensures Rooted(u, rest[j]) {
      assert rest[j] == if j < i then ds[j] else ds[j + 1];
    }
    MatchingRooted(u, rest, h);
  }
}
