/** How the result depends on the arrival order: when all joinable branches are joined,
    when the best tip is the best block, and what length-sorted arrival guarantees. */
module WitnessOrder {
  import opened Accounts
  import opened Blocks
  import opened Ledgers
  import opened Removals
  import opened WitnessTree
  import opened WitnessForest
  import opened WitnessRuns

  // ------------------------------------------------------------- connectedness

  /** No branch could be hung under a block of the forest. */
  ghost predicate Connected(u: Universe, s: State) {
    forall d :: d in s.dangling ==> d.root in u && u[d.root].parentHash !in Members(s)
  }

  /** The block becomes the new root of the first branch it touches although its own
      parent sits in a dangling branch, too. */
  ghost predicate LeavesGap(u: Universe, s: State, h: StateHash) {
    && !ExtendsRoot(u, s, h)
    && FirstTouch(u, s.dangling, h) < |s.dangling|
    && IsParentOfRoot(u, s.dangling[FirstTouch(u, s.dangling, h)], h)
    && h in u && u[h].parentHash in AllHashes(s.dangling)
  }

  /** The root of the branch that holds `h` after a dangling extension. */
  ghost function RootOver(u: Universe, ds: seq<View>, h: StateHash): StateHash {
    var i := FirstTouch(u, ds, h);
    if i == |ds| || IsParentOfRoot(u, ds[i], h) then h else ds[i].root
  }

  /** After a dangling extension there is the branch that took `h`; all others are old
      ones that `h` is not the parent of. */
  ghost predicate TookIn(u: Universe, ds: seq<View>, h: StateHash, ds': seq<View>) {
    && (exists i :: 0 <= i < |ds'| && ds'[i].root == RootOver(u, ds, h))
    && (forall i :: 0 <= i < |ds'| ==>
          ds'[i].root == RootOver(u, ds, h) || (ds'[i] in ds && !IsParentOfRoot(u, ds'[i], h)))
  }

  lemma {:induction false} DanglingAfterMembers(u: Universe, ds: seq<View>, h: StateHash)
    requires Consistent(u) && AllRooted(u, ds) && h in u && h !in AllHashes(ds)
    ensures TookIn(u, ds, h, DanglingAfter(u, ds, h))
  {
    var i := FirstTouch(u, ds, h);
    if i == |ds| {
      var ds' := ds + [View(h, {h})];
      assert ds'[|ds|].root == h;
      forall j | 0 <= j < |ds| ensures !IsParentOfRoot(u, ds[j], h) {
        if IsParentOfRoot(u, ds[j], h) { DanglingGateAdmits(u, ds[j], h); }
      }
    } else {
      var grown := ds[i := Grow(u, ds[i], h)];
      if Matching(u, grown, h) == [] {
        assert grown[i].root == RootOver(u, ds, h);
        forall j | 0 <= j < |grown| && j != i ensures grown[j] in ds && !IsParentOfRoot(u, grown[j], h) {
          assert grown[j] == ds[j];
          SplitMembers(u, grown, h, grown[j]);
        }
      } else {
        JoinAtMembers(u, ds, i, h);
      }
    }
  }

  lemma {:induction false} JoinAtMembers(u: Universe, ds: seq<View>, i: nat, h: StateHash)
    requires i < |ds| && i == FirstTouch(u, ds, h)
    ensures TookIn(u, ds, h, JoinAt(u, ds[i := Grow(u, ds[i], h)], i, h))
  {
    var grown := ds[i := Grow(u, ds[i], h)];
    var rest := Remove(grown, i);
    var os := Others(u, rest, h);
    var ds' := JoinAt(u, grown, i, h);
    assert ds'[|os|].root == RootOver(u, ds, h);
    forall j | 0 <= j < |os| ensures os[j] in ds && !IsParentOfRoot(u, os[j], h) {
      assert os[j] in os;
      SplitMembers(u, rest, h, os[j]);
      var k :| 0 <= k < |rest| && rest[k] == os[j];
      assert rest[k] == if k < i then ds[k] else ds[k + 1];
    }
  }

  /** A step leaves two joinable branches apart in exactly one situation. */
  lemma {:induction false} ConnectedIffNoGap(u: Universe, s: State, h: StateHash)
    requires Forest(u, s) && Fresh(u, s, h) && Connected(u, s)
    ensures Connected(u, Extended(u, s, h)) <==> !LeavesGap(u, s, h)
  {
    var e := Extended(u, s, h);
    ExtendedForest(u, s, h);
    assert Linked(u, h);
    if ExtendsRoot(u, s, h) {
      forall d | d in e.dangling ensures d.root in u && u[d.root].parentHash !in Members(e) {
        SplitMembers(u, s.dangling, h, d);
      }
    } else {
      DanglingConnected(u, s, h);
    }
  }

  lemma {:induction false} DanglingConnected(u: Universe, s: State, h: StateHash)
    requires Forest(u, s) && Fresh(u, s, h) && Connected(u, s) && !ExtendsRoot(u, s, h)
    ensures Connected(u, Extended(u, s, h)) <==> !LeavesGap(u, s, h)
  {
    var e := Extended(u, s, h);
    ExtendedForest(u, s, h);
    DanglingAfterMembers(u, s.dangling, h);
    RootOverParent(u, s, h);
    TookInConnected(u, s, h, e, RootOver(u, s.dangling, h));
  }

  /** Only the branch that took `h` in can be left unconnected. */
  lemma {:induction false} TookInConnected(u: Universe, s: State, h: StateHash, e: State, x: StateHash)
    requires Connected(u, s) && Members(e) == Members(s) + {h} && x == RootOver(u, s.dangling, h) && x in u
    requires TookIn(u, s.dangling, h, e.dangling)
    ensures Connected(u, e) <==> u[x].parentHash !in Members(e)
  {
    if u[x].parentHash !in Members(e) {
      forall d | d in e.dangling ensures d.root in u && u[d.root].parentHash !in Members(e) {
        var i :| 0 <= i < |e.dangling| && e.dangling[i] == d;
      }
    } else {
      var i :| 0 <= i < |e.dangling| && e.dangling[i].root == x;
      assert e.dangling[i] in e.dangling;
    }
  }

  lemma {:induction false} RootOverParent(u: Universe, s: State, h: StateHash)
    requires Forest(u, s) && Fresh(u, s, h) && Connected(u, s) && !ExtendsRoot(u, s, h)
    ensures RootOver(u, s.dangling, h) in u
    ensures u[RootOver(u, s.dangling, h)].parentHash in Members(s) + {h} <==> LeavesGap(u, s, h)
  {
    var i := FirstTouch(u, s.dangling, h);
    ParentElsewhere(u, s, h);
    if i < |s.dangling| {
      assert s.dangling[i] in s.dangling;
      NotBothWays(u, s.dangling[i], h);
    }
  }

  /** Where the parent of a block that does not extend the root branch can be. */
  lemma {:induction false} ParentElsewhere(u: Universe, s: State, h: StateHash)
    requires Forest(u, s) && Fresh(u, s, h) && !ExtendsRoot(u, s, h)
    ensures u[h].parentHash !in s.root.hashes && u[h].parentHash != h
    ensures FirstTouch(u, s.dangling, h) == |s.dangling| ==> u[h].parentHash !in AllHashes(s.dangling)
  {
    assert Linked(u, h);
    if u[h].parentHash in s.root.hashes { RootGateAdmits(u, s, h); }
    if u[h].parentHash in AllHashes(s.dangling) {
      AllHashesMember(s.dangling, u[h].parentHash);
      var j :| 0 <= j < |s.dangling| && u[h].parentHash in s.dangling[j].hashes;
      DanglingGateAdmits(u, s.dangling[j], h);
    }
  }

  /** A step keeps the forest connected exactly if it leaves no gap. */
  lemma {:induction false} FeedConnectedIff(step: Step, c: Config, u: Universe, s: State, h: StateHash)
    requires ValidConfig(c) && Forest(u, s) && Fresh(u, s, h) && Connected(u, s) && Accepted(u, s, h)
    ensures Connected(u, Feed(step, c, u, s, h).state) <==> !LeavesGap(u, s, h)
  {
    var e := Extended(u, s, h);
    ConnectedIffNoGap(u, s, h);
    ExtendedForest(u, s, h);
    if ExtendsRoot(u, s, h) {
      UpdateKeepsForest(step, c, u, e);
      PruneSound(c, u, UpdateCanonical(step, c, u, e));
    }
  }

  // ---------------------------------------------------------------- optimality

  /** The best tip beats every other block of the root branch. */
  ghost predicate Optimal(u: Universe, s: State) {
    s.bestTip in s.root.hashes && forall x :: x in s.root.hashes && x != s.bestTip ==> Beats(u, s.bestTip, x)
  }

  /** A block of a merged branch that beats everything the merge offers as best tip. */
  ghost predicate Hidden(u: Universe, s: State, h: StateHash, x: StateHash) {
    var ms := Matching(u, s.dangling, h);
    && x in AllHashes(ms) && Beats(u, x, s.bestTip) && Beats(u, x, h)
    && forall m :: m in ms ==> Beats(u, x, LastTop(u, m.hashes))
  }

  lemma {:induction false} TipsMembers(u: Universe, ms: seq<View>, t: StateHash)
    ensures t in Tips(u, ms) <==> exists m :: m in ms && LastTop(u, m.hashes) == t
  {
    if t in Tips(u, ms) {
      var i :| 0 <= i < |ms| && Tips(u, ms)[i] == t;
      TipsAt(u, ms, i);
      assert ms[i] in ms;
    }
    if m :| m in ms && LastTop(u, m.hashes) == t {
      var i :| 0 <= i < |ms| && ms[i] == m;
      TipsAt(u, ms, i);
      assert Tips(u, ms)[i] == t;
    }
  }

  /** The tip chosen by the step: one of the offers, and none of them beats it. */
  lemma {:induction false} ChosenTip(u: Universe, s: State, h: StateHash, x: StateHash)
    requires Forest(u, s) && h in u && x in u
    ensures var e := ExtendRoot(u, s, h);
            var ms := Matching(u, s.dangling, h);
            && e.bestTip in u
            && (e.bestTip == s.bestTip || e.bestTip == h || e.bestTip in Tips(u, ms))
            && !Beats(u, s.bestTip, e.bestTip) && !Beats(u, h, e.bestTip)
            && (x in Tips(u, ms) ==> !Beats(u, x, e.bestTip))
  {
    var ms := Matching(u, s.dangling, h);
    var e := ExtendRoot(u, s, h);
    var t1 := s.bestTip;
    if ms != [] {
      MatchingRooted(u, s.dangling, h);
      TipsInUniverse(u, ms);
      BestOfIsBest(u, Tips(u, ms));
      var b := BestOf(u, Tips(u, ms));
      t1 := Prefer(u, s.bestTip, b);
      BeatsOrder(u, s.bestTip, b, t1);
      BeatsOrder(u, b, s.bestTip, t1);
      BeatsOrder(u, x, b, t1);
      BeatsOrder(u, x, t1, b);
      BeatsOrder(u, b, x, t1);
    }
    BeatsOrder(u, h, t1, h);
    BeatsOrder(u, t1, h, t1);
    BeatsOrder(u, s.bestTip, h, t1);
    BeatsOrder(u, h, s.bestTip, t1);
    BeatsOrder(u, s.bestTip, t1, h);
    BeatsOrder(u, x, h, t1);
    BeatsOrder(u, x, t1, h);
    BeatsOrder(u, h, x, t1);
  }

  lemma {:induction false} TipsInUniverse(u: Universe, ms: seq<View>)
    requires Consistent(u) && AllRooted(u, ms)
    ensures forall t :: t in Tips(u, ms) ==> t in u
  {
    forall t | t in Tips(u, ms) ensures t in u {
      var i :| 0 <= i < |ms| && Tips(u, ms)[i] == t;
      TipsAt(u, ms, i);
      LastTopExists(u, ms[i].hashes);
    }
  }

  /** An extension keeps the best tip the best block unless a merged branch hides a
      better one behind the tip it offers. */
  lemma {:induction false} OptimalIffNothingHidden(u: Universe, s: State, h: StateHash)
    requires Forest(u, s) && Fresh(u, s, h) && ExtendsRoot(u, s, h) && Optimal(u, s)
    ensures Optimal(u, ExtendRoot(u, s, h)) <==> !exists x :: Hidden(u, s, h, x)
  {
    var e := ExtendRoot(u, s, h);
    var ms := Matching(u, s.dangling, h);
    ExtendRootForest(u, s, h);
    MatchingRooted(u, s.dangling, h);
    ChosenTip(u, s, h, h);
    if x :| Hidden(u, s, h, x) {
      assert x in e.root.hashes;
      HiddenBeatsChosen(u, s, h, x);
      BeatsOrder(u, x, e.bestTip, x);
    }
    if !Optimal(u, e) {
      var x :| x in e.root.hashes && x != e.bestTip && !Beats(u, e.bestTip, x);
      BeatsOrder(u, x, e.bestTip, x);
      BeaterIsHidden(u, s, h, x);
    }
  }

  lemma {:induction false} HiddenBeatsChosen(u: Universe, s: State, h: StateHash, x: StateHash)
    requires Forest(u, s) && h in u && Hidden(u, s, h, x)
    ensures Beats(u, x, ExtendRoot(u, s, h).bestTip)
  {
    ChosenTip(u, s, h, x);
    TipsMembers(u, Matching(u, s.dangling, h), ExtendRoot(u, s, h).bestTip);
  }

  lemma {:induction false} BeaterIsHidden(u: Universe, s: State, h: StateHash, x: StateHash)
    requires Forest(u, s) && Fresh(u, s, h) && ExtendsRoot(u, s, h) && Optimal(u, s)
    requires x in ExtendRoot(u, s, h).root.hashes && Beats(u, x, ExtendRoot(u, s, h).bestTip)
    ensures Hidden(u, s, h, x)
  {
    var t := ExtendRoot(u, s, h).bestTip;
    var ms := Matching(u, s.dangling, h);
    ChosenTip(u, s, h, x);
    BeatsOrder(u, x, t, s.bestTip);
    BeatsOrder(u, s.bestTip, t, x);
    BeatsOrder(u, s.bestTip, x, t);
    BeatsOrder(u, h, x, t);
    BeatsOrder(u, h, t, x);
    BeatsOrder(u, x, t, h);
    forall m | m in ms ensures Beats(u, x, LastTop(u, m.hashes)) {
      var l := LastTop(u, m.hashes);
      TipsMembers(u, ms, l);
      MatchingRooted(u, s.dangling, h);
      TipsInUniverse(u, ms);
      ChosenTip(u, s, h, l);
      BeatsOrder(u, l, x, t);
      BeatsOrder(u, x, t, l);
      BeatsOrder(u, t, l, x);
    }
  }

  /** A merge of branches with one highest block each hides nothing. */
  lemma {:induction false} SoleTopsHideNothing(u: Universe, s: State, h: StateHash)
    requires Forest(u, s) && h in u
    requires forall m, x, y ::
               m in Matching(u, s.dangling, h) && IsTop(u, m.hashes, x) && IsTop(u, m.hashes, y) ==> x == y
    ensures !exists x :: Hidden(u, s, h, x)
  {
    var ms := Matching(u, s.dangling, h);
    MatchingRooted(u, s.dangling, h);
    forall x | Hidden(u, s, h, x) ensures false {
      AllHashesMember(ms, x);
      var i :| 0 <= i < |ms| && x in ms[i].hashes;
      assert ms[i] in ms;
      LastTopExists(u, ms[i].hashes);
      var l := LastTop(u, ms[i].hashes);
      BeatsOrder(u, x, l, x);
      assert IsTop(u, ms[i].hashes, x);
    }
  }

  // ------------------------------------------------------------ sorted arrival

  ghost predicate SortedByLength(u: Universe, hs: seq<StateHash>) {
    forall i, j :: 0 <= i < j < |hs| ==> Len(u, hs[i]) <= Len(u, hs[j])
  }

  /** `x` descends from `a` through blocks of `fed` only. */
  ghost predicate Reaches(u: Universe, fed: set<StateHash>, a: StateHash, x: StateHash)
    decreases Len(u, x)
  {
    x in fed && x in u && (x == a || (HasParent(u, x) && Reaches(u, fed, a, u[x].parentHash)))
  }

  /** The root branch holds each fed block whose parent it holds. */
  ghost predicate Closed(u: Universe, fed: set<StateHash>, hs: set<StateHash>) {
    hs <= fed && forall x :: x in fed && x in u && u[x].parentHash in hs ==> x in hs
  }

  lemma {:induction false} ClosedIsReached(u: Universe, fed: set<StateHash>, v: View, x: StateHash)
    requires Consistent(u) && Rooted(u, v) && Closed(u, fed, v.hashes)
    ensures x in v.hashes <==> Reaches(u, fed, v.root, x)
    decreases Len(u, x)
  {
    if x in u && x != v.root {
      assert Linked(u, x);
      if u[x].parentHash in u {
        ClosedIsReached(u, fed, v, u[x].parentHash);
      }
    }
  }

  /** What a length-sorted feed keeps. */
  ghost predicate SortedInv(u: Universe, r: StateHash, fed: set<StateHash>, s: State) {
    && Closed(u, fed, s.root.hashes)
    && Len(u, r) <= Len(u, s.root.root)
    && Optimal(u, s)
    && Connected(u, s)
  }

  /** No branch hangs above a block that is at least as long as all fed ones. */
  lemma {:induction false} NothingAbove(u: Universe, r: StateHash, fed: set<StateHash>, s: State, h: StateHash)
    requires Forest(u, s) && h in u && Accepted(u, s, h) && Len(u, r) <= Len(u, s.root.root)
    requires Members(s) <= fed && forall x :: x in fed && x != r ==> Len(u, x) <= Len(u, h)
    ensures forall i :: 0 <= i < |s.dangling| ==> !IsParentOfRoot(u, s.dangling[i], h)
  {
    var ds := s.dangling;
    forall i | 0 <= i < |ds| ensures !IsParentOfRoot(u, ds[i], h) {
      AllHashesMember(ds, ds[i].root);
      assert Linked(u, ds[i].root);
    }
  }

  lemma {:induction false} SortedExtension(u: Universe, r: StateHash, fed: set<StateHash>, s: State, h: StateHash)
    requires Forest(u, s) && Fresh(u, s, h) && SortedInv(u, r, fed, s) && Accepted(u, s, h)
    requires Members(s) <= fed && forall x :: x in fed && x != r ==> Len(u, x) <= Len(u, h)
    ensures SortedInv(u, r, fed + {h}, Extended(u, s, h))
    ensures !LeavesGap(u, s, h)
  {
    NothingAbove(u, r, fed, s, h);
    ConnectedIffNoGap(u, s, h);
    if ExtendsRoot(u, s, h) {
      NoMatch(u, s.dangling, h);
      SortedRootExtension(u, r, fed, s, h);
    } else {
      ParentElsewhere(u, s, h);
      assert Closed(u, fed + {h}, s.root.hashes);
    }
  }

  lemma {:induction false} SortedRootExtension(u: Universe, r: StateHash, fed: set<StateHash>, s: State, h: StateHash)
    requires RootSound(u, s) && Fresh(u, s, h) && ExtendsRoot(u, s, h) && Accepted(u, s, h)
    requires Closed(u, fed, s.root.hashes) && Len(u, r) <= Len(u, s.root.root) && Optimal(u, s)
    requires forall x :: x in fed && x != r ==> Len(u, x) <= Len(u, h)
    requires Matching(u, s.dangling, h) == []
    ensures Closed(u, fed + {h}, Extended(u, s, h).root.hashes) && Optimal(u, Extended(u, s, h))
  {
    var e := Extended(u, s, h);
    assert e.root.hashes == s.root.hashes + {h} && e.bestTip == Prefer(u, s.bestTip, h);
    BeatsOrder(u, h, s.bestTip, h);
    forall x | x in s.root.hashes ensures Beats(u, h, s.bestTip) ==> Beats(u, h, x) {
      BeatsOrder(u, h, s.bestTip, x);
    }
    forall x | x in fed + {h} && x in u && u[x].parentHash in e.root.hashes ensures x in e.root.hashes {
      assert Linked(u, x);
    }
  }

  lemma {:induction false} NoMatch(u: Universe, ds: seq<View>, h: StateHash)
    requires forall i :: 0 <= i < |ds| ==> !IsParentOfRoot(u, ds[i], h)
    ensures Matching(u, ds, h) == [] && Others(u, ds, h) == ds
  {
    if ds != [] {
      NoMatch(u, ds[..|ds| - 1], h);
      assert ds == ds[..|ds| - 1] + [ds[|ds| - 1]];
    }
  }

  lemma {:induction false} SortedSettle(step: Step, c: Config, u: Universe, r: StateHash, fed: set<StateHash>, s: State)
    requires ValidConfig(c) && RootSound(u, s) && SortedInv(u, r, fed, s)
    ensures SortedInv(u, r, fed, Settle(step, c, u, s).state)
  {
    var s1 := UpdateCanonical(step, c, u, s);
    assert s1.root == s.root && s1.dangling == s.dangling && s1.bestTip == s.bestTip;
    PruneSound(c, u, s1);
    PruneDue(c, u, s1);
    var s2 := Prune(c, u, s1);
    if Levels(u, s1.root) > c.pruneHeight {
      TipAncestor(u, s.root, s.bestTip, c.k);
      RootedDescends(u, s.root, s2.root.root);
      forall x | x in fed && x in u && u[x].parentHash in s2.root.hashes ensures x in s2.root.hashes {
        assert Linked(u, x) && HasParent(u, x);
      }
    }
  }

  /** Blocks arriving by non-decreasing length: the root branch is exactly the set of
      fed blocks that descend from its root through fed blocks, the best tip is the best
      of them, and no two branches are left apart. */
  lemma {:induction false} SortedRun(step: Step, c: Config, u: Universe, r: StateHash, l: Ledger, hs: seq<StateHash>)
    requires ValidConfig(c) && Consistent(u) && r in u && FreshFeed(u, r, hs) && SortedByLength(u, hs)
    requires c.updateThreshold <= c.confirmations + 1 || Shallow(step, c, u, Initial(u, r, l), hs)
    ensures var s := Run(step, c, u, Initial(u, r, l), hs).state;
            && (forall x :: x in s.root.hashes <==> Reaches(u, Elems(hs) + {r}, s.root.root, x))
            && Optimal(u, s)
            && Connected(u, s)
  {
    SortedRunInv(step, c, u, r, l, hs);
    RunKeepsForest(step, c, u, r, l, hs);
    var s := Run(step, c, u, Initial(u, r, l), hs).state;
    forall x ensures x in s.root.hashes <==> Reaches(u, Elems(hs) + {r}, s.root.root, x) {
      ClosedIsReached(u, Elems(hs) + {r}, s.root, x);
    }
  }

  lemma {:induction false} SortedRunInv(step: Step, c: Config, u: Universe, r: StateHash, l: Ledger, hs: seq<StateHash>)
    requires ValidConfig(c) && Consistent(u) && r in u && FreshFeed(u, r, hs) && SortedByLength(u, hs)
    requires c.updateThreshold <= c.confirmations + 1 || Shallow(step, c, u, Initial(u, r, l), hs)
    ensures SortedInv(u, r, Elems(hs) + {r}, Run(step, c, u, Initial(u, r, l), hs).state)
  {
    if hs == [] {
      assert Linked(u, r);
    } else {
      var init, h := hs[..|hs| - 1], hs[|hs| - 1];
      var s := Run(step, c, u, Initial(u, r, l), init).state;
      FreshPrefix(u, r, hs);
      RunKeepsForest(step, c, u, r, l, init);
      NextIsFresh(u, r, hs, s);
      SortedPrefix(u, hs);
      SortedRunInv(step, c, u, r, l, init);
      SortedFeed(step, c, u, r, Elems(init) + {r}, s, h);
      assert Elems(init) + {r} + {h} == Elems(hs) + {r};
    }
  }

  lemma {:induction false} SortedPrefix(u: Universe, hs: seq<StateHash>)
    requires SortedByLength(u, hs) && hs != []
    ensures SortedByLength(u, hs[..|hs| - 1])
    ensures forall x :: x in Elems(hs[..|hs| - 1]) ==> Len(u, x) <= Len(u, hs[|hs| - 1])
  {
    var init := hs[..|hs| - 1];
    forall x | x in Elems(init) ensures Len(u, x) <= Len(u, hs[|hs| - 1]) {
      var i :| 0 <= i < |init| && init[i] == x;
      assert hs[i] == x;
    }
  }

  lemma {:induction false} SortedFeed(step: Step, c: Config, u: Universe, r: StateHash, fed: set<StateHash>, s: State,
                                      h: StateHash)
    requires ValidConfig(c) && Forest(u, s) && Fresh(u, s, h) && SortedInv(u, r, fed, s)
    requires Members(s) <= fed && forall x :: x in fed && x != r ==> Len(u, x) <= Len(u, h)
    ensures SortedInv(u, r, fed + {h}, Feed(step, c, u, s, h).state)
  {
    if Accepted(u, s, h) {
      SortedExtension(u, r, fed, s, h);
      ExtendedForest(u, s, h);
      if ExtendsRoot(u, s, h) {
        SortedSettle(step, c, u, r, fed + {h}, Extended(u, s, h));
      }
    } else {
      assert Linked(u, h);
      if u[h].parentHash in s.root.hashes { RootedDescends(u, s.root, u[h].parentHash); }
    }
  }

  /** In such a run no step raises the best tip by more than one. */
  lemma {:induction false} SortedRise(step: Step, c: Config, u: Universe, r: StateHash, l: Ledger, hs: seq<StateHash>)
    requires ValidConfig(c) && Consistent(u) && r in u && FreshFeed(u, r, hs) && SortedByLength(u, hs) && hs != []
    requires c.updateThreshold <= c.confirmations + 1 || Shallow(step, c, u, Initial(u, r, l), hs)
    ensures Len(u, Run(step, c, u, Initial(u, r, l), hs).state.bestTip) <=
            Len(u, Run(step, c, u, Initial(u, r, l), hs[..|hs| - 1]).state.bestTip) + 1
  {
    var init, h := hs[..|hs| - 1], hs[|hs| - 1];
    var s := Run(step, c, u, Initial(u, r, l), init).state;
    FreshPrefix(u, r, hs);
    RunKeepsForest(step, c, u, r, l, init);
    NextIsFresh(u, r, hs, s);
    SortedPrefix(u, hs);
    SortedRunInv(step, c, u, r, l, init);
    SortedStepRise(step, c, u, r, Elems(init) + {r}, s, h);
  }

  lemma {:induction false} SortedStepRise(step: Step, c: Config, u: Universe, r: StateHash, fed: set<StateHash>,
                                          s: State, h: StateHash)
    requires Forest(u, s) && Fresh(u, s, h) && SortedInv(u, r, fed, s)
    requires Members(s) <= fed && forall x :: x in fed && x != r ==> Len(u, x) <= Len(u, h)
    ensures Len(u, Feed(step, c, u, s, h).state.bestTip) <= Len(u, s.bestTip) + 1
  {
    if Accepted(u, s, h) && ExtendsRoot(u, s, h) {
      NothingAbove(u, r, fed, s, h);
      NoMatch(u, s.dangling, h);
    }
  }
}
