/** The three-way split of the discovered files. */
module DiscoverySplit {
  import opened Blocks
  import opened Discovery

  // ------------------------------------------------------------------- sorting

  /** By height, then by hash. */
  predicate Precedes(a: File, b: File) {
    a.height < b.height || (a.height == b.height && LexLess(a.hash, b.hash))
  }

  /** Lower, or equally high with an equal hash or one that is earlier in the dictionary. */
  ghost predicate NotAfter(a: File, b: File) {
    a.height < b.height || (a.height == b.height && (a.hash == b.hash || InDictionary(a.hash, b.hash)))
  }

  ghost predicate InOrder(s: seq<File>) {
    forall i, j :: 0 <= i < j < |s| ==> NotAfter(s[i], s[j])
  }

  lemma {:induction false} NotAfterIs(a: File, b: File)
    ensures NotAfter(a, b) <==> !Precedes(b, a)
    ensures Precedes(a, b) ==> NotAfter(a, b)
  {
    LexLessIsDictionary(a.hash, b.hash);
    LexTrichotomy(a.hash, b.hash);
  }

  lemma {:induction false} NotAfterTransitive(a: File, b: File, c: File)
    requires NotAfter(a, b) && NotAfter(b, c)
    ensures NotAfter(a, c)
  {
    LexLessIsDictionary(a.hash, b.hash);
    LexLessIsDictionary(b.hash, c.hash);
    LexLessIsDictionary(a.hash, c.hash);
    if LexLess(a.hash, b.hash) && LexLess(b.hash, c.hash) { LexTransitive(a.hash, b.hash, c.hash); }
  }

  /** Puts a file behind all that are not after it. */
  method InsertInOrder(s: seq<File>, f: File) returns (r: seq<File>)
    requires NoDup(s) && InOrder(s) && f !in s
    ensures NoDup(r) && InOrder(r) && FilesOf(r) == FilesOf(s) + {f}
  {
    var k := |s|;
    while k > 0 && Precedes(f, s[k - 1])
      invariant 0 <= k <= |s|
      invariant forall i :: k <= i < |s| ==> Precedes(f, s[i])
    {
      k := k - 1;
    }
    forall i | 0 <= i < k ensures NotAfter(s[i], f) {
      NotAfterIs(s[k - 1], f);
      if i < k - 1 { NotAfterTransitive(s[i], s[k - 1], f); }
    }
    forall i | k <= i < |s| ensures NotAfter(f, s[i]) { NotAfterIs(f, s[i]); }
    r := s[..k] + [f] + s[k..];
    InsertedAt(s, f, k);
  }

  lemma {:induction false} InsertedAt(s: seq<File>, f: File, k: nat)
    requires NoDup(s) && InOrder(s) && f !in s && k <= |s|
    requires (forall i :: 0 <= i < k ==> NotAfter(s[i], f)) && (forall i :: k <= i < |s| ==> NotAfter(f, s[i]))
    ensures var r := s[..k] + [f] + s[k..]; NoDup(r) && InOrder(r) && FilesOf(r) == FilesOf(s) + {f}
  {
    var r := s[..k] + [f] + s[k..];
    forall i | 0 <= i < |r| ensures r[i] == if i < k then s[i] else if i == k then f else s[i - 1] {}
    forall i, j | 0 <= i < j < |r| ensures r[i] != r[j] && NotAfter(r[i], r[j]) {}
    assert FilesOf(r) == FilesOf(s) + {f} by {
      assert s == s[..k] + s[k..];
      forall x ensures x in r <==> x in s || x == f {
        assert x in s <==> x in s[..k] || x in s[k..];
      }
    }
  }

  method SortByHeightAndHash(s: seq<File>) returns (r: seq<File>)
    requires NoDup(s)
    ensures NoDup(r) && InOrder(r) && FilesOf(r) == FilesOf(s)
  {
    r := [];
    for i := 0 to |s|
      invariant NoDup(r) && InOrder(r) && FilesOf(r) == FilesOf(s[..i])
    {
      assert s[i] !in FilesOf(s[..i]);
      r := InsertInOrder(r, s[i]);
      assert FilesOf(s[..i + 1]) == FilesOf(s[..i]) + {s[i]};
    }
    assert s[..|s|] == s;
  }

  // ---------------------------------------------------------------- flattening

  /** Lower, or equally high and before it in `paths`. */
  ghost predicate FiledBefore(paths: seq<File>, f: File, g: File) {
    f.height < g.height || (f.height == g.height && Place(paths, f) < Place(paths, g))
  }

  /** By height, then as in `paths`. */
  ghost predicate InFileOrder(paths: seq<File>, r: seq<File>) {
    forall i, j :: 0 <= i < j < |r| ==> FiledBefore(paths, r[i], r[j])
  }

  lemma {:induction false} FileOrderSnoc(paths: seq<File>, r: seq<File>, f: File)
    requires InFileOrder(paths, r) && forall g :: g in r ==> FiledBefore(paths, g, f)
    ensures InFileOrder(paths, r + [f])
  {
    forall i, j | 0 <= i < j < |r + [f]| ensures FiledBefore(paths, (r + [f])[i], (r + [f])[j]) {
      assert r[i] in r;
    }
  }

  method AppendLevel(ghost paths: seq<File>, r: seq<File>, files: seq<File>, skip: set<File>) returns (r': seq<File>)
    requires NoDup(r) && NoDup(files) && FilesOf(r) !! FilesOf(files)
    requires InFileOrder(paths, r) && InFileOrder(paths, files)
    requires forall g, m :: g in r && 0 <= m < |files| ==> FiledBefore(paths, g, files[m])
    ensures NoDup(r') && FilesOf(r') == FilesOf(r) + (FilesOf(files) - skip)
    ensures InFileOrder(paths, r')
  {
    r' := r;
    for i := 0 to |files|
      invariant NoDup(r') && FilesOf(r') == FilesOf(r) + (FilesOf(files[..i]) - skip)
      invariant InFileOrder(paths, r')
      invariant forall g, m :: g in r' && i <= m < |files| ==> FiledBefore(paths, g, files[m])
    {
      var f := files[i];
      assert FilesOf(files[..i + 1]) == FilesOf(files[..i]) + {f} && f in FilesOf(files) && f !in FilesOf(files[..i]);
      assert f !in FilesOf(r');
      if f !in skip {
        NoDupSnoc(r', f);
        FileOrderSnoc(paths, r', f);
        r' := r' + [f];
      }
    }
    assert files[..|files|] == files;
  }

  lemma {:induction false} DropLevel(tm: TreeMap, s: set<File>, n: nat)
    requires TreeOf(tm, s) && n in tm
    ensures FilesOf(tm[n]) <= s && TreeOf(tm - {n}, s - FilesOf(tm[n]))
  {
    LevelFiles(tm, s, n);
    var tm' := tm - {n};
    forall m: nat ensures LevelOk(tm', m) { assert LevelOk(tm, m); }
    forall f ensures InTree(tm', f) <==> f in s - FilesOf(tm[n]) { assert InTree(tm, f) <==> f in s; }
  }

  /** All files of the map, level by level, without those to skip. */
  method Flattened(ghost paths: seq<File>, tm: TreeMap, ghost s: set<File>, skip: set<File>) returns (r: seq<File>)
    requires TreeOf(tm, s) && LevelsInPlace(paths, tm)
    ensures NoDup(r) && FilesOf(r) == s - skip && InFileOrder(paths, r)
  {
    r := [];
    var rest := tm;
    ghost var left := s;
    while rest != map[]
      invariant TreeOf(rest, left) && left <= s && NoDup(r) && FilesOf(r) == s - left - skip
      invariant LevelsInPlace(paths, rest) && InFileOrder(paths, r)
      invariant forall g, n :: g in r && n in rest ==> g.height < n
      decreases |rest|
    {
      var n := FirstKey(rest);
      LevelFiles(rest, left, n);
      DropLevel(rest, left, n);
      assert FilesOf(r) !! FilesOf(rest[n]);
      LevelInFileOrder(paths, rest[n], n);
      ghost var before := r;
      r := AppendLevel(paths, r, rest[n], skip);
      forall g | g in r ensures g in before || g in rest[n] { assert g in FilesOf(r); }
      left := left - FilesOf(rest[n]);
      rest := rest - {n};
    }
    NothingLeft(rest, left);
  }

  lemma {:induction false} LevelInFileOrder(paths: seq<File>, level: seq<File>, n: nat)
    requires InPlaces(paths, level) && forall f :: f in level ==> f.height == n
    ensures InFileOrder(paths, level) && forall m :: 0 <= m < |level| ==> level[m].height == n
  {
    forall m | 0 <= m < |level| ensures level[m].height == n { assert level[m] in level; }
  }

  lemma {:induction false} NothingLeft(tm: TreeMap, s: set<File>)
    requires tm == map[] && TreeOf(tm, s)
    ensures s == {}
  {
    forall f ensures f !in s { assert InTree(tm, f) <==> f in s; }
  }

  // ------------------------------------------------------------------- the split

  ghost function AtLeast(s: set<File>, h: nat): set<File> {
    set f | f in s && f.height >= h
  }

  function From(tm: TreeMap, h: nat): TreeMap {
    map n | n in tm && n >= h :: tm[n]
  }

  function Below(tm: TreeMap, h: nat): TreeMap {
    map n | n in tm && n < h :: tm[n]
  }

  lemma {:induction false} SplitTree(tm: TreeMap, s: set<File>, h: nat)
    requires TreeOf(tm, s)
    ensures TreeOf(From(tm, h), AtLeast(s, h)) && TreeOf(Below(tm, h), s - AtLeast(s, h))
  {
    var high, low := From(tm, h), Below(tm, h);
    forall m: nat ensures LevelOk(high, m) && LevelOk(low, m) { assert LevelOk(tm, m); }
    forall f ensures InTree(high, f) <==> f in AtLeast(s, h) { assert InTree(tm, f) <==> f in s; }
    forall f ensures InTree(low, f) <==> f in s - AtLeast(s, h) { assert InTree(tm, f) <==> f in s; }
  }

  /** Where the recent part of the canonical branch begins. */
  function SplitIndex(n: nat, threshold: nat): (k: nat)
    ensures k <= n
  {
    if n >= threshold then n - threshold else 0
  }

  function SplitHeight(branch: seq<File>, threshold: nat): nat {
    var k := SplitIndex(|branch|, threshold);
    if k < |branch| then branch[k].height else 0
  }

  /** Splits the branch, and takes every other file of the recent heights out of the map. */
  method SplitOffRecent(ghost paths: seq<File>, branch: seq<File>, tm: TreeMap, threshold: nat, ghost s: set<File>)
    returns (canonical: seq<File>, recent: seq<File>, tm': TreeMap)
    requires NoDup(branch) && TreeOf(tm, s) && LevelsInPlace(paths, tm)
    ensures var k, h := SplitIndex(|branch|, threshold), SplitHeight(branch, threshold);
            && canonical == branch[..k] && NoDup(recent) && InOrder(recent)
            && FilesOf(recent) == FilesOf(branch[k..]) + AtLeast(s, h)
            && TreeOf(tm', s - AtLeast(s, h)) && LevelsInPlace(paths, tm')
  {
    var k, h := SplitIndex(|branch|, threshold), SplitHeight(branch, threshold);
    canonical := branch[..k];
    var tail := branch[k..];
    tm' := Below(tm, h);
    SplitTree(tm, s, h);
    var others := Flattened(paths, From(tm, h), AtLeast(s, h), set f | f in tail);
    NoDupConcat(tail, others);
    recent := SortByHeightAndHash(tail + others);
  }

  // -------------------------------------------------------------------- discovery

  /** What the caller gets, told by the branch that was found. */
  ghost predicate IsSplit(paths: seq<File>, threshold: nat, branch: seq<File>, canonical: seq<File>, recent: seq<File>,
                          orphaned: seq<File>) {
    var s, k, h := FilesOf(paths), SplitIndex(|branch|, threshold), SplitHeight(branch, threshold);
    && branch != [] && NoDup(branch) && FilesOf(branch) <= s
    && canonical == branch[..k] && NoDup(recent) && NoDup(orphaned)
    && FilesOf(recent) == FilesOf(branch[k..]) + AtLeast(s - FilesOf(branch[..|branch| - 1]), h)
    && FilesOf(orphaned) == s - FilesOf(branch[..|branch| - 1]) - AtLeast(s, h)
    && (forall i :: 0 <= i < |branch| ==> branch[i].height == branch[0].height + i)
  }

  /** Every path is in exactly one of the lists, once. */
  ghost predicate Partition(paths: seq<File>, canonical: seq<File>, recent: seq<File>, orphaned: seq<File>) {
    multiset(canonical + recent + orphaned) == multiset(paths)
  }

  lemma {:induction false} SameElems(a: seq<File>, b: seq<File>)
    requires NoDup(a) && NoDup(b) && FilesOf(a) == FilesOf(b)
    ensures multiset(a) == multiset(b)
  {
    CountOnce(a);
    CountOnce(b);
    forall f ensures multiset(a)[f] == multiset(b)[f] { assert f in a <==> f in FilesOf(a); }
  }

  lemma {:induction false} CountOnce(a: seq<File>)
    requires NoDup(a)
    ensures forall f :: multiset(a)[f] == if f in a then 1 else 0
  {
    if a != [] {
      var n := |a| - 1;
      CountOnce(a[..n]);
      assert a == a[..n] + [a[n]] && a[n] !in a[..n];
    }
  }

  /** With a threshold of at least one the recent files are those from the split height on,
      and the lists partition the input. */
  lemma {:induction false} SplitIsPartition(paths: seq<File>, threshold: nat, branch: seq<File>, canonical: seq<File>,
                                            recent: seq<File>, orphaned: seq<File>)
    requires NoDup(paths) && IsSplit(paths, threshold, branch, canonical, recent, orphaned) && threshold >= 1
    ensures FilesOf(recent) == AtLeast(FilesOf(paths), SplitHeight(branch, threshold))
    ensures Partition(paths, canonical, recent, orphaned)
  {
    var s, n := FilesOf(paths), |branch|;
    var k, h := SplitIndex(n, threshold), SplitHeight(branch, threshold);
    SplitByHeight(branch, k);
    assert FilesOf(branch[..n - 1]) <= FilesOf(branch);
    assert FilesOf(recent) == AtLeast(s, h);
    assert FilesOf(orphaned) == (s - AtLeast(s, h)) - FilesOf(canonical);
    NoDupConcat(canonical, recent);
    NoDupConcat(canonical + recent, orphaned);
    SameElems(canonical + recent + orphaned, paths);
  }

  /** The branch below index `k` is its part below that height. */
  lemma {:induction false} SplitByHeight(branch: seq<File>, k: nat)
    requires NoDup(branch) && k < |branch| && forall i :: 0 <= i < |branch| ==> branch[i].height == branch[0].height + i
    ensures var h := branch[k].height;
            && NoDup(branch[..k])
            && (forall f :: f in branch[..k] <==> f in branch && f.height < h)
            && (forall f :: f in branch[k..] <==> f in branch && f.height >= h)
            && (forall f :: f in branch[..|branch| - 1] && f.height < h <==> f in branch[..k])
  {
    forall f | f in branch ensures (f in branch[..k] <==> f.height < branch[k].height) &&
      (f in branch[k..] <==> f.height >= branch[k].height) {
      var i :| 0 <= i < |branch| && branch[i] == f;
      if i < k { assert branch[..k][i] == f; } else { assert branch[k..][i - k] == f; }
    }
    forall f | f in branch[..k] ensures f in branch[..|branch| - 1] {
      var i :| 0 <= i < k && branch[..k][i] == f;
      assert branch[..|branch| - 1][i] == f;
    }
  }

  /** With a threshold of zero the best tip is listed twice. */
  lemma {:induction false} ZeroThresholdRepeats(paths: seq<File>, branch: seq<File>, canonical: seq<File>,
                                                recent: seq<File>, orphaned: seq<File>)
    requires NoDup(paths) && IsSplit(paths, 0, branch, canonical, recent, orphaned)
    ensures !Partition(paths, canonical, recent, orphaned)
  {
    var s, n := FilesOf(paths), |branch|;
    var best := branch[n - 1];
    assert best in canonical && best in FilesOf(branch);
    assert best !in branch[..n - 1];
    assert best in FilesOf(recent);
    CountOnce(paths);
    assert multiset(canonical)[best] >= 1 && multiset(recent)[best] >= 1;
  }

  lemma {:induction false} NoFiles(s: seq<File>)
    ensures FilesOf(s) == {} ==> s == []
  {
    if s != [] { assert s[0] in FilesOf(s); }
  }

  /** All files but those below the best tip are recent then, and none is orphaned. */
  lemma {:induction false} ZeroThresholdKeeps(paths: seq<File>, branch: seq<File>, canonical: seq<File>,
                                              recent: seq<File>, orphaned: seq<File>)
    requires IsSplit(paths, 0, branch, canonical, recent, orphaned)
    ensures FilesOf(recent) == FilesOf(paths) - FilesOf(branch[..|branch| - 1]) && orphaned == []
  {
    var rest := FilesOf(paths) - FilesOf(branch[..|branch| - 1]);
    assert branch[|branch|..] == [] && AtLeast(rest, 0) == rest && AtLeast(FilesOf(paths), 0) == FilesOf(paths);
    NoFiles(orphaned);
  }

  /** A chain of parents from a file of the lowest height to a file of the greatest height
      that can be reached. */
  ghost predicate IsBestBranch(s: set<File>, branch: seq<File>) {
    && branch != [] && FilesOf(branch) <= s
    && (forall f :: f in s ==> branch[0].height <= f.height)
    && (forall i :: 0 <= i < |branch| - 1 ==> IsParent(branch[i], branch[i + 1]))
    && (forall f :: Reachable(s, branch[0].height, f) ==> f.height <= branch[|branch| - 1].height)
  }

  /** Of all best branches it is the one whose file, at the first difference, is later in `paths`. */
  ghost predicate IsLastBranch(paths: seq<File>, branch: seq<File>) {
    forall c {:trigger IsBestBranch(FilesOf(paths), c)} ::
      IsBestBranch(FilesOf(paths), c) && c != branch ==> LaterLine(paths, c, branch)
  }

  lemma {:induction false} PrefixAgrees(b: seq<File>, c: seq<File>, n: nat, k: nat)
    requires k < n <= |b| && n <= |c| && b[..n] == c[..n]
    ensures b[k] == c[k]
  {
    assert b[..n][k] == b[k] && c[..n][k] == c[k];
  }

  lemma {:induction false} NotLaterToo(paths: seq<File>, b: seq<File>, c: seq<File>, i: nat, j: nat)
    requires LaterAt(paths, b, c, i)
    ensures !LaterAt(paths, c, b, j)
  {
    if j < i { PrefixAgrees(b, c, i, j); }
    else if i < j <= |b| && j <= |c| && b[..j] == c[..j] { PrefixAgrees(b, c, j, i); }
  }

  /** There is only one such branch. */
  lemma {:induction false} OneLastBranch(paths: seq<File>, b: seq<File>, c: seq<File>)
    requires IsBestBranch(FilesOf(paths), b) && IsLastBranch(paths, b)
    requires IsBestBranch(FilesOf(paths), c) && IsLastBranch(paths, c)
    ensures b == c
  {
    if b != c {
      var i: nat :| LaterAt(paths, b, c, i);
      forall j: nat ensures !LaterAt(paths, c, b, j) { NotLaterToo(paths, b, c, i, j); }
    }
  }

  /** Sorts the files by height, finds the best tip and walks back from it. */
  method FindBranch(paths: seq<File>) returns (branch: seq<File>, tm: TreeMap)
    requires paths != [] && NoDup(paths) && ValidFiles(FilesOf(paths))
    ensures IsBestBranch(FilesOf(paths), branch) && IsLastBranch(paths, branch)
    ensures TreeOf(tm, FilesOf(paths) - FilesOf(branch[..|branch| - 1])) && LevelsInPlace(paths, tm)
  {
    ghost var s := FilesOf(paths);
    var tm0 := BuildTreeMap(paths);
    assert paths[0] in s && InTree(tm0, paths[0]);
    var best, parents, low, reach, up := FindBestTip(tm0, s, paths);
    branch, tm := CanonicalBranch(tm0, parents, best, s, paths, low, reach, up);
    LastBranch(paths, s, low, branch);
  }

  /** The branch to the file found last comes later than every other best one. */
  lemma {:induction false} LastBranch(paths: seq<File>, s: set<File>, low: nat, branch: seq<File>)
    requires s == FilesOf(paths) && IsBestBranch(s, branch) && branch[0].height == low
    requires FoundLast(paths, s, low, branch[|branch| - 1])
    ensures IsLastBranch(paths, branch)
  {
    assert IsLine(s, low, branch);
    forall c | IsBestBranch(s, c) && c != branch ensures LaterLine(paths, c, branch) {
      SameLength(s, branch, c);
      assert IsLine(s, low, c);
    }
  }

  lemma {:induction false} SameLength(s: set<File>, b: seq<File>, c: seq<File>)
    requires IsBestBranch(s, b) && IsBestBranch(s, c)
    ensures |b| == |c| && b[0].height == c[0].height
  {
    assert b[0] in FilesOf(b) && c[0] in FilesOf(c);
    BranchReachable(s, b, |b| - 1);
    BranchReachable(s, c, |c| - 1);
  }

  lemma {:induction false} BranchReachable(s: set<File>, c: seq<File>, i: nat)
    requires IsBestBranch(s, c) && i < |c|
    ensures Reachable(s, c[0].height, c[i]) && c[i].height == c[0].height + i
  {
    assert c[i] in FilesOf(c);
    if i > 0 {
      BranchReachable(s, c, i - 1);
      assert IsParent(c[i - 1], c[i - 1 + 1]) && c[i - 1] in FilesOf(c);
    }
  }

  /** Splits off the recent files; what is left in the map is orphaned. */
  method SplitAll(paths: seq<File>, threshold: nat, branch: seq<File>, tm: TreeMap)
    returns (canonical: seq<File>, recent: seq<File>, orphaned: seq<File>)
    requires IsBestBranch(FilesOf(paths), branch) && TreeOf(tm, FilesOf(paths) - FilesOf(branch[..|branch| - 1]))
    requires LevelsInPlace(paths, tm)
    ensures IsSplit(paths, threshold, branch, canonical, recent, orphaned)
    ensures InOrder(recent) && InFileOrder(paths, orphaned)
  {
    ghost var s, h := FilesOf(paths) - FilesOf(branch[..|branch| - 1]), SplitHeight(branch, threshold);
    ChainHeights(branch);
    var tm';
    canonical, recent, tm' := SplitOffRecent(paths, branch, tm, threshold, s);
    orphaned := Flattened(paths, tm', s - AtLeast(s, h), {});
    assert FilesOf(orphaned) == s - AtLeast(FilesOf(paths), h);
  }

  /** Discovery: the lists partition the input precisely if the threshold is not zero. */
  method Discover(threshold: nat, paths: seq<File>)
    returns (canonical: seq<File>, recent: seq<File>, orphaned: seq<File>, ghost branch: seq<File>)
    requires NoDup(paths) && ValidFiles(FilesOf(paths))
    ensures Partition(paths, canonical, recent, orphaned) <==> threshold >= 1 || paths == []
    ensures InOrder(recent) && InFileOrder(paths, orphaned)
    ensures paths != [] ==>
              && IsBestBranch(FilesOf(paths), branch) && IsLastBranch(paths, branch)
              && canonical <= branch && |canonical| == if threshold <= |branch| then |branch| - threshold else 0
    ensures paths != [] && threshold >= 1 ==>
              |canonical| < |branch| && FilesOf(recent) == AtLeast(FilesOf(paths), branch[|canonical|].height)
    ensures paths != [] && threshold == 0 ==>
              orphaned == [] && FilesOf(recent) == FilesOf(paths) - FilesOf(branch[..|branch| - 1])
  {
    if paths == [] { return [], [], [], []; }
    var chain, tm := FindBranch(paths);
    branch := chain;
    canonical, recent, orphaned := SplitAll(paths, threshold, chain, tm);
    if threshold >= 1 {
      SplitIsPartition(paths, threshold, chain, canonical, recent, orphaned);
    } else {
      ZeroThresholdRepeats(paths, chain, canonical, recent, orphaned);
      ZeroThresholdKeeps(paths, chain, canonical, recent, orphaned);
    }
  }

  lemma {:induction false} ChainHeights(chain: seq<File>)
    requires chain != [] && forall i :: 0 <= i < |chain| - 1 ==> IsParent(chain[i], chain[i + 1])
    ensures (forall i :: 0 <= i < |chain| ==> chain[i].height == chain[0].height + i) && NoDup(chain)
  {
    forall i | 0 <= i < |chain| ensures chain[i].height == chain[0].height + i { ChainHeightAt(chain, i); }
  }

  lemma {:induction false} ChainHeightAt(chain: seq<File>, i: nat)
    requires i < |chain| && forall j :: 0 <= j < |chain| - 1 ==> IsParent(chain[j], chain[j + 1])
    ensures chain[i].height == chain[0].height + i
  {
    if i > 0 {
      ChainHeightAt(chain, i - 1);
      assert IsParent(chain[i - 1], chain[i - 1 + 1]);
    }
  }
}
