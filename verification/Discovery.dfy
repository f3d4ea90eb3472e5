/** Discovery of the canonical chain among block files: a breadth-first search for the best
    tip, the walk back from it, and the split of all files into canonical, recent and
    orphaned ones. */
module Discovery {
  import opened Accounts
  import opened Blocks
  import opened Reorgs
  import opened Removals

  /** A block file: height and state hash are in its name, the previous state hash is read
      from its contents if it can be. */
  datatype File = File(height: nat, hash: StateHash, prev: Option<StateHash>)

  type TreeMap = map<nat, seq<File>>

  ghost function FilesOf(s: seq<File>): set<File> {
    set f | f in s
  }

  ghost predicate NoDup(s: seq<File>) {
    forall i, j :: 0 <= i < j < |s| ==> s[i] != s[j]
  }

  ghost predicate UniqueFiles(s: set<File>) {
    forall f, g :: f in s && g in s && f.hash == g.hash ==> f == g
  }

  /** What the file names of one network give. */
  ghost predicate ValidFiles(s: set<File>) {
    UniqueFiles(s) && forall f :: f in s ==> f.height >= 1
  }

  ghost predicate InTree(tm: TreeMap, f: File) {
    f.height in tm && f in tm[f.height]
  }

  ghost predicate LevelOk(tm: TreeMap, n: nat) {
    n in tm ==> NoDup(tm[n]) && forall f :: f in tm[n] ==> f.height == n
  }

  /** The files of `s`, each once, under their heights. */
  ghost predicate TreeOf(tm: TreeMap, s: set<File>) {
    && (forall f {:trigger InTree(tm, f)} :: InTree(tm, f) <==> f in s)
    && (forall n: nat {:trigger LevelOk(tm, n)} :: LevelOk(tm, n))
  }

  lemma {:induction false} NoDupSnoc(s: seq<File>, f: File)
    requires NoDup(s) && f !in s
    ensures NoDup(s + [f]) && FilesOf(s + [f]) == FilesOf(s) + {f}
  {}

  lemma {:induction false} NoDupConcat(a: seq<File>, b: seq<File>)
    requires NoDup(a) && NoDup(b) && FilesOf(a) !! FilesOf(b)
    ensures NoDup(a + b) && FilesOf(a + b) == FilesOf(a) + FilesOf(b)
  {
    forall i, j | 0 <= i < j < |a + b| ensures (a + b)[i] != (a + b)[j] {
      if i < |a| <= j { assert a[i] in FilesOf(a) && b[j - |a|] in FilesOf(b); }
    }
  }

  // ---------------------------------------------------------- the order of a list

  /** Where a file stands in a list. */
  ghost function Place(s: seq<File>, f: File): (i: nat)
    ensures f in s ==> i < |s| && s[i] == f
  {
    if f !in s then |s| else var i: nat :| i < |s| && s[i] == f; i
  }

  lemma {:induction false} PlaceAt(s: seq<File>, i: nat)
    requires NoDup(s) && i < |s|
    ensures Place(s, s[i]) == i
  {
    assert s[i] in s;
  }

  lemma {:induction false} PlaceKept(s: seq<File>, t: seq<File>, f: File)
    requires NoDup(s + t) && f in s
    ensures Place(s + t, f) == Place(s, f) < |s|
  {
    assert (s + t)[Place(s, f)] == f;
    PlaceAt(s + t, Place(s, f));
  }

  /** The files come in the order in which they stand in `paths`. */
  ghost predicate InPlaces(paths: seq<File>, files: seq<File>) {
    forall i, j :: 0 <= i < j < |files| ==> Place(paths, files[i]) < Place(paths, files[j])
  }

  ghost predicate LevelsInPlace(paths: seq<File>, tm: TreeMap) {
    forall n :: n in tm ==> InPlaces(paths, tm[n])
  }

  // ------------------------------------------------------------ the height map

  lemma {:induction false} PushFile(tm: TreeMap, s: set<File>, f: File)
    requires TreeOf(tm, s) && f !in s
    ensures TreeOf(tm[f.height := if f.height in tm then tm[f.height] + [f] else [f]], s + {f})
  {
    var tm' := tm[f.height := if f.height in tm then tm[f.height] + [f] else [f]];
    assert !InTree(tm, f) && LevelOk(tm, f.height);
    forall n: nat ensures LevelOk(tm', n) { assert LevelOk(tm, n); }
    forall g ensures InTree(tm', g) <==> g in s + {f} { assert InTree(tm, g) <==> g in s; }
  }

  lemma {:induction false} PushInPlace(paths: seq<File>, tm: TreeMap, i: nat)
    requires NoDup(paths) && i < |paths| && TreeOf(tm, FilesOf(paths[..i])) && LevelsInPlace(paths, tm)
    ensures var f := paths[i];
            LevelsInPlace(paths, tm[f.height := if f.height in tm then tm[f.height] + [f] else [f]])
  {
    var f := paths[i];
    PlaceAt(paths, i);
    if f.height in tm {
      var level := tm[f.height];
      forall k | 0 <= k < |level| ensures Place(paths, level[k]) < i {
        assert LevelOk(tm, f.height) && level[k] in level && InTree(tm, level[k]);
        var m :| 0 <= m < i && paths[..i][m] == level[k];
        PlaceAt(paths, m);
      }
    }
  }

  method BuildTreeMap(paths: seq<File>) returns (tm: TreeMap)
    requires NoDup(paths)
    ensures TreeOf(tm, FilesOf(paths)) && forall n :: n in tm ==> tm[n] != []
    ensures LevelsInPlace(paths, tm)
  {
    tm := map[];
    assert FilesOf(paths[..0]) == {};
    assert TreeOf(tm, {}) by { forall n: nat ensures LevelOk(tm, n) {} forall f ensures !InTree(tm, f) {} }
    for i := 0 to |paths|
      invariant TreeOf(tm, FilesOf(paths[..i])) && forall n :: n in tm ==> tm[n] != []
      invariant LevelsInPlace(paths, tm)
    {
      var f := paths[i];
      PushInPlace(paths, tm, i);
      assert f !in paths[..i];
      PushFile(tm, FilesOf(paths[..i]), f);
      assert FilesOf(paths[..i + 1]) == FilesOf(paths[..i]) + {f};
      tm := tm[f.height := if f.height in tm then tm[f.height] + [f] else [f]];
    }
    assert paths[..|paths|] == paths;
  }

  method FirstKey(tm: TreeMap) returns (n: nat)
    requires tm != map[]
    ensures n in tm && forall m :: m in tm ==> n <= m
  {
    var keys := tm.Keys;
    n :| n in keys;
    keys := keys - {n};
    while keys != {}
      invariant keys <= tm.Keys && n in tm
      invariant forall m :: m in tm && m !in keys ==> n <= m
      decreases |keys|
    {
      var m :| m in keys;
      keys := keys - {m};
      if m < n { n := m; }
    }
  }

  // ------------------------------------------------------------ best tip search

  predicate IsParent(g: File, f: File) {
    f.prev == Some(g.hash) && f.height == g.height + 1
  }

  /** `f` is linked by parents to a file of the lowest height. */
  ghost predicate Reachable(s: set<File>, low: nat, f: File)
    decreases f.height
  {
    f in s && (f.height == low || exists g :: g in s && IsParent(g, f) && Reachable(s, low, g))
  }

  ghost predicate Traced(low: nat, reach: set<File>, up: map<File, File>, parents: map<StateHash, StateHash>, f: File) {
    f in reach ==>
      && low <= f.height
      && (f.height == low ==> f.hash !in parents)
      && (f.height > low ==>
            f in up && up[f] in reach && IsParent(up[f], f) && f.hash in parents && parents[f.hash] == up[f].hash)
  }

  /** Every file found has its parent among them, recorded under its hash. */
  ghost predicate AllTraced(s: set<File>, low: nat, reach: set<File>, up: map<File, File>,
                            parents: map<StateHash, StateHash>) {
    reach <= s && forall f {:trigger Traced(low, reach, up, parents, f)} :: Traced(low, reach, up, parents, f)
  }

  ghost predicate Explored(s: set<File>, low: nat, done: set<File>, reach: set<File>) {
    && (forall f :: f in s && f.height == low ==> f in reach)
    && (forall f, g :: f in s && g in done && IsParent(g, f) ==> f in reach)
  }

  lemma {:induction false} FoundIsReachable(s: set<File>, low: nat, reach: set<File>, up: map<File, File>,
                                            parents: map<StateHash, StateHash>, f: File)
    requires AllTraced(s, low, reach, up, parents) && f in reach
    ensures Reachable(s, low, f)
    decreases f.height
  {
    assert Traced(low, reach, up, parents, f);
    if f.height > low { FoundIsReachable(s, low, reach, up, parents, up[f]); }
  }

  lemma {:induction false} ReachableIsFound(s: set<File>, low: nat, reach: set<File>, f: File)
    requires Explored(s, low, reach, reach) && Reachable(s, low, f)
    ensures f in reach
    decreases f.height
  {
    if f.height != low {
      var g :| g in s && IsParent(g, f) && Reachable(s, low, g);
      ReachableIsFound(s, low, reach, g);
    }
  }

  /** Heights do not fall along the order of discovery, and what is still queued spans at
      most two of them. */
  ghost predicate ByLevel(popped: seq<File>, queue: seq<File>) {
    && (forall i, j :: 0 <= i < j < |popped + queue| ==> (popped + queue)[i].height <= (popped + queue)[j].height)
    && (queue != [] ==> queue[|queue| - 1].height <= queue[0].height + 1)
  }

  lemma {:induction false} NextLevel(popped: seq<File>, queue: seq<File>, kids: seq<File>)
    requires ByLevel(popped, queue) && queue != [] && forall k :: k in kids ==> k.height == queue[0].height + 1
    ensures ByLevel(popped + [queue[0]], queue[1..] + kids)
  {
    var order, order' := popped + queue, (popped + [queue[0]]) + (queue[1..] + kids);
    assert order' == order + kids;
    var top := queue[0].height + 1;
    forall i | 0 <= i < |order| ensures order[i].height <= top {
      assert order[|order| - 1] == queue[|queue| - 1];
    }
    forall i, j | 0 <= i < j < |order'| ensures order'[i].height <= order'[j].height {
      if j >= |order| { assert order'[j] == kids[j - |order|] && kids[j - |order|] in kids; }
    }
    var queue' := queue[1..] + kids;
    if queue' != [] {
      assert queue[0].height <= queue'[0].height by {
        if |queue| > 1 { assert order[|popped|] == queue[0] && order[|popped| + 1] == queue[1]; }
        else { assert queue'[0] == kids[0] && kids[0] in kids; }
      }
      if kids != [] { assert queue'[|queue'| - 1] == kids[|kids| - 1] && kids[|kids| - 1] in kids; }
      else if |queue| > 1 { assert queue'[|queue'| - 1] == queue[|queue| - 1]; }
    }
  }

  /** The children of a file in the next level, with their parent recorded. */
  method PushChildren(ghost paths: seq<File>, files: seq<File>, g: File, parents: map<StateHash, StateHash>)
    returns (kids: seq<File>, parents': map<StateHash, StateHash>)
    requires NoDup(files) && InPlaces(paths, files) && forall f :: f in files ==> f.height == g.height + 1
    ensures InPlaces(paths, kids)
    ensures NoDup(kids) && forall f :: f in kids <==> f in files && IsParent(g, f)
    ensures forall f :: f in kids ==> f.hash in parents' && parents'[f.hash] == g.hash
    ensures forall h :: h in parents' ==>
              (h in parents && parents'[h] == parents[h]) || exists f :: f in kids && f.hash == h
    ensures forall h :: h in parents ==> h in parents'
  {
    kids, parents' := [], parents;
    for i := 0 to |files|
      invariant NoDup(kids) && forall f :: f in kids <==> f in files[..i] && IsParent(g, f)
      invariant forall f :: f in kids ==> f.hash in parents' && parents'[f.hash] == g.hash
      invariant forall h :: h in parents' ==>
                  (h in parents && parents'[h] == parents[h]) || exists f :: f in kids && f.hash == h
      invariant forall h :: h in parents ==> h in parents'
      invariant InPlaces(paths, kids)
      invariant forall k, m :: k in kids && i <= m < |files| ==> Place(paths, k) < Place(paths, files[m])
    {
      var f := files[i];
      assert f in files && f !in files[..i];
      if f.prev == Some(g.hash) {
        NoDupSnoc(kids, f);
        parents' := parents'[f.hash := g.hash];
        kids := kids + [f];
      }
    }
    assert files[..|files|] == files;
  }

  ghost predicate UpIn(low: nat, done: set<File>, reach: set<File>, up: map<File, File>, f: File) {
    f in reach && f.height > low ==> f in up && up[f] in done
  }

  /** The state of the search: `popped` files are expanded, `queue` is waiting. */
  ghost predicate Searching(s: set<File>, low: nat, popped: seq<File>, queue: seq<File>, up: map<File, File>,
                            parents: map<StateHash, StateHash>) {
    && NoDup(popped + queue) && ByLevel(popped, queue)
    && AllTraced(s, low, FilesOf(popped + queue), up, parents)
    && Explored(s, low, FilesOf(popped), FilesOf(popped + queue))
    && forall f {:trigger UpIn(low, FilesOf(popped), FilesOf(popped + queue), up, f)} ::
        UpIn(low, FilesOf(popped), FilesOf(popped + queue), up, f)
  }

  /** `kids` are the children of `g` in `s`, and `parents'` records them and nothing else. */
  ghost predicate Expanded(s: set<File>, g: File, kids: seq<File>, parents: map<StateHash, StateHash>,
                           parents': map<StateHash, StateHash>) {
    && NoDup(kids) && (forall f :: f in kids <==> f in s && IsParent(g, f))
    && (forall f :: f in kids ==> f.hash in parents' && parents'[f.hash] == g.hash)
    && (forall h :: h in parents' ==>
          (h in parents && parents'[h] == parents[h]) || exists f :: f in kids && f.hash == h)
    && (forall h :: h in parents ==> h in parents')
  }

  /** Of two files of one height the one found first has the parent found first, or, with a
      parent in common or none, comes first in `paths`. */
  ghost predicate InTurnAt(paths: seq<File>, low: nat, order: seq<File>, up: map<File, File>, f: File, g: File) {
    if f.height == low then Place(paths, f) < Place(paths, g)
    else
      && f in up && g in up
      && (|| Place(order, up[f]) < Place(order, up[g])
          || (up[f] == up[g] && Place(paths, f) < Place(paths, g)))
  }

  ghost predicate InTurn(paths: seq<File>, low: nat, order: seq<File>, up: map<File, File>) {
    forall i, j :: 0 <= i < j < |order| && order[i].height == order[j].height ==>
      InTurnAt(paths, low, order, up, order[i], order[j])
  }

  ghost function WithKids(up: map<File, File>, kids: seq<File>, g: File): map<File, File> {
    map f | f in up.Keys + FilesOf(kids) :: if f in kids then g else up[f]
  }

  lemma {:induction false} KidsAreNew(s: set<File>, low: nat, popped: seq<File>, queue: seq<File>, up: map<File, File>,
                                      parents: map<StateHash, StateHash>, k: File)
    requires Searching(s, low, popped, queue, up, parents) && queue != [] && UniqueFiles(s) && k in s
    requires IsParent(queue[0], k)
    ensures k !in popped + queue && k.height > low
  {
    var order, g := popped + queue, queue[0];
    assert g == order[|popped|] && g in FilesOf(order) && Traced(low, FilesOf(order), up, parents, g);
    NoDupSides(popped, queue, g);
    assert Traced(low, FilesOf(order), up, parents, k) && UpIn(low, FilesOf(popped), FilesOf(order), up, k);
    assert k in order <==> k in FilesOf(order);
  }

  lemma {:induction false} NoDupSides(a: seq<File>, b: seq<File>, x: File)
    requires NoDup(a + b) && x in b
    ensures x !in a
  {
    var j :| 0 <= j < |b| && b[j] == x;
    forall i | 0 <= i < |a| ensures a[i] != x { assert (a + b)[i] == a[i] && (a + b)[|a| + j] == x; }
  }

  lemma {:induction false} TracedStep(s: set<File>, low: nat, reach: set<File>, up: map<File, File>,
                                      parents: map<StateHash, StateHash>, g: File, kids: seq<File>,
                                      parents': map<StateHash, StateHash>)
    requires UniqueFiles(s) && AllTraced(s, low, reach, up, parents) && g in reach
    requires Expanded(s, g, kids, parents, parents')
    requires forall k :: k in kids ==> k !in reach && k.height > low
    ensures AllTraced(s, low, reach + FilesOf(kids), WithKids(up, kids, g), parents')
  {
    var reach', up' := reach + FilesOf(kids), WithKids(up, kids, g);
    forall f ensures Traced(low, reach', up', parents', f) {
      assert Traced(low, reach, up, parents, f);
      if f in reach && f.hash in parents' {
        assert f.hash in parents && parents'[f.hash] == parents[f.hash];
      }
    }
  }

  lemma {:induction false} AllKidsNew(s: set<File>, low: nat, popped: seq<File>, queue: seq<File>, up: map<File, File>,
                                      parents: map<StateHash, StateHash>, kids: seq<File>,
                                      parents': map<StateHash, StateHash>)
    requires UniqueFiles(s) && Searching(s, low, popped, queue, up, parents) && queue != []
    requires Expanded(s, queue[0], kids, parents, parents')
    ensures NoDup(popped + queue + kids) && FilesOf(popped + queue + kids) == FilesOf(popped + queue) + FilesOf(kids)
    ensures forall k :: k in kids ==> k !in popped + queue && low < k.height
  {
    forall k | k in kids ensures k !in popped + queue && k.height > low {
      KidsAreNew(s, low, popped, queue, up, parents, k);
    }
    NoDupConcat(popped + queue, kids);
  }

  lemma {:induction false} ExploredStep(s: set<File>, low: nat, popped: seq<File>, queue: seq<File>, kids: seq<File>)
    requires queue != [] && Explored(s, low, FilesOf(popped), FilesOf(popped + queue))
    requires forall f :: f in s && IsParent(queue[0], f) ==> f in kids
    ensures Explored(s, low, FilesOf(popped + [queue[0]]), FilesOf(popped + queue) + FilesOf(kids))
  {
    assert FilesOf(popped + [queue[0]]) == FilesOf(popped) + {queue[0]};
  }

  lemma {:induction false} ParentStep(low: nat, popped: seq<File>, queue: seq<File>, up: map<File, File>,
                                      kids: seq<File>, f: File)
    requires queue != [] && UpIn(low, FilesOf(popped), FilesOf(popped + queue), up, f)
    ensures UpIn(low, FilesOf(popped + [queue[0]]), FilesOf(popped + queue) + FilesOf(kids),
                 WithKids(up, kids, queue[0]), f)
  {
    assert FilesOf(popped + [queue[0]]) == FilesOf(popped) + {queue[0]};
  }

  lemma {:induction false} SearchStep(s: set<File>, low: nat, popped: seq<File>, queue: seq<File>, up: map<File, File>,
                                      parents: map<StateHash, StateHash>, kids: seq<File>,
                                      parents': map<StateHash, StateHash>)
    requires UniqueFiles(s) && Searching(s, low, popped, queue, up, parents) && queue != []
    requires Expanded(s, queue[0], kids, parents, parents')
    ensures Searching(s, low, popped + [queue[0]], queue[1..] + kids, WithKids(up, kids, queue[0]), parents')
  {
    var g, order := queue[0], popped + queue;
    var popped', queue', up' := popped + [g], queue[1..] + kids, WithKids(up, kids, g);
    assert popped' + queue' == order + kids && g == order[|popped|];
    AllKidsNew(s, low, popped, queue, up, parents, kids, parents');
    NextLevel(popped, queue, kids);
    TracedStep(s, low, FilesOf(order), up, parents, g, kids, parents');
    ExploredStep(s, low, popped, queue, kids);
    forall f ensures UpIn(low, FilesOf(popped'), FilesOf(popped' + queue'), up', f) {
      ParentStep(low, popped, queue, up, kids, f);
    }
  }

  /** What was found before stays in turn. */
  lemma {:induction false} StillInTurn(paths: seq<File>, s: set<File>, low: nat, order: seq<File>, up: map<File, File>,
                                       parents: map<StateHash, StateHash>, kids: seq<File>, g: File, i: nat, j: nat)
    requires AllTraced(s, low, FilesOf(order), up, parents) && NoDup(order + kids)
    requires InTurn(paths, low, order, up) && i < j < |order| && order[i].height == order[j].height
    ensures InTurnAt(paths, low, order + kids, WithKids(up, kids, g), order[i], order[j])
  {
    var f, h := order[i], order[j];
    assert f in FilesOf(order) && h in FilesOf(order);
    assert Traced(low, FilesOf(order), up, parents, f) && Traced(low, FilesOf(order), up, parents, h);
    NoDupOther(order, kids, f);
    NoDupOther(order, kids, h);
    if f.height > low {
      PlaceKept(order, kids, up[f]);
      PlaceKept(order, kids, up[h]);
    }
  }

  lemma {:induction false} NoDupOther(a: seq<File>, b: seq<File>, x: File)
    requires NoDup(a + b) && x in a
    ensures x !in b
  {
    var i :| 0 <= i < |a| && a[i] == x;
    forall j | 0 <= j < |b| ensures b[j] != x { assert (a + b)[i] == x && (a + b)[|a| + j] == b[j]; }
  }

  /** The children of the file at the front come after all others of their height. */
  lemma {:induction false} KidInTurn(paths: seq<File>, s: set<File>, low: nat, popped: seq<File>, queue: seq<File>,
                                     up: map<File, File>, parents: map<StateHash, StateHash>, kids: seq<File>,
                                     f: File, k: File)
    requires Searching(s, low, popped, queue, up, parents) && queue != [] && f in popped + queue && k in kids
    requires NoDup(popped + queue + kids) && f.height == k.height && low < k.height
    ensures InTurnAt(paths, low, popped + queue + kids, WithKids(up, kids, queue[0]), f, k)
  {
    var order := popped + queue;
    assert f in FilesOf(order) && UpIn(low, FilesOf(popped), FilesOf(order), up, f);
    NoDupOther(order, kids, f);
    assert popped + queue + kids == popped + (queue + kids);
    PlaceKept(popped, queue + kids, up[f]);
    assert (popped + queue + kids)[|popped|] == queue[0];
    PlaceAt(popped + queue + kids, |popped|);
  }

  lemma {:induction false} TurnStep(paths: seq<File>, s: set<File>, low: nat, popped: seq<File>, queue: seq<File>,
                                    up: map<File, File>, parents: map<StateHash, StateHash>, kids: seq<File>)
    requires Searching(s, low, popped, queue, up, parents) && queue != [] && InTurn(paths, low, popped + queue, up)
    requires NoDup(popped + queue + kids) && InPlaces(paths, kids) && forall k :: k in kids ==> low < k.height
    ensures InTurn(paths, low, popped + queue + kids, WithKids(up, kids, queue[0]))
  {
    var order, all, up' := popped + queue, popped + queue + kids, WithKids(up, kids, queue[0]);
    forall i, j | 0 <= i < j < |all| && all[i].height == all[j].height
      ensures InTurnAt(paths, low, all, up', all[i], all[j])
    {
      if j < |order| {
        StillInTurn(paths, s, low, order, up, parents, kids, queue[0], i, j);
      } else if i < |order| {
        assert all[i] == order[i] && all[j] == kids[j - |order|];
        KidInTurn(paths, s, low, popped, queue, up, parents, kids, all[i], all[j]);
      } else {
        assert all[i] == kids[i - |order|] && all[j] == kids[j - |order|];
      }
    }
  }

  lemma {:induction false} SearchStart(s: set<File>, low: nat, roots: seq<File>)
    requires NoDup(roots) && (forall f :: f in roots <==> f in s && f.height == low)
    requires forall f :: f in s ==> low <= f.height
    ensures Searching(s, low, [], roots, map[], map[])
  {
    assert [] + roots == roots;
    forall i | 0 <= i < |roots| ensures roots[i].height == low { assert roots[i] in roots; }
    RootsTraced(s, low, roots);
    NothingPopped(s, low, roots);
  }

  lemma {:induction false} RootsTraced(s: set<File>, low: nat, roots: seq<File>)
    requires forall f :: f in roots <==> f in s && f.height == low
    ensures AllTraced(s, low, FilesOf(roots), map[], map[])
  {
    forall f ensures Traced(low, FilesOf(roots), map[], map[], f) {}
  }

  lemma {:induction false} NothingPopped(s: set<File>, low: nat, roots: seq<File>)
    requires forall f :: f in roots <==> f in s && f.height == low
    ensures Explored(s, low, FilesOf([]), FilesOf(roots))
    ensures forall f {:trigger UpIn(low, FilesOf([]), FilesOf(roots), map[], f)} ::
              UpIn(low, FilesOf([]), FilesOf(roots), map[], f)
  {
    forall f ensures UpIn(low, FilesOf([]), FilesOf(roots), map[], f) {}
  }

  /** What the search found: everything reachable, the best tip being the last found. */
  ghost predicate SearchDone(s: set<File>, low: nat, best: File, reach: set<File>, up: map<File, File>,
                             parents: map<StateHash, StateHash>) {
    && AllTraced(s, low, reach, up, parents) && Explored(s, low, reach, reach)
    && best in reach && forall f :: f in reach ==> f.height <= best.height
  }

  lemma {:induction false} SearchEnd(s: set<File>, low: nat, popped: seq<File>, up: map<File, File>,
                                     parents: map<StateHash, StateHash>)
    requires Searching(s, low, popped, [], up, parents) && popped != []
    ensures SearchDone(s, low, popped[|popped| - 1], FilesOf(popped), up, parents)
  {
    assert popped + [] == popped;
    forall f | f in FilesOf(popped) ensures f.height <= popped[|popped| - 1].height {
      var i :| 0 <= i < |popped| && popped[i] == f;
      assert (popped + [])[i] == f && (popped + [])[|popped| - 1] == popped[|popped| - 1];
    }
  }

  lemma {:induction false} NoDupFits(order: seq<File>, s: set<File>)
    requires NoDup(order) && FilesOf(order) <= s
    ensures |order| <= |s|
    decreases |order|
  {
    if order != [] {
      var n := |order| - 1;
      var init, last := order[..n], order[n];
      assert last !in init;
      NoDupFits(init, s - {last});
    }
  }

  /** Looks for the children of a file one level up. */
  method Expand(tm: TreeMap, ghost s: set<File>, ghost paths: seq<File>, g: File, parents: map<StateHash, StateHash>)
    returns (kids: seq<File>, parents': map<StateHash, StateHash>)
    requires TreeOf(tm, s) && LevelsInPlace(paths, tm)
    ensures Expanded(s, g, kids, parents, parents') && InPlaces(paths, kids)
  {
    kids, parents' := [], parents;
    LevelFiles(tm, s, g.height + 1);
    if g.height + 1 in tm {
      kids, parents' := PushChildren(paths, tm[g.height + 1], g, parents);
    }
  }

  lemma {:induction false} LastFound(popped: seq<File>, queue: seq<File>, kids: seq<File>)
    requires queue != []
    ensures var order, order' := popped + queue, (popped + [queue[0]]) + (queue[1..] + kids);
            && order' == order + kids && order' != []
            && order'[|order'| - 1] == if kids != [] then kids[|kids| - 1] else order[|order| - 1]
  {
    assert (popped + [queue[0]]) + (queue[1..] + kids) == (popped + queue) + kids;
  }

  /** The search, with the best tip so far and the order of discovery. */
  ghost predicate OnSearch(paths: seq<File>, s: set<File>, low: nat, popped: seq<File>, queue: seq<File>, best: File,
                           up: map<File, File>, parents: map<StateHash, StateHash>) {
    && Searching(s, low, popped, queue, up, parents) && InTurn(paths, low, popped + queue, up)
    && popped + queue != [] && best == (popped + queue)[|popped + queue| - 1]
  }

  lemma {:induction false} SearchTurn(paths: seq<File>, s: set<File>, low: nat, popped: seq<File>, queue: seq<File>,
                                      up: map<File, File>, parents: map<StateHash, StateHash>, kids: seq<File>,
                                      parents': map<StateHash, StateHash>)
    requires UniqueFiles(s) && Searching(s, low, popped, queue, up, parents) && queue != []
    requires Expanded(s, queue[0], kids, parents, parents')
    requires InPlaces(paths, kids) && InTurn(paths, low, popped + queue, up)
    ensures InTurn(paths, low, popped + queue + kids, WithKids(up, kids, queue[0]))
  {
    AllKidsNew(s, low, popped, queue, up, parents, kids, parents');
    TurnStep(paths, s, low, popped, queue, up, parents, kids);
  }

  lemma {:induction false} OnSearchNext(paths: seq<File>, s: set<File>, low: nat, popped: seq<File>, queue: seq<File>,
                                        best: File, up: map<File, File>, parents: map<StateHash, StateHash>,
                                        kids: seq<File>, parents': map<StateHash, StateHash>)
    requires UniqueFiles(s) && OnSearch(paths, s, low, popped, queue, best, up, parents) && queue != []
    requires Expanded(s, queue[0], kids, parents, parents') && InPlaces(paths, kids)
    ensures OnSearch(paths, s, low, popped + [queue[0]], queue[1..] + kids,
                     if kids != [] then kids[|kids| - 1] else best, WithKids(up, kids, queue[0]), parents')
  {
    SearchStep(s, low, popped, queue, up, parents, kids, parents');
    SearchTurn(paths, s, low, popped, queue, up, parents, kids, parents');
    LastFound(popped, queue, kids);
  }

  lemma {:induction false} NotAllPopped(s: set<File>, low: nat, popped: seq<File>, queue: seq<File>,
                                        up: map<File, File>, parents: map<StateHash, StateHash>)
    requires Searching(s, low, popped, queue, up, parents)
    ensures |popped| <= |s|
  {
    NoDupPrefix(popped, queue);
    NoDupFits(popped, s);
  }

  /** Takes one file off the queue and queues its children. */
  method SearchNext(tm: TreeMap, ghost s: set<File>, ghost paths: seq<File>, ghost low: nat, ghost popped: seq<File>,
                    queue: seq<File>, best: File, ghost up: map<File, File>, parents: map<StateHash, StateHash>)
    returns (queue': seq<File>, best': File, ghost up': map<File, File>, parents': map<StateHash, StateHash>)
    requires TreeOf(tm, s) && LevelsInPlace(paths, tm) && UniqueFiles(s) && queue != []
    requires OnSearch(paths, s, low, popped, queue, best, up, parents)
    ensures OnSearch(paths, s, low, popped + [queue[0]], queue', best', up', parents') && |popped| < |s|
  {
    var g := queue[0];
    var kids;
    kids, parents' := Expand(tm, s, paths, g, parents);
    OnSearchNext(paths, s, low, popped, queue, best, up, parents, kids, parents');
    best' := if kids != [] then kids[|kids| - 1] else best;
    up' := WithKids(up, kids, g);
    queue' := queue[1..] + kids;
    NotAllPopped(s, low, popped + [g], queue', up', parents');
  }

  /** A chain of parents in `s` from a file of height `low`. */
  ghost predicate IsLine(s: set<File>, low: nat, c: seq<File>) {
    && c != [] && FilesOf(c) <= s && c[0].height == low
    && forall i :: 0 <= i < |c| - 1 ==> IsParent(c[i], c[i + 1])
  }

  /** Where the chains first differ, the file of `b` stands later in `paths`. */
  ghost predicate LaterAt(paths: seq<File>, c: seq<File>, b: seq<File>, k: nat) {
    k < |c| && k < |b| && c[..k] == b[..k] && Place(paths, c[k]) < Place(paths, b[k])
  }

  ghost predicate LaterLine(paths: seq<File>, c: seq<File>, b: seq<File>) {
    exists k: nat {:trigger LaterAt(paths, c, b, k)} :: LaterAt(paths, c, b, k)
  }

  /** All that the search keeps, once it is over: `order` is the order of discovery. */
  ghost predicate Searched(paths: seq<File>, s: set<File>, low: nat, order: seq<File>, up: map<File, File>,
                           parents: map<StateHash, StateHash>) {
    && UniqueFiles(s) && NoDup(order) && AllTraced(s, low, FilesOf(order), up, parents)
    && Explored(s, low, FilesOf(order), FilesOf(order)) && InTurn(paths, low, order, up)
  }

  lemma {:induction false} LineFound(paths: seq<File>, s: set<File>, low: nat, order: seq<File>, up: map<File, File>,
                                     parents: map<StateHash, StateHash>, c: seq<File>, i: nat)
    requires Searched(paths, s, low, order, up, parents) && IsLine(s, low, c) && i < |c|
    ensures c[i] in order && c[i].height == low + i && (i > 0 ==> c[i] in up && up[c[i]] == c[i - 1])
  {
    assert c[i] in FilesOf(c);
    if i == 0 {
      assert c[0] in FilesOf(order);
    } else {
      LineFound(paths, s, low, order, up, parents, c, i - 1);
      assert IsParent(c[i - 1], c[i - 1 + 1]) && c[i - 1] in FilesOf(order);
      assert c[i] in FilesOf(order) && Traced(low, FilesOf(order), up, parents, c[i]);
    }
  }

  /** Two files of one height are in turn, one way or the other. */
  lemma {:induction false} TurnOf(paths: seq<File>, low: nat, order: seq<File>, up: map<File, File>, f: File, g: File)
    requires InTurn(paths, low, order, up) && f in order && g in order && f.height == g.height
    requires Place(order, f) < Place(order, g)
    ensures InTurnAt(paths, low, order, up, f, g)
  {}

  /** A line that is found later at one height is found later at all heights above. */
  lemma {:induction false} StaysLater(paths: seq<File>, s: set<File>, low: nat, order: seq<File>, up: map<File, File>,
                                      parents: map<StateHash, StateHash>, b: seq<File>, c: seq<File>, k: nat, n: nat)
    requires Searched(paths, s, low, order, up, parents) && IsLine(s, low, b) && IsLine(s, low, c)
    requires k <= n < |b| && n < |c| && Place(order, b[k]) < Place(order, c[k])
    ensures Place(order, b[n]) < Place(order, c[n])
  {
    if k < n {
      StaysLater(paths, s, low, order, up, parents, b, c, k, n - 1);
      LineFound(paths, s, low, order, up, parents, b, n);
      LineFound(paths, s, low, order, up, parents, c, n);
      if Place(order, c[n]) < Place(order, b[n]) { TurnOf(paths, low, order, up, c[n], b[n]); }
    }
  }

  /** Where two lines part, the order of discovery is that of `paths`. */
  lemma {:induction false} PartInPlace(paths: seq<File>, s: set<File>, low: nat, order: seq<File>, up: map<File, File>,
                                       parents: map<StateHash, StateHash>, b: seq<File>, c: seq<File>, k: nat)
    requires Searched(paths, s, low, order, up, parents) && IsLine(s, low, b) && IsLine(s, low, c)
    requires k < |b| && k < |c| && b[..k] == c[..k] && Place(order, c[k]) < Place(order, b[k])
    ensures Place(paths, c[k]) < Place(paths, b[k])
  {
    LineFound(paths, s, low, order, up, parents, b, k);
    LineFound(paths, s, low, order, up, parents, c, k);
    TurnOf(paths, low, order, up, c[k], b[k]);
    if k > 0 { assert b[..k][k - 1] == b[k - 1] && c[..k][k - 1] == c[k - 1]; }
  }

  lemma {:induction false} FirstDifference(b: seq<File>, c: seq<File>) returns (k: nat)
    requires |b| == |c| && b != c
    ensures k < |b| && b[..k] == c[..k] && b[k] != c[k]
  {
    k := 0;
    while k < |b| && b[k] == c[k]
      invariant k <= |b| && b[..k] == c[..k]
    {
      assert b[..k + 1] == b[..k] + [b[k]] && c[..k + 1] == c[..k] + [c[k]];
      k := k + 1;
    }
    assert b[..|b|] == b && c[..|c|] == c;
  }

  lemma {:induction false} NotFoundLater(paths: seq<File>, s: set<File>, low: nat, order: seq<File>,
                                         up: map<File, File>, parents: map<StateHash, StateHash>, b: seq<File>,
                                         c: seq<File>, k: nat)
    requires Searched(paths, s, low, order, up, parents) && order != [] && IsLine(s, low, b) && IsLine(s, low, c)
    requires |b| == |c| && k < |b| && b[k] != c[k] && b[|b| - 1] == order[|order| - 1]
    ensures Place(order, c[k]) < Place(order, b[k])
  {
    LineFound(paths, s, low, order, up, parents, b, k);
    LineFound(paths, s, low, order, up, parents, c, k);
    LineFound(paths, s, low, order, up, parents, c, |c| - 1);
    PlaceAt(order, |order| - 1);
    if Place(order, b[k]) < Place(order, c[k]) {
      StaysLater(paths, s, low, order, up, parents, b, c, k, |b| - 1);
    }
  }

  /** The line of the file that was found last comes later than every other one. */
  lemma {:induction false} LastLine(paths: seq<File>, s: set<File>, low: nat, order: seq<File>, up: map<File, File>,
                                    parents: map<StateHash, StateHash>, b: seq<File>, c: seq<File>)
    requires Searched(paths, s, low, order, up, parents) && order != [] && IsLine(s, low, b) && IsLine(s, low, c)
    requires |b| == |c| && b != c && b[|b| - 1] == order[|order| - 1]
    ensures LaterLine(paths, c, b)
  {
    var k := FirstDifference(b, c);
    NotFoundLater(paths, s, low, order, up, parents, b, c, k);
    PartInPlace(paths, s, low, order, up, parents, b, c, k);
    assert LaterAt(paths, c, b, k);
  }

  /** No line to the height of `best` comes later than the one to `best`. */
  ghost predicate FoundLast(paths: seq<File>, s: set<File>, low: nat, best: File) {
    forall b, c {:trigger IsLine(s, low, b), IsLine(s, low, c)} ::
      IsLine(s, low, b) && IsLine(s, low, c) && |b| == |c| && b != c && b[|b| - 1] == best ==> LaterLine(paths, c, b)
  }

  lemma {:induction false} LastIsFoundLast(paths: seq<File>, s: set<File>, low: nat, order: seq<File>,
                                           up: map<File, File>, parents: map<StateHash, StateHash>)
    requires Searched(paths, s, low, order, up, parents) && order != []
    ensures FoundLast(paths, s, low, order[|order| - 1])
  {
    forall b, c | IsLine(s, low, b) && IsLine(s, low, c) && |b| == |c| && b != c && b[|b| - 1] == order[|order| - 1]
      ensures LaterLine(paths, c, b)
    {
      LastLine(paths, s, low, order, up, parents, b, c);
    }
  }

  /** The search for the best tip. */
  method FindBestTip(tm: TreeMap, ghost s: set<File>, ghost paths: seq<File>)
    returns (best: File, parents: map<StateHash, StateHash>, low: nat, ghost reach: set<File>,
             ghost up: map<File, File>)
    requires TreeOf(tm, s) && UniqueFiles(s) && tm != map[] && forall n :: n in tm ==> tm[n] != []
    requires LevelsInPlace(paths, tm)
    ensures low in tm && (forall f :: f in s ==> low <= f.height)
    ensures SearchDone(s, low, best, reach, up, parents)
    ensures Reachable(s, low, best) && forall f :: Reachable(s, low, f) ==> f.height <= best.height
    ensures FoundLast(paths, s, low, best)
  {
    low := FirstKey(tm);
    var queue := tm[low];
    best := queue[|queue| - 1];
    parents, up := map[], map[];
    ghost var popped: seq<File> := [];
    OnSearchStart(paths, s, tm, low);
    while queue != []
      invariant OnSearch(paths, s, low, popped, queue, best, up, parents)
      decreases |s| - |popped|
    {
      ghost var g := queue[0];
      queue, best, up, parents := SearchNext(tm, s, paths, low, popped, queue, best, up, parents);
      popped := popped + [g];
    }
    OnSearchEnd(paths, s, low, popped, best, up, parents);
    reach := FilesOf(popped);
    FoundIsHighest(s, low, best, reach, up, parents);
  }

  lemma {:induction false} OnSearchStart(paths: seq<File>, s: set<File>, tm: TreeMap, low: nat)
    requires TreeOf(tm, s) && LevelsInPlace(paths, tm) && low in tm && tm[low] != []
    requires forall m :: m in tm ==> low <= m
    ensures forall f :: f in s ==> low <= f.height
    ensures OnSearch(paths, s, low, [], tm[low], tm[low][|tm[low]| - 1], map[], map[])
  {
    LevelFiles(tm, s, low);
    forall f | f in s ensures low <= f.height { assert InTree(tm, f); }
    SearchStart(s, low, tm[low]);
    assert [] + tm[low] == tm[low];
    RootsInTurn(paths, low, tm[low]);
  }

  lemma {:induction false} RootsInTurn(paths: seq<File>, low: nat, roots: seq<File>)
    requires InPlaces(paths, roots) && forall f :: f in roots ==> f.height == low
    ensures InTurn(paths, low, roots, map[])
  {
    forall i, j | 0 <= i < j < |roots| ensures InTurnAt(paths, low, roots, map[], roots[i], roots[j]) {
      assert roots[i] in roots;
    }
  }

  lemma {:induction false} OnSearchEnd(paths: seq<File>, s: set<File>, low: nat, popped: seq<File>, best: File,
                                       up: map<File, File>, parents: map<StateHash, StateHash>)
    requires UniqueFiles(s) && OnSearch(paths, s, low, popped, [], best, up, parents)
    ensures SearchDone(s, low, best, FilesOf(popped), up, parents) && FoundLast(paths, s, low, best)
  {
    assert popped + [] == popped;
    SearchEnd(s, low, popped, up, parents);
    LastIsFoundLast(paths, s, low, popped, up, parents);
  }

  lemma {:induction false} FoundIsHighest(s: set<File>, low: nat, best: File, reach: set<File>, up: map<File, File>,
                                          parents: map<StateHash, StateHash>)
    requires SearchDone(s, low, best, reach, up, parents)
    ensures Reachable(s, low, best) && forall f :: Reachable(s, low, f) ==> f.height <= best.height
  {
    FoundIsReachable(s, low, reach, up, parents, best);
    forall f | Reachable(s, low, f) ensures f.height <= best.height { ReachableIsFound(s, low, reach, f); }
  }

  lemma {:induction false} NoDupPrefix(a: seq<File>, b: seq<File>)
    requires NoDup(a + b)
    ensures NoDup(a) && FilesOf(a) <= FilesOf(a + b)
  {
    forall i, j | 0 <= i < j < |a| ensures a[i] != a[j] { assert (a + b)[i] == a[i] && (a + b)[j] == a[j]; }
  }

  /** A level of the map holds exactly the files of that height. */
  lemma {:induction false} LevelFiles(tm: TreeMap, s: set<File>, n: nat)
    requires TreeOf(tm, s)
    ensures n in tm ==> NoDup(tm[n]) && (forall f :: f in tm[n] <==> f in s && f.height == n)
    ensures n !in tm ==> forall f :: f in s ==> f.height != n
  {
    assert LevelOk(tm, n);
    forall f ensures (n in tm && f in tm[n]) <==> f in s && f.height == n { assert InTree(tm, f) <==> f in s; }
  }

  // ------------------------------------------------------------------ walk back

  /** A chain of files, newest first, each the parent of the one before it. */
  ghost predicate DownChain(chain: seq<File>) {
    forall i :: 0 <= i < |chain| - 1 ==> IsParent(chain[i + 1], chain[i])
  }

  lemma {:induction false} DownChainHeights(chain: seq<File>, i: nat)
    requires DownChain(chain) && i < |chain|
    ensures chain[i].height + i == chain[0].height
  {
    if i > 0 { DownChainHeights(chain, i - 1); }
  }

  ghost predicate WalkingBack(s: set<File>, best: File, reach: set<File>, branch: seq<File>, tm: TreeMap) {
    && branch != [] && branch[0] == best && DownChain(branch) && FilesOf(branch) <= reach
    && TreeOf(tm, s - FilesOf(branch[1..]))
  }

  /** The recorded parent is still in the map, one level down. */
  lemma {:induction false} NextDown(s: set<File>, low: nat, best: File, reach: set<File>, up: map<File, File>,
                                    parents: map<StateHash, StateHash>, branch: seq<File>, tm: TreeMap)
    requires UniqueFiles(s) && AllTraced(s, low, reach, up, parents) && WalkingBack(s, best, reach, branch, tm)
    requires branch[|branch| - 1].hash in parents
    ensures var cur := branch[|branch| - 1];
            && low < cur.height && cur in up && up[cur] in reach && IsParent(up[cur], cur) &&
              parents[cur.hash] == up[cur].hash
            && up[cur] !in branch && cur.height - 1 in tm && up[cur] in tm[cur.height - 1]
            && (forall f :: f in tm[cur.height - 1] && f.hash == parents[cur.hash] ==> f == up[cur])
  {
    var cur := branch[|branch| - 1];
    assert cur in FilesOf(branch) && Traced(low, reach, up, parents, cur);
    var next := up[cur];
    DownChainHeights(branch, |branch| - 1);
    forall i | 0 <= i < |branch| ensures branch[i] != next { DownChainHeights(branch, i); }
    assert next !in FilesOf(branch[1..]);
    assert InTree(tm, next);
    LevelFiles(tm, s - FilesOf(branch[1..]), cur.height - 1);
  }

  lemma {:induction false} TakeFile(tm: TreeMap, s: set<File>, n: nat, j: nat)
    requires TreeOf(tm, s) && n in tm && j < |tm[n]|
    ensures TreeOf(tm[n := Remove(tm[n], j)], s - {tm[n][j]})
  {
    var f := tm[n][j];
    var level := Remove(tm[n], j);
    var tm' := tm[n := level];
    LevelFiles(tm, s, n);
    RemoveMember(tm[n], j);
    forall m: nat ensures LevelOk(tm', m) { assert LevelOk(tm, m); }
    forall g ensures InTree(tm', g) <==> g in s - {f} { assert InTree(tm, g) <==> g in s; }
  }

  lemma {:induction false} RemoveInPlace(paths: seq<File>, tm: TreeMap, n: nat, j: nat)
    requires n in tm && j < |tm[n]| && LevelsInPlace(paths, tm)
    ensures LevelsInPlace(paths, tm[n := Remove(tm[n], j)])
  {
    var r := Remove(tm[n], j);
    assert forall i :: 0 <= i < |r| ==> r[i] == tm[n][if i < j then i else i + 1];
  }

  lemma {:induction false} RemoveMember(s: seq<File>, j: nat)
    requires NoDup(s) && j < |s|
    ensures NoDup(Remove(s, j)) && forall f :: f in Remove(s, j) <==> f in s && f != s[j]
  {
    var r := Remove(s, j);
    assert forall i :: 0 <= i < |r| ==> r[i] == if i < j then s[i] else s[i + 1];
    forall f | f in s && f != s[j] ensures f in r {
      var i :| 0 <= i < |s| && s[i] == f;
      assert r[if i < j then i else i - 1] == f;
    }
  }

  method FindByHash(files: seq<File>, h: StateHash) returns (j: nat)
    requires exists f :: f in files && f.hash == h
    ensures j < |files| && files[j].hash == h
  {
    j := 0;
    while files[j].hash != h
      invariant j < |files| && forall i :: 0 <= i < j ==> files[i].hash != h
      decreases |files| - j
    {
      j := j + 1;
    }
  }

  lemma {:induction false} OneMoreTaken(s: set<File>, branch: seq<File>, f: File)
    requires branch != []
    ensures s - FilesOf(branch[1..]) - {f} == s - FilesOf((branch + [f])[1..])
    ensures FilesOf(branch + [f]) == FilesOf(branch) + {f}
  {
    assert (branch + [f])[1..] == branch[1..] + [f];
    assert FilesOf(branch[1..] + [f]) == FilesOf(branch[1..]) + {f};
  }

  lemma {:induction false} WalkDown(s: set<File>, best: File, reach: set<File>, branch: seq<File>, tm: TreeMap, n: nat,
                                    j: nat)
    requires WalkingBack(s, best, reach, branch, tm) && n in tm && j < |tm[n]|
    requires tm[n][j] in reach && IsParent(tm[n][j], branch[|branch| - 1])
    ensures WalkingBack(s, best, reach, branch + [tm[n][j]], tm[n := Remove(tm[n], j)])
  {
    var f := tm[n][j];
    TakeFile(tm, s - FilesOf(branch[1..]), n, j);
    OneMoreTaken(s, branch, f);
  }

  /** Takes the recorded parent of the file reached out of the map. */
  method TakeParent(tm: TreeMap, parents: map<StateHash, StateHash>, cur: File, nextHeight: nat,
                    ghost branch: seq<File>, ghost best: File, ghost s: set<File>, ghost paths: seq<File>,
                    ghost low: nat, ghost reach: set<File>, ghost up: map<File, File>)
    returns (parent: File, tm': TreeMap)
    requires UniqueFiles(s) && AllTraced(s, low, reach, up, parents) && WalkingBack(s, best, reach, branch, tm)
    requires cur == branch[|branch| - 1] && cur.hash in parents && nextHeight + 1 == cur.height
    requires LevelsInPlace(paths, tm)
    ensures WalkingBack(s, best, reach, branch + [parent], tm') && LevelsInPlace(paths, tm')
    ensures parent in s && parent.height == nextHeight
  {
    NextDown(s, low, best, reach, up, parents, branch, tm);
    var files := tm[nextHeight];
    assert up[cur] in files && up[cur].hash == parents[cur.hash];
    var j := FindByHash(files, parents[cur.hash]);
    assert files[j] in files && files[j] == up[cur];
    WalkDown(s, best, reach, branch, tm, nextHeight, j);
    RemoveInPlace(paths, tm, nextHeight, j);
    parent, tm' := files[j], tm[nextHeight := Remove(files, j)];
  }

  /** The walk from the best tip back to a file of the lowest height.  The files walked over,
      except the best tip, leave the map; heights never drop below zero. */
  method CanonicalBranch(tm: TreeMap, parents: map<StateHash, StateHash>, best: File, ghost s: set<File>,
                         ghost paths: seq<File>, ghost low: nat, ghost reach: set<File>, ghost up: map<File, File>)
    returns (branch: seq<File>, tm': TreeMap)
    requires ValidFiles(s) && TreeOf(tm, s) && SearchDone(s, low, best, reach, up, parents)
    requires LevelsInPlace(paths, tm)
    ensures branch != [] && branch[0].height == low && branch[|branch| - 1] == best && FilesOf(branch) <= s
    ensures forall i :: 0 <= i < |branch| - 1 ==> IsParent(branch[i], branch[i + 1])
    ensures TreeOf(tm', s - FilesOf(branch[..|branch| - 1]))
    ensures LevelsInPlace(paths, tm')
  {
    branch, tm' := [best], tm;
    assert branch[1..] == [] && s - FilesOf([]) == s;
    var cur := best;
    var nextHeight: nat := best.height - 1;
    while cur.hash in parents
      invariant WalkingBack(s, best, reach, branch, tm') && cur == branch[|branch| - 1] && nextHeight + 1 == cur.height
      invariant LevelsInPlace(paths, tm')
      decreases cur.height
    {
      cur, tm' := TakeParent(tm', parents, cur, nextHeight, branch, best, s, paths, low, reach, up);
      branch := branch + [cur];
      nextHeight := nextHeight - 1;
    }
    assert cur in FilesOf(branch) && Traced(low, reach, up, parents, cur);
    ReversedChain(branch);
    branch := Reverse(branch);
  }

  lemma {:induction false} ReversedChain(chain: seq<File>)
    requires DownChain(chain) && chain != []
    ensures var r := Reverse(chain);
            && r[0] == chain[|chain| - 1] && r[|r| - 1] == chain[0] && FilesOf(r) == FilesOf(chain)
            && FilesOf(r[..|r| - 1]) == FilesOf(chain[1..])
            && forall i :: 0 <= i < |r| - 1 ==> IsParent(r[i], r[i + 1])
  {
    var r := Reverse(chain);
    forall i | 0 <= i < |r| ensures r[i] == chain[|r| - 1 - i] { ReverseAt(chain, i); }
    ReversedFiles(chain);
    ReversedFiles(chain[1..]);
    assert r[..|r| - 1] == Reverse(chain[1..]) by {
      forall i | 0 <= i < |r| - 1 ensures r[i] == Reverse(chain[1..])[i] { ReverseAt(chain[1..], i); }
    }
  }

  lemma {:induction false} ReversedFiles(chain: seq<File>)
    ensures FilesOf(Reverse(chain)) == FilesOf(chain)
  {
    var r := Reverse(chain);
    forall i | 0 <= i < |r| ensures r[i] == chain[|r| - 1 - i] { ReverseAt(chain, i); }
    forall f | f in chain ensures f in r {
      var i :| 0 <= i < |chain| && chain[i] == f;
      assert r[|r| - 1 - i] == f;
    }
  }
}
