/** The witness tree as a state machine over state hashes.

    A branch is seen as the set of its state hashes together with its root: edges are
    the parent links of the universe and heights are differences of blockchain length.
    Module IndexerStates implements these steps on trees of nodes. */
module WitnessTree {
  import opened Accounts
  import opened Blocks
  import opened Ledgers
  import opened Removals

  /** MAINNET_CANONICAL_THRESHOLD */
  const CANONICAL_THRESHOLD: nat := 10

  /** CANONICAL_UPDATE_THRESHOLD, a fifth of PRUNE_INTERVAL_DEFAULT */
  const CANONICAL_UPDATE_THRESHOLD: nat := 2
  const PRUNE_INTERVAL_DEFAULT: nat := 10
  const MAINNET_TRANSITION_FRONTIER_K: nat := 290
  const LEDGER_CADENCE: nat := 100

  datatype View = View(root: StateHash, hashes: set<StateHash>)

  /** `pruneHeight` is the product of prune interval and transition frontier length `k`;
      `confirmations` is how far below the best tip a block is reported canonical. */
  datatype Config = Config(k: nat, pruneHeight: nat, updateThreshold: nat, confirmations: nat)

  function MainnetConfig(k: nat, pruneInterval: nat): Config {
    Config(k, pruneInterval * k, CANONICAL_UPDATE_THRESHOLD, CANONICAL_THRESHOLD)
  }

  datatype State = State(
    bestTip: StateHash,
    canonicalRoot: StateHash,
    ledger: Ledger,
    diffs: map<StateHash, LedgerDiff>,
    root: View,
    dangling: seq<View>)

  /** A step's new state and the blocks that it reports as newly canonical. */
  datatype Outcome = Outcome(state: State, canonical: seq<StateHash>)

  // ---------------------------------------------------------------- best tips

  ghost predicate IsTop(u: Universe, hs: set<StateHash>, h: StateHash) {
    h in hs && forall x :: x in hs ==> Len(u, x) <= Len(u, h)
  }

  /** Among the highest blocks, the one that every other beats: the leaves are sorted
      by the reversed comparison, in which better blocks come last. */
  ghost predicate IsLastTop(u: Universe, hs: set<StateHash>, h: StateHash) {
    IsTop(u, hs, h) && forall x :: IsTop(u, hs, x) && x != h ==> Beats(u, x, h)
  }

  ghost function LastTop(u: Universe, hs: set<StateHash>): StateHash {
    if exists h :: IsLastTop(u, hs, h) then var h :| IsLastTop(u, hs, h); h else ""
  }

  ghost function Prefer(u: Universe, tip: StateHash, incoming: StateHash): StateHash {
    if Beats(u, incoming, tip) then incoming else tip
  }

  /** The first minimum, as `min_by` computes it. */
  ghost function BestOf(u: Universe, tips: seq<StateHash>): StateHash
    requires tips != []
  {
    var n := |tips| - 1;
    if n == 0 then tips[0] else
      var b := BestOf(u, tips[..n]);
      if Beats(u, b, tips[n]) then b else tips[n]
  }

  ghost function Tips(u: Universe, ds: seq<View>): (r: seq<StateHash>)
    ensures |r| == |ds|
  {
    if ds == [] then [] else Tips(u, ds[..|ds| - 1]) + [LastTop(u, ds[|ds| - 1].hashes)]
  }

  // -------------------------------------------------------- dangling branches

  /** `h` is the parent of the branch's root. */
  ghost predicate IsParentOfRoot(u: Universe, d: View, h: StateHash) {
    d.root in u && u[d.root].parentHash == h
  }

  ghost predicate IsChildIn(u: Universe, d: View, h: StateHash) {
    h in u && u[h].parentHash in d.hashes
  }

  ghost function AllHashes(ds: seq<View>): set<StateHash> {
    if ds == [] then {} else AllHashes(ds[..|ds| - 1]) + ds[|ds| - 1].hashes
  }

  ghost function Matching(u: Universe, ds: seq<View>, h: StateHash): seq<View> {
    if ds == [] then [] else
      var d := ds[|ds| - 1];
      Matching(u, ds[..|ds| - 1], h) + if IsParentOfRoot(u, d, h) then [d] else []
  }

  ghost function Others(u: Universe, ds: seq<View>, h: StateHash): seq<View> {
    if ds == [] then [] else
      var d := ds[|ds| - 1];
      Others(u, ds[..|ds| - 1], h) + if IsParentOfRoot(u, d, h) then [] else [d]
  }

  /** The length pre-check of a dangling branch. */
  ghost predicate WithinDangling(u: Universe, d: View, h: StateHash) {
    Len(u, LastTop(u, d.hashes)) + 1 >= Len(u, h) && Len(u, h) + 1 >= Len(u, d.root)
  }

  ghost predicate Touches(u: Universe, d: View, h: StateHash) {
    WithinDangling(u, d, h) && (IsParentOfRoot(u, d, h) || IsChildIn(u, d, h))
  }

  /** The index of the first dangling branch that `h` extends, |ds| if there is none. */
  ghost function FirstTouch(u: Universe, ds: seq<View>, h: StateHash): (i: nat)
    ensures i <= |ds|
    ensures forall j :: 0 <= j < i ==> !Touches(u, ds[j], h)
    ensures i < |ds| ==> Touches(u, ds[i], h)
  {
    if ds == [] || Touches(u, ds[0], h) then 0 else 1 + FirstTouch(u, ds[1..], h)
  }

  ghost function Grow(u: Universe, d: View, h: StateHash): View {
    View(if IsParentOfRoot(u, d, h) then h else d.root, d.hashes + {h})
  }

  /** The dangling branches after `h`, which does not extend the root branch. */
  ghost function DanglingAfter(u: Universe, ds: seq<View>, h: StateHash): seq<View> {
    var i := FirstTouch(u, ds, h);
    if i == |ds| then
      ds + [View(h, {h})]
    else
      var grown := ds[i := Grow(u, ds[i], h)];
      if Matching(u, grown, h) == [] then grown else JoinAt(u, grown, i, h)
  }

  /** Branch `i`, which holds `h`, takes over the branches whose root is a child of
      `h` and moves to the end. */
  ghost function JoinAt(u: Universe, ds: seq<View>, i: nat, h: StateHash): seq<View>
    requires i < |ds|
  {
    var rest := Remove(ds, i);
    Others(u, rest, h) + [View(ds[i].root, ds[i].hashes + AllHashes(Matching(u, rest, h)))]
  }

  ghost function ExtendDangling(u: Universe, s: State, h: StateHash): State {
    s.(dangling := DanglingAfter(u, s.dangling, h))
  }

  // --------------------------------------------------------------- root branch

  ghost predicate WithinRoot(u: Universe, s: State, h: StateHash) {
    Len(u, s.bestTip) + 1 >= Len(u, h)
  }

  ghost predicate ExtendsRoot(u: Universe, s: State, h: StateHash) {
    WithinRoot(u, s, h) && IsChildIn(u, s.root, h)
  }

  ghost function ExtendRoot(u: Universe, s: State, h: StateHash): State {
    var ms := Matching(u, s.dangling, h);
    var afterMerge := if ms == [] then s.bestTip else Prefer(u, s.bestTip, BestOf(u, Tips(u, ms)));
    s.(root := View(s.root.root, s.root.hashes + {h} + AllHashes(ms)),
       dangling := Others(u, s.dangling, h),
       bestTip := Prefer(u, afterMerge, h))
  }

  /** From `h` down to the tree's root, `n` steps away, or to just above `stop`. */
  ghost function Collect(u: Universe, h: StateHash, n: nat, stop: StateHash): seq<StateHash>
    decreases n
  {
    if h == stop then []
    else (if n == 0 || h !in u then [] else Collect(u, u[h].parentHash, n - 1, stop)) + [h]
  }

  /** The canonical blocks to report: ancestors of the best tip, the nearest ones left
      out. */
  ghost function NewCanonical(c: Config, u: Universe, s: State): seq<StateHash> {
    var depth := Len(u, s.bestTip) - Len(u, s.root.root);
    if depth < c.confirmations then []
    else Collect(u, Up(u, s.bestTip, c.confirmations), depth - c.confirmations, s.canonicalRoot)
  }

  ghost function KnownDiffs(diffs: map<StateHash, LedgerDiff>, hs: seq<StateHash>): LedgerDiff {
    if hs == [] then [] else
      var h := hs[|hs| - 1];
      KnownDiffs(diffs, hs[..|hs| - 1]) + if h in diffs then diffs[h] else []
  }

  /** Blocks of the old canonical root's subtree that are not above the new root. */
  ghost predicate Settled(u: Universe, s: State, newRoot: StateHash, h: StateHash) {
    h in s.root.hashes && Descends(u, s.canonicalRoot, h) && h != newRoot && Len(u, h) <= Len(u, newRoot)
  }

  ghost function PrunedDiffs(u: Universe, s: State, newRoot: StateHash): map<StateHash, LedgerDiff> {
    map h | h in s.diffs && !Settled(u, s, newRoot, h) :: s.diffs[h]
  }

  ghost predicate CanonicalUpdatable(c: Config, u: Universe, s: State) {
    Len(u, s.bestTip) - Len(u, s.canonicalRoot) >= c.updateThreshold
  }

  ghost function Report(c: Config, u: Universe, s: State): seq<StateHash> {
    if CanonicalUpdatable(c, u, s) then NewCanonical(c, u, s) else []
  }

  ghost function RootAfter(c: Config, u: Universe, s: State): StateHash {
    var reported := Report(c, u, s);
    if reported == [] then s.canonicalRoot else reported[|reported| - 1]
  }

  /** The blocks `hs` have become canonical, `r` the highest of them. */
  ghost function Advanced(step: Step, u: Universe, s: State, hs: seq<StateHash>, r: StateHash): State {
    s.(canonicalRoot := r,
       ledger := ApplyDiff(step, s.ledger, KnownDiffs(s.diffs, hs)),
       diffs := PrunedDiffs(u, s, r))
  }

  ghost function UpdateCanonical(step: Step, c: Config, u: Universe, s: State): State {
    if CanonicalUpdatable(c, u, s) then Advanced(step, u, s, Report(c, u, s), RootAfter(c, u, s)) else s
  }

  /** The number of levels of the root branch. */
  ghost function Levels(u: Universe, v: View): int {
    Len(u, LastTop(u, v.hashes)) - Len(u, v.root) + 1
  }

  ghost function SubtreeView(u: Universe, v: View, r: StateHash): View {
    View(r, set h | h in v.hashes && Descends(u, r, h))
  }

  ghost function Prune(c: Config, u: Universe, s: State): State {
    if Levels(u, s.root) > c.pruneHeight
    then s.(root := SubtreeView(u, s.root, Up(u, s.bestTip, c.k)))
    else s
  }

  ghost function Settle(step: Step, c: Config, u: Universe, s: State): Outcome {
    Outcome(Prune(c, u, UpdateCanonical(step, c, u, s)), Report(c, u, s))
  }

  /** The state between the extension and the canonical update. */
  ghost function Extended(u: Universe, s: State, h: StateHash): State {
    var s1 := WithDiff(u, s, h);
    if ExtendsRoot(u, s, h) then ExtendRoot(u, s1, h) else ExtendDangling(u, s1, h)
  }

  ghost predicate Accepted(u: Universe, s: State, h: StateHash) {
    Len(u, s.root.root) <= Len(u, h)
  }

  /** One incoming block. */
  ghost function Feed(step: Step, c: Config, u: Universe, s: State, h: StateHash): Outcome {
    if !Accepted(u, s, h) then Outcome(s, [])
    else if ExtendsRoot(u, s, h) then Settle(step, c, u, Extended(u, s, h))
    else Outcome(Extended(u, s, h), [])
  }

  ghost function WithDiff(u: Universe, s: State, h: StateHash): State {
    s.(diffs := if h in u then s.diffs[h := u[h].diff] else s.diffs)
  }

  /** A run: blocks fed one after another, their reports concatenated. */
  ghost function Run(step: Step, c: Config, u: Universe, s: State, hs: seq<StateHash>): Outcome {
    if hs == [] then Outcome(s, []) else
      var before := Run(step, c, u, s, hs[..|hs| - 1]);
      var o := Feed(step, c, u, before.state, hs[|hs| - 1]);
      Outcome(o.state, before.canonical + o.canonical)
  }

  lemma {:induction false} RunOne(step: Step, c: Config, u: Universe, s: State, hs: seq<StateHash>, h: StateHash)
    ensures Run(step, c, u, s, hs + [h]).state == Feed(step, c, u, Run(step, c, u, s, hs).state, h).state
  {
    assert (hs + [h])[..|hs|] == hs;
  }

  /** The state with a single block in the root branch. */
  ghost function Initial(u: Universe, r: StateHash, l: Ledger): State {
    State(r, r, l, if r in u then map[r := u[r].diff] else map[], View(r, {r}), [])
  }
}
