/** The usernames on the running ledger over a run of the witness tree. */
module RunningNames {
  import opened Accounts
  import opened Blocks
  import opened NamedLedgers
  import opened WitnessTree

  /** The usernames that each block sets. */
  type Says = StateHash -> Names

  /** The usernames on the running ledger after one more block: those of the new best tip are
      written if the root branch grew. */
  ghost function NamesNext(step: Step, c: Config, u: Universe, says: Says, s: State, h: StateHash, m: Names): Names {
    var s' := Feed(step, c, u, s, h).state;
    if Accepted(u, s, h) && ExtendsRoot(u, s, h) then Renamed(m, says(s'.bestTip), s'.ledger) else m
  }

  lemma {:induction false} NamesMove(step: Step, c: Config, u: Universe, says: Says, s: State, h: StateHash, m: Names,
                                     s': State, moved: bool)
    requires s' == Feed(step, c, u, s, h).state && (moved <==> Accepted(u, s, h) && ExtendsRoot(u, s, h))
    ensures NamesNext(step, c, u, says, s, h, m) == if moved then Renamed(m, says(s'.bestTip), s'.ledger) else m
  {}

  ghost function RunNames(step: Step, c: Config, u: Universe, says: Says, s: State, hs: seq<StateHash>): Names {
    if hs == [] then map[] else
      var init := hs[..|hs| - 1];
      NamesNext(step, c, u, says, Run(step, c, u, s, init).state, hs[|hs| - 1], RunNames(step, c, u, says, s, init))
  }

  lemma {:induction false} RunNamesNext(step: Step, c: Config, u: Universe, says: Says, s: State, hs: seq<StateHash>,
                                        h: StateHash)
    ensures RunNames(step, c, u, says, s, hs + [h]) ==
              NamesNext(step, c, u, says, Run(step, c, u, s, hs).state, h, RunNames(step, c, u, says, s, hs))
  {
    assert (hs + [h])[..|hs|] == hs;
  }
}
