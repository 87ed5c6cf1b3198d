/** Runs of the system under an arbitrary schedule, and the invariant of every reachable state. */
module Runs {
  import opened Records
  import opened Machine
  import Control
  import Timing
  import Refilling
  import Books
  import BookKeeping

  /** `run` is a schedule the system can follow from `s`. */
  ghost predicate IsRun(c: Config, s: State, run: seq<Action>)
    decreases run
  {
    run == [] || (Enabled(c, s, run[0]) && IsRun(c, Next(c, s, run[0]), run[1..]))
  }

  ghost function After(c: Config, s: State, run: seq<Action>): State
    requires IsRun(c, s, run)
    decreases run
  {
    if run == [] then s else After(c, Next(c, s, run[0]), run[1..])
  }

  ghost predicate Reachable(c: Config, s: State) {
    exists created: nat, start: nat, run: seq<Action> :: ReachedBy(c, s, created, start, run)
  }

  ghost predicate ReachedBy(c: Config, s: State, created: nat, start: nat, run: seq<Action>) {
    created <= start && IsRun(c, Init(c, created, start), run) && After(c, Init(c, created, start), run) == s
  }

  ghost predicate Inv(c: Config, s: State) {
    c.Valid() && Control.Inv(c, s) && Timing.Inv(c, s) && Refilling.Inv(c, s) && Books.Inv(c, s)
  }

  lemma InitHolds(c: Config, created: nat, start: nat)
    requires c.Valid() && created <= start
    ensures Inv(c, Init(c, created, start))
  {
    Control.InitKeeps(c, created, start);
    Timing.InitKeeps(c, created, start);
    Refilling.InitKeeps(c, created, start);
    Books.InitKeeps(c, created, start);
  }

  lemma NextHolds(c: Config, s: State, a: Action)
    requires Inv(c, s) && Enabled(c, s, a)
    ensures Inv(c, Next(c, s, a))
  {
    Control.NextKeeps(c, s, a);
    Timing.NextKeeps(c, s, a);
    Refilling.NextKeeps(c, s, a);
    BookKeeping.NextKeeps(c, s, a);
  }

  lemma {:induction false} RunHolds(c: Config, s: State, run: seq<Action>)
    requires Inv(c, s) && IsRun(c, s, run)
    ensures Inv(c, After(c, s, run))
    decreases run
  {
    if run != [] {
      var s' := Next(c, s, run[0]);
      NextHolds(c, s, run[0]);
      RunHolds(c, s', run[1..]);
      assert After(c, s, run) == After(c, s', run[1..]);
    }
  }

  /** The invariant holds after any schedule of any number of printers, stop and spurious wake-ups included. */
  lemma ReachableHolds(c: Config, s: State)
    requires c.Valid() && Reachable(c, s)
    ensures Inv(c, s)
  {
    var created: nat, start: nat, run: seq<Action> :| ReachedBy(c, s, created, start, run);
    InitHolds(c, created, start);
    RunHolds(c, Init(c, created, start), run);
  }
}
