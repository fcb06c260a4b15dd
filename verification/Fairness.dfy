/** Termination under fair service, for any state machine: a total that no fair event raises, and that falls
    whenever something that can move is served. */
module Fairness {

  /** The state after a list of events. */
  function After<S, E>(step: (S, E) -> S, s: S, events: seq<E>): S
    decreases |events|
  {
    if events == [] then s else After(step, step(s, events[0]), events[1..])
  }

  /** Every event is one that a fair schedule may contain in the state in which it happens. */
  ghost predicate Fair<S, E>(step: (S, E) -> S, fair: (S, E) -> bool, s: S, events: seq<E>)
    decreases |events|
  {
    events == [] || (fair(s, events[0]) && Fair(step, fair, step(s, events[0]), events[1..]))
  }

  /** Some event serves `i` in the state in which it happens. */
  ghost predicate Served<S, E, I>(step: (S, E) -> S, serves: (S, E, I) -> bool, s: S, events: seq<E>, i: I)
    decreases |events|
  {
    events != [] && (serves(s, events[0], i) || Served(step, serves, step(s, events[0]), events[1..], i))
  }

  /** A round is a fair list of events that serves everyone at least once, in any order. */
  ghost predicate Round<S, E, I>(step: (S, E) -> S, fair: (S, E) -> bool, serves: (S, E, I) -> bool, members: S -> set<I>,
                                 s: S, events: seq<E>)
  {
    Fair(step, fair, s, events) && forall i :: i in members(s) ==> Served(step, serves, s, events, i)
  }

  ghost predicate Rounds<S, E, I>(step: (S, E) -> S, fair: (S, E) -> bool, serves: (S, E, I) -> bool, members: S -> set<I>,
                                  s: S, rounds: seq<seq<E>>)
    decreases |rounds|
  {
    rounds == [] || (Round(step, fair, serves, members, s, rounds[0])
                     && Rounds(step, fair, serves, members, After(step, s, rounds[0]), rounds[1..]))
  }

  function AfterRounds<S, E>(step: (S, E) -> S, s: S, rounds: seq<seq<E>>): S
    decreases |rounds|
  {
    if rounds == [] then s else AfterRounds(step, After(step, s, rounds[0]), rounds[1..])
  }

  /** What fair events keep. */
  ghost predicate Steady<S(!new), E(!new), I(!new)>(step: (S, E) -> S, fair: (S, E) -> bool, members: S -> set<I>,
                                     inv: S -> bool, total: S -> int, done: S -> bool)
  {
    && (forall s, e :: inv(s) && fair(s, e) ==>
          inv(step(s, e)) && total(step(s, e)) <= total(s) && members(step(s, e)) == members(s)
          && (done(s) ==> done(step(s, e))))
    && (forall s :: inv(s) ==> total(s) >= 0 && (total(s) == 0 ==> done(s)))
  }

  /** Why they come to an end: someone can move until all is done, can still move until the total falls, and
      moves when served. */
  ghost predicate Ranked<S(!new), E(!new), I(!new)>(step: (S, E) -> S, fair: (S, E) -> bool, serves: (S, E, I) -> bool,
                                     members: S -> set<I>, inv: S -> bool, total: S -> int, done: S -> bool,
                                     mover: (S, I) -> bool)
  {
    && (forall s, e, i :: inv(s) && fair(s, e) && mover(s, i) && total(step(s, e)) >= total(s) ==> mover(step(s, e), i))
    && (forall s, e, i :: inv(s) && fair(s, e) && mover(s, i) && serves(s, e, i) ==> total(step(s, e)) < total(s))
    && (forall s :: inv(s) && !done(s) ==> exists i :: i in members(s) && mover(s, i))
  }

  lemma {:induction false} FairKeeps<S(!new), E(!new), I(!new)>(
      step: (S, E) -> S, fair: (S, E) -> bool, members: S -> set<I>, inv: S -> bool, total: S -> int, done: S -> bool,
      s: S, events: seq<E>)
    requires Steady(step, fair, members, inv, total, done) && inv(s) && Fair(step, fair, s, events)
    ensures var t := After(step, s, events);
            inv(t) && total(t) <= total(s) && members(t) == members(s) && (done(s) ==> done(t))
    decreases |events|
  {
    if events != [] {
      FairKeeps(step, fair, members, inv, total, done, step(s, events[0]), events[1..]);
    }
  }

  /** A served mover makes the round count: until its turn either the total has fallen, or it is still a mover. */
  lemma {:induction false} ServedMoves<S(!new), E(!new), I(!new)>(
      step: (S, E) -> S, fair: (S, E) -> bool, serves: (S, E, I) -> bool, members: S -> set<I>,
      inv: S -> bool, total: S -> int, done: S -> bool, mover: (S, I) -> bool, s: S, events: seq<E>, i: I)
    requires Steady(step, fair, members, inv, total, done)
    requires Ranked(step, fair, serves, members, inv, total, done, mover)
    requires inv(s) && Fair(step, fair, s, events) && mover(s, i) && Served(step, serves, s, events, i)
    ensures total(After(step, s, events)) < total(s)
    decreases |events|
  {
    var t := step(s, events[0]);
    if total(t) < total(s) {
      FairKeeps(step, fair, members, inv, total, done, t, events[1..]);
    } else {
      ServedMoves(step, fair, serves, members, inv, total, done, mover, t, events[1..], i);
    }
  }

  /** As many rounds as the total get everything done. */
  lemma {:induction false} RoundsReach<S(!new), E(!new), I(!new)>(
      step: (S, E) -> S, fair: (S, E) -> bool, serves: (S, E, I) -> bool, members: S -> set<I>,
      inv: S -> bool, total: S -> int, done: S -> bool, mover: (S, I) -> bool, s: S, rounds: seq<seq<E>>)
    requires Steady(step, fair, members, inv, total, done)
    requires Ranked(step, fair, serves, members, inv, total, done, mover)
    requires inv(s) && Rounds(step, fair, serves, members, s, rounds) && (done(s) || |rounds| >= total(s))
    ensures done(AfterRounds(step, s, rounds)) && members(AfterRounds(step, s, rounds)) == members(s)
    decreases |rounds|
  {
    if rounds != [] {
      FairKeeps(step, fair, members, inv, total, done, s, rounds[0]);
      if !done(s) {
        var i :| i in members(s) && mover(s, i);
        ServedMoves(step, fair, serves, members, inv, total, done, mover, s, rounds[0], i);
      }
      RoundsReach(step, fair, serves, members, inv, total, done, mover, After(step, s, rounds[0]), rounds[1..]);
    }
  }

  /******* Rounds as one list *******/

  function Flatten<E>(rounds: seq<seq<E>>): seq<E> {
    if rounds == [] then [] else rounds[0] + Flatten(rounds[1..])
  }

  lemma {:induction false} AfterConcat<S, E>(step: (S, E) -> S, s: S, a: seq<E>, b: seq<E>)
    ensures After(step, s, a + b) == After(step, After(step, s, a), b)
    decreases |a|
  {
    if a == [] {
      assert a + b == b;
    } else {
      assert (a + b)[1..] == a[1..] + b;
      AfterConcat(step, step(s, a[0]), a[1..], b);
    }
  }

  lemma {:induction false} AfterFlatten<S, E>(step: (S, E) -> S, s: S, rounds: seq<seq<E>>)
    ensures After(step, s, Flatten(rounds)) == AfterRounds(step, s, rounds)
    decreases |rounds|
  {
    if rounds != [] {
      AfterConcat(step, s, rounds[0], Flatten(rounds[1..]));
      AfterFlatten(step, After(step, s, rounds[0]), rounds[1..]);
    }
  }

  /** What every fair event is, every event of fair rounds is. */
  lemma {:induction false} FairEvents<S(!new), E(!new), I(!new)>(
      step: (S, E) -> S, fair: (S, E) -> bool, serves: (S, E, I) -> bool, members: S -> set<I>, holds: E -> bool,
      s: S, rounds: seq<seq<E>>)
    requires Rounds(step, fair, serves, members, s, rounds) && forall s: S, e: E :: fair(s, e) ==> holds(e)
    ensures forall k :: 0 <= k < |Flatten(rounds)| ==> holds(Flatten(rounds)[k])
    decreases |rounds|
  {
    if rounds != [] {
      FairList(step, fair, holds, s, rounds[0]);
      FairEvents(step, fair, serves, members, holds, After(step, s, rounds[0]), rounds[1..]);
    }
  }

  lemma {:induction false} FairList<S(!new), E(!new)>(step: (S, E) -> S, fair: (S, E) -> bool, holds: E -> bool, s: S, events: seq<E>)
    requires Fair(step, fair, s, events) && forall s: S, e: E :: fair(s, e) ==> holds(e)
    ensures forall k :: 0 <= k < |events| ==> holds(events[k])
    decreases |events|
  {
    if events != [] {
      FairList(step, fair, holds, step(s, events[0]), events[1..]);
    }
  }
}
