/** A loop that takes at most a given number of turns, and its course: which turns it takes. */
module ToolLoop {
  /** What one turn leads to: the next turn, or the end of the loop. */
  datatype Outcome<S, R> = Next(state: S) | Halt(result: R, state: S)

  /** The turns from `turn` on. */
  function Loop<S, R>(take: (S, nat) -> Outcome<S, R>, usedUp: S -> R, maxTurns: nat, s: S, turn: nat): (R, S)
    decreases maxTurns - turn
  {
    if turn >= maxTurns then (usedUp(s), s)
    else
      match take(s, turn)
      case Halt(result, after) => (result, after)
      case Next(after) => Loop(take, usedUp, maxTurns, after, turn + 1)
  }

  /** The states at the heads of the turns that the loop reaches, from `turn` on; the last one is
      where it stops taking turns or whose turn ends it. */
  function Heads<S, R>(take: (S, nat) -> Outcome<S, R>, maxTurns: nat, s: S, turn: nat): (heads: seq<S>)
    ensures heads != [] && heads[0] == s
    decreases maxTurns - turn
  {
    if turn >= maxTurns then [s]
    else
      match take(s, turn)
      case Halt(_, _) => [s]
      case Next(after) => [s] + Heads(take, maxTurns, after, turn + 1)
  }

  /** Each turn leads to the head of the next one, and the last head to how the loop ends: its turn
      does, or there is none left. */
  ghost predicate Course<S, R>(take: (S, nat) -> Outcome<S, R>, usedUp: S -> R, maxTurns: nat, heads: seq<S>,
                               first: nat, r: R, end: S)
  {
    && heads != []
    && (forall i | 1 <= i < |heads| :: take(heads[i - 1], first + i - 1) == Next(heads[i]))
    && var last := heads[|heads| - 1];
       var k := first + |heads| - 1;
       && k <= maxTurns
       && if k == maxTurns then r == usedUp(last) && end == last else take(last, k) == Halt(r, end)
  }

  lemma CourseNext<S, R>(take: (S, nat) -> Outcome<S, R>, usedUp: S -> R, maxTurns: nat, s: S, heads: seq<S>,
                         first: nat, r: R, end: S)
    requires Course(take, usedUp, maxTurns, heads, first + 1, r, end) && take(s, first) == Next(heads[0])
    ensures Course(take, usedUp, maxTurns, [s] + heads, first, r, end)
  {
    var all := [s] + heads;
    forall i | 1 <= i < |all| ensures take(all[i - 1], first + i - 1) == Next(all[i]) {
      assert i > 1 ==> take(heads[i - 2], first + 1 + (i - 1) - 1) == Next(heads[i - 1]);
    }
  }

  /** The heads and the end of the loop are its course. */
  lemma {:induction false} LoopCourse<S, R>(take: (S, nat) -> Outcome<S, R>, usedUp: S -> R, maxTurns: nat, s: S,
                                            turn: nat)
    requires turn <= maxTurns
    ensures var (r, end) := Loop(take, usedUp, maxTurns, s, turn);
            Course(take, usedUp, maxTurns, Heads(take, maxTurns, s, turn), turn, r, end)
    decreases maxTurns - turn
  {
    if turn < maxTurns && take(s, turn).Next? {
      var after := take(s, turn).state;
      var (r, end) := Loop(take, usedUp, maxTurns, after, turn + 1);
      LoopCourse(take, usedUp, maxTurns, after, turn + 1);
      CourseNext(take, usedUp, maxTurns, s, Heads(take, maxTurns, after, turn + 1), turn, r, end);
    }
  }
}
