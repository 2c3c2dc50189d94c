/** One synchronous step over a whole line of dominoes, as a function of the
    states before the step. */
module Line {
  import opened Rules

  /** Which rule a step applies: `next_state` or `previous_state`. */
  datatype Direction = Forward | Backward

  function Rule(dir: Direction, previous: Code, state: Code, next: Code): Code
  {
    match dir
    case Forward => ForwardRule(previous, state, next)
    case Backward => BackwardRule(previous, state, next)
  }

  /** The left neighbour a brick sees: the state of cell i-1, or the
      constructor default `1` (standing) at the left end. */
  function PreviousOf(s: seq<Code>, i: nat): Code
    requires i < |s|
  {
    if i == 0 then Standing else s[i - 1]
  }

  /** The right neighbour a brick sees: the state of cell i+1, or the
      constructor default `1` (standing) at the right end. */
  function NextOf(s: seq<Code>, i: nat): Code
    requires i < |s|
  {
    if i == |s| - 1 then Standing else s[i + 1]
  }

  /** Every cell's new state computed from the same snapshot `s`. */
  function Step(dir: Direction, s: seq<Code>): (r: seq<Code>)
    ensures |r| == |s|
  {
    seq(|s|, i requires 0 <= i < |s| => Rule(dir, PreviousOf(s, i), s[i], NextOf(s, i)))
  }

  /** Number of standing dominoes. */
  function StandingCount(s: seq<Code>): nat
  {
    if s == [] then 0 else (if s[0] == Standing then 1 else 0) + StandingCount(s[1..])
  }

  /** A forward step leaves every fallen domino as it was. */
  lemma ForwardKeepsFallen(s: seq<Code>, i: int)
    requires 0 <= i < |s| && s[i] != Standing
    ensures Step(Forward, s)[i] == s[i]
  {
  }

  /** A backward step leaves every standing domino standing, and a changed cell
      always becomes standing. */
  lemma BackwardKeepsStanding(s: seq<Code>, i: int)
    requires 0 <= i < |s|
    ensures s[i] == Standing ==> Step(Backward, s)[i] == Standing
    ensures Step(Backward, s)[i] != s[i] ==> Step(Backward, s)[i] == Standing
  {
  }

  /** If `t` agrees with `s` wherever `s` has a fallen domino, `t` has no more
      standing dominoes than `s`. */
  lemma {:induction false} FewerStanding(s: seq<Code>, t: seq<Code>)
    requires |t| == |s|
    requires forall i :: 0 <= i < |s| && s[i] != Standing ==> t[i] == s[i]
    ensures StandingCount(t) <= StandingCount(s)
  {
    if s != [] {
      FewerStanding(s[1..], t[1..]);
    }
  }

  /** If `t` keeps every standing domino of `s` standing, `t` has at least as
      many standing dominoes as `s`. */
  lemma {:induction false} MoreStanding(s: seq<Code>, t: seq<Code>)
    requires |t| == |s|
    requires forall i :: 0 <= i < |s| && s[i] == Standing ==> t[i] == Standing
    ensures StandingCount(s) <= StandingCount(t)
  {
    if s != [] {
      MoreStanding(s[1..], t[1..]);
    }
  }

  /** Forward never raises a domino: the number standing never increases. */
  lemma ForwardStandingNeverIncreases(s: seq<Code>)
    ensures StandingCount(Step(Forward, s)) <= StandingCount(s)
  {
    FewerStanding(s, Step(Forward, s));
  }

  /** Backward never topples a domino: the number standing never decreases. */
  lemma BackwardStandingNeverDecreases(s: seq<Code>)
    ensures StandingCount(s) <= StandingCount(Step(Backward, s))
  {
    MoreStanding(s, Step(Backward, s));
  }

  /** The ends behave as if bordered by a standing domino: going forward, the
      first domino is never pushed to `/` and the last never pushed to `\`. */
  lemma ForwardBoundaries(s: seq<Code>)
    requires |s| > 0
    ensures Step(Forward, s)[0] == FallingRight ==> s[0] == FallingRight
    ensures Step(Forward, s)[|s| - 1] == FallingLeft ==> s[|s| - 1] == FallingLeft
  {
  }

  /** Going backward, a `/` at the left end and a `\` at the right end never
      stand up, since the absent neighbour counts as standing. */
  lemma BackwardBoundaries(s: seq<Code>)
    requires |s| > 0
    ensures s[0] == FallingRight ==> Step(Backward, s)[0] == FallingRight
    ensures s[|s| - 1] == FallingLeft ==> Step(Backward, s)[|s| - 1] == FallingLeft
  {
  }
}
