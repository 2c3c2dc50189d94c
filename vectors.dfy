/** The repository's unit-test scenarios, stated as facts about the model. */
module Vectors {
  import opened Results
  import opened Rules
  import opened Symbols
  import opened Line
  import opened Domino
  import opened Bricks

  /** One step on text is the step on its codes: a helper for the scenarios. */
  lemma IterationSpelled(dir: Direction, s: string, c: seq<Code>, t: string, d: seq<Code>)
    requires Decode(c) == s && |s| != 1 && Step(dir, c) == d && Decode(d) == t
    ensures Iteration(dir, s) == Ok(t)
  {
    EncodeDecode(c);
  }

  /** Per-brick scenarios of the rule tables, written as (previous, state, next). */
  lemma RuleScenarios()
    ensures ForwardRule(1, 1, 1) == 1 && ForwardRule(2, 1, 1) == 2
    ensures ForwardRule(1, 1, 0) == 0 && ForwardRule(2, 1, 0) == 1
    ensures BackwardRule(2, 2, 2) == 2 && BackwardRule(0, 0, 0) == 0
    ensures BackwardRule(1, 0, 0) == 1 && BackwardRule(2, 2, 1) == 1
    ensures BackwardRule(1, 1, 1) == 1 && BackwardRule(2, 1, 0) == 1
  {
  }

  /** The same scenarios on `Brick` objects: the constructor keeps its
      arguments, and each call updates only `state`. */
  method BrickScenarios()
  {
    var brick := new Brick(1, 2, 0);
    assert brick.state == 1 && brick.previous == 2 && brick.next == 0;
    brick.NextState();
    assert brick.state == 1;
    brick.PreviousState();
    assert brick.state == 1;
    var pushed := new Brick(1, 2);
    pushed.NextState();
    assert pushed.state == 2;
    var raised := new Brick(2, 2, 1);
    raised.PreviousState();
    assert raised.state == 1 && raised.previous == 2 && raised.next == 1;
  }

  /** Encoding scenarios. */
  lemma EncodeScenarios()
    ensures Encode(@"|||") == Ok([1, 1, 1])
    ensures Encode(@"\||") == Ok([0, 1, 1])
    ensures Encode(@"/||") == Ok([2, 1, 1])
    ensures Encode(@"//|") == Ok([2, 2, 1])
    ensures Encode(@"||//||\||/\|") == Ok([1, 1, 2, 2, 1, 1, 0, 1, 1, 2, 0, 1])
  {
    assert Encode(@"|||").value == [1, 1, 1];
    assert Encode(@"\||").value == [0, 1, 1];
    assert Encode(@"/||").value == [2, 1, 1];
    assert Encode(@"//|").value == [2, 2, 1];
    ForwardGivenExampleSpelling();
    EncodeDecode([1, 1, 2, 2, 1, 1, 0, 1, 1, 2, 0, 1]);
  }

  /** Decoding scenarios. */
  lemma DecodeScenarios()
    ensures Decode([1, 1, 1]) == @"|||"
    ensures Decode([0, 1, 1]) == @"\||"
    ensures Decode([2, 1, 1]) == @"/||"
    ensures Decode([2, 1, 2]) == @"/|/"
    ensures Decode([2, 2, 2]) == @"///"
    ensures Decode([2, 0, 2]) == @"/\/"
  {
  }

  /** The mode string that selects each direction's step. */
  predicate ModeOf(mode: string, dir: Direction)
  {
    (mode == "forward" && dir == Forward) || (mode == "backward" && dir == Backward)
  }

  /** A step is checked cell by cell: a helper for the scenarios. */
  lemma StepByCells(dir: Direction, c: seq<Code>, d: seq<Code>)
    requires |c| == |d|
    requires forall i :: 0 <= i < |c| ==> Rule(dir, PreviousOf(c, i), c[i], NextOf(c, i)) == d[i]
    ensures Step(dir, c) == d
  {
  }

  /** Two steps in a row: a helper for the scenarios. */
  lemma TwoSteps(dir: Direction, mode: string, s: string, mid: string, t: string)
    requires ModeOf(mode, dir) && Iteration(dir, s) == Ok(mid) && Iteration(dir, mid) == Ok(t)
    ensures DominoAlgorithm(s, mode, 2) == Ok(t)
  {
    var f := Iterators[mode];
    assert f(s) == Ok(mid);
    assert Iterate(f, mid, 1) == Ok(t);
  }

  lemma ForwardOneStep()
    ensures DominoAlgorithm(@"|//|||", "forward", 1) == Ok(@"|///||")
  {
    ForwardOneStepSpelling();
    ForwardOneStepCodes();
    IterationSpelled(Forward, @"|//|||", [1, 2, 2, 1, 1, 1],
                     @"|///||", [1, 2, 2, 2, 1, 1]);
  }

  lemma ForwardOneStepSpelling()
    ensures Decode([1, 2, 2, 1, 1, 1]) == @"|//|||"
    ensures Decode([1, 2, 2, 2, 1, 1]) == @"|///||"
  {
  }

  lemma ForwardOneStepCodes()
    ensures Step(Forward, [1, 2, 2, 1, 1, 1]) == [1, 2, 2, 2, 1, 1]
  {
    StepByCells(Forward, [1, 2, 2, 1, 1, 1], [1, 2, 2, 2, 1, 1]);
  }

  lemma ForwardTwoSteps()
    ensures DominoAlgorithm(@"|//|||", "forward", 2) == Ok(@"|////|")
  {
    ForwardOneStepSpelling();
    ForwardOneStepCodes();
    IterationSpelled(Forward, @"|//|||", [1, 2, 2, 1, 1, 1],
                     @"|///||", [1, 2, 2, 2, 1, 1]);
    ForwardTwoStepsSecondSpelling();
    ForwardTwoStepsSecondCodes();
    IterationSpelled(Forward, @"|///||", [1, 2, 2, 2, 1, 1],
                     @"|////|", [1, 2, 2, 2, 2, 1]);
    TwoSteps(Forward, "forward", @"|//|||", @"|///||", @"|////|");
  }

  lemma ForwardTwoStepsSecondSpelling()
    ensures Decode([1, 2, 2, 2, 2, 1]) == @"|////|"
  {
  }

  lemma ForwardTwoStepsSecondCodes()
    ensures Step(Forward, [1, 2, 2, 2, 1, 1]) == [1, 2, 2, 2, 2, 1]
  {
    StepByCells(Forward, [1, 2, 2, 2, 1, 1], [1, 2, 2, 2, 2, 1]);
  }

  lemma ForwardTwoCollisions()
    ensures DominoAlgorithm(@"|//|||||\||", "forward", 2) == Ok(@"|////|\\\||")
  {
    ForwardTwoCollisionsFirstSpelling();
    ForwardTwoCollisionsFirstCodes();
    IterationSpelled(Forward, @"|//|||||\||", [1, 2, 2, 1, 1, 1, 1, 1, 0, 1, 1],
                     @"|///|||\\||", [1, 2, 2, 2, 1, 1, 1, 0, 0, 1, 1]);
    ForwardTwoCollisionsSecondSpelling();
    ForwardTwoCollisionsSecondCodes();
    IterationSpelled(Forward, @"|///|||\\||", [1, 2, 2, 2, 1, 1, 1, 0, 0, 1, 1],
                     @"|////|\\\||", [1, 2, 2, 2, 2, 1, 0, 0, 0, 1, 1]);
    TwoSteps(Forward, "forward", @"|//|||||\||", @"|///|||\\||", @"|////|\\\||");
  }

  lemma ForwardTwoCollisionsFirstSpelling()
    ensures Decode([1, 2, 2, 1, 1, 1, 1, 1, 0, 1, 1]) == @"|//|||||\||"
    ensures Decode([1, 2, 2, 2, 1, 1, 1, 0, 0, 1, 1]) == @"|///|||\\||"
  {
  }

  lemma ForwardTwoCollisionsFirstCodes()
    ensures Step(Forward, [1, 2, 2, 1, 1, 1, 1, 1, 0, 1, 1]) == [1, 2, 2, 2, 1, 1, 1, 0, 0, 1, 1]
  {
    var c: seq<Code> := [1, 2, 2, 1, 1, 1, 1, 1, 0, 1, 1];
    var d: seq<Code> := [1, 2, 2, 2, 1, 1, 1, 0, 0, 1, 1];
    // the cells are checked in two halves
    forall i | 0 <= i < |c| ensures Rule(Forward, PreviousOf(c, i), c[i], NextOf(c, i)) == d[i] {
      if i < 5 { } else { }
    }
    StepByCells(Forward, c, d);
  }

  lemma ForwardTwoCollisionsSecondSpelling()
    ensures Decode([1, 2, 2, 2, 2, 1, 0, 0, 0, 1, 1]) == @"|////|\\\||"
  {
  }

  lemma ForwardTwoCollisionsSecondCodes()
    ensures Step(Forward, [1, 2, 2, 2, 1, 1, 1, 0, 0, 1, 1]) == [1, 2, 2, 2, 2, 1, 0, 0, 0, 1, 1]
  {
    var c: seq<Code> := [1, 2, 2, 2, 1, 1, 1, 0, 0, 1, 1];
    var d: seq<Code> := [1, 2, 2, 2, 2, 1, 0, 0, 0, 1, 1];
    // the cells are checked in two halves
    forall i | 0 <= i < |c| ensures Rule(Forward, PreviousOf(c, i), c[i], NextOf(c, i)) == d[i] {
      if i < 5 { } else { }
    }
    StepByCells(Forward, c, d);
  }

  lemma ForwardGivenExample()
    ensures DominoAlgorithm(@"||//||\||/\|", "forward", 1) == Ok(@"||///\\||/\|")
  {
    ForwardGivenExampleSpelling();
    ForwardGivenExampleCodes();
    IterationSpelled(Forward, @"||//||\||/\|", [1, 1, 2, 2, 1, 1, 0, 1, 1, 2, 0, 1],
                     @"||///\\||/\|", [1, 1, 2, 2, 2, 0, 0, 1, 1, 2, 0, 1]);
  }

  lemma ForwardGivenExampleSpelling()
    ensures Decode([1, 1, 2, 2, 1, 1, 0, 1, 1, 2, 0, 1]) == @"||//||\||/\|"
    ensures Decode([1, 1, 2, 2, 2, 0, 0, 1, 1, 2, 0, 1]) == @"||///\\||/\|"
  {
  }

  lemma ForwardGivenExampleCodes()
    ensures Step(Forward, [1, 1, 2, 2, 1, 1, 0, 1, 1, 2, 0, 1]) == [1, 1, 2, 2, 2, 0, 0, 1, 1, 2, 0, 1]
  {
    var c: seq<Code> := [1, 1, 2, 2, 1, 1, 0, 1, 1, 2, 0, 1];
    var d: seq<Code> := [1, 1, 2, 2, 2, 0, 0, 1, 1, 2, 0, 1];
    // the cells are checked in two halves
    forall i | 0 <= i < |c| ensures Rule(Forward, PreviousOf(c, i), c[i], NextOf(c, i)) == d[i] {
      if i < 6 { } else { }
    }
    StepByCells(Forward, c, d);
  }

  lemma BackwardOneStep()
    ensures DominoAlgorithm(@"|///||", "backward", 1) == Ok(@"|//|||")
  {
    BackwardOneStepSpelling();
    BackwardOneStepCodes();
    IterationSpelled(Backward, @"|///||", [1, 2, 2, 2, 1, 1],
                     @"|//|||", [1, 2, 2, 1, 1, 1]);
  }

  lemma BackwardOneStepSpelling()
    ensures Decode([1, 2, 2, 2, 1, 1]) == @"|///||"
    ensures Decode([1, 2, 2, 1, 1, 1]) == @"|//|||"
  {
  }

  lemma BackwardOneStepCodes()
    ensures Step(Backward, [1, 2, 2, 2, 1, 1]) == [1, 2, 2, 1, 1, 1]
  {
    StepByCells(Backward, [1, 2, 2, 2, 1, 1], [1, 2, 2, 1, 1, 1]);
  }

  lemma BackwardTwoSteps()
    ensures DominoAlgorithm(@"|////|", "backward", 2) == Ok(@"|//|||")
  {
    BackwardTwoStepsFirstSpelling();
    BackwardTwoStepsFirstCodes();
    IterationSpelled(Backward, @"|////|", [1, 2, 2, 2, 2, 1],
                     @"|///||", [1, 2, 2, 2, 1, 1]);
    BackwardTwoStepsSecondSpelling();
    BackwardOneStepCodes();
    IterationSpelled(Backward, @"|///||", [1, 2, 2, 2, 1, 1],
                     @"|//|||", [1, 2, 2, 1, 1, 1]);
    TwoSteps(Backward, "backward", @"|////|", @"|///||", @"|//|||");
  }

  lemma BackwardTwoStepsFirstSpelling()
    ensures Decode([1, 2, 2, 2, 2, 1]) == @"|////|"
    ensures Decode([1, 2, 2, 2, 1, 1]) == @"|///||"
  {
  }

  lemma BackwardTwoStepsFirstCodes()
    ensures Step(Backward, [1, 2, 2, 2, 2, 1]) == [1, 2, 2, 2, 1, 1]
  {
    StepByCells(Backward, [1, 2, 2, 2, 2, 1], [1, 2, 2, 2, 1, 1]);
  }

  lemma BackwardTwoStepsSecondSpelling()
    ensures Decode([1, 2, 2, 1, 1, 1]) == @"|//|||"
  {
  }

  lemma BackwardTwoCollisions()
    ensures DominoAlgorithm(@"|////|\\\||", "backward", 2) == Ok(@"|//|||||\||")
  {
    BackwardTwoCollisionsFirstSpelling();
    BackwardTwoCollisionsFirstCodes();
    IterationSpelled(Backward, @"|////|\\\||", [1, 2, 2, 2, 2, 1, 0, 0, 0, 1, 1],
                     @"|///|||\\||", [1, 2, 2, 2, 1, 1, 1, 0, 0, 1, 1]);
    BackwardTwoCollisionsSecondSpelling();
    BackwardTwoCollisionsSecondCodes();
    IterationSpelled(Backward, @"|///|||\\||", [1, 2, 2, 2, 1, 1, 1, 0, 0, 1, 1],
                     @"|//|||||\||", [1, 2, 2, 1, 1, 1, 1, 1, 0, 1, 1]);
    TwoSteps(Backward, "backward", @"|////|\\\||", @"|///|||\\||", @"|//|||||\||");
  }

  lemma BackwardTwoCollisionsFirstSpelling()
    ensures Decode([1, 2, 2, 2, 2, 1, 0, 0, 0, 1, 1]) == @"|////|\\\||"
    ensures Decode([1, 2, 2, 2, 1, 1, 1, 0, 0, 1, 1]) == @"|///|||\\||"
  {
  }

  lemma BackwardTwoCollisionsFirstCodes()
    ensures Step(Backward, [1, 2, 2, 2, 2, 1, 0, 0, 0, 1, 1]) == [1, 2, 2, 2, 1, 1, 1, 0, 0, 1, 1]
  {
    var c: seq<Code> := [1, 2, 2, 2, 2, 1, 0, 0, 0, 1, 1];
    var d: seq<Code> := [1, 2, 2, 2, 1, 1, 1, 0, 0, 1, 1];
    // the cells are checked in two halves
    forall i | 0 <= i < |c| ensures Rule(Backward, PreviousOf(c, i), c[i], NextOf(c, i)) == d[i] {
      if i < 5 { } else { }
    }
    StepByCells(Backward, c, d);
  }

  lemma BackwardTwoCollisionsSecondSpelling()
    ensures Decode([1, 2, 2, 1, 1, 1, 1, 1, 0, 1, 1]) == @"|//|||||\||"
  {
  }

  lemma BackwardTwoCollisionsSecondCodes()
    ensures Step(Backward, [1, 2, 2, 2, 1, 1, 1, 0, 0, 1, 1]) == [1, 2, 2, 1, 1, 1, 1, 1, 0, 1, 1]
  {
    var c: seq<Code> := [1, 2, 2, 2, 1, 1, 1, 0, 0, 1, 1];
    var d: seq<Code> := [1, 2, 2, 1, 1, 1, 1, 1, 0, 1, 1];
    // the cells are checked in two halves
    forall i | 0 <= i < |c| ensures Rule(Backward, PreviousOf(c, i), c[i], NextOf(c, i)) == d[i] {
      if i < 5 { } else { }
    }
    StepByCells(Backward, c, d);
  }

  lemma BackwardGivenExample()
    ensures DominoAlgorithm(@"||////\\\|////|", "backward", 2) == Ok(@"||//||||\|//|||")
  {
    BackwardGivenExampleFirstSpelling();
    BackwardGivenExampleFirstCodes();
    IterationSpelled(Backward, @"||////\\\|////|", [1, 1, 2, 2, 2, 2, 0, 0, 0, 1, 2, 2, 2, 2, 1],
                     @"||///||\\|///||", [1, 1, 2, 2, 2, 1, 1, 0, 0, 1, 2, 2, 2, 1, 1]);
    BackwardGivenExampleSecondSpelling();
    BackwardGivenExampleSecondCodes();
    IterationSpelled(Backward, @"||///||\\|///||", [1, 1, 2, 2, 2, 1, 1, 0, 0, 1, 2, 2, 2, 1, 1],
                     @"||//||||\|//|||", [1, 1, 2, 2, 1, 1, 1, 1, 0, 1, 2, 2, 1, 1, 1]);
    TwoSteps(Backward, "backward", @"||////\\\|////|", @"||///||\\|///||", @"||//||||\|//|||");
  }

  lemma BackwardGivenExampleFirstSpelling()
    ensures Decode([1, 1, 2, 2, 2, 2, 0, 0, 0, 1, 2, 2, 2, 2, 1]) == @"||////\\\|////|"
    ensures Decode([1, 1, 2, 2, 2, 1, 1, 0, 0, 1, 2, 2, 2, 1, 1]) == @"||///||\\|///||"
  {
  }

  lemma BackwardGivenExampleFirstCodes()
    ensures Step(Backward, [1, 1, 2, 2, 2, 2, 0, 0, 0, 1, 2, 2, 2, 2, 1]) == [1, 1, 2, 2, 2, 1, 1, 0, 0, 1, 2, 2, 2, 1, 1]
  {
    var c: seq<Code> := [1, 1, 2, 2, 2, 2, 0, 0, 0, 1, 2, 2, 2, 2, 1];
    var d: seq<Code> := [1, 1, 2, 2, 2, 1, 1, 0, 0, 1, 2, 2, 2, 1, 1];
    // the cells are checked in two halves
    forall i | 0 <= i < |c| ensures Rule(Backward, PreviousOf(c, i), c[i], NextOf(c, i)) == d[i] {
      if i < 7 { } else { }
    }
    StepByCells(Backward, c, d);
  }

  lemma BackwardGivenExampleSecondSpelling()
    ensures Decode([1, 1, 2, 2, 1, 1, 1, 1, 0, 1, 2, 2, 1, 1, 1]) == @"||//||||\|//|||"
  {
  }

  lemma BackwardGivenExampleSecondCodes()
    ensures Step(Backward, [1, 1, 2, 2, 2, 1, 1, 0, 0, 1, 2, 2, 2, 1, 1]) == [1, 1, 2, 2, 1, 1, 1, 1, 0, 1, 2, 2, 1, 1, 1]
  {
    var c: seq<Code> := [1, 1, 2, 2, 2, 1, 1, 0, 0, 1, 2, 2, 2, 1, 1];
    var d: seq<Code> := [1, 1, 2, 2, 1, 1, 1, 1, 0, 1, 2, 2, 1, 1, 1];
    // the cells are checked in two halves
    forall i | 0 <= i < |c| ensures Rule(Backward, PreviousOf(c, i), c[i], NextOf(c, i)) == d[i] {
      if i < 7 { } else { }
    }
    StepByCells(Backward, c, d);
  }

  /** Backward is not an inverse of forward: `//` is a fixed point going
      forward, yet one backward step raises its second domino. */
  lemma BackwardIsNotInverse()
    ensures ForwardIteration("//") == Ok("//")
    ensures BackwardIteration("//") == Ok("/|")
  {
    IterationSpelled(Forward, "//", [2, 2], "//", [2, 2]);
    IterationSpelled(Backward, "//", [2, 2], "/|", [2, 1]);
  }

  /** The error and edge scenarios of `domino_algorithm`. */
  lemma ErrorScenarios()
    ensures DominoAlgorithm("|", "forward", 1) == Err(IndexError(1))
    ensures DominoAlgorithm("|x|", "forward", 1) == Err(KeyError("x"))
    ensures DominoAlgorithm("|||", "sideways", 0) == Err(KeyError("sideways"))
    ensures DominoAlgorithm("|||", "forward", -1) == Ok("|||")
    ensures DominoAlgorithm("", "forward", 5) == Ok("")
  {
    SingleDomino("|", "forward", 1);
    assert ValidSymbols("|x|"[..1]);
    UnknownSymbol("|x|", "forward", 1, 1);
    EmptyLine("forward", 5);
  }
}
