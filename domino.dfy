/** `forward_iteration`, `backward_iteration`, `looper` and `domino_algorithm`:
    one step on a string, N steps, and the dispatch on the mode string. */
module Domino {
  import opened Results
  import opened Rules
  import opened Symbols
  import opened Line

  /** One step on a string: encode, refresh neighbours, apply the rule to every
      brick, decode. Fails on an unknown symbol (KeyError) and on a one-domino
      line, where the neighbour refresh reads index 1 (IndexError). */
  function Iteration(dir: Direction, s: string): (r: Result<string>)
    ensures r.Ok? <==> ValidSymbols(s) && |s| != 1
    ensures !ValidSymbols(s) ==> exists k :: FirstUnknown(s, k) && r == Err(KeyError([s[k]]))
    ensures ValidSymbols(s) && |s| == 1 ==> r == Err(IndexError(1))
    ensures r.Ok? ==> |r.value| == |s| && Encode(r.value) == Ok(Step(dir, Encode(s).value))
  {
    match Encode(s)
    case Err(e) => Err(e)
    case Ok(codes) =>
      if |codes| == 1 then Err(IndexError(1))
      else
        EncodeDecode(Step(dir, codes));
        Ok(Decode(Step(dir, codes)))
  }

  /** `forward_iteration`: one topple step; fallen dominoes keep their symbol. */
  function ForwardIteration(s: string): (r: Result<string>)
    ensures r.Ok? ==> |r.value| == |s| &&
                      forall i :: 0 <= i < |s| && s[i] != '|' ==> r.value[i] == s[i]
  {
    Iteration(Forward, s)
  }

  /** `backward_iteration`: one un-topple step; standing dominoes stay standing
      and a changed domino becomes standing. */
  function BackwardIteration(s: string): (r: Result<string>)
    ensures r.Ok? ==> |r.value| == |s| &&
                      forall i :: 0 <= i < |s| && r.value[i] != s[i] ==> r.value[i] == '|'
  {
    Iteration(Backward, s)
  }

  /** `iterators` in `domino_algorithm`: the mode string chooses the step. */
  const Iterators: map<string, string -> Result<string>> :=
    map["forward" := ForwardIteration, "backward" := BackwardIteration]

  /** `num_iter` applications of `step` (the source's `iterator`), stopping at the first error; a
      count of zero or less leaves `data` unchanged, as `range` is then empty. */
  function Iterate<T>(step: T -> Result<T>, data: T, numIter: int): (r: Result<T>)
    ensures numIter <= 0 ==> r == Ok(data)
    ensures numIter == 1 ==> r == step(data)
    decreases numIter
  {
    if numIter <= 0 then Ok(data)
    else
      match step(data)
      case Err(e) => Err(e)
      case Ok(next) => Iterate(step, next, numIter - 1)
  }

  /** `looper`: the counting loop that reassigns `data`. */
  method Looper<T>(data: T, step: T -> Result<T>, numIter: int) returns (r: Result<T>)
    ensures r == Iterate(step, data, numIter)
  {
    var current := data;
    var i := 0;
    while i < numIter
      invariant i == 0 || i <= numIter
      invariant Iterate(step, data, numIter) == Iterate(step, current, numIter - i)
    {
      var next := step(current);
      if next.Err? {
        return Err(next.error);
      }
      current := next.value;
      i := i + 1;
    }
    return Ok(current);
  }

  /** The entries of `iterators` are the forward and the backward step. */
  lemma IteratorStep(mode: string, s: string)
    requires mode in Iterators
    ensures Iterators[mode](s) == Iteration(if mode == "forward" then Forward else Backward, s)
  {
    if mode == "forward" {
      assert Iterators[mode] == ForwardIteration;
    } else {
      assert Iterators[mode] == BackwardIteration;
    }
  }

  /** Both modes' steps succeed on a valid line of length other than one and
      give another such line of the same length. */
  lemma IteratorKeepsLine(mode: string, s: string)
    requires mode in Iterators && ValidSymbols(s) && |s| != 1
    ensures Iterators[mode](s).Ok? && |Iterators[mode](s).value| == |s| &&
            ValidSymbols(Iterators[mode](s).value)
  {
    IteratorStep(mode, s);
  }

  /** When a run of either mode's step succeeds: no steps at all, or a line
      over the three symbols whose length is not one. Success keeps the length. */
  lemma {:induction false} IterateSucceeds(mode: string, data: string, numIter: int)
    requires mode in Iterators
    ensures Iterate(Iterators[mode], data, numIter).Ok? <==>
              numIter <= 0 || (ValidSymbols(data) && |data| != 1)
    ensures Iterate(Iterators[mode], data, numIter).Ok? ==>
              |Iterate(Iterators[mode], data, numIter).value| == |data|
    decreases numIter
  {
    if numIter > 0 {
      IteratorStep(mode, data);
      if ValidSymbols(data) && |data| != 1 {
        IteratorKeepsLine(mode, data);
        IterateSucceeds(mode, Iterators[mode](data).value, numIter - 1);
      }
    }
  }

  /** `domino_algorithm`: look the mode up (KeyError for an unknown one, even
      with no steps to take), then run that step `numIter` times. A run
      succeeds exactly when the mode is known and there is either no step to
      take or a line over the three symbols whose length is not one; a
      success keeps the length of the line. */
  function DominoAlgorithm(data: string, mode: string, numIter: int): (r: Result<string>)
    ensures mode !in Iterators ==> r == Err(KeyError(mode))
    ensures mode in Iterators && numIter <= 0 ==> r == Ok(data)
    ensures r.Ok? <==> mode in Iterators && (numIter <= 0 || (ValidSymbols(data) && |data| != 1))
    ensures r.Ok? ==> |r.value| == |data|
  {
    if mode in Iterators then
      IterateSucceeds(mode, data, numIter);
      Iterate(Iterators[mode], data, numIter)
    else Err(KeyError(mode))
  }

  /** Running `a` steps and then `b` more is running `a + b` steps; an error in
      the first `a` steps is the error of the whole run. */
  lemma {:induction false} IterateAdd<T>(step: T -> Result<T>, data: T, a: nat, b: nat)
    ensures Iterate(step, data, a + b) ==
              match Iterate(step, data, a)
              case Ok(mid) => Iterate(step, mid, b)
              case Err(e) => Err(e)
  {
    if a > 0 {
      match step(data)
      case Err(e) =>
      case Ok(next) =>
        IterateAdd(step, next, a - 1, b);
    }
  }

  /** Step composition for `domino_algorithm`. */
  lemma Compose(data: string, mode: string, a: nat, b: nat)
    ensures DominoAlgorithm(data, mode, a + b) ==
              match DominoAlgorithm(data, mode, a)
              case Ok(mid) => DominoAlgorithm(mid, mode, b)
              case Err(e) => Err(e)
  {
    if mode in Iterators {
      IterateAdd(Iterators[mode], data, a, b);
    }
  }

  /** A one-domino line crashes on the first step: KeyError if its symbol is
      unknown, otherwise IndexError at index 1. */
  lemma SingleDomino(data: string, mode: string, numIter: int)
    requires |data| == 1 && mode in Iterators && numIter >= 1
    ensures DominoAlgorithm(data, mode, numIter) ==
              Err(if data[0] in BrickConversion then IndexError(1) else KeyError(data))
  {
    IteratorStep(mode, data);
    if data[0] !in BrickConversion {
      assert data == [data[0]];
      EncodeRejects(data, 0);
    }
  }

  /** A line with an unknown symbol fails on the first step with KeyError
      naming the first unknown symbol. */
  lemma UnknownSymbol(data: string, mode: string, numIter: int, k: int)
    requires FirstUnknown(data, k) && mode in Iterators && numIter >= 1
    ensures DominoAlgorithm(data, mode, numIter) == Err(KeyError([data[k]]))
  {
    EncodeRejects(data, k);
    IteratorStep(mode, data);
  }

  /** The empty line is valid and stays empty for any count. */
  lemma {:induction false} EmptyLine(mode: string, numIter: int)
    requires mode in Iterators
    ensures DominoAlgorithm("", mode, numIter) == Ok("")
    decreases numIter
  {
    if numIter > 0 {
      IteratorKeepsLine(mode, "");
      EmptyLine(mode, numIter - 1);
    }
  }

  /** However many forward steps run (the run of `domino_algorithm` in mode
      "forward"), every `\` and `/` of the input is still in place in the output. */
  lemma {:induction false} ForwardKeepsFallenRun(data: string, numIter: int)
    requires Iterate(ForwardIteration, data, numIter).Ok?
    ensures |Iterate(ForwardIteration, data, numIter).value| == |data|
    ensures forall i :: 0 <= i < |data| && data[i] != '|' ==>
              Iterate(ForwardIteration, data, numIter).value[i] == data[i]
    decreases numIter
  {
    if numIter > 0 {
      ForwardKeepsFallenRun(ForwardIteration(data).value, numIter - 1);
    }
  }

  /** However many backward steps run (the run of `domino_algorithm` in mode
      "backward"), every `|` of the input is still standing in the output. */
  lemma {:induction false} BackwardKeepsStandingRun(data: string, numIter: int)
    requires Iterate(BackwardIteration, data, numIter).Ok?
    ensures |Iterate(BackwardIteration, data, numIter).value| == |data|
    ensures forall i :: 0 <= i < |data| && data[i] == '|' ==>
              Iterate(BackwardIteration, data, numIter).value[i] == '|'
    decreases numIter
  {
    if numIter > 0 {
      BackwardKeepsStandingRun(BackwardIteration(data).value, numIter - 1);
    }
  }
}
