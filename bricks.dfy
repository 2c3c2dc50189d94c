/** The object-level code: `Brick` objects whose fields are updated in place,
    and the loops of `encode`, `update_neighbouring_positions`,
    `update_positions_forward`, `update_positions_backward`,
    `forward_iteration` and `backward_iteration` over a list of bricks. */
module Bricks {
  import opened Results
  import opened Rules
  import opened Symbols
  import opened Line
  import opened Domino

  /** One domino with cached copies of its neighbours' states. */
  class Brick {
    var state: Code
    var previous: Code
    var next: Code

    /** `Brick(state, previous=1, next=1)`: the neighbours default to standing. */
    constructor (state: Code, previous: Code := 1, next: Code := 1)
      ensures this.state == state && this.previous == previous && this.next == next
    {
      this.state := state;
      this.previous := previous;
      this.next := next;
    }

    /** `next_state`: apply the forward rule to the cached view. */
    method NextState()
      modifies this
      ensures state == ForwardRule(old(previous), old(state), old(next))
      ensures previous == old(previous) && next == old(next)
    {
      if previous == 2 && next in {1, 2} && state != 0 {
        state := 2;
      } else if previous in {0, 1} && next == 0 && state != 2 {
        state := 0;
      }
    }

    /** `previous_state`: apply the backward rule to the cached view. */
    method PreviousState()
      modifies this
      ensures state == BackwardRule(old(previous), old(state), old(next))
      ensures previous == old(previous) && next == old(next)
    {
      if (state == 0 && previous != 0 && next == 0) || (state == 2 && previous == 2 && next != 2) {
        state := 1;
      }
    }
  }

  /** The states of a list of bricks, in order. */
  function States(bricks: seq<Brick>): (r: seq<Code>)
    reads bricks
    ensures |r| == |bricks| && forall i :: 0 <= i < |bricks| ==> r[i] == bricks[i].state
  {
    seq(|bricks|, i reads bricks requires 0 <= i < |bricks| => bricks[i].state)
  }

  /** No brick appears twice in the list. */
  ghost predicate Distinct(bricks: seq<Brick>)
  {
    forall i, j :: 0 <= i < j < |bricks| ==> bricks[i] != bricks[j]
  }

  /** Every brick's cache holds its neighbours' current states, with the
      standing default at both ends. */
  ghost predicate Synchronised(bricks: seq<Brick>)
    reads bricks
  {
    && (forall i {:trigger bricks[i].previous} :: 0 <= i < |bricks| ==>
          bricks[i].previous == PreviousOf(States(bricks), i))
    && (forall i {:trigger bricks[i].next} :: 0 <= i < |bricks| ==>
          bricks[i].next == NextOf(States(bricks), i))
  }

  /** The first brick's `previous` and the last brick's `next` hold the
      constructor default, standing. */
  ghost predicate DefaultEnds(bricks: seq<Brick>)
    reads bricks
  {
    |bricks| > 0 ==> bricks[0].previous == Standing && bricks[|bricks| - 1].next == Standing
  }

  /** `encode`: one new brick per character, with default neighbours; the first
      character missing from the table raises KeyError. */
  method EncodeBricks(s: string) returns (r: Result<seq<Brick>>)
    ensures Encode(s).Err? ==> r == Err(Encode(s).error)
    ensures Encode(s).Ok? ==> r.Ok? && States(r.value) == Encode(s).value && Distinct(r.value)
    ensures r.Ok? ==> forall i :: 0 <= i < |r.value| ==>
              fresh(r.value[i]) && r.value[i].previous == Standing && r.value[i].next == Standing
  {
    var bricks: seq<Brick> := [];
    var k := 0;
    while k < |s|
      invariant 0 <= k <= |s| && |bricks| == k
      invariant ValidSymbols(s[..k])
      invariant forall i :: 0 <= i < k ==> bricks[i].state == BrickConversion[s[i]]
      invariant forall i :: 0 <= i < k ==>
                  fresh(bricks[i]) && bricks[i].previous == Standing && bricks[i].next == Standing
      invariant Distinct(bricks)
    {
      if s[k] !in BrickConversion {
        EncodeRejects(s, k);
        return Err(KeyError([s[k]]));
      }
      var brick := new Brick(BrickConversion[s[k]]);
      assert s[..k + 1] == s[..k] + [s[k]];
      bricks := bricks + [brick];
      k := k + 1;
    }
    assert s[..k] == s;
    assert States(bricks) == Encode(s).value;
    return Ok(bricks);
  }

  /** `update_neighbouring_positions`: copy each neighbour's state into the
      brick's cache. The first brick's `previous` and the last brick's `next`
      are not written. A one-brick list raises IndexError reading index 1
      before anything is written. */
  method UpdateNeighbouringPositions(bricks: seq<Brick>) returns (r: Result<seq<Brick>>)
    requires Distinct(bricks)
    modifies bricks
    ensures r == if |bricks| == 1 then Err(IndexError(1)) else Ok(bricks)
    ensures forall i :: 0 <= i < |bricks| ==> bricks[i].state == old(bricks[i].state)
    ensures forall i {:trigger bricks[i].previous} :: 0 < i < |bricks| ==>
              bricks[i].previous == old(bricks[i - 1].state)
    ensures forall i {:trigger bricks[i].next} :: 0 <= i < |bricks| - 1 ==>
              bricks[i].next == old(bricks[i + 1].state)
    ensures |bricks| > 0 ==> bricks[0].previous == old(bricks[0].previous)
    ensures |bricks| > 0 ==> bricks[|bricks| - 1].next == old(bricks[|bricks| - 1].next)
    ensures States(bricks) == old(States(bricks))
    ensures r.Ok? && old(DefaultEnds(bricks)) ==> Synchronised(bricks)
  {
    var index := 0;
    while index < |bricks|
      invariant 0 <= index <= |bricks|
      invariant |bricks| == 1 ==> index == 0
      invariant forall i :: 0 <= i < |bricks| ==> bricks[i].state == old(bricks[i].state)
      invariant forall i {:trigger bricks[i].previous} :: 0 < i < index ==>
                  bricks[i].previous == old(bricks[i - 1].state)
      invariant forall i {:trigger bricks[i].next} :: 0 <= i < index && i < |bricks| - 1 ==>
                  bricks[i].next == old(bricks[i + 1].state)
      invariant forall i :: index <= i < |bricks| ==>
                  bricks[i].previous == old(bricks[i].previous) && bricks[i].next == old(bricks[i].next)
      invariant |bricks| > 0 ==> bricks[0].previous == old(bricks[0].previous)
      invariant |bricks| > 0 ==> bricks[|bricks| - 1].next == old(bricks[|bricks| - 1].next)
    {
      var brick := bricks[index];
      if index == 0 {
        if index + 1 >= |bricks| {
          return Err(IndexError(index + 1));
        }
        brick.next := bricks[index + 1].state;
      } else if index == |bricks| - 1 {
        brick.previous := bricks[index - 1].state;
      } else {
        brick.previous := bricks[index - 1].state;
        brick.next := bricks[index + 1].state;
      }
      index := index + 1;
    }
    assert States(bricks) == old(States(bricks));
    return Ok(bricks);
  }

  /** `update_positions_forward`: every brick takes its forward state from its
      own cache; the caches are left as they are. */
  method UpdatePositionsForward(bricks: seq<Brick>) returns (r: seq<Brick>)
    requires Distinct(bricks)
    modifies bricks
    ensures r == bricks
    ensures forall i :: 0 <= i < |bricks| ==>
              bricks[i].state == ForwardRule(old(bricks[i].previous), old(bricks[i].state), old(bricks[i].next)) &&
              bricks[i].previous == old(bricks[i].previous) && bricks[i].next == old(bricks[i].next)
    ensures old(Synchronised(bricks)) ==> States(bricks) == Step(Forward, old(States(bricks)))
  {
    var k := 0;
    while k < |bricks|
      invariant 0 <= k <= |bricks|
      invariant forall i :: 0 <= i < k ==>
                  bricks[i].state == ForwardRule(old(bricks[i].previous), old(bricks[i].state), old(bricks[i].next))
      invariant forall i :: k <= i < |bricks| ==> bricks[i].state == old(bricks[i].state)
      invariant forall i :: 0 <= i < |bricks| ==>
                  bricks[i].previous == old(bricks[i].previous) && bricks[i].next == old(bricks[i].next)
    {
      bricks[k].NextState();
      k := k + 1;
    }
    assert old(Synchronised(bricks)) ==> States(bricks) == Step(Forward, old(States(bricks)));
    return bricks;
  }

  /** `update_positions_backward`: every brick takes its backward state from
      its own cache; the caches are left as they are. */
  method UpdatePositionsBackward(bricks: seq<Brick>) returns (r: seq<Brick>)
    requires Distinct(bricks)
    modifies bricks
    ensures r == bricks
    ensures forall i :: 0 <= i < |bricks| ==>
              bricks[i].state == BackwardRule(old(bricks[i].previous), old(bricks[i].state), old(bricks[i].next)) &&
              bricks[i].previous == old(bricks[i].previous) && bricks[i].next == old(bricks[i].next)
    ensures old(Synchronised(bricks)) ==> States(bricks) == Step(Backward, old(States(bricks)))
  {
    var k := 0;
    while k < |bricks|
      invariant 0 <= k <= |bricks|
      invariant forall i :: 0 <= i < k ==>
                  bricks[i].state == BackwardRule(old(bricks[i].previous), old(bricks[i].state), old(bricks[i].next))
      invariant forall i :: k <= i < |bricks| ==> bricks[i].state == old(bricks[i].state)
      invariant forall i :: 0 <= i < |bricks| ==>
                  bricks[i].previous == old(bricks[i].previous) && bricks[i].next == old(bricks[i].next)
    {
      bricks[k].PreviousState();
      k := k + 1;
    }
    assert old(Synchronised(bricks)) ==> States(bricks) == Step(Backward, old(States(bricks)));
    return bricks;
  }

  /** On a line over the three symbols whose length is not one, a step on
      text is the step on its codes. */
  lemma IterationOfValid(dir: Direction, s: string)
    requires Encode(s).Ok? && |s| != 1
    ensures Iteration(dir, s) == Ok(Decode(Step(dir, Encode(s).value)))
  {
  }

  /** `forward_iteration` and `backward_iteration` on brick objects: encode into
      new bricks, refresh every cache, update every brick, refresh again,
      decode. Because the caches are all filled before any brick changes, the
      result is the synchronous step `Iteration` of the pure model. */
  method IterationOnBricks(dir: Direction, s: string) returns (r: Result<string>)
    ensures r == Iteration(dir, s)
  {
    var encoded := EncodeBricks(s);
    if encoded.Err? {
      return Err(encoded.error);
    }
    var bricks := encoded.value;
    ghost var codes := States(bricks);
    var starting := UpdateNeighbouringPositions(bricks);
    if starting.Err? {
      return Err(starting.error);
    }
    var updated;
    match dir {
      case Forward =>
        updated := UpdatePositionsForward(bricks);
      case Backward =>
        updated := UpdatePositionsBackward(bricks);
    }
    var ending := UpdateNeighbouringPositions(updated);
    IterationOfValid(dir, s);
    return Ok(Decode(States(ending.value)));
  }
}
