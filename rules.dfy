/** The per-domino transition rules of `Brick.next_state` and
    `Brick.previous_state`, over the codes 0 = `\`, 1 = `|`, 2 = `/`. */
module Rules {

  /** A domino state as the source stores it: 0 falls left, 1 stands, 2 falls right. */
  type Code = c: int | 0 <= c <= 2

  const FallingLeft: Code := 0
  const Standing: Code := 1
  const FallingRight: Code := 2

  /** Forward (topple) rule: the new state of a domino from its cached left
      neighbour `previous`, its own `state` and its cached right neighbour `next`. */
  function ForwardRule(previous: Code, state: Code, next: Code): (r: Code)
    // a fallen domino stays fallen; only a standing one can change
    ensures state != Standing ==> r == state
    // a standing domino falls right exactly when pushed from the left and not from the right
    ensures r == FallingRight <==>
              state == FallingRight || (state == Standing && previous == FallingRight && next != FallingLeft)
    // a standing domino falls left exactly when pushed from the right and not from the left
    ensures r == FallingLeft <==>
              state == FallingLeft || (state == Standing && previous != FallingRight && next == FallingLeft)
  {
    if previous == 2 && next in {1, 2} && state != 0 then 2
    else if previous in {0, 1} && next == 0 && state != 2 then 0
    else state
  }

  /** Backward (un-topple) rule: the state this domino is inferred to have had
      one step earlier. */
  function BackwardRule(previous: Code, state: Code, next: Code): (r: Code)
    // a standing domino stays standing; a fallen one either stays or stands up
    ensures state == Standing ==> r == Standing
    ensures r != Standing ==> r == state
    // `\` stands up exactly when its left neighbour is not `\` and its right one is `\`
    ensures state == FallingLeft ==>
              (r == Standing <==> previous != FallingLeft && next == FallingLeft)
    // `/` stands up exactly when its left neighbour is `/` and its right one is not `/`
    ensures state == FallingRight ==>
              (r == Standing <==> previous == FallingRight && next != FallingRight)
  {
    if (state == 0 && previous != 0 && next == 0) || (state == 2 && previous == 2 && next != 2) then 1
    else state
  }

  /** Backward undoes a forward topple of a standing domino when the neighbours'
      snapshot is the same on both steps and the right neighbour stands; with a
      `/` on the right it does not (the rule is not an inverse). */
  lemma BackwardUndoesTopple(previous: Code, next: Code)
    requires ForwardRule(previous, Standing, next) == FallingRight
    ensures BackwardRule(previous, FallingRight, next) == Standing <==> next == Standing
  {
  }
}
