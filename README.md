# Domino bricks in Dafny

A model of `domino.py`, a one-dimensional domino-toppling automaton. A line
of dominoes is a string over three symbols: `\` has fallen left, `|` stands
and `/` has fallen right. The program stores them as the codes 0, 1 and 2.
Each `Brick` holds its own state and cached copies of its neighbours' states
(`previous`, `next`). One step refreshes every cache from the current line,
then applies a per-brick rule to every brick. The forward rule topples
dominoes. The backward rule infers an earlier line. `domino_algorithm` picks
the step from a mode string (`"forward"` or `"backward"`) and repeats it N
times.

Modules:

- `Results` (results.dfy): `Result`, and the two Python exceptions
  the code can raise, `KeyError(key)` and `IndexError(index)`.
- `Rules` (rules.dfy): the codes and the two per-brick rules as functions.
- `Symbols` (symbols.dfy): the table `brick_conversion`, `encode`
  (text to codes) and `decode` (codes to text), and the round trips.
- `Line` (line.dfy): one synchronous step over a whole line, `Step`, with the
  boundary defaults. Also the lemmas about fallen and standing dominoes.
- `Domino` (domino.dfy): `forward_iteration`, `backward_iteration`, the
  `iterators` table, `looper` (a method with a loop, proved against the
  recursive `Iterate`) and `domino_algorithm`. Also the lemmas about whole runs.
- `Bricks` (bricks.dfy): the object level. It has the `Brick` class with
  `next_state` and `previous_state` as methods that assign `state`. It also
  has the loops over a list of bricks that update fields in place. The
  pipeline `IterationOnBricks` is proved equal to the pure step: every brick's
  new state depends only on the old states of cells i-1, i and i+1.
- `Vectors` (vectors.dfy): the unit-test scenarios of `domino_tests.py`,
  stated as lemmas about the model.

Behaviour of the code that a reader might not expect:

- The rules follow the numeric conditions of domino.py:13-22 exactly.
- As the code names them, `encode` turns text into bricks and `decode` turns
  bricks into text.
- A negative step count is not an error. `range` is then empty, so the input
  comes back unchanged. The same holds for any input, even one with unknown
  symbols, when the count is 0 or less.
- An unknown mode and an unknown symbol both raise `KeyError`. An unknown mode
  fails before any step, even with a count of 0.
- A line of exactly one domino raises `IndexError` on its first step, since
  the neighbour refresh reads index 1 (domino.py:51-52). The empty line is
  valid.

## Model

The test vectors in the last rows are written as strings of codes: 0 for
`\`, 1 for the standing domino and 2 for `/`.

| member | source | states |
|---|---|---|
| `Rules.ForwardRule` | domino.py:12-17 | A fallen domino never changes. A standing domino falls right exactly when its left neighbour is `/` and its right one is not `\`. It falls left exactly when its right neighbour is `\` and its left one is not `/`. |
| `Rules.BackwardRule` | domino.py:19-22 | A standing domino stays standing. A changed domino becomes standing. `\` stands up exactly when its left neighbour is not `\` and its right one is `\`. `/` stands up exactly when its left neighbour is `/` and its right one is not `/`. |
| `Rules.BackwardUndoesTopple` | domino.py:12-22 | For a standing domino that forward topples to `/`, backward (with the same neighbours) stands it up again exactly when its right neighbour stands. So backward is only a partial inverse. |
| `Symbols.InvBrickConversion` | domino.py:33 | The inverse table maps every code to a symbol that the table maps back to that code. |
| `Symbols.Encode` | domino.py:28-29 | Succeeds exactly when every character is in the table. It then gives one code per character, in order, with the table's code. Otherwise it is KeyError naming the first unknown character. |
| `Symbols.Decode` | domino.py:32-34 | One symbol per code, in order. Every symbol is in the table and maps back to its code. |
| `Symbols.InverseOfTable` | domino.py:2 | The table is a bijection: looking a symbol's code up in the inverse table gives the symbol back. |
| `Symbols.DecodeEncode` | domino.py:28-34 | Every string over the three symbols, the empty string included, decodes back to itself after encoding. |
| `Symbols.EncodeDecode` | domino.py:28-34 | Every code sequence encodes back to itself after decoding. |
| `Symbols.EncodeRejects` | domino.py:29 | A string whose first unknown character is at position k fails with KeyError for exactly that character. |
| `Line.Step` | domino.py:61-74 | One synchronous step keeps the length of the line. |
| `Line.ForwardKeepsFallen` | domino.py:13-17 | A forward step leaves every `\` and `/` in place. |
| `Line.BackwardKeepsStanding` | domino.py:20-22 | A backward step keeps every standing domino standing. Any cell it changes becomes standing. |
| `Line.FewerStanding` | domino.py:13-17 | A line that agrees with another wherever the other has a fallen domino has no more standing dominoes. |
| `Line.MoreStanding` | domino.py:20-22 | A line that keeps every standing domino of another has at least as many standing dominoes. |
| `Line.ForwardStandingNeverIncreases` | domino.py:12-17 | The number of standing dominoes never grows in a forward step. |
| `Line.BackwardStandingNeverDecreases` | domino.py:19-22 | The number of standing dominoes never shrinks in a backward step. |
| `Line.ForwardBoundaries` | domino.py:7 | Going forward, the first domino is never pushed to `/` and the last never to `\`. The missing neighbour counts as standing. |
| `Line.BackwardBoundaries` | domino.py:7 | Going backward, a `/` at the left end and a `\` at the right end never stand up. |
| `Domino.Iteration` | domino.py:61-74 | A step succeeds exactly on a line over the three symbols whose length is not one. An unknown symbol gives KeyError for the first one. One valid symbol gives IndexError(1). A result keeps the length, and its codes are the synchronous step of the input's codes. |
| `Domino.ForwardIteration` | domino.py:61-66 | A forward step on text keeps the length and leaves every `\` and `/` where it was. |
| `Domino.BackwardIteration` | domino.py:69-74 | A backward step on text keeps the length. Every character it changes becomes the standing symbol. |
| `Domino.Iterate` | domino.py:77-80 | What `looper` computes: a count of 0 or less returns the input, and a count of one is a single call of the step. |
| `Domino.Looper` | domino.py:77-80 | The counting loop gives the same result as applying the step `numIter` times, stopping at the first error. A count of 0 or less returns the input. |
| `Domino.IterateAdd` | domino.py:77-80 | `a` steps followed by `b` steps equal `a + b` steps. An error in the first `a` steps is the result of the whole run. |
| `Domino.IterateSucceeds` | domino.py:77-80 | Repeating either mode's step succeeds exactly when the count is at most 0 or the line is over the three symbols with length other than one. A success keeps the length. |
| `Domino.DominoAlgorithm` | domino.py:83-87 | An unknown mode is KeyError with that mode, for every count. With a known mode and a count of 0 or less, the input comes back unchanged, even when it holds unknown symbols. A run succeeds exactly when the mode is known and either the count is at most 0 or the line is over the three symbols with length other than one. A success keeps the length. |
| `Domino.Compose` | domino.py:77-87 | `domino_algorithm` with `a + b` steps equals `b` steps run on the result of `a` steps. |
| `Domino.IteratorKeepsLine` | domino.py:84 | Both entries of the mode table succeed on a valid line whose length is not one, and give a valid line of the same length. |
| `Domino.SingleDomino` | domino.py:49-52 | A one-domino line fails on its first step. The error is IndexError(1) for a known symbol and KeyError for an unknown one. |
| `Domino.UnknownSymbol` | domino.py:29 | With a known mode and at least one step, a line holding an unknown symbol fails with KeyError naming the first one. |
| `Domino.EmptyLine` | domino.py:49-50 | The empty line stays empty for every count and either mode. |
| `Domino.ForwardKeepsFallenRun` | domino.py:13-17 | After any number of forward steps (a run in mode forward), every `\` and `/` of the input is still in place. |
| `Domino.BackwardKeepsStandingRun` | domino.py:20-22 | After any number of backward steps (a run in mode backward), every standing domino of the input still stands. |
| `Bricks.Brick.constructor` | domino.py:7-10 | A new brick holds the given state. Its neighbours default to standing. |
| `Bricks.Brick.NextState` | domino.py:12-17 | The brick's state becomes the forward rule applied to its cached neighbours and old state. The caches are not changed. |
| `Bricks.Brick.PreviousState` | domino.py:19-22 | The brick's state becomes the backward rule applied to its cached neighbours and old state. The caches are not changed. |
| `Bricks.EncodeBricks` | domino.py:28-29 | Gives new, distinct bricks whose states are the codes of the text. Every brick's `previous` and `next` hold the default, standing. An unknown symbol gives the same KeyError as `Encode`. |
| `Bricks.UpdateNeighbouringPositions` | domino.py:49-58 | Each brick's `previous` becomes the old state of brick i-1 and its `next` the old state of brick i+1. The first `previous`, the last `next` and all states stay as they were. A one-brick list gives IndexError(1) and changes nothing. With default ends, the caches then match the line. |
| `Bricks.UpdatePositionsForward` | domino.py:37-40 | Every brick applies the forward rule to its own cache. With matching caches, the new states are the synchronous forward step of the old ones. |
| `Bricks.UpdatePositionsBackward` | domino.py:43-46 | Every brick applies the backward rule to its own cache. With matching caches, the new states are the synchronous backward step of the old ones. |
| `Bricks.IterationOnBricks` | domino.py:61-74 | Running encode, refresh, update, refresh and decode on brick objects gives exactly the pure step `Iteration`, errors included. |
| `Vectors.RuleScenarios` | domino_tests.py:13-61 | The per-brick cases of the unit tests for both rules. |
| `Vectors.EncodeScenarios` | domino_tests.py:66-89 | All five encode cases of the unit tests, the example line of twelve dominoes included. |
| `Vectors.DecodeScenarios` | domino_tests.py:91-113 | All six decode cases of the unit tests. |
| `Vectors.ForwardOneStep` | domino_tests.py:118-120 | `122111` goes to `122211` in one forward step. |
| `Vectors.ForwardTwoSteps` | domino_tests.py:122-124 | `122111` goes to `122221` in two forward steps. |
| `Vectors.ForwardTwoCollisions` | domino_tests.py:126-128 | `12211111011` goes to `12222100011` in two forward steps. |
| `Vectors.ForwardGivenExample` | domino_tests.py:130-132 | `112211011201` goes to `112220011201` in one forward step. |
| `Vectors.BackwardOneStep` | domino_tests.py:134-136 | `122211` goes to `122111` in one backward step. |
| `Vectors.BackwardTwoSteps` | domino_tests.py:138-140 | `122221` goes to `122111` in two backward steps. |
| `Vectors.BackwardTwoCollisions` | domino_tests.py:142-144 | `12222100011` goes to `12211111011` in two backward steps. |
| `Vectors.BackwardGivenExample` | domino_tests.py:146-148 | `112222000122221` goes to `112211110122111` in two backward steps. |
| `Vectors.BackwardIsNotInverse` | domino.py:19-22 | `22` is a fixed point of the forward step, yet one backward step turns it into `21`. |
| `Vectors.ErrorScenarios` | domino.py:83-85 | A one-domino line fails with IndexError(1), and a line holding `x` with KeyError for `x`. An unknown mode fails even with 0 steps. A count of -1 returns the input. The empty line stays empty. |

## Left out

- `Brick.__repr__` (domino.py:24-25) and the `__main__` block that prints one
  run (domino.py:90-92): display and I/O only.
- Python exceptions are modelled as the error value of `Result`; their
  messages and tracebacks are not modelled.
- Brick fields hold only the codes 0, 1 and 2. Python would accept any value
  in `Brick(...)`, but `encode` only ever creates these three.
- `Domino.Looper` takes the step as a total function value returning a
  `Result`. Python's `looper` accepts any callable, and an exception ends its
  loop. `DominoAlgorithm` uses the recursive `Iterate` that `Looper` is proved
  against, because a function cannot call a method.
- A count that is not an integer (a Python `TypeError` in `range`) is not
  modelled; the count is an `int`.
- The unittest harness of `domino_tests.py` is not modelled as code. Every
  one of its assertions appears in `Vectors`: the rule, encode, decode and
  algorithm cases as lemmas, and the brick cases also in the
  `BrickScenarios` method.
