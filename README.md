# scramble-generator: the cube model and the scramble filter, in Dafny

This project models the core of `scramble-generator`, a tool that picks random
3x3 scrambles for blindfolded practice that meet criteria on the virtual
solve: the number of algorithms, parity, the flipped and twisted pieces
already in their home slots, and whether the solve can "float" its buffer.

The model has seven modules:

- `Basics`: an `Option` type for JavaScript's `undefined`, sums of integer
  sequences, and JavaScript's truncating `%` (`Rem`), proved congruent to
  Dafny's Euclidean `%`.
- `CubeState`: the cube as a value. It has four vectors: the corner
  permutation and twists (`cp`, `co`, 8 entries) and the edge permutation and
  flips (`ep`, `eo`, 12 entries). The six quarter turns are functions on that
  value. Each turn is a temporary-variable chain over four slots, followed by
  `cw`/`ccw` twists on F, B, R and L and by `flip`s on F and B. The module
  also reads every turn as a "table rotation": four slots rotate, and every
  moved entry gains a fixed amount modulo 3 or 2. The lemmas prove:
  - permutations stay permutations;
  - only the turned slots change;
  - the twist sum is kept modulo 3 and the flip sum modulo 2;
  - twists stay in 0..2 and flips in 0..1;
  - four quarter turns restore the whole state.
- `Moves`: moves in standard notation (quarter, double = the quarter turn
  twice, prime = the quarter turn three times). It also models JavaScript's
  `split(" ")` and the reading of a scramble string token by token, where any
  token other than the eighteen move tokens is skipped. Proved here:
  - a move followed by its inverse is the identity;
  - split-then-join gives the string back;
  - a scramble joined with a space is the two scrambles in turn;
  - a move sequence followed by its undo sequence restores the cube.
  - moves, token runs and scrambles keep the twist sum modulo 3 and the flip
    sum modulo 2, so every scramble of a new cube has a twist sum divisible
    by 3 and an even flip sum.
- `Solver`: the "virtual solve" of `solveArr` as a step function on the loop
  variables (buffer slot, orientations, permutation, swap counter,
  `canFloat`). The run ends at the identity permutation. A measure proves the
  loop terminates: twice the unsolved non-buffer slots, plus one while the
  buffer piece is home. Also proved:
  - the swap counter counts exactly the swaps;
  - `canFloat` is true exactly when the run floated;
  - a float is always followed by a swap;
  - the orientation sum modulo the base is kept, and orientations stay in
    range.
- `Calcs`: the buffer label maps, the flip and twist counts, `orientAlgs`,
  and the metrics `doCalcs` computes, as functions of the cube value.
- `CubeClass`: the `Cube` class itself. It holds the four arrays and the six
  metric fields. The move methods update the arrays in place, `scramble`
  loops over tokens, `solveArr` runs its `while` loop on two arrays, and
  `doCalcs` rewrites the cube's own arrays and the metric fields. Each method
  is proved equal to the functions above.
- `Generator`: the six optional criteria and the pass test. One candidate is
  evaluated on a new cube. The batch loop pushes passing candidates and
  counts examined ones. The outer loop runs over fetched batches.

Behaviour of the code worth noting:

- An unrecognised move token is skipped; it is not an error.
- An unknown buffer label makes both solve positions 0; it does not abort.
  The flip and twist counts still look the labels up on their own, so with an
  unknown label they skip no slot.
- `orientAlgs` returns 99 outside 0..11.
- The float test is `isEven(i) && oArr[i] === 0` as written. `i` is the swap
  counter, not a first-iteration flag, and it does not read the buffer's
  orientation. An index past the end reads `undefined`, which is not 0.
- `doCalcs` runs the solve on the cube's own arrays. It leaves every piece
  home, so it is not idempotent.

## Model

| member | source | states |
|---|---|---|
| `Basics.Rem` | src/Cube.ts:294 | JavaScript's `%` by a positive divisor: the result has the sign of the dividend and lies strictly between -d and d |
| `Basics.RemIsRemainder` | src/Cube.ts:169 | `Rem` is the remainder of truncating division and is congruent to the dividend modulo the divisor |
| `CubeState.Fresh` | src/Cube.ts:43-47 | the state a new cube starts in is well-formed, both permutations are the identity, and both orientation sums are 0 |
| `CubeState.FreshEntries` | src/Cube.ts:44-47 | the new cube's four vectors are exactly the literals of the constructor |
| `CubeState.Mod` | src/Cube.ts:290-292 | `((n % d) + d) % d` with JavaScript's `%` is in 0..d-1 and equals the Euclidean remainder of n, so it is congruent to n |
| `CubeState.Cw` | src/Cube.ts:284-286 | `cw(i)` raises the twist at i by one, from 2 back to 0, leaves a value in 0..2 there, and changes no other slot |
| `CubeState.Ccw` | src/Cube.ts:287-289 | `ccw(i)` lowers the twist at i by one, from 0 round to 2, leaves a value in 0..2 there, and changes no other slot |
| `CubeState.Flip` | src/Cube.ts:293-295 | `flip(i)` turns a flip of 0 into 1 and 1 into 0 at i and changes no other slot |
| `CubeState.CwSum` | src/Cube.ts:284-286 | a clockwise twist adds 1 to the corner orientation sum, less a multiple of 3 |
| `CubeState.CcwSum` | src/Cube.ts:287-289 | a counter-clockwise twist subtracts 1 from the corner orientation sum, less a multiple of 3 |
| `CubeState.FlipSum` | src/Cube.ts:293-295 | a flip adds 1 to the edge orientation sum, less a multiple of 2 |
| `CubeState.Cycle4` | src/Cube.ts:299-303 | the temporary-variable chain: each of the four slots receives the entry of the next slot, the last receives the first's, and all other slots keep theirs |
| `CubeState.Cycle4KeepsPerm` | src/Cube.ts:299-303 | the four-slot chain keeps a permutation a permutation |
| `CubeState.Cycle4Sum` | src/Cube.ts:305-309 | the four-slot chain keeps the sum of the entries |
| `CubeState.Cycle4FourTimes` | src/Cube.ts:299-303 | the four-slot chain applied four times restores the vector |
| `CubeState.CornerCycle` | src/Cube.ts:298-477 | each turn rotates four distinct corner slots |
| `CubeState.EdgeCycle` | src/Cube.ts:298-477 | each turn rotates four distinct edge slots |
| `CubeState.TurnCp` | src/Cube.ts:349-353 | the corner permutation chain of a turn changes only the turn's four corner slots and keeps a permutation of 0..7 a permutation |
| `CubeState.TurnCo` | src/Cube.ts:355-364 | the corner twist update of a turn (chain, then cw/ccw) changes only the turn's four corner slots |
| `CubeState.TurnEp` | src/Cube.ts:366-370 | the edge permutation chain of a turn changes only the turn's four edge slots and keeps a permutation of 0..11 a permutation |
| `CubeState.TurnEo` | src/Cube.ts:372-381 | the edge flip update of a turn (chain, then flips on F and B) changes only the turn's four edge slots |
| `CubeState.Turn` | src/Cube.ts:298-477 | a quarter turn keeps the vectors at lengths 8, 8, 12, 12 and both permutations permutations |
| `CubeState.CornerTwists` | src/Cube.ts:348-477 | the twists a turn adds to its four corners sum to a multiple of 3 |
| `CubeState.EdgeFlips` | src/Cube.ts:348-417 | the flips a turn adds to its four edges sum to a multiple of 2 |
| `CubeState.RotateAdd` | src/Cube.ts:348-382 | the table reading of a turn: rotated slots take the next slot's entry plus a fixed amount modulo the base, other slots are unchanged |
| `CubeState.RotateAddFourTimes` | src/Cube.ts:348-382 | four table rotations restore an in-range vector when the four amounts add up to a multiple of the base |
| `CubeState.FirstSlotsReturn` | src/Cube.ts:348-382 | after four table rotations the first two rotated slots hold their original entries |
| `CubeState.LastSlotsReturn` | src/Cube.ts:348-382 | after four table rotations the last two rotated slots hold their original entries |
| `CubeState.TurnCoIsTable` | src/Cube.ts:298-477 | the corner orientation update of every turn (chain, then cw/ccw) is its table rotation |
| `CubeState.PlainRotationIsTable` | src/Cube.ts:298-347 | a chain without twists or flips (U, D, and the R and L edges) is the table rotation with zero amounts |
| `CubeState.CwFirstTwistsAreTable` | src/Cube.ts:348-447 | a corner chain followed by cw on its first and third slots and ccw on the other two (F, B, R) is the table rotation with amounts 1, -1, 1, -1 |
| `CubeState.CcwFirstTwistsAreTable` | src/Cube.ts:448-477 | a corner chain followed by ccw on its first and third slots and cw on the other two (L) is the table rotation with amounts -1, 1, -1, 1 |
| `CubeState.FlipsAreTable` | src/Cube.ts:348-417 | an edge chain followed by a flip of all four slots (F, B) is the table rotation with amount 1 on every slot |
| `CubeState.TwistsAreTable` | src/Cube.ts:361-364 | two `cw` and two `ccw` add 1 to two in-range slots and subtract 1 modulo 3 from the other two, leaving all other slots alone |
| `CubeState.TurnEoIsTable` | src/Cube.ts:298-477 | the edge orientation update of every turn (chain, then flips on F and B) is its table rotation |
| `CubeState.TurnKeepsPermutations` | src/Cube.ts:298-477 | every quarter turn keeps `cp` a permutation of 0..7 and `ep` a permutation of 0..11 |
| `CubeState.TurnTouchesOnlyItsSlots` | src/Cube.ts:298-477 | on any state with vectors of the right lengths, a quarter turn changes only its four corner slots and four edge slots; every other entry of all four vectors is unchanged |
| `CubeState.TurnKeepsOrientationSums` | src/Cube.ts:348-477 | every quarter turn keeps the corner twist sum modulo 3 and the edge flip sum modulo 2 |
| `CubeState.TwistsKeepSum` | src/Cube.ts:361-364 | two cw and two ccw twists keep the twist sum modulo 3 |
| `CubeState.FlipsKeepParity` | src/Cube.ts:378-381 | four flips keep the flip sum modulo 2 |
| `CubeState.RotateAddInRange` | src/Cube.ts:284-295 | a table rotation keeps every entry in 0..base-1 |
| `CubeState.TurnKeepsRanges` | src/Cube.ts:284-295 | after any quarter turn, twists stay in 0..2 and flips in 0..1 |
| `CubeState.TurnKeepsWellFormed` | src/Cube.ts:298-477 | a quarter turn keeps a well-formed state well-formed |
| `CubeState.TurnFourTimes` | src/Cube.ts:298-477 | four quarter turns of one face restore the whole state |
| `CubeState.TurnCoFourTimes` | src/Cube.ts:348-477 | four quarter turns of one face restore the corner orientations |
| `CubeState.TurnEoFourTimes` | src/Cube.ts:348-417 | four quarter turns of one face restore the edge orientations |
| `Moves.ApplyMove` | src/Cube.ts:480-533 | every move, quarter, double (two quarter turns) or prime (three), keeps the four vectors at lengths 8, 8, 12, 12 |
| `Moves.ApplyMoveKeepsWellFormed` | src/Cube.ts:480-533 | every move keeps a well-formed state well-formed |
| `Moves.MoveKeepsSums` | src/Cube.ts:480-533 | every move, doubles and primes included, keeps the twist sum modulo 3 and the flip sum modulo 2 |
| `Moves.InverseUndoesMove` | src/Cube.ts:480-533 | X followed by X' (and X' by X, X2 by X2) leaves a well-formed cube as it was |
| `Moves.Inverse` | src/Cube.ts:480-533 | the inverse of a move turns the same face |
| `Moves.FaceOf` | src/Cube.ts:222-276 | a recognised face letter is the letter of that face, and the letters other than U, D, F, B, R, L name no face |
| `Moves.MoveToken` | src/Cube.ts:222-276 | the notation of a move is one or two characters and starts with its face letter |
| `Moves.ParseMove` | src/Cube.ts:222-279 | a token the `switch` recognises is the notation of the move it names |
| `Moves.ParseMoveRecognisesExactlyMoveTokens` | src/Cube.ts:222-279 | a token is recognised as a move exactly when it is that move's notation, so the eighteen cases match exactly the eighteen tokens |
| `Moves.ApplyToken` | src/Cube.ts:277-278 | a token that is not a move token leaves the state unchanged |
| `Moves.Split` | src/Cube.ts:221 | `split(" ")` gives at least one piece and no piece contains a space |
| `Moves.JoinSplit` | src/Cube.ts:221 | joining the pieces of `split` with the separator gives the string back |
| `Moves.SplitAppend` | src/Cube.ts:221 | splitting a string joined at a separator gives the pieces of both sides |
| `Moves.ApplyTokens` | src/Cube.ts:221-280 | applying tokens keeps the vectors at their lengths, and a run none of whose tokens is a move leaves the cube as it was |
| `Moves.ApplyTokensAppend` | src/Cube.ts:221-280 | tokens apply left to right: two runs of tokens apply as the first run, then the second |
| `Moves.ApplyTokensKeepsWellFormed` | src/Cube.ts:221-280 | any run of tokens keeps a well-formed state well-formed |
| `Moves.TokensKeepSums` | src/Cube.ts:221-280 | any run of tokens keeps the twist sum modulo 3 and the flip sum modulo 2 |
| `Moves.Scrambled` | src/Cube.ts:220-281 | scrambling keeps the four vectors at lengths 8, 8, 12, 12 |
| `Moves.ScrambleAppend` | src/Cube.ts:220-281 | a scramble string joined from two with a space scrambles as the two in turn |
| `Moves.ScrambleKeepsWellFormed` | src/Cube.ts:220-281 | a scramble keeps a well-formed state well-formed |
| `Moves.ScrambleKeepsSums` | src/Cube.ts:220-281 | a scramble keeps the twist sum modulo 3 and the flip sum modulo 2 |
| `Moves.ScrambledFromZeroSums` | src/Cube.ts:220-281 | a scramble of a state with zero twist and flip sums has a twist sum divisible by 3 and an even flip sum |
| `Moves.ScrambledFromFresh` | src/Cube.ts:43-281 | every scramble of a new cube has a twist sum divisible by 3 and an even flip sum |
| `Moves.Undo` | src/Cube.ts:480-533 | the undo sequence holds the inverse moves in reverse order |
| `Moves.ApplyMoveToken` | src/Cube.ts:222-276 | the notation of a move, alone, applies that move |
| `Moves.ScrambleThenUndoRestores` | src/Cube.ts:220-281 | scrambling with a move sequence and then with its undo sequence restores a well-formed cube |
| `Solver.SolvedFrom` | src/Cube.ts:183-190 | the scan from slot i is true exactly when every slot from i on holds its own piece |
| `Solver.Solved` | src/Cube.ts:183-190 | `solved` is true exactly when the permutation is the identity |
| `Solver.FirstUnsolvedFrom` | src/Cube.ts:175-182 | the scan from slot i returns the lowest unsolved slot at or after i, or -1 when there is none |
| `Solver.FirstUnsolved` | src/Cube.ts:175-182 | `firstUnsolved` is -1 exactly on the identity; otherwise it is the lowest slot not holding its own piece |
| `Solver.IsOdd` | src/Cube.ts:130-132 | `(x & 1) === 1` holds exactly when x is not twice its half |
| `Solver.IsEven` | src/Cube.ts:133-135 | `isEven` holds exactly when x is twice its half, which is exactly when x is not odd |
| `Solver.FloatsNow` | src/Cube.ts:148-154 | the float test never holds with the swap counter past the end of the orientations, and a float moves the buffer to a slot other than the buffer |
| `Solver.Target` | src/Cube.ts:146-161 | the slot shot to is in range, is never the buffer, and never holds its own piece |
| `Solver.SwapKeepsPerm` | src/Cube.ts:163-165 | swapping two entries keeps a permutation a permutation |
| `Solver.Step` | src/Cube.ts:145-170 | one iteration keeps the loop state valid; a float changes neither array nor the counter and sets `canFloat`; a swap keeps the buffer and adds one to the counter |
| `Solver.StepDecreases` | src/Cube.ts:145-171 | every iteration lowers the termination measure, so the loop ends |
| `Solver.FloatDecreases` | src/Cube.ts:150-154 | a float hands the buffer to an unsolved slot and lowers the measure |
| `Solver.BreakDecreases` | src/Cube.ts:155-158 | a cycle break moves an unsolved piece into the home buffer and lowers the measure |
| `Solver.ShotDecreases` | src/Cube.ts:159-170 | a shot to the buffer piece's home solves that slot and lowers the measure |
| `Solver.Run` | src/Cube.ts:145-171 | the loop ends with the permutation equal to the identity and with arrays of unchanged length |
| `Solver.RunCountsTrace` | src/Cube.ts:142-173 | the returned counter is the number of swaps in the run, and `canFloat` is true exactly when the run floated at least once |
| `Solver.FloatIsFollowedBySwap` | src/Cube.ts:148-158 | a float is never the last iteration and is always followed by a swap |
| `Solver.StepKeepsOrientationSum` | src/Cube.ts:167-169 | each iteration keeps the orientation sum modulo the base |
| `Solver.StepKeepsRange` | src/Cube.ts:167-169 | each iteration keeps every orientation in 0..base-1 |
| `Solver.RunKeepsOrientation` | src/Cube.ts:145-171 | the whole loop keeps the orientation sum modulo the base, and in-range orientations stay in range |
| `Solver.Solve` | src/Cube.ts:136-174 | `solveArr` ends at the identity, keeps the orientation sum modulo the base and every orientation in range, returns (0, false) and changes nothing on an already solved array, and reports a float exactly when one happened |
| `Calcs.EdgeSlot` | src/Cube.ts:1-14 | `edgeBufferMap.get`: a name maps to the slot of that name in the edge order, and exactly the twelve edge names map |
| `Calcs.CornerSlot` | src/Cube.ts:15-24 | `cornerBufferMap.get`: a name maps to the slot of that name in the corner order, and exactly the eight corner names map |
| `Calcs.BufferSlots` | src/Cube.ts:195-203 | the solve positions are the two named slots when both labels are known, and (0, 0) when either is unknown |
| `Calcs.MisorientedAtHome` | src/Cube.ts:58-69 | the count after n slots is at most n, less one when the skipped buffer slot is among them |
| `Calcs.MisorientedAtHomeCountsSlots` | src/Cube.ts:58-81 | the loop of `calcFlips`/`calcTwists` counts exactly the non-buffer slots holding their own piece with nonzero orientation |
| `Calcs.OrientedCountsNothing` | src/Cube.ts:58-81 | on a cube with every orientation 0 the count is 0 |
| `Calcs.Flips` | src/Cube.ts:58-69 | `calcFlips` is at most 11 with a known buffer and at most 12 with an unknown one |
| `Calcs.Twists` | src/Cube.ts:70-81 | `calcTwists` is at most 7 with a known buffer and at most 8 with an unknown one |
| `Calcs.OrientAlgs` | src/Cube.ts:82-108 | `orientAlgs(n)` is 2*(n div 4) plus min(n mod 4, 2) for n in 0..11, and 99 otherwise |
| `Calcs.OrientAlgsMonotone` | src/Cube.ts:82-108 | within 0..11, more pieces never need fewer algorithms, and never more than 6 |
| `Calcs.EdgeSolve` | src/Cube.ts:113-118 | the edge solve (base 2) ends at the identity with flips in 0..1 |
| `Calcs.CornerSolve` | src/Cube.ts:119-124 | the corner solve (base 3) ends at the identity with twists in 0..2 |
| `Calcs.CalcsOf` | src/Cube.ts:191-217 | the metrics are bounded, and on a cube whose pieces are all home the algorithm count is the two `orientAlgs` terms, with no parity and no floats |
| `Calcs.StateAfterCalcs` | src/Cube.ts:113-124 | after `doCalcs` every piece is home, and the orientation sums keep their values modulo 3 and 2 |
| `Calcs.FreshCubeMetrics` | src/Cube.ts:191-217 | a new cube reports 0 algorithms, 0 flips, 0 twists, no parity and no floats, whatever the buffers |
| `CubeClass.Cube.constructor` | src/Cube.ts:43-55 | a new cube is solved and oriented, its metric fields start at 0 and true, and its four arrays are new |
| `CubeClass.Cube.Cw` | src/Cube.ts:284-286 | `cw(i)` rewrites `co` as the twist function does |
| `CubeClass.Cube.Ccw` | src/Cube.ts:287-289 | `ccw(i)` rewrites `co` as the twist function does |
| `CubeClass.Cube.Flip` | src/Cube.ts:293-295 | `flip(i)` rewrites `eo` as the flip function does |
| `CubeClass.Cube.Rotate` | src/Cube.ts:299-303 | the in-place temporary-variable chain leaves the array as the four-slot rotation of its old contents |
| `CubeClass.Cube.U` | src/Cube.ts:298-322 | `u` leaves the cube as the U quarter turn of its old state |
| `CubeClass.Cube.D` | src/Cube.ts:323-347 | `d` leaves the cube as the D quarter turn of its old state |
| `CubeClass.Cube.F` | src/Cube.ts:348-382 | `f` leaves the cube as the F quarter turn of its old state |
| `CubeClass.Cube.B` | src/Cube.ts:383-417 | `b` leaves the cube as the B quarter turn of its old state |
| `CubeClass.Cube.R` | src/Cube.ts:418-447 | `r` leaves the cube as the R quarter turn of its old state |
| `CubeClass.Cube.L` | src/Cube.ts:448-477 | `l` leaves the cube as the L quarter turn of its old state |
| `CubeClass.Cube.Quarter` | src/Cube.ts:222-276 | the quarter-turn method of a face leaves the cube as that face's quarter turn |
| `CubeClass.Cube.Double` | src/Cube.ts:480-483 | `u2` and the other doubles leave the cube as the double move, two quarter turns |
| `CubeClass.Cube.Prime` | src/Cube.ts:484-488 | `up` and the other primes leave the cube as the prime move, three quarter turns |
| `CubeClass.Cube.Scramble` | src/Cube.ts:220-281 | `scramble` leaves the cube as the scramble of its old state: every token in order, non-move tokens skipped |
| `CubeClass.Cube.CalcFlips` | src/Cube.ts:58-69 | the loop returns the flip count of the cube and changes nothing |
| `CubeClass.Cube.CalcTwists` | src/Cube.ts:70-81 | the loop returns the twist count of the cube and changes nothing |
| `CubeClass.Cube.SolveArr` | src/Cube.ts:136-174 | the `while` loop leaves both arrays as the solve does and returns its swap count and float flag |
| `CubeClass.Cube.Shoot` | src/Cube.ts:162-170 | the swap rewrites both arrays as one non-float iteration of the solve does |
| `CubeClass.Cube.DoSolve` | src/Cube.ts:109-129 | the edge solve runs first, then the corner solve. It returns half the sum of the targets (rounded down), edge parity and both float flags, and leaves the cube's arrays as the two solves do |
| `CubeClass.Cube.DoCalcs` | src/Cube.ts:191-217 | the metric fields become the metrics of the cube as it was, and the cube's pieces are left as the solves leave them |
| `Generator.Passes` | src/generator.ts:35-41 | the cube passes exactly when the criteria set no more than the six metrics exactly, each set criterion to its metric's value |
| `Generator.NoCriteriaPassEverything` | src/generator.ts:35-41 | with all six criteria undefined every cube passes |
| `Generator.ExactlyPassesOnlyItself` | src/generator.ts:35-41 | with all six criteria set, exactly the cubes with those six metrics pass |
| `Generator.LooserCriteriaPassMore` | src/generator.ts:35-41 | leaving a criterion undefined never turns a pass into a fail |
| `Generator.CandidateMetrics` | src/generator.ts:31-33 | the metrics of a candidate, read off a new cube scrambled with it, are bounded |
| `Generator.Accepts` | src/generator.ts:31-41 | a candidate is kept exactly when the criteria set no more than the metrics of a new cube scrambled with it |
| `Generator.EmptyScrambleMetrics` | src/generator.ts:31-33 | the empty candidate leaves a new cube solved: 0 algorithms, no flips or twists, no parity, no floats |
| `Generator.Evaluate` | src/generator.ts:31-41 | one candidate passes exactly when every defined criterion equals the matching metric of a new cube that was scrambled with it and had `doCalcs` run; since the cube is new for each candidate, the verdict depends on the candidate alone |
| `Generator.KeptBy` | src/generator.ts:42-43 | never more candidates are kept than examined |
| `Generator.KeptByKeepsExactlyTrue` | src/generator.ts:42-43 | a candidate is kept exactly when some occurrence of it had a passing verdict |
| `Generator.KeptByAppend` | src/generator.ts:29-48 | keeping over two runs is keeping over each in turn, so kept candidates stay in the order examined |
| `Generator.KeptAreExactlyAccepted` | src/generator.ts:29-43 | `genned` receives exactly the examined candidates that pass |
| `Generator.NoCriteriaKeepAll` | src/generator.ts:35-43 | with no criteria every examined candidate is kept, in order |
| `Generator.Examine` | src/generator.ts:31-41 | the verdict on one candidate is that candidate's pass test |
| `Generator.FilterBatch` | src/generator.ts:29-48 | the inner loop examines a prefix of the batch and adds one to `count` per examined candidate. It pushes the passing ones in order and never lets `genned` exceed `numCust`. Fewer than `numCust` were kept before each examined candidate, so it breaks as soon as `genned` reaches `numCust`, and it stops early only then |
| `Generator.StoppedInTimeAppend` | src/generator.ts:27-48 | two runs each examined while fewer than `numCust` were kept are, together, examined while fewer than `numCust` were kept |
| `Generator.RunExamined` | src/generator.ts:27-48 | the verdicts, the kept candidates and the in-time stop of the candidates examined so far and of one more batch combine into those of both together |
| `Generator.FlattenStep` | src/generator.ts:27-29 | a fetched batch follows the batches fetched before it in the sequence of all candidates, and adds its length to theirs |
| `Generator.FetchStep` | src/generator.ts:27-53 | filtering one more fetched batch keeps what the outer loop knows: a prefix of the candidates examined in time, the passing ones kept in order, earlier batches examined in full unless `numCust` are kept, and the quota, once met, met inside the last fetched batch |
| `Generator.GenScrambles` | src/generator.ts:24-54 | `count` is `numRand` plus the candidates examined, which are a prefix of all candidates. `genned` is the passing ones among them, in order, never more than `numCust`, and no candidate is examined once `numCust` are kept. Every fetched batch is examined in full unless `numCust` are kept; no fetched batch but the last timed out; fetching stops early only when `numCust` are kept or right after a timed-out batch; no batch is fetched once `numCust` are kept, since when they are, the quota was met inside the last fetched batch; nothing is fetched when `numCust` is not positive |

## Left out

- `src/App.tsx` (the user interface) is not part of this model.
- `fetchScrambles` and the random-state scrambler it calls are not modelled.
  The candidate batches are an input sequence of strings, one per fetch.
- `Generator.GenScrambles` has these gaps:
  - It does not model the clock or the one-minute timeout. The timeout test
    after each batch is an input sequence of booleans, and the model also
    stops when the given batches run out.
  - It does not return the random scrambles or the elapsed time.
  - It does not require batches of `numCust * 2`.
  - It does not model the async/Promise wrapping.
- The `console.error` diagnostics are left out. Only what follows them is
  modelled: the token is skipped, both buffers fall back to 0, and
  `orientAlgs` returns 99.
- JavaScript numbers are modelled as unbounded integers. All values involved
  are small counts and indices, so no rounding or overflow arises.
- `Solver.IsOdd` models `(x & 1) === 1` as `x % 2 == 1`. The two agree on
  32-bit integers, and the bitwise operation on doubles is not modelled.
- `CubeClass.Cube.Double` and `CubeClass.Cube.Prime` stand for the twelve
  methods `u2` … `lp`, one per face, since those differ only in the face they
  turn.
