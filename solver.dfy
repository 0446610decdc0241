/** The "virtual solve" of `solveArr`: pieces are swapped into the buffer
    slot and shot to their homes, one swap per target, until the permutation
    is the identity. When the buffer piece is already home the solve either
    floats the buffer to the first unsolved slot (without counting a target)
    or breaks into a new cycle by shooting to that slot. */
module Solver {
  import opened Basics
  import opened CubeState

  // ---------------------------------------------------------------------
  // `solved` and `firstUnsolved`: scans from slot 0 upwards.

  /** The scan of `solved` from slot `i` on. */
  function SolvedFrom(p: seq<int>, i: nat): (r: bool)
    ensures r <==> forall k :: i <= k < |p| ==> p[k] == k
    decreases |p| - i
  {
    i >= |p| || (p[i] == i && SolvedFrom(p, i + 1))
  }

  /** `solved(arr)`: every slot holds its own piece. */
  function Solved(p: seq<int>): (r: bool)
    ensures r <==> IsIdentity(p)
  {
    SolvedFrom(p, 0)
  }

  /** The scan of `firstUnsolved` from slot `i` on. */
  function FirstUnsolvedFrom(p: seq<int>, i: nat): (r: int)
    ensures r == -1 ==> forall k :: i <= k < |p| ==> p[k] == k
    ensures r != -1 ==> i <= r < |p| && p[r] != r && forall k :: i <= k < r ==> p[k] == k
    decreases |p| - i
  {
    if i >= |p| then -1
    else if p[i] != i then i
    else FirstUnsolvedFrom(p, i + 1)
  }

  /** `firstUnsolved(arr)`: the lowest slot not holding its own piece, or
      -1 when there is none. */
  function FirstUnsolved(p: seq<int>): (r: int)
    ensures r == -1 <==> IsIdentity(p)
    ensures r != -1 ==> 0 <= r < |p| && p[r] != r && forall k :: 0 <= k < r ==> p[k] == k
  {
    FirstUnsolvedFrom(p, 0)
  }

  // ---------------------------------------------------------------------
  // Parity of the swap counter.

  /** `isOdd(x)`, written `(x & 1) === 1`: the lowest bit of `x` in two's
      complement, which is the Euclidean remainder by 2. */
  function IsOdd(x: int): (r: bool)
    ensures r <==> x != 2 * (x / 2)
  {
    x % 2 == 1
  }

  /** `isEven(x)`, written `x === 0 || !isOdd(x)`: the test for zero adds
      nothing, since zero is not odd. */
  function IsEven(x: int): (r: bool)
    ensures r <==> x == 2 * (x / 2)
    ensures r <==> !IsOdd(x)
  {
    x == 0 || !IsOdd(x)
  }

  // ---------------------------------------------------------------------
  // One step of the loop.

  /** The variables of the `solveArr` loop: `bufferPos`, `oArr`, `pArr`,
      the swap counter `i` and `canFloat`. */
  datatype Progress = Progress(buffer: int, o: seq<int>, p: seq<int>, swaps: nat, canFloat: bool)

  /** What holds at the top of every iteration: the piece arrays have equal
      length, the permutation is a permutation and the buffer is a slot. */
  predicate Running(st: Progress)
  {
    |st.o| == |st.p| && IsPerm(st.p, |st.p|) && 0 <= st.buffer < |st.p|
  }

  /** The float test: the buffer piece is home, the swap counter is even and
      `oArr[i]` is 0. An index past the end reads `undefined` in JavaScript,
      which is not 0, so a counter past the end never floats. A float hands
      the buffer role to a slot other than the buffer. */
  predicate FloatsNow(st: Progress)
    requires Running(st)
    ensures FloatsNow(st) ==> st.swaps < |st.o|
    ensures FloatsNow(st) && !IsIdentity(st.p) ==> FirstUnsolved(st.p) != st.buffer
  {
    st.p[st.buffer] == st.buffer && IsEven(st.swaps) && st.swaps < |st.o| && st.o[st.swaps] == 0
  }

  /** The slot shot to by a swap: the home of the buffer piece, or the
      first unsolved slot when the buffer piece is already home. It is
      never the buffer itself and never a solved slot. */
  function Target(st: Progress): (t: int)
    requires Running(st) && !IsIdentity(st.p)
    ensures 0 <= t < |st.p| && t != st.buffer && st.p[t] != t
  {
    var b := st.buffer;
    if st.p[b] == b then FirstUnsolved(st.p)
    else
      assert st.p[b] != st.p[st.p[b]] by {
        if b < st.p[b] {} else {}
      }
      st.p[b]
  }

  /** Swapping two entries keeps a permutation a permutation. */
  lemma SwapKeepsPerm(p: seq<int>, n: int, i: int, j: int)
    requires IsPerm(p, n) && 0 <= i < n && 0 <= j < n && i != j
    ensures IsPerm(p[i := p[j]][j := p[i]], n)
  {
    var r := p[i := p[j]][j := p[i]];
    var from := (k: int) => if k == i then j else if k == j then i else k;
    forall k | 0 <= k < n
      ensures r[k] == p[from(k)] && 0 <= from(k) < n
    {
    }
    forall x, y | 0 <= x < y < n
      ensures r[x] != r[y]
    {
      if from(x) < from(y) {
        assert p[from(x)] != p[from(y)];
      } else {
        assert p[from(y)] != p[from(x)];
      }
    }
  }

  /** One iteration of the loop. A float moves the buffer to the first
      unsolved slot and records it; otherwise the pieces of the target and
      the buffer swap, the target's twist or flip is cleared, the buffer's
      becomes the sum of both (JavaScript `%`), and the counter goes up. */
  function Step(st: Progress, base: int): (r: Progress)
    requires Running(st) && !IsIdentity(st.p) && base > 0
    ensures Running(r) && |r.p| == |st.p|
    ensures FloatsNow(st) ==> r.p == st.p && r.o == st.o && r.swaps == st.swaps && r.canFloat
    ensures !FloatsNow(st) ==> r.buffer == st.buffer && r.swaps == st.swaps + 1 && r.canFloat == st.canFloat
  {
    if FloatsNow(st) then st.(buffer := FirstUnsolved(st.p), canFloat := true)
    else
      var b, t := st.buffer, Target(st);
      SwapKeepsPerm(st.p, |st.p|, t, b);
      Progress(b, st.o[t := 0][b := Rem(st.o[t] + st.o[b], base)],
               st.p[t := st.p[b]][b := st.p[t]], st.swaps + 1, st.canFloat)
  }

  // ---------------------------------------------------------------------
  // Termination.

  /** The unsolved slots other than the buffer. */
  ghost function Misplaced(st: Progress): set<int>
  {
    set k | 0 <= k < |st.p| && k != st.buffer && st.p[k] != k
  }

  /** Twice the unsolved slots other than the buffer, plus one while the
      buffer piece is home. */
  ghost function Measure(st: Progress): nat
    requires Running(st)
  {
    2 * |Misplaced(st)| + if st.p[st.buffer] == st.buffer then 1 else 0
  }

  /** Every iteration lowers the measure: a shot to the buffer piece's home
      solves that slot, a cycle break clears the home buffer, and a float
      hands the buffer role to an unsolved slot. */
  lemma StepDecreases(st: Progress, base: int)
    requires Running(st) && !IsIdentity(st.p) && base > 0
    ensures Measure(Step(st, base)) < Measure(st)
  {
    if FloatsNow(st) {
      FloatDecreases(st, base);
    } else if st.p[st.buffer] == st.buffer {
      BreakDecreases(st, base);
    } else {
      ShotDecreases(st, base);
    }
  }

  lemma FloatDecreases(st: Progress, base: int)
    requires Running(st) && !IsIdentity(st.p) && base > 0 && FloatsNow(st)
    ensures Measure(Step(st, base)) < Measure(st)
  {
    var r := Step(st, base);
    var u := FirstUnsolved(st.p);
    assert r == st.(buffer := u, canFloat := true);
    assert Misplaced(st) == Misplaced(r) + {u};
  }

  lemma BreakDecreases(st: Progress, base: int)
    requires Running(st) && !IsIdentity(st.p) && base > 0 && !FloatsNow(st)
    requires st.p[st.buffer] == st.buffer
    ensures Measure(Step(st, base)) < Measure(st)
  {
    var b, t := st.buffer, Target(st);
    var p := st.p[t := st.p[b]][b := st.p[t]];
    assert Step(st, base).p == p && Step(st, base).buffer == b;
    assert Misplaced(Step(st, base)) == Misplaced(st);
    if t < b {
      assert st.p[t] != st.p[b];
    } else {
      assert st.p[b] != st.p[t];
    }
  }

  lemma ShotDecreases(st: Progress, base: int)
    requires Running(st) && !IsIdentity(st.p) && base > 0 && !FloatsNow(st)
    requires st.p[st.buffer] != st.buffer
    ensures Measure(Step(st, base)) < Measure(st)
  {
    var b, t := st.buffer, Target(st);
    var p := st.p[t := st.p[b]][b := st.p[t]];
    assert Step(st, base).p == p && Step(st, base).buffer == b;
    assert Misplaced(st) == Misplaced(Step(st, base)) + {t};
  }

  // ---------------------------------------------------------------------
  // The whole loop.

  /** The loop run to the end: until the permutation is the identity. */
  function Run(st: Progress, base: int): (r: Progress)
    requires Running(st) && base > 0
    ensures Running(r) && |r.p| == |st.p| && |r.o| == |st.o|
    ensures IsIdentity(r.p)
    decreases Measure(st)
  {
    if Solved(st.p) then st
    else
      StepDecreases(st, base);
      Run(Step(st, base), base)
  }

  /** The run from a state that is not yet solved is the run from the
      state after one more step. */
  lemma RunStep(st: Progress, base: int)
    requires Running(st) && !IsIdentity(st.p) && base > 0
    ensures Run(st, base) == Run(Step(st, base), base)
  {
  }

  /** An iteration that floats moves the buffer to the first unsolved slot
      and changes nothing else. */
  lemma StepFloats(st: Progress, base: int)
    requires Running(st) && !IsIdentity(st.p) && base > 0 && FloatsNow(st)
    ensures Step(st, base) == st.(buffer := FirstUnsolved(st.p), canFloat := true)
  {
  }

  /** An iteration that does not float is a swap with the target. */
  lemma StepShoots(st: Progress, base: int)
    requires Running(st) && !IsIdentity(st.p) && base > 0 && !FloatsNow(st)
    ensures var b, t := st.buffer, Target(st);
      Step(st, base) == Progress(b, st.o[t := 0][b := Rem(st.o[t] + st.o[b], base)],
                                 st.p[t := st.p[b]][b := st.p[t]], st.swaps + 1, st.canFloat)
  {
  }

  /** What an iteration does, for the record. */
  datatype Action = Float(to: int) | Swap(target: int)

  /** The iterations of the loop in order. */
  function Trace(st: Progress, base: int): (tr: seq<Action>)
    requires Running(st) && base > 0
    decreases Measure(st)
  {
    if Solved(st.p) then []
    else
      var a := if FloatsNow(st) then Float(FirstUnsolved(st.p)) else Swap(Target(st));
      StepDecreases(st, base);
      [a] + Trace(Step(st, base), base)
  }

  function SwapCount(tr: seq<Action>): nat
  {
    if tr == [] then 0 else (if tr[0].Swap? then 1 else 0) + SwapCount(tr[1..])
  }

  function FloatCount(tr: seq<Action>): nat
  {
    if tr == [] then 0 else (if tr[0].Float? then 1 else 0) + FloatCount(tr[1..])
  }

  /** The counter counts the swaps of the run and nothing else, and
      `canFloat` ends true exactly when it started true or the run floated. */
  lemma {:induction false} RunCountsTrace(st: Progress, base: int)
    requires Running(st) && base > 0
    ensures Run(st, base).swaps == st.swaps + SwapCount(Trace(st, base))
    ensures Run(st, base).canFloat <==> st.canFloat || FloatCount(Trace(st, base)) > 0
    decreases Measure(st)
  {
    if !Solved(st.p) {
      StepDecreases(st, base);
      RunCountsTrace(Step(st, base), base);
    }
  }

  /** Every float in `tr` is followed by a swap. */
  predicate FloatsThenSwaps(tr: seq<Action>)
  {
    forall i :: 0 <= i < |tr| && tr[i].Float? ==> i + 1 < |tr| && tr[i + 1].Swap?
  }

  /** A float is never the last iteration and never followed by another
      float: the slot it moves the buffer to is unsolved, so the next
      iteration shoots. */
  lemma {:induction false} FloatIsFollowedBySwap(st: Progress, base: int)
    requires Running(st) && base > 0
    ensures FloatsThenSwaps(Trace(st, base))
    decreases Measure(st)
  {
    if !Solved(st.p) {
      var next := Step(st, base);
      StepDecreases(st, base);
      FloatIsFollowedBySwap(next, base);
      var tr, rest := Trace(st, base), Trace(next, base);
      assert tr == [tr[0]] + rest;
      if tr[0].Float? {
        assert !FloatsNow(next);
        assert rest[0].Swap?;
      }
      forall i | 0 < i < |tr| && tr[i].Float?
        ensures i + 1 < |tr| && tr[i + 1].Swap?
      {
        assert tr[i] == rest[i - 1];
        assert rest[i - 1].Float?;
        assert tr[i + 1] == rest[i];
      }
    }
  }

  /** A step changes the orientation sum by a multiple of the base. */
  lemma StepKeepsOrientationSum(st: Progress, base: int)
    requires Running(st) && !IsIdentity(st.p) && base > 0
    ensures Sum(Step(st, base).o) % base == Sum(st.o) % base
  {
    if !FloatsNow(st) {
      var b, t := st.buffer, Target(st);
      var o1 := st.o[t := 0];
      var total := st.o[t] + st.o[b];
      SumUpdate(st.o, t, 0);
      SumUpdate(o1, b, Rem(total, base));
      RemIsRemainder(total, base);
      SameRemainder(Sum(Step(st, base).o), Sum(st.o), TruncDiv(total, base), base);
    }
  }

  /** A step keeps every orientation in 0..base-1. */
  lemma StepKeepsRange(st: Progress, base: int)
    requires Running(st) && !IsIdentity(st.p) && base > 0 && InRange(st.o, base)
    ensures InRange(Step(st, base).o, base)
  {
  }

  lemma {:induction false} RunKeepsOrientation(st: Progress, base: int)
    requires Running(st) && base > 0
    ensures Sum(Run(st, base).o) % base == Sum(st.o) % base
    ensures InRange(st.o, base) ==> InRange(Run(st, base).o, base)
    decreases Measure(st)
  {
    if !Solved(st.p) {
      StepDecreases(st, base);
      StepKeepsOrientationSum(st, base);
      if InRange(st.o, base) {
        StepKeepsRange(st, base);
      }
      RunKeepsOrientation(Step(st, base), base);
    }
  }

  /** `solveArr(bufferPos, oArr, pArr, base)`: the loop from a zero counter
      and no float. It ends at the identity, keeps the orientation sum
      modulo the base and every orientation in range, and on an already
      solved permutation does nothing and reports (0, false). */
  function Solve(buffer: int, o: seq<int>, p: seq<int>, base: int): (r: Progress)
    requires |o| == |p| && IsPerm(p, |p|) && 0 <= buffer < |p| && base > 0
    ensures |r.p| == |p| && |r.o| == |o| && IsIdentity(r.p)
    ensures Sum(r.o) % base == Sum(o) % base
    ensures InRange(o, base) ==> InRange(r.o, base)
    ensures IsIdentity(p) ==> r.swaps == 0 && !r.canFloat && r.o == o
    ensures r.canFloat <==> FloatCount(Trace(Progress(buffer, o, p, 0, false), base)) > 0
  {
    var st := Progress(buffer, o, p, 0, false);
    RunKeepsOrientation(st, base);
    RunCountsTrace(st, base);
    Run(st, base)
  }
}
