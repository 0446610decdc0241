/** The `Cube` class: four arrays updated in place by the moves, and the
    metric fields `doCalcs` fills in. Every method is proved against the
    functions of `CubeState`, `Moves`, `Solver` and `Calcs`. */
module CubeClass {
  import opened Basics
  import opened CubeState
  import opened Moves
  import opened Solver
  import opened Calcs

  class Cube {
    const cp: array<int>
    const co: array<int>
    const ep: array<int>
    const eo: array<int>

    var numAlgs: int
    var numFlips: int
    var numTwists: int
    var hasParity: bool
    var canFloatE: bool
    var canFloatC: bool

    /** Corner arrays have 8 entries, edge arrays 12, and the two arrays of
        each kind are different arrays. */
    ghost predicate Valid()
    {
      && cp.Length == Corners && co.Length == Corners
      && ep.Length == Edges && eo.Length == Edges
      && cp != co && ep != eo
    }

    /** The cube as a value. */
    ghost function Model(): (s: State)
      reads cp, co, ep, eo
      ensures Valid() ==> Shaped(s)
    {
      State(cp[..], co[..], ep[..], eo[..])
    }

    /** The metric fields as a value. */
    function Report(): Metrics
      reads this
    {
      Metrics(numAlgs, numFlips, numTwists, hasParity, canFloatE, canFloatC)
    }

    /** A solved cube; the metric fields start at 0 and `true`. */
    constructor ()
      ensures Valid() && Model() == Fresh()
      ensures Report() == Metrics(0, 0, 0, true, true, true)
      ensures fresh(cp) && fresh(co) && fresh(ep) && fresh(eo)
    {
      cp := new int[8] [0, 1, 2, 3, 4, 5, 6, 7];
      co := new int[8] [0, 0, 0, 0, 0, 0, 0, 0];
      ep := new int[12] [0, 1, 2, 3, 4, 5, 6, 7, 8, 9, 10, 11];
      eo := new int[12] [0, 0, 0, 0, 0, 0, 0, 0, 0, 0, 0, 0];
      numAlgs := 0;
      numFlips := 0;
      numTwists := 0;
      hasParity := true;
      canFloatE := true;
      canFloatC := true;
      new;
      assert cp[..] == [0, 1, 2, 3, 4, 5, 6, 7];
      assert co[..] == [0, 0, 0, 0, 0, 0, 0, 0];
      assert ep[..] == [0, 1, 2, 3, 4, 5, 6, 7, 8, 9, 10, 11];
      assert eo[..] == [0, 0, 0, 0, 0, 0, 0, 0, 0, 0, 0, 0];
      FreshEntries();
    }

    // -------------------------------------------------------------------
    // Twists, flips and the four-slot chain.

    /** `cw(i)`. */
    method Cw(i: int)
      requires Valid() && 0 <= i < Corners
      modifies co
      ensures co[..] == CubeState.Cw(old(co[..]), i)
    {
      co[i] := Mod(co[i] + 1, 3);
    }

    /** `ccw(i)`. */
    method Ccw(i: int)
      requires Valid() && 0 <= i < Corners
      modifies co
      ensures co[..] == CubeState.Ccw(old(co[..]), i)
    {
      co[i] := Mod(co[i] - 1, 3);
    }

    /** `flip(i)`. */
    method Flip(i: int)
      requires Valid() && 0 <= i < Edges
      modifies eo
      ensures eo[..] == CubeState.Flip(old(eo[..]), i)
    {
      eo[i] := Rem(eo[i] + 1, 2);
    }

    /** The temporary-variable chain every move writes four times. */
    static method Rotate(a: array<int>, w: int, x: int, y: int, z: int)
      requires Slots4(a.Length, w, x, y, z)
      modifies a
      ensures a[..] == Cycle4(old(a[..]), w, x, y, z)
    {
      var temp := a[w];
      a[w] := a[x];
      a[x] := a[y];
      a[y] := a[z];
      a[z] := temp;
    }

    // -------------------------------------------------------------------
    // The quarter turns.

    method U()
      requires Valid()
      modifies cp, co, ep, eo
      ensures Model() == Turn(Face.U, old(Model()))
    {
      Rotate(cp, 0, 3, 2, 1);
      Rotate(co, 0, 3, 2, 1);
      Rotate(ep, 0, 3, 2, 1);
      Rotate(eo, 0, 3, 2, 1);
    }

    method D()
      requires Valid()
      modifies cp, co, ep, eo
      ensures Model() == Turn(Face.D, old(Model()))
    {
      Rotate(cp, 4, 7, 6, 5);
      Rotate(co, 4, 7, 6, 5);
      Rotate(ep, 8, 9, 10, 11);
      Rotate(eo, 8, 9, 10, 11);
    }

    method F()
      requires Valid()
      modifies cp, co, ep, eo
      ensures Model() == Turn(Face.F, old(Model()))
    {
      Rotate(cp, 2, 3, 4, 5);
      Rotate(co, 2, 3, 4, 5);
      Cw(2);
      Cw(4);
      Ccw(3);
      Ccw(5);
      Rotate(ep, 0, 4, 8, 7);
      Rotate(eo, 0, 4, 8, 7);
      Flip(0);
      Flip(4);
      Flip(7);
      Flip(8);
    }

    method B()
      requires Valid()
      modifies cp, co, ep, eo
      ensures Model() == Turn(Face.B, old(Model()))
    {
      Rotate(cp, 0, 1, 6, 7);
      Rotate(co, 0, 1, 6, 7);
      Cw(0);
      Cw(6);
      Ccw(1);
      Ccw(7);
      Rotate(ep, 2, 6, 10, 5);
      Rotate(eo, 2, 6, 10, 5);
      Flip(2);
      Flip(6);
      Flip(5);
      Flip(10);
    }

    method R()
      requires Valid()
      modifies cp, co, ep, eo
      ensures Model() == Turn(Face.R, old(Model()))
    {
      Rotate(cp, 1, 2, 5, 6);
      Rotate(co, 1, 2, 5, 6);
      Cw(1);
      Cw(5);
      Ccw(2);
      Ccw(6);
      Rotate(ep, 3, 7, 11, 6);
      Rotate(eo, 3, 7, 11, 6);
    }

    method L()
      requires Valid()
      modifies cp, co, ep, eo
      ensures Model() == Turn(Face.L, old(Model()))
    {
      Rotate(cp, 0, 7, 4, 3);
      Rotate(co, 0, 7, 4, 3);
      Cw(3);
      Cw(7);
      Ccw(0);
      Ccw(4);
      Rotate(ep, 1, 5, 9, 4);
      Rotate(eo, 1, 5, 9, 4);
    }

    /** The quarter turn of a face: `u`, `d`, `f`, `b`, `r` or `l`. */
    method Quarter(f: Face)
      requires Valid()
      modifies cp, co, ep, eo
      ensures Model() == Turn(f, old(Model()))
    {
      match f {
        case U => U();
        case D => D();
        case F => F();
        case B => B();
        case R => R();
        case L => L();
      }
    }

    /** `u2`, `d2`, `f2`, `b2`, `r2`, `l2`: the quarter turn twice. */
    method Double(f: Face)
      requires Valid()
      modifies cp, co, ep, eo
      ensures Model() == ApplyMove(Move(f, Amount.Double), old(Model()))
    {
      Quarter(f);
      Quarter(f);
    }

    /** `up`, `dp`, `fp`, `bp`, `rp`, `lp`: the quarter turn three times. */
    method Prime(f: Face)
      requires Valid()
      modifies cp, co, ep, eo
      ensures Model() == ApplyMove(Move(f, Amount.Prime), old(Model()))
    {
      Quarter(f);
      Quarter(f);
      Quarter(f);
    }

    /** `scramble(seq)`: every space-separated token in order, move tokens
        calling their method and any other token skipped. */
    method Scramble(str: string)
      requires Valid()
      modifies cp, co, ep, eo
      ensures Model() == Scrambled(old(Model()), str)
    {
      var moves := Split(str, ' ');
      for j := 0 to |moves|
        invariant Model() == ApplyTokens(moves[..j], old(Model()))
      {
        var move := moves[j];
        match ParseMove(move) {
          case None =>
          case Some(m) =>
            match m.amount {
              case Quarter => Quarter(m.face);
              case Double => Double(m.face);
              case Prime => Prime(m.face);
            }
        }
        assert moves[..j + 1][..j] == moves[..j];
      }
      assert moves[..|moves|] == moves;
    }

    // -------------------------------------------------------------------
    // Metrics.

    /** `calcFlips(buffer)`: reads the cube and changes nothing. */
    method CalcFlips(buffer: string) returns (flips: int)
      requires Valid()
      ensures flips == Flips(Model(), buffer)
    {
      flips := 0;
      var skip := EdgeSlot(buffer);
      for i := 0 to eo.Length
        invariant flips == MisorientedAtHome(eo[..], ep[..], skip, i)
      {
        if Some(i) == skip {
          continue;
        }
        if eo[i] != 0 && ep[i] == i {
          flips := flips + 1;
        }
      }
    }

    /** `calcTwists(buffer)`: reads the cube and changes nothing. */
    method CalcTwists(buffer: string) returns (twists: int)
      requires Valid()
      ensures twists == Twists(Model(), buffer)
    {
      twists := 0;
      var skip := CornerSlot(buffer);
      for i := 0 to co.Length
        invariant twists == MisorientedAtHome(co[..], cp[..], skip, i)
      {
        if Some(i) == skip {
          continue;
        }
        if co[i] != 0 && cp[i] == i {
          twists := twists + 1;
        }
      }
    }

    /** `solveArr(bufferPos, oArr, pArr, base)` on two arrays it rewrites:
        it returns the targets and the float flag of `Solve` and leaves the
        arrays as `Solve` does. */
    static method SolveArr(bufferPos: int, oArr: array<int>, pArr: array<int>, base: int)
      returns (targets: int, canFloat: bool)
      requires oArr != pArr && oArr.Length == pArr.Length
      requires IsPerm(pArr[..], pArr.Length) && 0 <= bufferPos < pArr.Length && base > 0
      modifies oArr, pArr
      ensures var r := Solve(bufferPos, old(oArr[..]), old(pArr[..]), base);
        oArr[..] == r.o && pArr[..] == r.p && targets == r.swaps && canFloat == r.canFloat
    {
      var buffer := bufferPos;
      var i := 0;
      canFloat := false;
      ghost var start := Progress(bufferPos, oArr[..], pArr[..], 0, false);
      while !Solved(pArr[..])
        invariant Running(Progress(buffer, oArr[..], pArr[..], i, canFloat))
        invariant Run(Progress(buffer, oArr[..], pArr[..], i, canFloat), base) == Run(start, base)
        decreases Measure(Progress(buffer, oArr[..], pArr[..], i, canFloat))
      {
        ghost var st := Progress(buffer, oArr[..], pArr[..], i, canFloat);
        var targetIdx: int;
        if pArr[buffer] == buffer {
          var unsolvedIdx := FirstUnsolved(pArr[..]);
          if IsEven(i) && i < oArr.Length && oArr[i] == 0 {
            // float
            assert st.o[i] == oArr[i];
            assert FloatsNow(st);
            StepFloats(st, base);
            StepDecreases(st, base);
            RunStep(st, base);
            canFloat := true;
            buffer := unsolvedIdx;
            continue;
          } else {
            // break into a new cycle
            targetIdx := unsolvedIdx;
          }
        } else {
          targetIdx := pArr[buffer];
        }
        assert !FloatsNow(st) && targetIdx == Target(st);
        StepDecreases(st, base);
        RunStep(st, base);
        Shoot(buffer, targetIdx, oArr, pArr, base, st);
        i := i + 1;
      }
      targets := i;
    }

    /** The swap of one iteration of `solveArr`: the pieces of the target
        and the buffer trade places, the target's orientation is cleared
        and the buffer's becomes the sum of both. */
    static method Shoot(buffer: int, targetIdx: int, oArr: array<int>, pArr: array<int>, base: int,
                        ghost st: Progress)
      requires oArr != pArr && base > 0
      requires Running(st) && !IsIdentity(st.p) && !FloatsNow(st)
      requires buffer == st.buffer && targetIdx == Target(st)
      requires oArr[..] == st.o && pArr[..] == st.p
      modifies oArr, pArr
      ensures pArr[..] == st.p[targetIdx := st.p[buffer]][buffer := st.p[targetIdx]]
      ensures oArr[..] == st.o[targetIdx := 0][buffer := Rem(st.o[targetIdx] + st.o[buffer], base)]
      ensures Progress(buffer, oArr[..], pArr[..], st.swaps + 1, st.canFloat) == Step(st, base)
    {
      var temp := pArr[targetIdx];
      pArr[targetIdx] := pArr[buffer];
      pArr[buffer] := temp;
      temp := oArr[targetIdx];
      oArr[targetIdx] := 0;
      oArr[buffer] := Rem(temp + oArr[buffer], base);
      StepShoots(st, base);
    }

    /** `doSolve(edgePos, cornerPos)`: both solves on the cube's own arrays,
        edges first. */
    method DoSolve(edgePos: int, cornerPos: int)
      returns (solveAlgs: int, parity: bool, floatE: bool, floatC: bool)
      requires Valid() && WellFormed(Model())
      requires 0 <= edgePos < Edges && 0 <= cornerPos < Corners
      modifies cp, co, ep, eo
      ensures var e, c := EdgeSolve(old(Model()), edgePos), CornerSolve(old(Model()), cornerPos);
        && solveAlgs == (e.swaps + c.swaps) / 2 && parity == IsOdd(e.swaps)
        && floatE == e.canFloat && floatC == c.canFloat
        && Model() == State(c.p, c.o, e.p, e.o)
    {
      var edgeTargets, cornerTargets: int;
      edgeTargets, floatE := SolveArr(edgePos, eo, ep, 2);
      cornerTargets, floatC := SolveArr(cornerPos, co, cp, 3);
      solveAlgs := (edgeTargets + cornerTargets) / 2;
      parity := IsOdd(edgeTargets);
    }

    /** `doCalcs(edgeBuffer, cornerBuffer)`: the metric fields become
        `Calcs` of the cube as it was, and the pieces are left solved. */
    method DoCalcs(edgeBuffer: string, cornerBuffer: string)
      requires Valid() && WellFormed(Model())
      modifies this, cp, co, ep, eo
      ensures Valid()
      ensures Report() == CalcsOf(old(Model()), edgeBuffer, cornerBuffer)
      ensures Model() == StateAfterCalcs(old(Model()), edgeBuffer, cornerBuffer)
    {
      ghost var s := Model();
      numFlips := CalcFlips(edgeBuffer);
      numTwists := CalcTwists(cornerBuffer);
      var edgePos, cornerPos: int;
      match (EdgeSlot(edgeBuffer), CornerSlot(cornerBuffer)) {
        case (Some(e), Some(c)) =>
          edgePos, cornerPos := e, c;
        case _ =>
          edgePos, cornerPos := 0, 0;
      }
      assert (edgePos, cornerPos) == BufferSlots(edgeBuffer, cornerBuffer);
      assert Model() == s && numFlips == Flips(s, edgeBuffer) && numTwists == Twists(s, cornerBuffer);
      CalcsFromSolves(s, edgeBuffer, cornerBuffer);
      numAlgs, hasParity, canFloatE, canFloatC := DoSolve(edgePos, cornerPos);
      numAlgs := numAlgs + OrientAlgs(numFlips) + OrientAlgs(numTwists);
    }
  }
}
