/** The metrics `doCalcs` reports for a cube: misoriented pieces that are
    already home, the targets and floats of the virtual solve, parity, and
    the algorithm count. */
module Calcs {
  import opened Basics
  import opened CubeState
  import opened Solver

  // ---------------------------------------------------------------------
  // Buffer labels.

  /** `edgeBufferMap`: the name of each edge slot. */
  const EdgeBufferMap: map<string, int> := map[
    "UF" := 0, "UL" := 1, "UB" := 2, "UR" := 3, "FL" := 4, "BL" := 5,
    "BR" := 6, "FR" := 7, "DF" := 8, "DL" := 9, "DB" := 10, "DR" := 11]

  /** `cornerBufferMap`: the name of each corner slot. */
  const CornerBufferMap: map<string, int> := map[
    "UBL" := 0, "UBR" := 1, "UFR" := 2, "UFL" := 3,
    "DFL" := 4, "DFR" := 5, "DBR" := 6, "DBL" := 7]

  /** The edge order of the class: UF UL UB UR FL BL BR FR DF DL DB DR. */
  const EdgeNames: seq<string> := ["UF", "UL", "UB", "UR", "FL", "BL", "BR", "FR", "DF", "DL", "DB", "DR"]

  /** The corner order of the class: UBL UBR UFR UFL DFL DFR DBR DBL. */
  const CornerNames: seq<string> := ["UBL", "UBR", "UFR", "UFL", "DFL", "DFR", "DBR", "DBL"]

  /** `edgeBufferMap.get(name)`, with `undefined` as `None`. A name maps
      to the slot of that name in the edge order, and only slot names map. */
  function EdgeSlot(name: string): (r: Option<int>)
    ensures r.Some? ==> 0 <= r.value < Edges && EdgeNames[r.value] == name
    ensures r.None? <==> name !in EdgeNames
  {
    if name in EdgeBufferMap then Some(EdgeBufferMap[name]) else None
  }

  /** `cornerBufferMap.get(name)`, with `undefined` as `None`. */
  function CornerSlot(name: string): (r: Option<int>)
    ensures r.Some? ==> 0 <= r.value < Corners && CornerNames[r.value] == name
    ensures r.None? <==> name !in CornerNames
  {
    if name in CornerBufferMap then Some(CornerBufferMap[name]) else None
  }

  /** The buffer slots the solve starts from: both mapped slots, or slot 0
      for both when either name is unknown. */
  function BufferSlots(edgeLabel: string, cornerLabel: string): (r: (int, int))
    ensures 0 <= r.0 < Edges && 0 <= r.1 < Corners
    ensures EdgeSlot(edgeLabel).Some? && CornerSlot(cornerLabel).Some? ==>
      EdgeNames[r.0] == edgeLabel && CornerNames[r.1] == cornerLabel
    ensures EdgeSlot(edgeLabel).None? || CornerSlot(cornerLabel).None? ==> r == (0, 0)
  {
    match (EdgeSlot(edgeLabel), CornerSlot(cornerLabel))
    case (Some(e), Some(c)) => (e, c)
    case _ => (0, 0)
  }

  // ---------------------------------------------------------------------
  // Flips and twists.

  /** How many of the first `n` slots, other than `skip`, hold their own
      piece with a nonzero orientation: the loop of `calcFlips` and
      `calcTwists` after `n` iterations. */
  function MisorientedAtHome(o: seq<int>, p: seq<int>, skip: Option<int>, n: nat): (r: nat)
    requires n <= |o| && n <= |p|
    ensures r <= n - (if skip.Some? && 0 <= skip.value < n then 1 else 0)
  {
    if n == 0 then 0
    else
      MisorientedAtHome(o, p, skip, n - 1) +
        if Some(n - 1) != skip && o[n - 1] != 0 && p[n - 1] == n - 1 then 1 else 0
  }

  /** The slots `MisorientedAtHome` counts. */
  ghost function MisorientedSlots(o: seq<int>, p: seq<int>, skip: Option<int>, n: nat): set<int>
    requires n <= |o| && n <= |p|
  {
    set k | 0 <= k < n && Some(k) != skip && o[k] != 0 && p[k] == k
  }

  /** The count is the number of such slots. */
  lemma {:induction false} MisorientedAtHomeCountsSlots(o: seq<int>, p: seq<int>, skip: Option<int>, n: nat)
    requires n <= |o| && n <= |p|
    ensures MisorientedAtHome(o, p, skip, n) == |MisorientedSlots(o, p, skip, n)|
  {
    if n > 0 {
      MisorientedAtHomeCountsSlots(o, p, skip, n - 1);
      var before := MisorientedSlots(o, p, skip, n - 1);
      var after := MisorientedSlots(o, p, skip, n);
      assert n - 1 !in before;
      if Some(n - 1) != skip && o[n - 1] != 0 && p[n - 1] == n - 1 {
        assert after == before + {n - 1} by {
          forall k | k in after
            ensures k in before + {n - 1}
          {
          }
        }
      } else {
        assert after == before by {
          forall k | k in after
            ensures k in before
          {
          }
        }
      }
    }
  }

  /** On an oriented cube nothing is counted. */
  lemma {:induction false} OrientedCountsNothing(o: seq<int>, p: seq<int>, skip: Option<int>, n: nat)
    requires n <= |o| && n <= |p|
    requires forall k :: 0 <= k < |o| ==> o[k] == 0
    ensures MisorientedAtHome(o, p, skip, n) == 0
  {
    if n > 0 {
      OrientedCountsNothing(o, p, skip, n - 1);
    }
  }

  /** `calcFlips(buffer)`. */
  function Flips(s: State, edgeLabel: string): (r: nat)
    requires Shaped(s)
    ensures r <= if EdgeSlot(edgeLabel).Some? then Edges - 1 else Edges
  {
    MisorientedAtHome(s.eo, s.ep, EdgeSlot(edgeLabel), Edges)
  }

  /** `calcTwists(buffer)`. */
  function Twists(s: State, cornerLabel: string): (r: nat)
    requires Shaped(s)
    ensures r <= if CornerSlot(cornerLabel).Some? then Corners - 1 else Corners
  {
    MisorientedAtHome(s.co, s.cp, CornerSlot(cornerLabel), Corners)
  }

  // ---------------------------------------------------------------------
  // Algorithm count.

  /** `orientAlgs(n)`: algorithms needed for `n` misoriented pieces, two
      pieces per algorithm within each group of four, and 99 for a count
      outside 0..11. */
  function OrientAlgs(n: int): (r: int)
    ensures 0 <= n <= 11 ==> r == 2 * (n / 4) + (if n % 4 < 2 then n % 4 else 2)
    ensures !(0 <= n <= 11) ==> r == 99
  {
    match n
    case 0 => 0
    case 1 => 1
    case 2 => 2
    case 3 => 2
    case 4 => 2
    case 5 => 3
    case 6 => 4
    case 7 => 4
    case 8 => 4
    case 9 => 5
    case 10 => 6
    case 11 => 6
    case _ => 99
  }

  /** Within 0..11 more pieces never need fewer algorithms. */
  lemma OrientAlgsMonotone(a: int, b: int)
    requires 0 <= a <= b <= 11
    ensures 0 <= OrientAlgs(a) <= OrientAlgs(b) <= 6
  {
  }

  // ---------------------------------------------------------------------
  // doSolve and doCalcs.

  /** What `doCalcs` leaves in the metric fields. */
  datatype Metrics = Metrics(numAlgs: int, flips: int, twists: int, hasParity: bool, canFloatE: bool, canFloatC: bool)

  /** `doSolve` on the edges: `solveArr(edgePos, eo, ep, 2)`. */
  function EdgeSolve(s: State, edgePos: int): (r: Progress)
    requires WellFormed(s) && 0 <= edgePos < Edges
    ensures IsIdentity(r.p) && |r.p| == Edges && |r.o| == Edges && InRange(r.o, 2)
  {
    Solve(edgePos, s.eo, s.ep, 2)
  }

  /** `doSolve` on the corners: `solveArr(cornerPos, co, cp, 3)`. */
  function CornerSolve(s: State, cornerPos: int): (r: Progress)
    requires WellFormed(s) && 0 <= cornerPos < Corners
    ensures IsIdentity(r.p) && |r.p| == Corners && |r.o| == Corners && InRange(r.o, 3)
  {
    Solve(cornerPos, s.co, s.cp, 3)
  }

  /** The metrics `doCalcs(edgeLabel, cornerLabel)` computes: flips and
      twists of the state before the solve, half the targets of both
      solves rounded down plus the orientation algorithms, parity when the
      edge targets are odd, and the two floats. On a cube whose pieces are
      all home the solve adds nothing. */
  function CalcsOf(s: State, edgeLabel: string, cornerLabel: string): (m: Metrics)
    requires WellFormed(s)
    ensures 0 <= m.flips <= Edges && 0 <= m.twists <= Corners && 0 <= m.numAlgs
    ensures IsIdentity(s.cp) && IsIdentity(s.ep) ==>
      m.numAlgs == OrientAlgs(m.flips) + OrientAlgs(m.twists) && !m.hasParity && !m.canFloatE && !m.canFloatC
  {
    var (e, c) := BufferSlots(edgeLabel, cornerLabel);
    var flips, twists := Flips(s, edgeLabel), Twists(s, cornerLabel);
    var edges, corners := EdgeSolve(s, e), CornerSolve(s, c);
    Metrics((edges.swaps + corners.swaps) / 2 + OrientAlgs(flips) + OrientAlgs(twists),
            flips, twists, IsOdd(edges.swaps), edges.canFloat, corners.canFloat)
  }

  /** The pieces `doCalcs` leaves behind: the solve ran on the cube's own
      arrays, so every piece is home and only orientations remain, with the
      same sums modulo 3 and 2. */
  function StateAfterCalcs(s: State, edgeLabel: string, cornerLabel: string): (r: State)
    requires WellFormed(s)
    ensures WellFormed(r) && IsIdentity(r.cp) && IsIdentity(r.ep)
    ensures Sum(r.co) % 3 == Sum(s.co) % 3 && Sum(r.eo) % 2 == Sum(s.eo) % 2
  {
    var (e, c) := BufferSlots(edgeLabel, cornerLabel);
    var edges, corners := EdgeSolve(s, e), CornerSolve(s, c);
    IdentityIsPerm(corners.p);
    IdentityIsPerm(edges.p);
    State(corners.p, corners.o, edges.p, edges.o)
  }

  /** `CalcsOf` and `StateAfterCalcs` spelled out from the two solves. */
  lemma CalcsFromSolves(s: State, edgeLabel: string, cornerLabel: string)
    requires WellFormed(s)
    ensures var (e, c) := BufferSlots(edgeLabel, cornerLabel);
      var edges, corners := EdgeSolve(s, e), CornerSolve(s, c);
      var flips, twists := Flips(s, edgeLabel), Twists(s, cornerLabel);
      && CalcsOf(s, edgeLabel, cornerLabel) ==
           Metrics((edges.swaps + corners.swaps) / 2 + OrientAlgs(flips) + OrientAlgs(twists),
                   flips, twists, IsOdd(edges.swaps), edges.canFloat, corners.canFloat)
      && StateAfterCalcs(s, edgeLabel, cornerLabel) == State(corners.p, corners.o, edges.p, edges.o)
  {
  }

  lemma IdentityIsPerm(p: seq<int>)
    requires IsIdentity(p)
    ensures IsPerm(p, |p|)
  {
  }

  /** A new cube reports no algorithms, no flips or twists, no parity and
      no floats, whatever the buffers. */
  lemma FreshCubeMetrics(edgeLabel: string, cornerLabel: string)
    ensures CalcsOf(Fresh(), edgeLabel, cornerLabel) == Metrics(0, 0, 0, false, false, false)
  {
    var s := Fresh();
    OrientedCountsNothing(s.eo, s.ep, EdgeSlot(edgeLabel), Edges);
    OrientedCountsNothing(s.co, s.cp, CornerSlot(cornerLabel), Corners);
  }
}
