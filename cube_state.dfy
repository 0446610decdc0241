/** The cube as values: the four vectors of the `Cube` class and the quarter
    turns as functions on them. The class in module CubeClass performs the
    same updates in place and is proved equal to these functions; module
    Moves replays scramble strings with them. */
module CubeState {
  import opened Basics

  /** Number of corner slots, in the order UBL UBR UFR UFL DFL DFR DBR DBL. */
  const Corners: nat := 8
  /** Number of edge slots, in the order UF UL UB UR FL BL BR FR DF DL DB DR. */
  const Edges: nat := 12

  /** `cp[i]` is the corner piece in corner slot `i` and `co[i]` its twist
      (0 oriented, 1 clockwise, 2 counter-clockwise); `ep[i]` and `eo[i]`
      are the same for edges (0 oriented, 1 flipped). */
  datatype State = State(cp: seq<int>, co: seq<int>, ep: seq<int>, eo: seq<int>)

  /** The four vectors have the lengths the constructor gives them. */
  predicate Shaped(s: State)
  {
    |s.cp| == Corners && |s.co| == Corners && |s.ep| == Edges && |s.eo| == Edges
  }

  /** `p` is a permutation of 0..n-1. */
  predicate IsPerm(p: seq<int>, n: int)
  {
    && |p| == n
    && (forall k :: 0 <= k < n ==> 0 <= p[k] < n)
    && (forall j, k :: 0 <= j < k < n ==> p[j] != p[k])
  }

  /** Every entry of `o` lies in 0..base-1. */
  predicate InRange(o: seq<int>, base: int)
  {
    forall k :: 0 <= k < |o| ==> 0 <= o[k] < base
  }

  /** A state some sequence of moves can produce from the fresh cube keeps
      both permutations and the orientation ranges. */
  predicate WellFormed(s: State)
  {
    && Shaped(s)
    && IsPerm(s.cp, Corners) && IsPerm(s.ep, Edges)
    && InRange(s.co, 3) && InRange(s.eo, 2)
  }

  /** Every slot holds its own piece. */
  predicate IsIdentity(p: seq<int>)
  {
    forall k :: 0 <= k < |p| ==> p[k] == k
  }

  function Identity(n: nat): (r: seq<int>)
    ensures |r| == n && IsIdentity(r)
  {
    seq(n, k => k)
  }

  function Zeros(n: nat): (r: seq<int>)
    ensures |r| == n && forall k :: 0 <= k < n ==> r[k] == 0
  {
    seq(n, k => 0)
  }

  /** The state the `Cube` constructor builds: solved and oriented. */
  function Fresh(): (s: State)
    ensures WellFormed(s)
    ensures IsIdentity(s.cp) && IsIdentity(s.ep)
    ensures Sum(s.co) == 0 && Sum(s.eo) == 0
  {
    var s := State(Identity(Corners), Zeros(Corners), Identity(Edges), Zeros(Edges));
    ZerosSum(Corners);
    ZerosSum(Edges);
    s
  }

  /** `Fresh` written out entry by entry, as the constructor's literals. */
  lemma FreshEntries()
    ensures Fresh() == State([0, 1, 2, 3, 4, 5, 6, 7], [0, 0, 0, 0, 0, 0, 0, 0],
                             [0, 1, 2, 3, 4, 5, 6, 7, 8, 9, 10, 11], [0, 0, 0, 0, 0, 0, 0, 0, 0, 0, 0, 0])
  {
  }

  lemma {:induction false} ZerosSum(n: nat)
    ensures Sum(Zeros(n)) == 0
  {
    if n > 0 {
      assert Zeros(n)[1..] == Zeros(n - 1);
      ZerosSum(n - 1);
    }
  }

  // ---------------------------------------------------------------------
  // Orientation arithmetic: cw, ccw, mod and flip.

  /** `mod(n, d)`, written `((n % d) + d) % d` with JavaScript's truncating
      `%`: the result is the Euclidean remainder, in 0..d-1 and congruent
      to `n`. */
  function Mod(n: int, d: int): (r: int)
    requires d > 0
    ensures 0 <= r < d
    ensures r == n % d
  {
    var x := Rem(n, d) + d;
    RemIsRemainder(n, d);
    RemIsRemainder(x, d);
    ModShift(Rem(n, d), 1, d);
    ModUnique(Rem(x, d), 0, Rem(x, d), d);
    Rem(x, d)
  }

  /** `cw(i)`: the corner in slot `i` turns one step clockwise. */
  function Cw(co: seq<int>, i: int): (r: seq<int>)
    requires 0 <= i < |co|
    ensures |r| == |co| && 0 <= r[i] < 3
    ensures 0 <= co[i] < 3 ==> r[i] == if co[i] == 2 then 0 else co[i] + 1
    ensures forall k :: 0 <= k < |co| && k != i ==> r[k] == co[k]
  {
    co[i := Mod(co[i] + 1, 3)]
  }

  /** `ccw(i)`: the corner in slot `i` turns one step counter-clockwise. */
  function Ccw(co: seq<int>, i: int): (r: seq<int>)
    requires 0 <= i < |co|
    ensures |r| == |co| && 0 <= r[i] < 3
    ensures 0 <= co[i] < 3 ==> r[i] == if co[i] == 0 then 2 else co[i] - 1
    ensures forall k :: 0 <= k < |co| && k != i ==> r[k] == co[k]
  {
    co[i := Mod(co[i] - 1, 3)]
  }

  /** `flip(i)`: `(eo[i] + 1) % 2` with JavaScript's `%`. */
  function Flip(eo: seq<int>, i: int): (r: seq<int>)
    requires 0 <= i < |eo|
    ensures |r| == |eo|
    ensures 0 <= eo[i] < 2 ==> r[i] == 1 - eo[i]
    ensures forall k :: 0 <= k < |eo| && k != i ==> r[k] == eo[k]
  {
    eo[i := Rem(eo[i] + 1, 2)]
  }

  /** One clockwise twist adds one to the orientation sum, less a multiple
      of 3 (the wrap from 2 back to 0). */
  lemma CwSum(co: seq<int>, i: int) returns (wraps: int)
    requires 0 <= i < |co|
    ensures Sum(Cw(co, i)) == Sum(co) + 1 - 3 * wraps
  {
    SumUpdate(co, i, Mod(co[i] + 1, 3));
    wraps := (co[i] + 1) / 3;
  }

  /** One counter-clockwise twist subtracts one from the orientation sum,
      less a multiple of 3. */
  lemma CcwSum(co: seq<int>, i: int) returns (wraps: int)
    requires 0 <= i < |co|
    ensures Sum(Ccw(co, i)) == Sum(co) - 1 - 3 * wraps
  {
    SumUpdate(co, i, Mod(co[i] - 1, 3));
    wraps := (co[i] - 1) / 3;
  }

  /** One flip adds one to the edge orientation sum, less a multiple of 2. */
  lemma FlipSum(eo: seq<int>, i: int) returns (wraps: int)
    requires 0 <= i < |eo|
    ensures Sum(Flip(eo, i)) == Sum(eo) + 1 - 2 * wraps
  {
    SumUpdate(eo, i, Rem(eo[i] + 1, 2));
    RemIsRemainder(eo[i] + 1, 2);
    wraps := TruncDiv(eo[i] + 1, 2);
  }

  // ---------------------------------------------------------------------
  // The four-slot rotation every move writes as a chain through a temporary.

  predicate Slots4(n: int, a: int, b: int, c: int, d: int)
  {
    && 0 <= a < n && 0 <= b < n && 0 <= c < n && 0 <= d < n
    && a != b && a != c && a != d && b != c && b != d && c != d
  }

  /** `temp = s[a]; s[a] = s[b]; s[b] = s[c]; s[c] = s[d]; s[d] = temp`:
      each of the four slots takes the entry of the next one, and the
      entries of all other slots stay where they are. */
  function Cycle4(s: seq<int>, a: int, b: int, c: int, d: int): (r: seq<int>)
    requires Slots4(|s|, a, b, c, d)
    ensures |r| == |s|
    ensures r[a] == s[b] && r[b] == s[c] && r[c] == s[d] && r[d] == s[a]
    ensures forall k :: 0 <= k < |s| && k != a && k != b && k != c && k != d ==> r[k] == s[k]
  {
    s[a := s[b]][b := s[c]][c := s[d]][d := s[a]]
  }

  /** The rotation only moves entries around, so a permutation stays one. */
  lemma Cycle4KeepsPerm(p: seq<int>, n: int, a: int, b: int, c: int, d: int)
    requires IsPerm(p, n) && Slots4(n, a, b, c, d)
    ensures IsPerm(Cycle4(p, a, b, c, d), n)
  {
    var r := Cycle4(p, a, b, c, d);
    // the slot whose entry lands in slot k
    var from := (k: int) => if k == a then b else if k == b then c else if k == c then d else if k == d then a else k;
    forall k | 0 <= k < n
      ensures r[k] == p[from(k)] && 0 <= from(k) < n
    {
    }
    forall j, k | 0 <= j < k < n
      ensures r[j] != r[k]
    {
      assert from(j) != from(k);
      if from(j) < from(k) {
        assert p[from(j)] != p[from(k)];
      } else {
        assert p[from(k)] != p[from(j)];
      }
    }
  }

  /** The rotation leaves the sum of the entries alone. */
  lemma Cycle4Sum(s: seq<int>, a: int, b: int, c: int, d: int)
    requires Slots4(|s|, a, b, c, d)
    ensures Sum(Cycle4(s, a, b, c, d)) == Sum(s)
  {
    var s1 := s[a := s[b]];
    var s2 := s1[b := s[c]];
    var s3 := s2[c := s[d]];
    SumUpdate(s, a, s[b]);
    SumUpdate(s1, b, s[c]);
    SumUpdate(s2, c, s[d]);
    SumUpdate(s3, d, s[a]);
  }

  // ---------------------------------------------------------------------
  // The six quarter turns.

  datatype Face = U | D | F | B | R | L

  /** `cw` on two corners, then `ccw` on two, in the order the moves call them. */
  function Twist4(co: seq<int>, cw1: int, cw2: int, ccw1: int, ccw2: int): (r: seq<int>)
    requires Slots4(|co|, cw1, cw2, ccw1, ccw2)
    ensures |r| == |co|
    ensures forall k :: 0 <= k < |co| && k != cw1 && k != cw2 && k != ccw1 && k != ccw2 ==> r[k] == co[k]
  {
    Ccw(Ccw(Cw(Cw(co, cw1), cw2), ccw1), ccw2)
  }

  /** `flip` on four edges. */
  function Flip4(eo: seq<int>, a: int, b: int, c: int, d: int): (r: seq<int>)
    requires Slots4(|eo|, a, b, c, d)
    ensures |r| == |eo|
    ensures forall k :: 0 <= k < |eo| && k != a && k != b && k != c && k != d ==> r[k] == eo[k]
  {
    Flip(Flip(Flip(Flip(eo, a), b), c), d)
  }

  /** The corner slots a quarter turn of face `f` rotates, in the order of
      its temp-swap chain. */
  function CornerCycle(f: Face): (r: seq<int>)
    ensures |r| == 4 && Slots4(Corners, r[0], r[1], r[2], r[3])
  {
    match f
    case U => [0, 3, 2, 1]
    case D => [4, 7, 6, 5]
    case F => [2, 3, 4, 5]
    case B => [0, 1, 6, 7]
    case R => [1, 2, 5, 6]
    case L => [0, 7, 4, 3]
  }

  /** The edge slots a quarter turn of face `f` rotates. */
  function EdgeCycle(f: Face): (r: seq<int>)
    ensures |r| == 4 && Slots4(Edges, r[0], r[1], r[2], r[3])
  {
    match f
    case U => [0, 3, 2, 1]
    case D => [8, 9, 10, 11]
    case F => [0, 4, 8, 7]
    case B => [2, 6, 10, 5]
    case R => [3, 7, 11, 6]
    case L => [1, 5, 9, 4]
  }

  /** The corner permutation after a quarter turn. */
  function TurnCp(f: Face, cp: seq<int>): (r: seq<int>)
    requires |cp| == Corners
    ensures |r| == Corners
    ensures forall k :: 0 <= k < Corners && k !in CornerCycle(f) ==> r[k] == cp[k]
    ensures IsPerm(cp, Corners) ==> IsPerm(r, Corners)
  {
    var c := CornerCycle(f);
    var r := Cycle4(cp, c[0], c[1], c[2], c[3]);
    if IsPerm(cp, Corners) then Cycle4KeepsPerm(cp, Corners, c[0], c[1], c[2], c[3]); r else r
  }

  /** The corner orientation after a quarter turn: the rotation, then the
      twists of F (cw 2, 4; ccw 3, 5), B (cw 0, 6; ccw 1, 7), R (cw 1, 5;
      ccw 2, 6) and L (cw 3, 7; ccw 0, 4). */
  function TurnCo(f: Face, co: seq<int>): (r: seq<int>)
    requires |co| == Corners
    ensures |r| == Corners
    ensures forall k :: 0 <= k < Corners && k !in CornerCycle(f) ==> r[k] == co[k]
  {
    var c := CornerCycle(f);
    var moved := Cycle4(co, c[0], c[1], c[2], c[3]);
    match f
    case U => moved
    case D => moved
    case F => Twist4(moved, 2, 4, 3, 5)
    case B => Twist4(moved, 0, 6, 1, 7)
    case R => Twist4(moved, 1, 5, 2, 6)
    case L => Twist4(moved, 3, 7, 0, 4)
  }

  /** The edge permutation after a quarter turn. */
  function TurnEp(f: Face, ep: seq<int>): (r: seq<int>)
    requires |ep| == Edges
    ensures |r| == Edges
    ensures forall k :: 0 <= k < Edges && k !in EdgeCycle(f) ==> r[k] == ep[k]
    ensures IsPerm(ep, Edges) ==> IsPerm(r, Edges)
  {
    var e := EdgeCycle(f);
    var r := Cycle4(ep, e[0], e[1], e[2], e[3]);
    if IsPerm(ep, Edges) then Cycle4KeepsPerm(ep, Edges, e[0], e[1], e[2], e[3]); r else r
  }

  /** The edge orientation after a quarter turn: only F (0, 4, 7, 8) and
      B (2, 6, 5, 10) flip edges. */
  function TurnEo(f: Face, eo: seq<int>): (r: seq<int>)
    requires |eo| == Edges
    ensures |r| == Edges
    ensures forall k :: 0 <= k < Edges && k !in EdgeCycle(f) ==> r[k] == eo[k]
  {
    var e := EdgeCycle(f);
    var moved := Cycle4(eo, e[0], e[1], e[2], e[3]);
    match f
    case F => Flip4(moved, 0, 4, 7, 8)
    case B => Flip4(moved, 2, 6, 5, 10)
    case _ => moved
  }

  /** The quarter turn `u`, `d`, `f`, `b`, `r` or `l` of the class: it
      keeps both permutations permutations. */
  function Turn(f: Face, s: State): (r: State)
    requires Shaped(s)
    ensures Shaped(r)
    ensures IsPerm(s.cp, Corners) && IsPerm(s.ep, Edges) ==> IsPerm(r.cp, Corners) && IsPerm(r.ep, Edges)
  {
    State(TurnCp(f, s.cp), TurnCo(f, s.co), TurnEp(f, s.ep), TurnEo(f, s.eo))
  }

  // ---------------------------------------------------------------------
  // The same turns read as a table: a rotation of four slots in which every
  // moved entry gains a fixed amount modulo the orientation base.

  /** The twist each corner picks up, in the order of `CornerCycle(f)`:
      slot `CornerCycle(f)[j]` receives the corner of the next slot with
      its orientation increased by `CornerTwists(f)[j]`. */
  function CornerTwists(f: Face): (r: seq<int>)
    ensures |r| == 4 && (r[0] + r[1] + r[2] + r[3]) % 3 == 0
  {
    match f
    case U => [0, 0, 0, 0]
    case D => [0, 0, 0, 0]
    case F => [1, -1, 1, -1]
    case B => [1, -1, 1, -1]
    case R => [1, -1, 1, -1]
    case L => [-1, 1, -1, 1]
  }

  /** The flip each edge picks up, in the order of `EdgeCycle(f)`. */
  function EdgeFlips(f: Face): (r: seq<int>)
    ensures |r| == 4 && (r[0] + r[1] + r[2] + r[3]) % 2 == 0
  {
    match f
    case F => [1, 1, 1, 1]
    case B => [1, 1, 1, 1]
    case _ => [0, 0, 0, 0]
  }

  /** Rotate the slots `c` of `s` and add `delta` modulo `m` to the moved entries. */
  function RotateAdd(s: seq<int>, c: seq<int>, delta: seq<int>, m: int): (r: seq<int>)
    requires |c| == 4 && |delta| == 4 && Slots4(|s|, c[0], c[1], c[2], c[3]) && m > 0
    ensures |r| == |s|
    ensures r[c[0]] == (s[c[1]] + delta[0]) % m && r[c[1]] == (s[c[2]] + delta[1]) % m
    ensures r[c[2]] == (s[c[3]] + delta[2]) % m && r[c[3]] == (s[c[0]] + delta[3]) % m
    ensures forall k :: 0 <= k < |s| && k != c[0] && k != c[1] && k != c[2] && k != c[3] ==> r[k] == s[k]
  {
    s[c[0] := (s[c[1]] + delta[0]) % m]
     [c[1] := (s[c[2]] + delta[1]) % m]
     [c[2] := (s[c[3]] + delta[2]) % m]
     [c[3] := (s[c[0]] + delta[3]) % m]
  }

  /** An in-range orientation that picks up four amounts adding up to a
      multiple of its base (2 for edges, 3 for corners), reducing after
      each, comes back to itself. */
  lemma RoundTrip(x: int, y1: int, y2: int, y3: int, y4: int, d1: int, d2: int, d3: int, d4: int, total: int, m: int)
    requires m == 2 || m == 3
    requires 0 <= x < m && d1 + d2 + d3 + d4 == total && total % m == 0
    requires y1 == (x + d1) % m && y2 == (y1 + d2) % m && y3 == (y2 + d3) % m && y4 == (y3 + d4) % m
    ensures y4 == x
  {
    if m == 2 {
    } else {
    }
  }

  /** Four table rotations: the first two rotated slots get their entries
      back. The entry that ends in a slot went once round the cycle, picking
      up every amount once. */
  lemma FirstSlotsReturn(s: seq<int>, c: seq<int>, delta: seq<int>, m: int)
    requires |c| == 4 && |delta| == 4 && Slots4(|s|, c[0], c[1], c[2], c[3]) && (m == 2 || m == 3)
    requires InRange(s, m) && (delta[0] + delta[1] + delta[2] + delta[3]) % m == 0
    ensures var s4 := RotateAdd(RotateAdd(RotateAdd(RotateAdd(s, c, delta, m), c, delta, m), c, delta, m), c, delta, m);
      s4[c[0]] == s[c[0]] && s4[c[1]] == s[c[1]]
  {
    var s1 := RotateAdd(s, c, delta, m);
    var s2 := RotateAdd(s1, c, delta, m);
    var s3 := RotateAdd(s2, c, delta, m);
    var s4 := RotateAdd(s3, c, delta, m);
    var d0, d1, d2, d3 := delta[0], delta[1], delta[2], delta[3];
    var c0, c1, c2, c3 := c[0], c[1], c[2], c[3];
    var total := d0 + d1 + d2 + d3;
    RoundTrip(s[c0], s1[c3], s2[c2], s3[c1], s4[c0], d3, d2, d1, d0, total, m);
    RoundTrip(s[c1], s1[c0], s2[c3], s3[c2], s4[c1], d0, d3, d2, d1, total, m);
  }

  /** Four table rotations: the last two rotated slots get their entries
      back. */
  lemma LastSlotsReturn(s: seq<int>, c: seq<int>, delta: seq<int>, m: int)
    requires |c| == 4 && |delta| == 4 && Slots4(|s|, c[0], c[1], c[2], c[3]) && (m == 2 || m == 3)
    requires InRange(s, m) && (delta[0] + delta[1] + delta[2] + delta[3]) % m == 0
    ensures var s4 := RotateAdd(RotateAdd(RotateAdd(RotateAdd(s, c, delta, m), c, delta, m), c, delta, m), c, delta, m);
      s4[c[2]] == s[c[2]] && s4[c[3]] == s[c[3]]
  {
    var s1 := RotateAdd(s, c, delta, m);
    var s2 := RotateAdd(s1, c, delta, m);
    var s3 := RotateAdd(s2, c, delta, m);
    var s4 := RotateAdd(s3, c, delta, m);
    var d0, d1, d2, d3 := delta[0], delta[1], delta[2], delta[3];
    var c0, c1, c2, c3 := c[0], c[1], c[2], c[3];
    var total := d0 + d1 + d2 + d3;
    RoundTrip(s[c2], s1[c1], s2[c0], s3[c3], s4[c2], d1, d0, d3, d2, total, m);
    RoundTrip(s[c3], s1[c2], s2[c1], s3[c0], s4[c3], d2, d1, d0, d3, total, m);
  }

  /** Four table rotations restore every in-range vector when the amounts
      add up to a multiple of the base. */
  lemma RotateAddFourTimes(s: seq<int>, c: seq<int>, delta: seq<int>, m: int)
    requires |c| == 4 && |delta| == 4 && Slots4(|s|, c[0], c[1], c[2], c[3]) && (m == 2 || m == 3)
    requires InRange(s, m) && (delta[0] + delta[1] + delta[2] + delta[3]) % m == 0
    ensures RotateAdd(RotateAdd(RotateAdd(RotateAdd(s, c, delta, m), c, delta, m), c, delta, m), c, delta, m) == s
  {
    var s4 := RotateAdd(RotateAdd(RotateAdd(RotateAdd(s, c, delta, m), c, delta, m), c, delta, m), c, delta, m);
    FirstSlotsReturn(s, c, delta, m);
    LastSlotsReturn(s, c, delta, m);
    assert |s4| == |s|;
    forall k | 0 <= k < |s|
      ensures s4[k] == s[k]
    {
    }
  }

  /** The corner orientation update of every turn is its table rotation. */
  lemma TurnCoIsTable(f: Face, co: seq<int>)
    requires |co| == Corners && InRange(co, 3)
    ensures TurnCo(f, co) == RotateAdd(co, CornerCycle(f), CornerTwists(f), 3)
  {
    match f {
      case U => PlainRotationIsTable(co, 0, 3, 2, 1, 3);
      case D => PlainRotationIsTable(co, 4, 7, 6, 5, 3);
      case F => CwFirstTwistsAreTable(co, 2, 3, 4, 5);
      case B => CwFirstTwistsAreTable(co, 0, 1, 6, 7);
      case R => CwFirstTwistsAreTable(co, 1, 2, 5, 6);
      case L => CcwFirstTwistsAreTable(co, 0, 7, 4, 3);
    }
  }

  /** A rotation without twists or flips is the table rotation with zero
      amounts, on in-range entries. */
  lemma PlainRotationIsTable(s: seq<int>, a: int, b: int, c: int, d: int, m: int)
    requires Slots4(|s|, a, b, c, d) && (m == 2 || m == 3) && InRange(s, m)
    ensures Cycle4(s, a, b, c, d) == RotateAdd(s, [a, b, c, d], [0, 0, 0, 0], m)
  {
    var r := RotateAdd(s, [a, b, c, d], [0, 0, 0, 0], m);
    forall k | 0 <= k < |s|
      ensures Cycle4(s, a, b, c, d)[k] == r[k]
    {
    }
  }

  /** The rotation of slots a, b, c, d followed by cw on a and c and ccw on
      b and d (the pattern of F, B and R) is the table rotation with amounts
      1, -1, 1, -1. */
  lemma CwFirstTwistsAreTable(co: seq<int>, a: int, b: int, c: int, d: int)
    requires |co| == Corners && InRange(co, 3) && Slots4(Corners, a, b, c, d)
    ensures Twist4(Cycle4(co, a, b, c, d), a, c, b, d) == RotateAdd(co, [a, b, c, d], [1, -1, 1, -1], 3)
  {
    var moved := Cycle4(co, a, b, c, d);
    var t := Twist4(moved, a, c, b, d);
    TwistsAreTable(moved, a, c, b, d);
    var r := RotateAdd(co, [a, b, c, d], [1, -1, 1, -1], 3);
    forall k | 0 <= k < Corners
      ensures t[k] == r[k]
    {
    }
  }

  /** The rotation of slots a, b, c, d followed by cw on d and b and ccw on
      a and c (the pattern of L) is the table rotation with amounts
      -1, 1, -1, 1. */
  lemma CcwFirstTwistsAreTable(co: seq<int>, a: int, b: int, c: int, d: int)
    requires |co| == Corners && InRange(co, 3) && Slots4(Corners, a, b, c, d)
    ensures Twist4(Cycle4(co, a, b, c, d), d, b, a, c) == RotateAdd(co, [a, b, c, d], [-1, 1, -1, 1], 3)
  {
    var moved := Cycle4(co, a, b, c, d);
    var t := Twist4(moved, d, b, a, c);
    TwistsAreTable(moved, d, b, a, c);
    var r := RotateAdd(co, [a, b, c, d], [-1, 1, -1, 1], 3);
    forall k | 0 <= k < Corners
      ensures t[k] == r[k]
    {
    }
  }

  /** Two `cw` and two `ccw` add one to two in-range slots and subtract one
      from the other two. */
  lemma TwistsAreTable(co: seq<int>, cw1: int, cw2: int, ccw1: int, ccw2: int)
    requires Slots4(|co|, cw1, cw2, ccw1, ccw2) && InRange(co, 3)
    ensures var r := Twist4(co, cw1, cw2, ccw1, ccw2);
      && |r| == |co|
      && r[cw1] == (co[cw1] + 1) % 3 && r[cw2] == (co[cw2] + 1) % 3
      && r[ccw1] == (co[ccw1] - 1) % 3 && r[ccw2] == (co[ccw2] - 1) % 3
      && forall k :: 0 <= k < |co| && k != cw1 && k != cw2 && k != ccw1 && k != ccw2 ==> r[k] == co[k]
  {
  }

  /** The edge orientation update of every turn is its table rotation. */
  lemma TurnEoIsTable(f: Face, eo: seq<int>)
    requires |eo| == Edges && InRange(eo, 2)
    ensures TurnEo(f, eo) == RotateAdd(eo, EdgeCycle(f), EdgeFlips(f), 2)
  {
    match f {
      case U => PlainRotationIsTable(eo, 0, 3, 2, 1, 2);
      case D => PlainRotationIsTable(eo, 8, 9, 10, 11, 2);
      case F => FlipsAreTable(eo, 0, 4, 8, 7);
      case B => FlipsAreTable(eo, 2, 6, 10, 5);
      case R => PlainRotationIsTable(eo, 3, 7, 11, 6, 2);
      case L => PlainRotationIsTable(eo, 1, 5, 9, 4, 2);
    }
  }

  /** The rotation of four edge slots followed by a flip of each of them is
      the table rotation that adds 1 modulo 2 to every moved edge. */
  lemma FlipsAreTable(eo: seq<int>, a: int, b: int, c: int, d: int)
    requires Slots4(|eo|, a, b, c, d) && InRange(eo, 2)
    ensures Flip4(Cycle4(eo, a, b, c, d), a, b, c, d) == RotateAdd(eo, [a, b, c, d], [1, 1, 1, 1], 2)
  {
    var t := Flip4(Cycle4(eo, a, b, c, d), a, b, c, d);
    var r := RotateAdd(eo, [a, b, c, d], [1, 1, 1, 1], 2);
    forall k | 0 <= k < |eo|
      ensures t[k] == r[k]
    {
    }
  }

  lemma Cycle4FourTimes(s: seq<int>, a: int, b: int, c: int, d: int)
    requires Slots4(|s|, a, b, c, d)
    ensures Cycle4(Cycle4(Cycle4(Cycle4(s, a, b, c, d), a, b, c, d), a, b, c, d), a, b, c, d) == s
  {
  }

  // ---------------------------------------------------------------------
  // What every quarter turn promises.

  /** A quarter turn keeps both permutations permutations. */
  lemma TurnKeepsPermutations(f: Face, s: State)
    requires Shaped(s) && IsPerm(s.cp, Corners) && IsPerm(s.ep, Edges)
    ensures IsPerm(Turn(f, s).cp, Corners) && IsPerm(Turn(f, s).ep, Edges)
  {
    var c, e := CornerCycle(f), EdgeCycle(f);
    Cycle4KeepsPerm(s.cp, Corners, c[0], c[1], c[2], c[3]);
    Cycle4KeepsPerm(s.ep, Edges, e[0], e[1], e[2], e[3]);
  }

  /** A quarter turn changes only its four corner slots and its four edge
      slots; every other entry of all four vectors is unchanged. */
  lemma TurnTouchesOnlyItsSlots(f: Face, s: State)
    requires Shaped(s)
    ensures forall k :: 0 <= k < Corners && k !in CornerCycle(f) ==>
      Turn(f, s).cp[k] == s.cp[k] && Turn(f, s).co[k] == s.co[k]
    ensures forall k :: 0 <= k < Edges && k !in EdgeCycle(f) ==>
      Turn(f, s).ep[k] == s.ep[k] && Turn(f, s).eo[k] == s.eo[k]
  {
  }

  /** A quarter turn keeps the corner twist sum modulo 3 and the edge flip
      sum modulo 2: F, B, R and L add two clockwise and two counter-clockwise
      twists, F and B flip four edges, U and D only move pieces. */
  lemma TurnKeepsOrientationSums(f: Face, s: State)
    requires Shaped(s)
    ensures Sum(Turn(f, s).co) % 3 == Sum(s.co) % 3
    ensures Sum(Turn(f, s).eo) % 2 == Sum(s.eo) % 2
  {
    var c, e := CornerCycle(f), EdgeCycle(f);
    var co := Cycle4(s.co, c[0], c[1], c[2], c[3]);
    var eo := Cycle4(s.eo, e[0], e[1], e[2], e[3]);
    Cycle4Sum(s.co, c[0], c[1], c[2], c[3]);
    Cycle4Sum(s.eo, e[0], e[1], e[2], e[3]);
    match f {
      case U =>
      case D =>
      case F =>
        TwistsKeepSum(co, 2, 4, 3, 5);
        FlipsKeepParity(eo, 0, 4, 7, 8);
      case B =>
        TwistsKeepSum(co, 0, 6, 1, 7);
        FlipsKeepParity(eo, 2, 6, 5, 10);
      case R =>
        TwistsKeepSum(co, 1, 5, 2, 6);
      case L =>
        TwistsKeepSum(co, 3, 7, 0, 4);
    }
  }

  lemma TwistsKeepSum(co: seq<int>, cw1: int, cw2: int, ccw1: int, ccw2: int)
    requires Slots4(|co|, cw1, cw2, ccw1, ccw2)
    ensures Sum(Twist4(co, cw1, cw2, ccw1, ccw2)) % 3 == Sum(co) % 3
  {
    var t1 := Cw(co, cw1);
    var t2 := Cw(t1, cw2);
    var t3 := Ccw(t2, ccw1);
    var q1 := CwSum(co, cw1);
    var q2 := CwSum(t1, cw2);
    var q3 := CcwSum(t2, ccw1);
    var q4 := CcwSum(t3, ccw2);
    SameRemainder(Sum(Twist4(co, cw1, cw2, ccw1, ccw2)), Sum(co), q1 + q2 + q3 + q4, 3);
  }

  lemma FlipsKeepParity(eo: seq<int>, a: int, b: int, c: int, d: int)
    requires Slots4(|eo|, a, b, c, d)
    ensures Sum(Flip4(eo, a, b, c, d)) % 2 == Sum(eo) % 2
  {
    var t1 := Flip(eo, a);
    var t2 := Flip(t1, b);
    var t3 := Flip(t2, c);
    var q1 := FlipSum(eo, a);
    var q2 := FlipSum(t1, b);
    var q3 := FlipSum(t2, c);
    var q4 := FlipSum(t3, d);
    SameRemainder(Sum(Flip4(eo, a, b, c, d)), Sum(eo), q1 + q2 + q3 + q4 - 2, 2);
  }

  /** A table rotation keeps every entry in 0..m-1. */
  lemma RotateAddInRange(s: seq<int>, c: seq<int>, delta: seq<int>, m: int)
    requires |c| == 4 && |delta| == 4 && Slots4(|s|, c[0], c[1], c[2], c[3]) && m > 0
    requires InRange(s, m)
    ensures InRange(RotateAdd(s, c, delta, m), m)
  {
  }

  /** After a quarter turn twists stay in 0..2 and flips in 0..1. */
  lemma TurnKeepsRanges(f: Face, s: State)
    requires Shaped(s) && InRange(s.co, 3) && InRange(s.eo, 2)
    ensures InRange(Turn(f, s).co, 3) && InRange(Turn(f, s).eo, 2)
  {
    TurnCoIsTable(f, s.co);
    TurnEoIsTable(f, s.eo);
    RotateAddInRange(s.co, CornerCycle(f), CornerTwists(f), 3);
    RotateAddInRange(s.eo, EdgeCycle(f), EdgeFlips(f), 2);
  }

  /** Every quarter turn keeps a well-formed state well-formed. */
  lemma TurnKeepsWellFormed(f: Face, s: State)
    requires WellFormed(s)
    ensures WellFormed(Turn(f, s))
  {
    TurnKeepsPermutations(f, s);
    TurnKeepsRanges(f, s);
  }

  /** Four quarter turns of one face restore the whole state. */
  lemma TurnFourTimes(f: Face, s: State)
    requires Shaped(s) && InRange(s.co, 3) && InRange(s.eo, 2)
    ensures Turn(f, Turn(f, Turn(f, Turn(f, s)))) == s
  {
    var c, e := CornerCycle(f), EdgeCycle(f);
    Cycle4FourTimes(s.cp, c[0], c[1], c[2], c[3]);
    Cycle4FourTimes(s.ep, e[0], e[1], e[2], e[3]);
    TurnCoFourTimes(f, s.co);
    TurnEoFourTimes(f, s.eo);
  }

  lemma TurnCoFourTimes(f: Face, co: seq<int>)
    requires |co| == Corners && InRange(co, 3)
    ensures TurnCo(f, TurnCo(f, TurnCo(f, TurnCo(f, co)))) == co
  {
    var c, t := CornerCycle(f), CornerTwists(f);
    var o1 := TurnCo(f, co);
    TurnCoIsTable(f, co);
    RotateAddInRange(co, c, t, 3);
    var o2 := TurnCo(f, o1);
    TurnCoIsTable(f, o1);
    RotateAddInRange(o1, c, t, 3);
    var o3 := TurnCo(f, o2);
    TurnCoIsTable(f, o2);
    RotateAddInRange(o2, c, t, 3);
    TurnCoIsTable(f, o3);
    RotateAddFourTimes(co, c, t, 3);
  }

  lemma TurnEoFourTimes(f: Face, eo: seq<int>)
    requires |eo| == Edges && InRange(eo, 2)
    ensures TurnEo(f, TurnEo(f, TurnEo(f, TurnEo(f, eo)))) == eo
  {
    var e, t := EdgeCycle(f), EdgeFlips(f);
    var o1 := TurnEo(f, eo);
    TurnEoIsTable(f, eo);
    RotateAddInRange(eo, e, t, 2);
    var o2 := TurnEo(f, o1);
    TurnEoIsTable(f, o1);
    RotateAddInRange(o1, e, t, 2);
    var o3 := TurnEo(f, o2);
    TurnEoIsTable(f, o2);
    RotateAddInRange(o2, e, t, 2);
    TurnEoIsTable(f, o3);
    RotateAddFourTimes(eo, e, t, 2);
  }
}
