/** The filter of `genScrambles`: each candidate scramble is applied to a
    new cube, `doCalcs` runs with the chosen buffers, and the candidate is
    kept when every criterion the user set matches the cube's metrics. The
    scrambles themselves come from an outside generator and are inputs
    here, one sequence per fetched batch. */
module Generator {
  import opened Basics
  import opened CubeState
  import opened Moves
  import opened Calcs
  import opened CubeClass

  /** The six optional criteria; `None` stands for `undefined`. */
  datatype Criteria = Criteria(
    numAlgs: Option<int>, flips: Option<int>, twists: Option<int>,
    parity: Option<bool>, canFloatE: Option<bool>, canFloatC: Option<bool>)

  /** The chain of `passes &&= …` over the six criteria: every criterion
      that is set equals the metric of the same name, that is, the criteria
      ask for no more than the metrics exactly. */
  predicate Passes(c: Criteria, m: Metrics)
    ensures Passes(c, m) <==> LooserThan(c, Exactly(m))
  {
    && (c.numAlgs.None? || c.numAlgs.value == m.numAlgs)
    && (c.flips.None? || c.flips.value == m.flips)
    && (c.twists.None? || c.twists.value == m.twists)
    && (c.parity.None? || c.parity.value == m.hasParity)
    && (c.canFloatE.None? || c.canFloatE.value == m.canFloatE)
    && (c.canFloatC.None? || c.canFloatC.value == m.canFloatC)
  }

  /** No criterion set. */
  const NoCriteria := Criteria(None, None, None, None, None, None)

  /** Every criterion set, to the values of `m`. */
  function Exactly(m: Metrics): Criteria
  {
    Criteria(Some(m.numAlgs), Some(m.flips), Some(m.twists),
             Some(m.hasParity), Some(m.canFloatE), Some(m.canFloatC))
  }

  /** `c` sets a criterion only where `d` sets the same one. */
  predicate LooserThan(c: Criteria, d: Criteria)
  {
    && (c.numAlgs.None? || c.numAlgs == d.numAlgs)
    && (c.flips.None? || c.flips == d.flips)
    && (c.twists.None? || c.twists == d.twists)
    && (c.parity.None? || c.parity == d.parity)
    && (c.canFloatE.None? || c.canFloatE == d.canFloatE)
    && (c.canFloatC.None? || c.canFloatC == d.canFloatC)
  }

  /** With every criterion undefined, all metrics pass. */
  lemma NoCriteriaPassEverything(m: Metrics)
    ensures Passes(NoCriteria, m)
  {
  }

  /** With every criterion set, exactly the metrics equal to them pass. */
  lemma ExactlyPassesOnlyItself(m: Metrics, n: Metrics)
    ensures Passes(Exactly(m), n) <==> n == m
  {
  }

  /** Leaving a criterion undefined never turns a pass into a fail. */
  lemma LooserCriteriaPassMore(c: Criteria, d: Criteria, m: Metrics)
    requires LooserThan(c, d) && Passes(d, m)
    ensures Passes(c, m)
  {
  }

  // ---------------------------------------------------------------------
  // One candidate.

  /** The metrics of a candidate: a new cube, scrambled with it, after
      `doCalcs` with the two buffers. */
  function CandidateMetrics(candidate: string, edgeBuffer: string, cornerBuffer: string): (m: Metrics)
    ensures 0 <= m.flips <= Edges && 0 <= m.twists <= Corners && 0 <= m.numAlgs
  {
    ScrambleKeepsWellFormed(Fresh(), candidate);
    CalcsOf(Scrambled(Fresh(), candidate), edgeBuffer, cornerBuffer)
  }

  /** Whether a candidate is kept: the criteria ask for no more than the
      metrics of the scrambled cube. */
  predicate Accepts(c: Criteria, edgeBuffer: string, cornerBuffer: string, candidate: string)
    ensures Accepts(c, edgeBuffer, cornerBuffer, candidate) <==>
      LooserThan(c, Exactly(CandidateMetrics(candidate, edgeBuffer, cornerBuffer)))
  {
    Passes(c, CandidateMetrics(candidate, edgeBuffer, cornerBuffer))
  }

  /** The empty scramble (or one of spaces only) leaves the cube solved, so
      it passes exactly the criteria a solved cube meets. */
  lemma EmptyScrambleMetrics(edgeBuffer: string, cornerBuffer: string)
    ensures CandidateMetrics("", edgeBuffer, cornerBuffer) == Metrics(0, 0, 0, false, false, false)
  {
    assert Split("", ' ') == [""];
    assert ParseMove("").None?;
    assert [""][..0] == [];
    FreshCubeMetrics(edgeBuffer, cornerBuffer);
  }

  /** The body of the inner loop of `genScrambles` for one candidate: a new
      cube is built for it, so the verdict depends on the candidate alone. */
  method Evaluate(candidate: string, edgeBuffer: string, cornerBuffer: string, c: Criteria)
    returns (passes: bool)
    ensures passes == Accepts(c, edgeBuffer, cornerBuffer, candidate)
  {
    var cube := new Cube();
    cube.Scramble(candidate);
    ghost var scrambled := Scrambled(Fresh(), candidate);
    ScrambleKeepsWellFormed(Fresh(), candidate);
    assert cube.Model() == scrambled;
    cube.DoCalcs(edgeBuffer, cornerBuffer);
    ghost var m := CandidateMetrics(candidate, edgeBuffer, cornerBuffer);
    assert cube.Report() == m;
    assert cube.numAlgs == m.numAlgs && cube.numFlips == m.flips && cube.numTwists == m.twists;
    assert cube.hasParity == m.hasParity && cube.canFloatE == m.canFloatE && cube.canFloatC == m.canFloatC;

    passes := true;
    passes := passes && (c.numAlgs.None? || cube.numAlgs == c.numAlgs.value);
    passes := passes && (c.flips.None? || cube.numFlips == c.flips.value);
    passes := passes && (c.twists.None? || cube.numTwists == c.twists.value);
    passes := passes && (c.parity.None? || cube.hasParity == c.parity.value);
    passes := passes && (c.canFloatE.None? || cube.canFloatE == c.canFloatE.value);
    passes := passes && (c.canFloatC.None? || cube.canFloatC == c.canFloatC.value);
    assert passes == Passes(c, m);
  }

  // ---------------------------------------------------------------------
  // Kept candidates.

  /** `verdicts` holds, in order, whether each candidate is accepted. */
  predicate Judged(c: Criteria, edgeBuffer: string, cornerBuffer: string, candidates: seq<string>, verdicts: seq<bool>)
  {
    && |verdicts| == |candidates|
    && forall i {:trigger Accepts(c, edgeBuffer, cornerBuffer, candidates[i])} :: 0 <= i < |candidates| ==>
         verdicts[i] == Accepts(c, edgeBuffer, cornerBuffer, candidates[i])
  }

  /** The verdict on a single candidate. */
  lemma JudgedOne(c: Criteria, edgeBuffer: string, cornerBuffer: string, candidate: string, verdict: bool)
    requires verdict == Accepts(c, edgeBuffer, cornerBuffer, candidate)
    ensures Judged(c, edgeBuffer, cornerBuffer, [candidate], [verdict])
  {
    assert [candidate][0] == candidate;
  }

  /** Verdicts on two runs of candidates, side by side, are the verdicts on
      the two runs together. */
  lemma JudgedAppend(c: Criteria, edgeBuffer: string, cornerBuffer: string,
                     a: seq<string>, va: seq<bool>, b: seq<string>, vb: seq<bool>)
    requires Judged(c, edgeBuffer, cornerBuffer, a, va)
    requires Judged(c, edgeBuffer, cornerBuffer, b, vb)
    ensures Judged(c, edgeBuffer, cornerBuffer, a + b, va + vb)
  {
    forall i | 0 <= i < |a + b|
      ensures (va + vb)[i] == Accepts(c, edgeBuffer, cornerBuffer, (a + b)[i])
    {
      if i < |a| {
        assert (a + b)[i] == a[i];
        assert va[i] == Accepts(c, edgeBuffer, cornerBuffer, a[i]);
      } else {
        assert (a + b)[i] == b[i - |a|];
        assert vb[i - |a|] == Accepts(c, edgeBuffer, cornerBuffer, b[i - |a|]);
      }
    }
  }

  /** The candidates whose verdict is `true`, in order. */
  function KeptBy(candidates: seq<string>, verdicts: seq<bool>): (r: seq<string>)
    requires |verdicts| == |candidates|
    ensures |r| <= |candidates|
    decreases |candidates|
  {
    if candidates == [] then []
    else
      var n := |candidates| - 1;
      KeptBy(candidates[..n], verdicts[..n]) + if verdicts[n] then [candidates[n]] else []
  }

  /** Exactly the candidates with a `true` verdict are kept. */
  lemma {:induction false} KeptByKeepsExactlyTrue(candidates: seq<string>, verdicts: seq<bool>)
    requires |verdicts| == |candidates|
    ensures forall g :: g in KeptBy(candidates, verdicts) <==>
      exists i :: 0 <= i < |candidates| && candidates[i] == g && verdicts[i]
    decreases |candidates|
  {
    if candidates != [] {
      var n := |candidates| - 1;
      KeptByKeepsExactlyTrue(candidates[..n], verdicts[..n]);
      forall g | exists i :: 0 <= i < |candidates| && candidates[i] == g && verdicts[i]
        ensures g in KeptBy(candidates, verdicts)
      {
        var i :| 0 <= i < |candidates| && candidates[i] == g && verdicts[i];
        if i < n {
          assert candidates[..n][i] == g && verdicts[..n][i];
        }
      }
    }
  }

  /** Keeping by verdicts of two runs is keeping by each in turn, so the
      kept candidates stay in the order they were examined. */
  lemma {:induction false} KeptByAppend(a: seq<string>, va: seq<bool>, b: seq<string>, vb: seq<bool>)
    requires |va| == |a| && |vb| == |b|
    ensures KeptBy(a + b, va + vb) == KeptBy(a, va) + KeptBy(b, vb)
    decreases |b|
  {
    if b == [] {
      assert a + b == a && va + vb == va;
    } else {
      var n := |b| - 1;
      assert (a + b)[..|a + b| - 1] == a + b[..n];
      assert (va + vb)[..|va + vb| - 1] == va + vb[..n];
      KeptByAppend(a, va, b[..n], vb[..n]);
    }
  }

  /** Under true verdicts exactly the accepted candidates are kept. */
  lemma KeptAreExactlyAccepted(c: Criteria, edgeBuffer: string, cornerBuffer: string, candidates: seq<string>, verdicts: seq<bool>)
    requires Judged(c, edgeBuffer, cornerBuffer, candidates, verdicts)
    ensures forall g :: g in KeptBy(candidates, verdicts) <==>
      g in candidates && Accepts(c, edgeBuffer, cornerBuffer, g)
  {
    KeptByKeepsExactlyTrue(candidates, verdicts);
    forall g | g in candidates && Accepts(c, edgeBuffer, cornerBuffer, g)
      ensures exists i :: 0 <= i < |candidates| && candidates[i] == g && verdicts[i]
    {
      var i :| 0 <= i < |candidates| && candidates[i] == g;
      assert verdicts[i] == Accepts(c, edgeBuffer, cornerBuffer, candidates[i]);
    }
    forall g | g in KeptBy(candidates, verdicts)
      ensures Accepts(c, edgeBuffer, cornerBuffer, g)
    {
      var i :| 0 <= i < |candidates| && candidates[i] == g && verdicts[i];
      assert verdicts[i] == Accepts(c, edgeBuffer, cornerBuffer, candidates[i]);
    }
  }

  /** A run of `true` verdicts keeps every candidate. */
  lemma {:induction false} AllTrueKeepsAll(candidates: seq<string>, verdicts: seq<bool>)
    requires |verdicts| == |candidates| && forall i :: 0 <= i < |verdicts| ==> verdicts[i]
    ensures KeptBy(candidates, verdicts) == candidates
    decreases |candidates|
  {
    if candidates != [] {
      var n := |candidates| - 1;
      AllTrueKeepsAll(candidates[..n], verdicts[..n]);
      assert candidates[..n] + [candidates[n]] == candidates;
    }
  }

  /** With no criteria every candidate is kept. */
  lemma NoCriteriaKeepAll(edgeBuffer: string, cornerBuffer: string, candidates: seq<string>, verdicts: seq<bool>)
    requires Judged(NoCriteria, edgeBuffer, cornerBuffer, candidates, verdicts)
    ensures KeptBy(candidates, verdicts) == candidates
  {
    forall i | 0 <= i < |verdicts|
      ensures verdicts[i]
    {
      assert verdicts[i] == Accepts(NoCriteria, edgeBuffer, cornerBuffer, candidates[i]);
    }
    AllTrueKeepsAll(candidates, verdicts);
  }

  // ---------------------------------------------------------------------
  // The batch loops.

  /** `Evaluate` with its verdict stated as a run of one verdict, the form
      the batch loop accumulates. */
  method Examine(candidate: string, edgeBuffer: string, cornerBuffer: string, c: Criteria)
    returns (passes: bool)
    ensures Judged(c, edgeBuffer, cornerBuffer, [candidate], [passes])
  {
    passes := Evaluate(candidate, edgeBuffer, cornerBuffer, c);
    JudgedOne(c, edgeBuffer, cornerBuffer, candidate, passes);
  }

  /** The inner `for` loop of `genScrambles` over one batch: every examined
      candidate adds one to `count`, accepted ones are pushed to `genned`,
      and the loop stops right after the push that reaches `numCust`, so no
      candidate is examined once `numCust` are kept. `verdicts` are the
      verdicts on the examined candidates. */
  method FilterBatch(candidates: seq<string>, numCust: int, edgeBuffer: string, cornerBuffer: string,
                     c: Criteria, genned0: seq<string>, count0: int)
    returns (genned: seq<string>, count: int, ghost examined: nat, ghost verdicts: seq<bool>)
    requires |genned0| < numCust
    ensures examined <= |candidates| && count == count0 + examined
    ensures Judged(c, edgeBuffer, cornerBuffer, candidates[..examined], verdicts)
    ensures genned == genned0 + KeptBy(candidates[..examined], verdicts)
    ensures |genned| <= numCust
    ensures examined < |candidates| ==> |genned| == numCust
    ensures StoppedInTime(|genned0|, candidates[..examined], verdicts, numCust)
  {
    genned, count, verdicts := genned0, count0, [];
    var j := 0;
    while j < |candidates|
      invariant 0 <= j <= |candidates| && count == count0 + j
      invariant Judged(c, edgeBuffer, cornerBuffer, candidates[..j], verdicts)
      invariant genned == genned0 + KeptBy(candidates[..j], verdicts)
      invariant |genned| < numCust
      invariant StoppedInTime(|genned0|, candidates[..j], verdicts, numCust)
    {
      var candidate := candidates[j];
      count := count + 1;
      var passes := Examine(candidate, edgeBuffer, cornerBuffer, c);
      JudgedAppend(c, edgeBuffer, cornerBuffer, candidates[..j], verdicts, [candidate], [passes]);
      StoppedInTimeOne(|genned|, candidate, passes, numCust);
      StoppedInTimeAppend(|genned0|, candidates[..j], verdicts, [candidate], [passes], numCust);
      PrefixGrows(candidates, j);
      verdicts := verdicts + [passes];
      j := j + 1;
      if passes {
        genned := genned + [candidate];
        if |genned| >= numCust {
          break;
        }
      }
    }
    examined := j;
  }

  lemma PrefixGrows<T>(s: seq<T>, j: int)
    requires 0 <= j < |s|
    ensures s[..j] + [s[j]] == s[..j + 1]
  {
  }

  /** Fewer than `numCust` scrambles were kept (`kept0` of them before the
      run) before each candidate of the run was examined: examining stops as
      soon as `numCust` are kept. */
  ghost predicate StoppedInTime(kept0: nat, candidates: seq<string>, verdicts: seq<bool>, numCust: int)
    requires |verdicts| == |candidates|
  {
    forall j :: 0 <= j < |candidates| ==> kept0 + |KeptBy(candidates[..j], verdicts[..j])| < numCust
  }

  lemma StoppedInTimeOne(kept0: nat, candidate: string, verdict: bool, numCust: int)
    requires kept0 < numCust
    ensures StoppedInTime(kept0, [candidate], [verdict], numCust)
  {
    assert [candidate][..0] == [] && [verdict][..0] == [];
  }

  /** Two runs each examined in time are examined in time together. */
  lemma StoppedInTimeAppend(kept0: nat, a: seq<string>, va: seq<bool>, b: seq<string>, vb: seq<bool>, numCust: int)
    requires |va| == |a| && |vb| == |b|
    requires StoppedInTime(kept0, a, va, numCust)
    requires StoppedInTime(kept0 + |KeptBy(a, va)|, b, vb, numCust)
    ensures StoppedInTime(kept0, a + b, va + vb, numCust)
  {
    forall j | 0 <= j < |a + b|
      ensures kept0 + |KeptBy((a + b)[..j], (va + vb)[..j])| < numCust
    {
      if j < |a| {
        assert (a + b)[..j] == a[..j] && (va + vb)[..j] == va[..j];
      } else {
        var i := j - |a|;
        assert (a + b)[..j] == a + b[..i] && (va + vb)[..j] == va + vb[..i];
        KeptByAppend(a, va, b[..i], vb[..i]);
        assert kept0 + |KeptBy(a, va)| + |KeptBy(b[..i], vb[..i])| < numCust;
      }
    }
  }

  /** The scrambles of all batches, in order. */
  function Flatten(batches: seq<seq<string>>): seq<string>
    decreases |batches|
  {
    if batches == [] then [] else Flatten(batches[..|batches| - 1]) + batches[|batches| - 1]
  }

  lemma {:induction false} FlattenAppend(a: seq<seq<string>>, b: seq<seq<string>>)
    ensures Flatten(a + b) == Flatten(a) + Flatten(b)
    decreases |b|
  {
    if b == [] {
      assert a + b == a;
    } else {
      assert (a + b)[..|a + b| - 1] == a + b[..|b| - 1];
      FlattenAppend(a, b[..|b| - 1]);
    }
  }

  /** The scrambles examined in batch `k` and before it are a prefix of all
      the scrambles. */
  lemma FlattenPrefix(batches: seq<seq<string>>, k: int, e: int)
    requires 0 <= k < |batches| && 0 <= e <= |batches[k]|
    ensures |Flatten(batches[..k])| + e <= |Flatten(batches)|
    ensures Flatten(batches)[..|Flatten(batches[..k])| + e] == Flatten(batches[..k]) + batches[k][..e]
  {
    assert batches == batches[..k] + ([batches[k]] + batches[k + 1..]);
    FlattenAppend(batches[..k], [batches[k]] + batches[k + 1..]);
    FlattenAppend([batches[k]], batches[k + 1..]);
    assert Flatten([batches[k]]) == batches[k] by {
      assert [batches[k]][..0] == [];
    }
  }

  /** Batch `k` follows the batches before it in `Flatten(batches)`. */
  lemma FlattenStep(batches: seq<seq<string>>, k: int, e: int)
    requires 0 <= k < |batches| && 0 <= e <= |batches[k]|
    ensures |Flatten(batches[..k])| + |batches[k]| == |Flatten(batches[..k + 1])| <= |Flatten(batches)|
    ensures Flatten(batches)[..|Flatten(batches[..k])|] == Flatten(batches[..k])
    ensures Flatten(batches)[..|Flatten(batches[..k])| + e] == Flatten(batches[..k]) + batches[k][..e]
  {
    FlattenPrefix(batches, k, 0);
    FlattenPrefix(batches, k, e);
    assert batches[..k + 1] == batches[..k] + [batches[k]];
    FlattenAppend(batches[..k], [batches[k]]);
    assert [batches[k]][..0] == [];
    assert batches[k][..|batches[k]|] == batches[k];
    if k + 1 < |batches| {
      FlattenPrefix(batches, k + 1, 0);
    } else {
      assert batches[..k + 1] == batches;
    }
  }

  /** `verdicts` are the verdicts on the examined `candidates`, `genned`
      holds the accepted ones, and examining stopped in time. */
  ghost predicate Examined(c: Criteria, edgeBuffer: string, cornerBuffer: string,
                           candidates: seq<string>, verdicts: seq<bool>, genned: seq<string>, numCust: int)
  {
    && Judged(c, edgeBuffer, cornerBuffer, candidates, verdicts)
    && genned == KeptBy(candidates, verdicts)
    && StoppedInTime(0, candidates, verdicts, numCust)
  }

  /** Judging, keeping and stopping in time carry over from the candidates
      examined so far and a run examined after them to both together. */
  lemma RunExamined(c: Criteria, edgeBuffer: string, cornerBuffer: string,
                    before: seq<string>, verdicts: seq<bool>, genned: seq<string>,
                    run: seq<string>, v: seq<bool>, genned': seq<string>, numCust: int)
    requires Examined(c, edgeBuffer, cornerBuffer, before, verdicts, genned, numCust)
    requires Judged(c, edgeBuffer, cornerBuffer, run, v)
    requires genned' == genned + KeptBy(run, v)
    requires StoppedInTime(|genned|, run, v, numCust)
    ensures Examined(c, edgeBuffer, cornerBuffer, before + run, verdicts + v, genned', numCust)
  {
    JudgedAppend(c, edgeBuffer, cornerBuffer, before, verdicts, run, v);
    StoppedInTimeAppend(0, before, verdicts, run, v, numCust);
    KeptByAppend(before, verdicts, run, v);
  }

  /** What the outer loop knows after `k` fetched batches: `examined`
      candidates, a prefix of all of them, were examined in time with
      `verdicts`, the first `k` batches in full unless `numCust` are kept,
      and nothing was fetched when `numCust` is not positive. */
  ghost predicate Fetched(c: Criteria, edgeBuffer: string, cornerBuffer: string, batches: seq<seq<string>>,
                          numCust: int, k: int, examined: nat, verdicts: seq<bool>, genned: seq<string>)
  {
    && 0 <= k <= |batches|
    && examined <= |Flatten(batches[..k])| <= |Flatten(batches)|
    && Examined(c, edgeBuffer, cornerBuffer, Flatten(batches)[..examined], verdicts, genned, numCust)
    && |genned| <= (if numCust > 0 then numCust else 0)
    && (|genned| < numCust ==> examined == |Flatten(batches[..k])|)
    && (numCust <= 0 ==> k == 0 && examined == 0)
    && (k > 0 && |genned| >= numCust ==> |Flatten(batches[..k])| - |batches[k - 1]| < examined)
  }

  /** Filtering one more batch, as `FilterBatch` promises, keeps what the
      outer loop knows. */
  lemma FetchStep(c: Criteria, edgeBuffer: string, cornerBuffer: string, batches: seq<seq<string>>,
                  numCust: int, k: int, examined: nat, verdicts: seq<bool>, genned: seq<string>,
                  e: nat, v: seq<bool>, genned': seq<string>, examined': nat, verdicts': seq<bool>)
    requires Fetched(c, edgeBuffer, cornerBuffer, batches, numCust, k, examined, verdicts, genned)
    requires k < |batches| && |genned| < numCust
    requires e <= |batches[k]| && Judged(c, edgeBuffer, cornerBuffer, batches[k][..e], v)
    requires genned' == genned + KeptBy(batches[k][..e], v)
    requires |genned'| <= numCust && (e < |batches[k]| ==> |genned'| == numCust)
    requires StoppedInTime(|genned|, batches[k][..e], v, numCust)
    requires examined' == examined + e && verdicts' == verdicts + v
    ensures Fetched(c, edgeBuffer, cornerBuffer, batches, numCust, k + 1, examined', verdicts', genned')
  {
    FlattenStep(batches, k, e);
    RunExamined(c, edgeBuffer, cornerBuffer, Flatten(batches)[..examined], verdicts, genned,
                batches[k][..e], v, genned', numCust);
  }

  /** The outer loop of `genScrambles` over the batches it fetches. The
      timeout test after each batch is the input `timedOut`; the model also
      stops when the given batches run out. `count` starts at `numRand`
      and counts the examined candidates, which are a prefix of all the
      candidates; `genned` holds the accepted ones among them in order,
      never more than `numCust`, and no candidate is examined once
      `numCust` are kept. `fetched` batches are fetched: every one of them
      is examined in full unless `numCust` are kept, none but the last
      timed out, and fetching stops early only when `numCust` are kept or
      right after a batch that timed out. Once `numCust` are kept no batch
      is fetched: when they are, the last of them was kept from the last
      fetched batch. */
  method GenScrambles(numCust: int, numRand: int, edgeBuffer: string, cornerBuffer: string,
                      c: Criteria, batches: seq<seq<string>>, timedOut: seq<bool>)
    returns (genned: seq<string>, count: int, ghost examined: nat, ghost verdicts: seq<bool>, ghost fetched: nat)
    requires |timedOut| == |batches|
    ensures examined <= |Flatten(batches)| && count == numRand + examined
    ensures Judged(c, edgeBuffer, cornerBuffer, Flatten(batches)[..examined], verdicts)
    ensures genned == KeptBy(Flatten(batches)[..examined], verdicts)
    ensures |genned| <= if numCust > 0 then numCust else 0
    ensures StoppedInTime(0, Flatten(batches)[..examined], verdicts, numCust)
    ensures fetched <= |batches| && examined <= |Flatten(batches[..fetched])|
    ensures |genned| < numCust ==> examined == |Flatten(batches[..fetched])|
    ensures forall i :: 0 <= i < fetched - 1 ==> !timedOut[i]
    ensures fetched < |batches| ==> |genned| >= numCust || (fetched > 0 && timedOut[fetched - 1])
    ensures fetched > 0 && |genned| >= numCust ==> |Flatten(batches[..fetched])| - |batches[fetched - 1]| < examined
    ensures numCust <= 0 ==> fetched == 0 && examined == 0
  {
    genned, count, examined, verdicts := [], numRand, 0, [];
    var k := 0;
    assert Flatten(batches[..0]) == [];
    while |genned| < numCust && k < |batches|
      invariant Fetched(c, edgeBuffer, cornerBuffer, batches, numCust, k, examined, verdicts, genned)
      invariant count == numRand + examined
      invariant forall i :: 0 <= i < k ==> !timedOut[i]
    {
      var batch := batches[k];
      ghost var e, v;
      ghost var genned0 := genned;
      ghost var examined0, verdicts0 := examined, verdicts;
      genned, count, e, v := FilterBatch(batch, numCust, edgeBuffer, cornerBuffer, c, genned, count);
      examined, verdicts := examined + e, verdicts + v;
      FetchStep(c, edgeBuffer, cornerBuffer, batches, numCust, k, examined0, verdicts0, genned0, e, v, genned,
                examined, verdicts);
      k := k + 1;
      if timedOut[k - 1] {
        break;
      }
    }
    fetched := k;
  }
}
