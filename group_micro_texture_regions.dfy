/**
 * The micro-texture grouping filter: features (grains) of a hexagonal phase
 * whose c-axes are aligned within a tolerance are gathered into parent
 * groups. The filter's state is a set of per-cell and per-feature arrays; the
 * ones it writes (cell parent ids, feature parent ids) are arrays, the ones it
 * only reads are sequences fixed at construction.
 *
 * The base-class grouping pass that drives `GetSeed` and `DetermineGrouping`
 * is not part of this model, so `execute` is modelled as the part before that
 * pass (`BeginExecute`) and the part after it (`FinishExecute`). Random draws
 * are parameters.
 */
module MicroTextureGrouping {
  import opened OrientationMath

  /** Parent id of a feature not yet placed in any group. */
  const Unassigned: int := -1

  /** The crystal-structure enumerant of the high-symmetry hexagonal class (6/mmm). */
  const HexagonalHigh: nat := 0

  /** Error code raised when the grouping pass produced fewer than two groups. */
  const TooFewGroupsError: int := -87000

  // ---------------------------------------------------------------------------
  // C-axis alignment

  /** The crystal c-axis [0 0 1] expressed in the sample frame, normalized. */
  function CAxis(k: Kernels, q: Quat): Vec3
  {
    k.normalize(MatVec(Transpose(k.quatToMat(q)), Vec3(0.0, 0.0, 1.0)))
  }

  /**
   * Angle between two c-axes: the arc cosine of their cosine, which is
   * first bounded to [-1, 1] so that a rounding overshoot saturates.
   */
  function CAxisMisalignment(k: Kernels, a: Vec3, b: Vec3): (w: real)
    ensures -1.0 <= k.cosThetaBetween(a, b) <= 1.0 ==> w == k.acos(k.cosThetaBetween(a, b))
    ensures k.cosThetaBetween(a, b) > 1.0 ==> w == k.acos(1.0)
    ensures k.cosThetaBetween(a, b) < -1.0 ==> w == k.acos(-1.0)
    ensures AcosInRange(k) ==> 0.0 <= w <= Pi
  {
    var cosine := Clamp(k.cosThetaBetween(a, b));
    k.acos(cosine)
  }

  /**
   * C-axes are non-polar: two axes are aligned when their angle, or its
   * supplement, is within the tolerance.
   */
  predicate AlignedWithin(w: real, tolerance: real)
  {
    w <= tolerance || Pi - w <= tolerance
  }

  /** Alignment does not distinguish an axis from its reversal. */
  lemma AlignedWithinIsNonPolar(w: real, tolerance: real)
    ensures AlignedWithin(w, tolerance) <==> AlignedWithin(Pi - w, tolerance)
  {
  }

  /** The tolerance entered in degrees, converted to radians. */
  function DegreesToRadians(degrees: real): (radians: real)
    ensures radians * 180.0 == degrees * Pi
  {
    degrees * Pi / 180.0
  }

  // ---------------------------------------------------------------------------
  // Seed scan

  /**
   * The feature examined at step `counter` of the seed scan: consecutive
   * indices from `start`, wrapping once past the last feature.
   */
  function ScanPosition(start: nat, counter: nat, n: nat): (f: nat)
    requires start < n && counter < n
    ensures f < n
  {
    if start + counter > n - 1 then start + counter - n else start + counter
  }

  /** The scan visits the indices start, start + 1, ... modulo the feature count. */
  lemma ScanPositionIsModular(start: nat, counter: nat, n: nat)
    requires start < n && counter < n
    ensures ScanPosition(start, counter, n) == (start + counter) % n
  {
    var a := start + counter;
    if a >= n {
      assert a == (a - n) + n * 1;
    } else {
      assert a == a + n * 0;
    }
  }

  /** The first feature from scan step `counter` on whose parent id is unassigned, or -1. */
  function ScanFrom(parents: seq<int>, start: nat, counter: nat): (seed: int)
    requires start < |parents| || |parents| == 0
    ensures -1 <= seed < |parents|
    ensures seed >= 0 ==> parents[seed] == Unassigned
    decreases |parents| - counter
  {
    if counter >= |parents| then -1
    else if parents[ScanPosition(start, counter, |parents|)] == Unassigned then ScanPosition(start, counter, |parents|)
    else ScanFrom(parents, start, counter + 1)
  }

  /** The seed the scan finds when it starts at `start`. */
  function FirstUnassigned(parents: seq<int>, start: nat): (seed: int)
    requires start < |parents| || |parents| == 0
  {
    ScanFrom(parents, start, 0)
  }

  /** Every feature is examined by the scan at some step below n. */
  lemma ScanReachesEveryFeature(start: nat, n: nat, f: nat)
    requires start < n && f < n
    ensures exists c :: 0 <= c < n && ScanPosition(start, c, n) == f
  {
    var c := if f >= start then f - start else f + n - start;
    assert ScanPosition(start, c, n) == f;
  }

  /**
   * The scan from step `counter` on finds nothing exactly when every feature
   * examined from that step on is assigned, and what it finds is the first
   * unassigned one in scan order.
   */
  lemma {:induction false} ScanFromIsFirst(parents: seq<int>, start: nat, counter: nat)
    requires start < |parents|
    requires counter <= |parents|
    ensures ScanFrom(parents, start, counter) == -1 <==>
              forall c :: counter <= c < |parents| ==> parents[ScanPosition(start, c, |parents|)] != Unassigned
    ensures ScanFrom(parents, start, counter) >= 0 ==>
              exists c :: counter <= c < |parents| && ScanFrom(parents, start, counter) == ScanPosition(start, c, |parents|) &&
                forall d :: counter <= d < c ==> parents[ScanPosition(start, d, |parents|)] != Unassigned
    decreases |parents| - counter
  {
    if counter < |parents| {
      ScanFromIsFirst(parents, start, counter + 1);
      if parents[ScanPosition(start, counter, |parents|)] != Unassigned {
        var r := ScanFrom(parents, start, counter + 1);
        if r >= 0 {
          var c :| counter + 1 <= c < |parents| && r == ScanPosition(start, c, |parents|) &&
                   forall d :: counter + 1 <= d < c ==> parents[ScanPosition(start, d, |parents|)] != Unassigned;
          assert forall d :: counter <= d < c ==> parents[ScanPosition(start, d, |parents|)] != Unassigned;
        }
      }
    }
  }

  /**
   * The seed is -1 exactly when no feature is unassigned; otherwise it is an
   * unassigned feature and every feature the scan passed before it is assigned.
   */
  lemma SeedIsFirstUnassigned(parents: seq<int>, start: nat)
    requires start < |parents| || |parents| == 0
    ensures FirstUnassigned(parents, start) == -1 <==> forall f :: 0 <= f < |parents| ==> parents[f] != Unassigned
    ensures FirstUnassigned(parents, start) >= 0 ==>
              parents[FirstUnassigned(parents, start)] == Unassigned &&
              exists c :: 0 <= c < |parents| && FirstUnassigned(parents, start) == ScanPosition(start, c, |parents|) &&
                forall d :: 0 <= d < c ==> parents[ScanPosition(start, d, |parents|)] != Unassigned
  {
    if |parents| > 0 {
      ScanFromIsFirst(parents, start, 0);
      if FirstUnassigned(parents, start) == -1 {
        forall f | 0 <= f < |parents|
          ensures parents[f] != Unassigned
        {
          ScanReachesEveryFeature(start, |parents|, f);
        }
      }
    }
  }

  // ---------------------------------------------------------------------------
  // Shuffle of the new group ids

  /** The identity labelling 0, 1, ..., n - 1. */
  function Iota(n: nat): (ids: seq<int>)
    ensures |ids| == n
  {
    if n == 0 then [] else Iota(n - 1) + [n - 1]
  }

  /** Shuffle step i with draw r: exchange entries i and r, skipped when r is out of range. */
  function SwapStep(ids: seq<int>, i: nat, r: nat): (next: seq<int>)
    requires i < |ids|
    ensures |next| == |ids|
  {
    if r >= |ids| then ids else ids[i := ids[r]][r := ids[i]]
  }

  /** An exchange keeps every id. */
  lemma SwapStepPermutes(ids: seq<int>, i: nat, r: nat)
    requires i < |ids|
    ensures multiset(SwapStep(ids, i, r)) == multiset(ids)
  {
  }

  /** Shuffle steps i, i + 1, ..., |ids| - 1, step j using draw rands[j - 1]. */
  function SwapSteps(ids: seq<int>, i: nat, rands: seq<nat>): (result: seq<int>)
    requires 1 <= i
    requires |ids| <= |rands| + 1
    ensures |result| == |ids|
    decreases |ids| - i
  {
    if i >= |ids| then ids else SwapSteps(SwapStep(ids, i, rands[i - 1]), i + 1, rands)
  }

  /** The relabelling permutation built from the identity by the swap shuffle. */
  function Shuffled(n: nat, rands: seq<nat>): (ids: seq<int>)
    requires n <= |rands| + 1
    ensures |ids| == n
  {
    SwapSteps(Iota(n), 1, rands)
  }

  lemma {:induction false} SwapStepsPermutes(ids: seq<int>, i: nat, rands: seq<nat>)
    requires 1 <= i
    requires |ids| <= |rands| + 1
    ensures multiset(SwapSteps(ids, i, rands)) == multiset(ids)
    decreases |ids| - i
  {
    if i < |ids| {
      SwapStepPermutes(ids, i, rands[i - 1]);
      SwapStepsPermutes(SwapStep(ids, i, rands[i - 1]), i + 1, rands);
    }
  }

  /**
   * The shuffled labelling is a permutation of 0 .. n - 1: it holds each of
   * those ids exactly once, and nothing else.
   */
  lemma ShuffleIsPermutation(n: nat, rands: seq<nat>)
    requires n <= |rands| + 1
    ensures multiset(Shuffled(n, rands)) == multiset(Iota(n))
    ensures forall i :: 0 <= i < n ==> 0 <= Shuffled(n, rands)[i] < n
    ensures forall g :: 0 <= g < n ==> multiset(Shuffled(n, rands))[g] == 1
  {
    var ids := Shuffled(n, rands);
    SwapStepsPermutes(Iota(n), 1, rands);
    forall i | 0 <= i < n
      ensures 0 <= ids[i] < n
    {
      assert ids[i] in multiset(ids);
      assert ids[i] in Iota(n);
    }
    forall g | 0 <= g < n
      ensures multiset(ids)[g] == 1
    {
      IotaCountsOnce(n, g);
    }
  }

  lemma {:induction false} IotaCountsOnce(n: nat, g: int)
    ensures multiset(Iota(n))[g] == if 0 <= g < n then 1 else 0
  {
    if n > 0 {
      IotaCountsOnce(n - 1, g);
      assert Iota(n) == Iota(n - 1) + [n - 1];
    }
  }

  // ---------------------------------------------------------------------------
  // Relabelling of features after the shuffle

  /** Cell-indexed arrays index the feature array, for the first m cells. */
  ghost predicate FeaturesInRange(featureIds: seq<int>, m: nat, numFeatures: nat)
  {
    m <= |featureIds| && forall k :: 0 <= k < m ==> 0 <= featureIds[k] < numFeatures
  }

  /** Parent ids of the first m cells index the shuffled labelling. */
  ghost predicate ParentsInRange(cellParents: seq<int>, m: nat, numGroups: nat)
  {
    m <= |cellParents| && forall k :: 0 <= k < m ==> 0 <= cellParents[k] < numGroups
  }

  /**
   * Feature parent ids after the relabelling loop visited cells 0 .. m - 1:
   * each visit sets the parent of the cell's feature to the relabelled parent
   * of the cell, so the last cell of a feature decides.
   */
  function RelabelFeatures(featureParents: seq<int>, featureIds: seq<int>, cellParents: seq<int>, ids: seq<int>, m: nat): (result: seq<int>)
    requires FeaturesInRange(featureIds, m, |featureParents|)
    requires ParentsInRange(cellParents, m, |ids|)
    ensures |result| == |featureParents|
  {
    if m == 0 then featureParents
    else RelabelFeatures(featureParents, featureIds, cellParents, ids, m - 1)[featureIds[m - 1] := ids[cellParents[m - 1]]]
  }

  /** A feature none of the first m cells belongs to keeps its parent id. */
  lemma {:induction false} RelabelKeepsUntouchedFeatures(featureParents: seq<int>, featureIds: seq<int>, cellParents: seq<int>,
                                                        ids: seq<int>, m: nat, f: int)
    requires FeaturesInRange(featureIds, m, |featureParents|)
    requires ParentsInRange(cellParents, m, |ids|)
    requires 0 <= f < |featureParents|
    requires forall k :: 0 <= k < m ==> featureIds[k] != f
    ensures RelabelFeatures(featureParents, featureIds, cellParents, ids, m)[f] == featureParents[f]
  {
    if m > 0 {
      RelabelKeepsUntouchedFeatures(featureParents, featureIds, cellParents, ids, m - 1, f);
    }
  }

  /** A feature's new parent id is the relabelled parent of its last cell. */
  lemma {:induction false} RelabelLastCellDecides(featureParents: seq<int>, featureIds: seq<int>, cellParents: seq<int>,
                                                 ids: seq<int>, m: nat, k: nat)
    requires FeaturesInRange(featureIds, m, |featureParents|)
    requires ParentsInRange(cellParents, m, |ids|)
    requires k < m
    requires forall j :: k < j < m ==> featureIds[j] != featureIds[k]
    ensures RelabelFeatures(featureParents, featureIds, cellParents, ids, m)[featureIds[k]] == ids[cellParents[k]]
  {
    if k < m - 1 {
      RelabelLastCellDecides(featureParents, featureIds, cellParents, ids, m - 1, k);
    }
  }

  /** Every one of the first m cells carries its feature's parent id. */
  ghost predicate Consistent(cellParents: seq<int>, featureParents: seq<int>, featureIds: seq<int>, m: nat)
  {
    m <= |cellParents| && FeaturesInRange(featureIds, m, |featureParents|) &&
    forall k :: 0 <= k < m ==> cellParents[k] == featureParents[featureIds[k]]
  }

  /**
   * When every cell carries its feature's parent id, relabelling keeps it so:
   * each cell's new parent is the new parent of its feature.
   */
  lemma {:induction false} RelabelKeepsConsistency(featureParents: seq<int>, featureIds: seq<int>, cellParents: seq<int>,
                                                  ids: seq<int>, m: nat)
    requires Consistent(cellParents, featureParents, featureIds, m)
    requires ParentsInRange(cellParents, m, |ids|)
    ensures forall k :: 0 <= k < m ==>
              ids[cellParents[k]] == RelabelFeatures(featureParents, featureIds, cellParents, ids, m)[featureIds[k]]
  {
    if m > 0 {
      RelabelKeepsConsistency(featureParents, featureIds, cellParents, ids, m - 1);
      var prev := RelabelFeatures(featureParents, featureIds, cellParents, ids, m - 1);
      var cur := RelabelFeatures(featureParents, featureIds, cellParents, ids, m);
      assert cur == prev[featureIds[m - 1] := ids[cellParents[m - 1]]];
      forall k | 0 <= k < m
        ensures ids[cellParents[k]] == cur[featureIds[k]]
      {
        if featureIds[k] == featureIds[m - 1] {
          assert cellParents[k] == cellParents[m - 1];
        }
      }
    }
  }

  /** The cell parent ids the propagation loop of `execute` produces. */
  function Propagated(featureParents: seq<int>, featureIds: seq<int>): (cellParents: seq<int>)
    requires FeaturesInRange(featureIds, |featureIds|, |featureParents|)
    ensures Consistent(cellParents, featureParents, featureIds, |featureIds|)
  {
    seq(|featureIds|, k requires 0 <= k < |featureIds| => featureParents[featureIds[k]])
  }

  /**
   * Builds the relabelling array: the identity 0 .. n - 1, then for
   * i = 1 .. n - 1 an exchange of entries i and rands[i - 1], skipped when the
   * draw is out of range.
   */
  method NewGroupIds(n: nat, rands: seq<nat>) returns (gid: array<int>)
    requires 1 <= n <= |rands| + 1
    ensures fresh(gid)
    ensures gid[..] == Shuffled(n, rands)
  {
    gid := new int[n];
    gid[0] := 0;
    var i := 1;
    while i < n
      invariant 1 <= i <= n
      invariant gid[..i] == Iota(i)
    {
      gid[i] := i;
      assert gid[..i + 1] == gid[..i] + [i];
      i := i + 1;
    }
    assert gid[..] == gid[..n];
    ShuffleIds(gid, rands);
  }

  /** The swap loop: step i exchanges entries i and rands[i - 1] when the draw is in range. */
  method ShuffleIds(gid: array<int>, rands: seq<nat>)
    requires 1 <= gid.Length <= |rands| + 1
    modifies gid
    ensures gid[..] == SwapSteps(old(gid[..]), 1, rands)
  {
    var i := 1;
    while i < gid.Length
      invariant 1 <= i <= gid.Length
      invariant SwapSteps(gid[..], i, rands) == SwapSteps(old(gid[..]), 1, rands)
    {
      var r := rands[i - 1];
      ghost var before := gid[..];
      if r < gid.Length {
        var temp := gid[i];
        gid[i] := gid[r];
        gid[r] := temp;
      }
      assert gid[..] == SwapStep(before, i, r);
      i := i + 1;
    }
  }

  // ---------------------------------------------------------------------------
  // The filter

  class GroupMicroTextureRegions {
    const kernels: Kernels
    /** Feature id of every cell. */
    const featureIds: seq<int>
    /** Phase of every feature; phase 0 is not a crystal phase. */
    const featurePhases: seq<int>
    /** Crystal structure of every phase. */
    const crystalStructures: seq<nat>
    const volumes: seq<real>
    const avgQuats: seq<Quat>
    const useRunningAverage: bool
    const randomizeParentIds: bool
    const cellParentIds: array<int>
    const featureParentIds: array<int>
    /** The c-axis tolerance: degrees as entered, radians once `execute` has begun. */
    var cAxisTolerance: real
    /** Volume-weighted sum of the c-axes of the group being grown (running average). */
    var avgCaxes: Vec3
    var errorCondition: int

    /** Array sizes agree and every stored id indexes the array it refers to. */
    ghost predicate Valid()
    {
      cellParentIds != featureParentIds &&
      cellParentIds.Length == |featureIds| &&
      |featurePhases| == featureParentIds.Length && |volumes| == featureParentIds.Length && |avgQuats| == featureParentIds.Length &&
      FeaturesInRange(featureIds, |featureIds|, featureParentIds.Length) &&
      forall f :: 0 <= f < |featurePhases| ==> featurePhases[f] < |crystalStructures|
    }

    constructor(kernels: Kernels, featureIds: seq<int>, featurePhases: seq<int>, crystalStructures: seq<nat>,
                volumes: seq<real>, avgQuats: seq<Quat>, cellParentIds: array<int>, featureParentIds: array<int>,
                cAxisTolerance: real, useRunningAverage: bool, randomizeParentIds: bool)
      requires cellParentIds != featureParentIds
      requires cellParentIds.Length == |featureIds|
      requires |featurePhases| == featureParentIds.Length && |volumes| == featureParentIds.Length && |avgQuats| == featureParentIds.Length
      requires FeaturesInRange(featureIds, |featureIds|, featureParentIds.Length)
      requires forall f :: 0 <= f < |featurePhases| ==> featurePhases[f] < |crystalStructures|
      ensures Valid()
      ensures this.kernels == kernels && this.featureIds == featureIds && this.featurePhases == featurePhases
      ensures this.crystalStructures == crystalStructures && this.volumes == volumes && this.avgQuats == avgQuats
      ensures this.cellParentIds == cellParentIds && this.featureParentIds == featureParentIds
      ensures this.cAxisTolerance == cAxisTolerance && this.useRunningAverage == useRunningAverage
      ensures this.randomizeParentIds == randomizeParentIds
      ensures avgCaxes == Vec3(0.0, 0.0, 0.0) && errorCondition == 0
    {
      this.kernels := kernels;
      this.featureIds := featureIds;
      this.featurePhases := featurePhases;
      this.crystalStructures := crystalStructures;
      this.volumes := volumes;
      this.avgQuats := avgQuats;
      this.cellParentIds := cellParentIds;
      this.featureParentIds := featureParentIds;
      this.cAxisTolerance := cAxisTolerance;
      this.useRunningAverage := useRunningAverage;
      this.randomizeParentIds := randomizeParentIds;
      avgCaxes := Vec3(0.0, 0.0, 0.0);
      errorCondition := 0;
    }

    /**
     * The axis a candidate neighbour is compared with: the group's running
     * sum of c-axes, or the reference feature's own c-axis.
     */
    function ReferenceAxis(reference: nat): Vec3
      reads this
      requires Valid() && reference < featureParentIds.Length
    {
      if useRunningAverage then avgCaxes else CAxis(kernels, avgQuats[reference])
    }

    /**
     * The grouping rule: the neighbour is still unassigned, both features
     * have a crystal phase, both are of the high-symmetry hexagonal class
     * (with the running average only the neighbour's class is looked at),
     * and its c-axis is aligned with the reference axis within the tolerance.
     */
    predicate Accepts(reference: nat, neighbor: nat)
      reads this, featureParentIds
      requires Valid() && reference < featureParentIds.Length && neighbor < featureParentIds.Length
    {
      featureParentIds[neighbor] == Unassigned &&
      featurePhases[reference] > 0 && featurePhases[neighbor] > 0 &&
      crystalStructures[featurePhases[neighbor]] == HexagonalHigh &&
      (!useRunningAverage ==> crystalStructures[featurePhases[reference]] == HexagonalHigh) &&
      AlignedWithin(CAxisMisalignment(kernels, ReferenceAxis(reference), CAxis(kernels, avgQuats[neighbor])), cAxisTolerance)
    }

    /**
     * Decides whether `neighbor` joins group `newFid`; when it does, its parent
     * id becomes `newFid` and, with the running average, its volume-weighted
     * c-axis is added to the group's sum. Nothing else changes.
     */
    method DetermineGrouping(reference: nat, neighbor: nat, newFid: int) returns (grouped: bool)
      requires Valid() && reference < featureParentIds.Length && neighbor < featureParentIds.Length
      modifies this, featureParentIds
      ensures grouped == old(Accepts(reference, neighbor))
      ensures grouped ==> featureParentIds[..] == old(featureParentIds[..])[neighbor := newFid]
      ensures !grouped ==> featureParentIds[..] == old(featureParentIds[..])
      ensures avgCaxes == if grouped && useRunningAverage
                          then Add(old(avgCaxes), Scale(CAxis(kernels, avgQuats[neighbor]), volumes[neighbor]))
                          else old(avgCaxes)
      ensures cAxisTolerance == old(cAxisTolerance) && errorCondition == old(errorCondition)
    {
      grouped := false;
      if featureParentIds[neighbor] == Unassigned && featurePhases[reference] > 0 && featurePhases[neighbor] > 0 {
        var phase1: nat := 0;
        var c1 := Vec3(0.0, 0.0, 0.0);
        if !useRunningAverage {
          c1 := CAxis(kernels, avgQuats[reference]);
          phase1 := crystalStructures[featurePhases[reference]];
        }
        var phase2 := crystalStructures[featurePhases[neighbor]];
        if phase1 == phase2 && phase1 == HexagonalHigh {
          var c2 := CAxis(kernels, avgQuats[neighbor]);
          var w;
          if useRunningAverage {
            w := kernels.cosThetaBetween(avgCaxes, c2);
          } else {
            w := kernels.cosThetaBetween(c1, c2);
          }
          w := Clamp(w);
          w := kernels.acos(w);
          if w <= cAxisTolerance || Pi - w <= cAxisTolerance {
            featureParentIds[neighbor] := newFid;
            if useRunningAverage {
              avgCaxes := Add(avgCaxes, Scale(c2, volumes[neighbor]));
            }
            grouped := true;
          }
        }
      }
    }

    /**
     * Starts a new group `newFid`: scans at most every feature once, from the
     * drawn index `start` with wrap-around, for the first unassigned feature;
     * that feature's parent id becomes `newFid` and, with the running average,
     * the group's c-axis sum restarts from its volume-weighted c-axis. Returns
     * -1, changing nothing, when every feature is assigned.
     */
    method GetSeed(newFid: int, start: nat) returns (seed: int)
      requires Valid()
      requires start < featureParentIds.Length || featureParentIds.Length == 0
      modifies this, featureParentIds
      ensures seed == FirstUnassigned(old(featureParentIds[..]), start)
      ensures seed >= 0 ==> featureParentIds[..] == old(featureParentIds[..])[seed := newFid]
      ensures seed < 0 ==> featureParentIds[..] == old(featureParentIds[..])
      ensures avgCaxes == if 0 <= seed < featureParentIds.Length && useRunningAverage
                          then Scale(CAxis(kernels, avgQuats[seed]), volumes[seed])
                          else old(avgCaxes)
      ensures errorCondition == 0 && cAxisTolerance == old(cAxisTolerance)
    {
      errorCondition := 0;
      var numFeatures := featureParentIds.Length;
      ghost var parents := featureParentIds[..];
      seed := -1;
      var randFeature: int := start;
      var counter := 0;
      while seed == -1 && counter < numFeatures
        invariant 0 <= counter <= numFeatures
        invariant counter < numFeatures ==> randFeature == (if start + counter > numFeatures then start + counter - numFeatures else start + counter)
        invariant seed == -1 ==> ScanFrom(parents, start, counter) == ScanFrom(parents, start, 0)
        invariant seed != -1 ==> seed == ScanFrom(parents, start, 0) && 0 <= seed < numFeatures
        invariant featureParentIds[..] == parents
      {
        if randFeature > numFeatures - 1 {
          randFeature := randFeature - numFeatures;
        }
        assert randFeature == ScanPosition(start, counter, numFeatures);
        if featureParentIds[randFeature] == Unassigned {
          seed := randFeature;
        }
        randFeature := randFeature + 1;
        counter := counter + 1;
      }
      if seed >= 0 {
        featureParentIds[seed] := newFid;
        if useRunningAverage {
          var c1 := CAxis(kernels, avgQuats[seed]);
          avgCaxes := Scale(c1, volumes[seed]);
        }
      }
    }

    /**
     * Replaces the group ids by a random permutation of 0 .. totalFeatures - 1:
     * each of the first totalPoints cells gets the image of its parent id, and
     * each feature met takes the new parent id of the last of its cells.
     */
    method RandomizeFeatureIds(totalPoints: nat, totalFeatures: nat, rands: seq<nat>)
      requires Valid()
      requires totalPoints <= |featureIds|
      requires 1 <= totalFeatures <= |rands| + 1
      requires ParentsInRange(cellParentIds[..], totalPoints, totalFeatures)
      modifies cellParentIds, featureParentIds
      ensures forall k :: 0 <= k < totalPoints ==> cellParentIds[k] == Shuffled(totalFeatures, rands)[old(cellParentIds[k])]
      ensures forall k :: totalPoints <= k < cellParentIds.Length ==> cellParentIds[k] == old(cellParentIds[k])
      ensures featureParentIds[..] == RelabelFeatures(old(featureParentIds[..]), featureIds, old(cellParentIds[..]),
                                                      Shuffled(totalFeatures, rands), totalPoints)
    {
      var gid := NewGroupIds(totalFeatures, rands);
      ghost var ids := gid[..];
      ghost var cells := cellParentIds[..];
      ghost var features := featureParentIds[..];

      var p := 0;
      while p < totalPoints
        invariant 0 <= p <= totalPoints
        invariant gid[..] == ids
        invariant forall k :: 0 <= k < p ==> cellParentIds[k] == ids[cells[k]]
        invariant forall k :: p <= k < cellParentIds.Length ==> cellParentIds[k] == cells[k]
        invariant featureParentIds[..] == RelabelFeatures(features, featureIds, cells, ids, p)
      {
        cellParentIds[p] := gid[cellParentIds[p]];
        featureParentIds[featureIds[p]] := cellParentIds[p];
        p := p + 1;
      }
    }

    /**
     * The part of `execute` before the grouping pass: clears the error, turns
     * the tolerance from degrees into radians and zeroes the c-axis sum.
     */
    method BeginExecute()
      modifies this
      ensures errorCondition == 0
      ensures cAxisTolerance == DegreesToRadians(old(cAxisTolerance))
      ensures avgCaxes == Vec3(0.0, 0.0, 0.0)
    {
      errorCondition := 0;
      cAxisTolerance := DegreesToRadians(cAxisTolerance);
      avgCaxes := Vec3(0.0, 0.0, 0.0);
    }

    /**
     * The part of `execute` after the grouping pass, which created
     * `totalFeatures` groups. Fewer than two groups is an error and nothing is
     * written. Otherwise every cell receives its feature's parent id, and the
     * group ids are then optionally shuffled; either way each cell ends up
     * carrying its feature's parent id.
     */
    method FinishExecute(totalFeatures: nat, rands: seq<nat>)
      requires Valid()
      requires randomizeParentIds ==> totalFeatures <= |rands| + 1
      requires randomizeParentIds && 2 <= totalFeatures ==>
                 ParentsInRange(Propagated(featureParentIds[..], featureIds), |featureIds|, totalFeatures)
      modifies this, cellParentIds, featureParentIds
      ensures totalFeatures < 2 ==>
                errorCondition == TooFewGroupsError &&
                cellParentIds[..] == old(cellParentIds[..]) && featureParentIds[..] == old(featureParentIds[..])
      ensures 2 <= totalFeatures ==> errorCondition == old(errorCondition)
      ensures 2 <= totalFeatures && !randomizeParentIds ==>
                cellParentIds[..] == Propagated(old(featureParentIds[..]), featureIds) &&
                featureParentIds[..] == old(featureParentIds[..])
      ensures 2 <= totalFeatures && randomizeParentIds ==>
                (forall k :: 0 <= k < |featureIds| ==>
                   cellParentIds[k] == Shuffled(totalFeatures, rands)[old(featureParentIds[featureIds[k]])]) &&
                featureParentIds[..] == RelabelFeatures(old(featureParentIds[..]), featureIds,
                                                        Propagated(old(featureParentIds[..]), featureIds),
                                                        Shuffled(totalFeatures, rands), |featureIds|)
      ensures 2 <= totalFeatures ==> Consistent(cellParentIds[..], featureParentIds[..], featureIds, |featureIds|)
      ensures cAxisTolerance == old(cAxisTolerance) && avgCaxes == old(avgCaxes)
    {
      if totalFeatures < 2 {
        errorCondition := TooFewGroupsError;
        return;
      }
      var totalPoints := cellParentIds.Length;
      ghost var features := featureParentIds[..];
      var k := 0;
      while k < totalPoints
        modifies cellParentIds
        invariant 0 <= k <= totalPoints
        invariant featureParentIds[..] == features
        invariant forall j :: 0 <= j < k ==> cellParentIds[j] == features[featureIds[j]]
      {
        var featureName := featureIds[k];
        cellParentIds[k] := featureParentIds[featureName];
        k := k + 1;
      }
      assert cellParentIds[..] == Propagated(features, featureIds);
      if randomizeParentIds {
        ghost var cells := cellParentIds[..];
        RandomizeFeatureIds(totalPoints, totalFeatures, rands);
        RelabelKeepsConsistency(features, featureIds, cells, Shuffled(totalFeatures, rands), totalPoints);
      }
    }
  }
}
