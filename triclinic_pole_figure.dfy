/**
 * The batch pole-figure generator of the triclinic operator: for every
 * orientation (a Bunge Euler triple) it rotates the <001>, <011> and <111>
 * direction families into the sample frame and writes each rotated direction
 * followed by its negation into three flat float arrays, at a fixed offset
 * per orientation.
 */
module TriclinicPoleFigure {
  import opened OrientationMath

  /**
   * A float data array: a flat buffer of `numTuples` tuples, each of
   * `numComponents` floats. Resizing replaces the buffer and keeps the values
   * that still fit.
   */
  class FloatArray {
    var data: array<real>
    var numTuples: nat
    const numComponents: nat

    ghost predicate Valid()
      reads this
    {
      data.Length == numTuples * numComponents
    }

    constructor (numTuples: nat, components: nat)
      ensures Valid()
      ensures this.numTuples == numTuples && numComponents == components
      ensures fresh(data)
      ensures forall i :: 0 <= i < data.Length ==> data[i] == 0.0
    {
      this.numTuples := numTuples;
      numComponents := components;
      data := new real[numTuples * components](_ => 0.0);
    }

    function NumberOfTuples(): nat
      reads this
    {
      numTuples
    }

    /** Gives the array `numTuples` tuples; existing values are kept, new slots are zero. */
    method Resize(numTuples: nat)
      modifies this
      ensures Valid() && this.numTuples == numTuples
      ensures fresh(data)
      ensures forall i :: 0 <= i < data.Length && i < old(data.Length) ==> data[i] == old(data[i])
      ensures forall i :: old(data.Length) <= i < data.Length ==> data[i] == 0.0
    {
      var source := data;
      var buffer := new real[numTuples * numComponents](_ => 0.0);
      var keep := if source.Length < buffer.Length then source.Length else buffer.Length;
      var i := 0;
      while i < keep
        invariant 0 <= i <= keep
        invariant forall j :: 0 <= j < i ==> buffer[j] == source[j]
        invariant forall j :: i <= j < buffer.Length ==> buffer[j] == 0.0
      {
        buffer[i] := source[i];
        i := i + 1;
      }
      data := buffer;
      this.numTuples := numTuples;
    }
  }

  lemma ThreeComponents(tuples: nat, components: nat)
    requires components == 3
    ensures tuples * components == 3 * tuples
  {
  }

  // ---------------------------------------------------------------------------
  // Direction families, in the order the generator writes them

  const Dirs001: seq<Vec3> := [Vec3(1.0, 0.0, 0.0), Vec3(0.0, 1.0, 0.0), Vec3(0.0, 0.0, 1.0)]

  const Dirs011: seq<Vec3> := [
    Vec3(OneOverRoot2, OneOverRoot2, 0.0),
    Vec3(OneOverRoot2, 0.0, OneOverRoot2),
    Vec3(0.0, OneOverRoot2, OneOverRoot2),
    Vec3(-OneOverRoot2, -OneOverRoot2, 0.0),
    Vec3(-OneOverRoot2, 0.0, OneOverRoot2),
    Vec3(0.0, -OneOverRoot2, OneOverRoot2)
  ]

  const Dirs111: seq<Vec3> := [
    Vec3(OneOverRoot3, OneOverRoot3, OneOverRoot3),
    Vec3(-OneOverRoot3, OneOverRoot3, OneOverRoot3),
    Vec3(OneOverRoot3, -OneOverRoot3, OneOverRoot3),
    Vec3(OneOverRoot3, OneOverRoot3, -OneOverRoot3)
  ]

  function Coords(v: Vec3): seq<real>
  {
    [v.x, v.y, v.z]
  }

  /** A direction followed by its antipode: six floats. */
  function PairOf(v: Vec3): seq<real>
  {
    Coords(v) + Coords(Neg(v))
  }

  /** The pairs of every direction of `dirs`, rotated by gT, in table order. */
  function Family(gT: Mat3, dirs: seq<Vec3>): (s: seq<real>)
    ensures |s| == 6 * |dirs|
  {
    if dirs == [] then []
    else Family(gT, dirs[..|dirs| - 1]) + PairOf(MatVec(gT, dirs[|dirs| - 1]))
  }

  /** The Euler triple of orientation i, read from a 3-component array. */
  function EulerAt(e: seq<real>, i: nat): Vec3
    requires 3 * i + 2 < |e|
  {
    Vec3(e[3 * i], e[3 * i + 1], e[3 * i + 2])
  }

  /** Transpose of the orientation matrix: crystal directions to sample directions. */
  function SampleFrame(k: Kernels, e: seq<real>, i: nat): Mat3
    requires 3 * i + 2 < |e|
  {
    Transpose(k.eulerToMat(EulerAt(e, i)))
  }

  /** Everything the generator writes for the first n orientations, back to back. */
  function AllFamilies(k: Kernels, e: seq<real>, n: nat, dirs: seq<Vec3>): (s: seq<real>)
    requires 3 * n <= |e|
    ensures |s| == Blocks(6 * |dirs|, n)
  {
    if n == 0 then []
    else AllFamilies(k, e, n - 1, dirs) + Family(SampleFrame(k, e, n - 1), dirs)
  }

  /** s with the block x written at offset off and nothing else changed. */
  function Splice(s: seq<real>, off: nat, x: seq<real>): (r: seq<real>)
    requires off + |x| <= |s|
    ensures |r| == |s|
  {
    s[..off] + x + s[off + |x|..]
  }

  /** What a splice changes: exactly the block it writes. */
  lemma SpliceFacts(s: seq<real>, off: nat, x: seq<real>)
    requires off + |x| <= |s|
    ensures Splice(s, off, x)[off..off + |x|] == x
    ensures Splice(s, off, x)[..off] == s[..off]
    ensures Splice(s, off, x)[off + |x|..] == s[off + |x|..]
    ensures forall p :: 0 <= p < |s| && !(off <= p < off + |x|) ==> Splice(s, off, x)[p] == s[p]
  {
  }

  // ---------------------------------------------------------------------------
  // Layout properties

  /** Every 3-vector in an odd slot of six is the negation of the one before it. */
  ghost predicate Antipodal(s: seq<real>)
  {
    && |s| % 6 == 0
    && forall p :: 0 <= p < |s| && p % 6 >= 3 ==> s[p] == -s[p - 3]
  }

  lemma PairIsAntipodal(v: Vec3)
    ensures Antipodal(PairOf(v))
  {
  }

  lemma {:induction false} AntipodalConcat(a: seq<real>, b: seq<real>)
    requires Antipodal(a) && Antipodal(b)
    ensures Antipodal(a + b)
  {
    var s := a + b;
    forall p | 0 <= p < |s| && p % 6 >= 3
      ensures s[p] == -s[p - 3]
    {
      if p >= |a| {
        var q := p - |a|;
        assert q % 6 == p % 6;
        assert s[p] == b[q] && s[p - 3] == b[q - 3];
      }
    }
  }

  lemma {:induction false} FamilyIsAntipodal(gT: Mat3, dirs: seq<Vec3>)
    ensures Antipodal(Family(gT, dirs))
  {
    if dirs != [] {
      FamilyIsAntipodal(gT, dirs[..|dirs| - 1]);
      PairIsAntipodal(MatVec(gT, dirs[|dirs| - 1]));
      AntipodalConcat(Family(gT, dirs[..|dirs| - 1]), PairOf(MatVec(gT, dirs[|dirs| - 1])));
    }
  }

  /** In every output array, each second 3-vector is the negation of the one before it. */
  lemma {:induction false} AllFamiliesAreAntipodal(k: Kernels, e: seq<real>, n: nat, dirs: seq<Vec3>)
    requires 3 * n <= |e|
    ensures Antipodal(AllFamilies(k, e, n, dirs))
  {
    if n > 0 {
      AllFamiliesAreAntipodal(k, e, n - 1, dirs);
      FamilyIsAntipodal(SampleFrame(k, e, n - 1), dirs);
      AntipodalConcat(AllFamilies(k, e, n - 1, dirs), Family(SampleFrame(k, e, n - 1), dirs));
    }
  }

  /** Slot j of a family holds the j-th rotated direction and then its negation. */
  lemma {:induction false} FamilyPairAt(gT: Mat3, dirs: seq<Vec3>, j: nat)
    requires j < |dirs|
    ensures Family(gT, dirs)[6 * j..6 * j + 6] == PairOf(MatVec(gT, dirs[j]))
  {
    var init := dirs[..|dirs| - 1];
    var f := Family(gT, init);
    if j < |dirs| - 1 {
      FamilyPairAt(gT, init, j);
      assert Family(gT, dirs)[6 * j..6 * j + 6] == f[6 * j..6 * j + 6];
    } else {
      assert Family(gT, dirs)[6 * j..6 * j + 6] == Family(gT, dirs)[|f|..];
    }
  }

  /** Total length of n consecutive blocks of width w. */
  function Blocks(w: nat, n: nat): nat
  {
    if n == 0 then 0 else Blocks(w, n - 1) + w
  }

  lemma {:induction false} BlocksIsProduct(w: nat, n: nat)
    ensures Blocks(w, n) == w * n
  {
    if n > 0 {
      BlocksIsProduct(w, n - 1);
      assert w * (n - 1) + w == w * n;
    }
  }

  /** More blocks never make a shorter total. */
  lemma {:induction false} BlocksGrow(w: nat, m: nat, n: nat)
    requires m <= n
    ensures Blocks(w, m) <= Blocks(w, n)
  {
    if m < n {
      BlocksGrow(w, m, n - 1);
    }
  }

  lemma PrefixOfAppend(a: seq<real>, b: seq<real>, len: nat)
    requires len <= |a|
    ensures (a + b)[..len] == a[..len]
  {
  }

  /** The output for m orientations is a prefix of the output for n >= m. */
  lemma {:induction false} AllFamiliesPrefix(k: Kernels, e: seq<real>, m: nat, n: nat, dirs: seq<Vec3>)
    requires m <= n && 3 * n <= |e|
    ensures |AllFamilies(k, e, m, dirs)| <= |AllFamilies(k, e, n, dirs)|
    ensures AllFamilies(k, e, n, dirs)[..|AllFamilies(k, e, m, dirs)|] == AllFamilies(k, e, m, dirs)
  {
    BlocksGrow(6 * |dirs|, m, n);
    if m < n {
      AllFamiliesPrefix(k, e, m, n - 1, dirs);
      var prev := AllFamilies(k, e, n - 1, dirs);
      var len := |AllFamilies(k, e, m, dirs)|;
      PrefixOfAppend(prev, Family(SampleFrame(k, e, n - 1), dirs), len);
    }
  }

  /** Orientation i owns the block of the output between the lengths for i and i + 1 orientations. */
  lemma AllFamiliesBlock(k: Kernels, e: seq<real>, n: nat, dirs: seq<Vec3>, i: nat)
    requires i < n && 3 * n <= |e|
    ensures |AllFamilies(k, e, i, dirs)| <= |AllFamilies(k, e, i + 1, dirs)| <= |AllFamilies(k, e, n, dirs)|
    ensures AllFamilies(k, e, n, dirs)[|AllFamilies(k, e, i, dirs)|..|AllFamilies(k, e, i + 1, dirs)|]
         == Family(SampleFrame(k, e, i), dirs)
  {
    AllFamiliesPrefix(k, e, i + 1, n, dirs);
    BlocksGrow(6 * |dirs|, i + 1, n);
    var lo, hi := |AllFamilies(k, e, i, dirs)|, |AllFamilies(k, e, i + 1, dirs)|;
    assert AllFamilies(k, e, n, dirs)[lo..hi] == AllFamilies(k, e, n, dirs)[..hi][lo..];
  }

  /** Orientation i's <001> block is the 18 floats at offset 18 i. */
  lemma Block001(k: Kernels, e: seq<real>, n: nat, i: nat)
    requires i < n && 3 * n <= |e|
    ensures |AllFamilies(k, e, n, Dirs001)| == 18 * n
    ensures AllFamilies(k, e, n, Dirs001)[18 * i..18 * i + 18] == Family(SampleFrame(k, e, i), Dirs001)
  {
    AllFamiliesBlock(k, e, n, Dirs001, i);
    BlocksIsProduct(18, n);
    BlocksIsProduct(18, i);
    BlocksIsProduct(18, i + 1);
  }

  /** Orientation i's <011> block is the 36 floats at offset 36 i. */
  lemma Block011(k: Kernels, e: seq<real>, n: nat, i: nat)
    requires i < n && 3 * n <= |e|
    ensures |AllFamilies(k, e, n, Dirs011)| == 36 * n
    ensures AllFamilies(k, e, n, Dirs011)[36 * i..36 * i + 36] == Family(SampleFrame(k, e, i), Dirs011)
  {
    AllFamiliesBlock(k, e, n, Dirs011, i);
    BlocksIsProduct(36, n);
    BlocksIsProduct(36, i);
    BlocksIsProduct(36, i + 1);
  }

  /** Orientation i's <111> block is the 24 floats at offset 24 i. */
  lemma Block111(k: Kernels, e: seq<real>, n: nat, i: nat)
    requires i < n && 3 * n <= |e|
    ensures |AllFamilies(k, e, n, Dirs111)| == 24 * n
    ensures AllFamilies(k, e, n, Dirs111)[24 * i..24 * i + 24] == Family(SampleFrame(k, e, i), Dirs111)
  {
    AllFamiliesBlock(k, e, n, Dirs111, i);
    BlocksIsProduct(24, n);
    BlocksIsProduct(24, i);
    BlocksIsProduct(24, i + 1);
  }

  /** Writing nothing leaves the sequence as it was. */
  lemma SpliceNothing(s: seq<real>)
    ensures Splice(s, 0, []) == s
  {
    assert s[..0] + [] + s[0..] == s;
  }

  /** Writing two adjacent blocks one after the other is writing their concatenation. */
  lemma SpliceAdjacent(s: seq<real>, off: nat, x: seq<real>, y: seq<real>)
    requires off + |x| + |y| <= |s|
    ensures Splice(Splice(s, off, x), off + |x|, y) == Splice(s, off, x + y)
  {
  }

  // ---------------------------------------------------------------------------
  // The generator

  /** Writes v and then -v (a copy multiplied by -1) into a[off..off + 6]. */
  method StorePair(a: array<real>, off: nat, v: Vec3)
    requires off + 6 <= a.Length
    modifies a
    ensures a[..] == Splice(old(a[..]), off, PairOf(v))
  {
    a[off], a[off + 1], a[off + 2] := v.x, v.y, v.z;
    a[off + 3], a[off + 4], a[off + 5] := a[off], a[off + 1], a[off + 2];
    a[off + 3] := a[off + 3] * -1.0;
    a[off + 4] := a[off + 4] * -1.0;
    a[off + 5] := a[off + 5] * -1.0;
    assert a[..] == Splice(old(a[..]), off, PairOf(v));
  }

  /** Writes the family of `dirs` rotated by gT at offset off, direction by direction. */
  method StoreFamily(a: array<real>, off: nat, gT: Mat3, dirs: seq<Vec3>)
    requires off + 6 * |dirs| <= a.Length
    modifies a
    ensures a[..] == Splice(old(a[..]), off, Family(gT, dirs))
  {
    ghost var s := a[..];
    var j := 0;
    while j < |dirs|
      invariant 0 <= j <= |dirs|
      invariant a[..] == Splice(s, off, Family(gT, dirs[..j]))
    {
      StoreDirection(a, off, gT, dirs, j, s);
      j := j + 1;
    }
    assert dirs[..|dirs|] == dirs;
  }

  /** Writes direction j's pair right after the pairs of directions 0 .. j - 1. */
  method StoreDirection(a: array<real>, off: nat, gT: Mat3, dirs: seq<Vec3>, j: nat, ghost s: seq<real>)
    requires j < |dirs| && off + 6 * |dirs| <= a.Length == |s|
    requires a[..] == Splice(s, off, Family(gT, dirs[..j]))
    modifies a
    ensures a[..] == Splice(s, off, Family(gT, dirs[..j + 1]))
  {
    ghost var before := Family(gT, dirs[..j]);
    ghost var pair := PairOf(MatVec(gT, dirs[j]));
    FamilyStep(gT, dirs, j);
    SpliceAdjacent(s, off, before, pair);
    StorePair(a, off + 6 * j, MatVec(gT, dirs[j]));
  }

  /** The family of the first j + 1 directions extends that of the first j by direction j's pair. */
  lemma FamilyStep(gT: Mat3, dirs: seq<Vec3>, j: nat)
    requires j < |dirs|
    ensures Family(gT, dirs[..j + 1]) == Family(gT, dirs[..j]) + PairOf(MatVec(gT, dirs[j]))
  {
    assert dirs[..j + 1][..j] == dirs[..j];
  }

  /** Resizes `arr` to `size` tuples when it holds fewer than `needed`; otherwise leaves it alone. */
  method ReserveTuples(arr: FloatArray, needed: nat, size: nat)
    requires arr.Valid() && arr.numComponents == 3
    modifies arr
    ensures arr.Valid() && arr.data.Length == 3 * arr.numTuples
    ensures old(arr.numTuples) < needed ==> fresh(arr.data) && arr.numTuples == size
    ensures old(arr.numTuples) >= needed ==> arr.data == old(arr.data) && arr.numTuples == old(arr.numTuples)
  {
    if arr.NumberOfTuples() < needed {
      arr.Resize(size);
    }
    ThreeComponents(arr.numTuples, arr.numComponents);
  }

  /**
   * Writes orientation i's family right after the families of orientations
   * 0 .. i - 1, extending the generated prefix by one orientation.
   */
  method AppendFamily(a: array<real>, off: nat, gT: Mat3, dirs: seq<Vec3>,
                      ghost k: Kernels, ghost e: seq<real>, ghost i: nat, ghost s: seq<real>)
    requires 3 * i + 3 <= |e| && gT == SampleFrame(k, e, i)
    requires off == |AllFamilies(k, e, i, dirs)| && off + 6 * |dirs| <= |s| == a.Length
    requires a[..] == Splice(s, 0, AllFamilies(k, e, i, dirs))
    modifies a
    ensures |AllFamilies(k, e, i + 1, dirs)| == off + 6 * |dirs|
    ensures a[..] == Splice(s, 0, AllFamilies(k, e, i + 1, dirs))
  {
    assert AllFamilies(k, e, i + 1, dirs) == AllFamilies(k, e, i, dirs) + Family(gT, dirs);
    StoreFamily(a, off, gT, dirs);
    SpliceAdjacent(s, 0, AllFamilies(k, e, i, dirs), Family(gT, dirs));
  }

  /**
   * What the generator leaves in one output: the families of the first n
   * orientations of e from index 0; when the output held fewer than `needed`
   * tuples, a new array of needed * 3 tuples of 3 components, otherwise the
   * same array with everything past the families untouched.
   */
  ghost predicate Produced(out: FloatArray, k: Kernels, e: seq<real>, n: nat, dirs: seq<Vec3>, needed: nat,
                           oldTuples: nat, oldData: array<real>, oldContents: seq<real>)
    reads out, out.data
  {
    3 * n <= |e| &&
    var families := AllFamilies(k, e, n, dirs);
    |families| <= out.data.Length &&
    out.data[..|families|] == families &&
    if oldTuples < needed
    then out.numTuples == needed * 3 && out.data.Length == needed * 3 * 3
    else out.data == oldData && |families| <= |oldContents| && out.data[|families|..] == oldContents[|families|..]
  }

  /**
   * The generator's arrays: all hold 3-component tuples, and no two of them
   * are the same object or share a buffer.
   */
  ghost predicate Separate(eulers: FloatArray, xyz001: FloatArray, xyz011: FloatArray, xyz111: FloatArray)
    reads eulers, xyz001, xyz011, xyz111
  {
    eulers.Valid() && xyz001.Valid() && xyz011.Valid() && xyz111.Valid() &&
    eulers.numComponents == 3 &&
    xyz001.numComponents == 3 && xyz011.numComponents == 3 && xyz111.numComponents == 3 &&
    eulers != xyz001 && eulers != xyz011 && eulers != xyz111 &&
    xyz001 != xyz011 && xyz001 != xyz111 && xyz011 != xyz111 &&
    eulers.data != xyz001.data && eulers.data != xyz011.data && eulers.data != xyz111.data &&
    xyz001.data != xyz011.data && xyz001.data != xyz111.data && xyz011.data != xyz111.data
  }

  /**
   * Fills xyz001 (6 tuples per orientation), xyz011 (12) and xyz111 (8) with
   * the rotated direction pairs of every orientation of `eulers`, after
   * resizing an output to (orientations * tuples * 3) tuples if it holds
   * fewer tuples than it needs. The families take 18, 36 and 24 floats per
   * orientation (`Block001`, `Block011`, `Block111`).
   */
  method GenerateSphereCoordsFromEulers(k: Kernels, eulers: FloatArray,
                                        xyz001: FloatArray, xyz011: FloatArray, xyz111: FloatArray)
    requires Separate(eulers, xyz001, xyz011, xyz111)
    modifies xyz001, xyz011, xyz111, xyz001.data, xyz011.data, xyz111.data
    ensures eulers.data == old(eulers.data) && eulers.data[..] == old(eulers.data[..])
    ensures xyz001.Valid() && xyz011.Valid() && xyz111.Valid()
    ensures Produced(xyz001, k, eulers.data[..], eulers.numTuples, Dirs001, eulers.numTuples * 6,
                     old(xyz001.numTuples), old(xyz001.data), old(xyz001.data[..]))
    ensures Produced(xyz011, k, eulers.data[..], eulers.numTuples, Dirs011, eulers.numTuples * 12,
                     old(xyz011.numTuples), old(xyz011.data), old(xyz011.data[..]))
    ensures Produced(xyz111, k, eulers.data[..], eulers.numTuples, Dirs111, eulers.numTuples * 8,
                     old(xyz111.numTuples), old(xyz111.data), old(xyz111.data[..]))
    ensures old(xyz001.numTuples) < eulers.numTuples * 6 ==> fresh(xyz001.data)
    ensures old(xyz011.numTuples) < eulers.numTuples * 12 ==> fresh(xyz011.data)
    ensures old(xyz111.numTuples) < eulers.numTuples * 8 ==> fresh(xyz111.data)
  {
    var nOrientations := eulers.NumberOfTuples();
    ghost var e := eulers.data[..];
    ThreeComponents(nOrientations, eulers.numComponents);
    ReserveOutputs(nOrientations, xyz001, xyz011, xyz111);
    var a001, a011, a111 := xyz001.data, xyz011.data, xyz111.data;
    ghost var s001, s011, s111 := a001[..], a011[..], a111[..];
    GenerateAll(k, eulers.data, nOrientations, a001, a011, a111);
    FilledProduces(xyz001, s001, k, e, nOrientations, Dirs001, nOrientations * 6, old(xyz001.numTuples), old(xyz001.data), old(xyz001.data[..]));
    FilledProduces(xyz011, s011, k, e, nOrientations, Dirs011, nOrientations * 12, old(xyz011.numTuples), old(xyz011.data), old(xyz011.data[..]));
    FilledProduces(xyz111, s111, k, e, nOrientations, Dirs111, nOrientations * 8, old(xyz111.numTuples), old(xyz111.data), old(xyz111.data[..]));
  }

  /**
   * One output after its size check: still a valid array of 3-component
   * tuples; resized to `needed` * 3 tuples if it held fewer than `needed`,
   * otherwise the same buffer.
   */
  ghost predicate Reserved(out: FloatArray, needed: nat, oldTuples: nat, oldData: array<real>)
    reads out
  {
    out.Valid() && out.data.Length == 3 * out.numTuples &&
    if oldTuples < needed then out.numTuples == needed * 3 else out.data == oldData && out.numTuples == oldTuples
  }

  /** The generator's size checks, one per output. */
  method ReserveOutputs(nOrientations: nat, xyz001: FloatArray, xyz011: FloatArray, xyz111: FloatArray)
    requires xyz001.Valid() && xyz011.Valid() && xyz111.Valid()
    requires xyz001.numComponents == 3 && xyz011.numComponents == 3 && xyz111.numComponents == 3
    requires xyz001 != xyz011 && xyz001 != xyz111 && xyz011 != xyz111
    modifies xyz001, xyz011, xyz111
    ensures Reserved(xyz001, nOrientations * 6, old(xyz001.numTuples), old(xyz001.data))
    ensures Reserved(xyz011, nOrientations * 12, old(xyz011.numTuples), old(xyz011.data))
    ensures Reserved(xyz111, nOrientations * 8, old(xyz111.numTuples), old(xyz111.data))
    ensures old(xyz001.numTuples) < nOrientations * 6 ==> fresh(xyz001.data)
    ensures old(xyz011.numTuples) < nOrientations * 12 ==> fresh(xyz011.data)
    ensures old(xyz111.numTuples) < nOrientations * 8 ==> fresh(xyz111.data)
  {
    ReserveTuples(xyz001, nOrientations * 6, nOrientations * 6 * 3);
    ReserveTuples(xyz011, nOrientations * 12, nOrientations * 12 * 3);
    ReserveTuples(xyz111, nOrientations * 8, nOrientations * 8 * 3);
  }

  /** An output whose buffer was filled after the size check is what the generator promises. */
  lemma FilledProduces(out: FloatArray, s: seq<real>, k: Kernels, e: seq<real>, n: nat, dirs: seq<Vec3>,
                       needed: nat, oldTuples: nat, oldData: array<real>, oldContents: seq<real>)
    requires Reserved(out, needed, oldTuples, oldData)
    requires Filled(out.data, s, k, e, n, dirs)
    requires oldTuples >= needed ==> s == oldContents
    ensures Produced(out, k, e, n, dirs, needed, oldTuples, oldData, oldContents)
  {
    FilledPrefix(out.data, s, k, e, n, dirs);
  }

  /**
   * Array a holds, from index 0, the families of the first i orientations of
   * e, and what it held before (s) everywhere else.
   */
  ghost predicate Filled(a: array<real>, s: seq<real>, k: Kernels, e: seq<real>, i: nat, dirs: seq<Vec3>)
    reads a
  {
    3 * i <= |e| && |AllFamilies(k, e, i, dirs)| <= |s| && a[..] == Splice(s, 0, AllFamilies(k, e, i, dirs))
  }

  /** A filled array starts with the families and keeps its old contents after them. */
  lemma FilledPrefix(a: array<real>, s: seq<real>, k: Kernels, e: seq<real>, n: nat, dirs: seq<Vec3>)
    requires Filled(a, s, k, e, n, dirs)
    ensures a[..|AllFamilies(k, e, n, dirs)|] == AllFamilies(k, e, n, dirs)
    ensures a[|AllFamilies(k, e, n, dirs)|..] == s[|AllFamilies(k, e, n, dirs)|..]
  {
    var families := AllFamilies(k, e, n, dirs);
    SpliceFacts(s, 0, families);
    assert a[..|families|] == a[..][..|families|];
    assert a[|families|..] == a[..][|families|..];
  }

  /** One pass of the generator's loop: orientation i's frame and its three families. */
  method GenerateOrientation(k: Kernels, euler: array<real>, i: nat,
                             a001: array<real>, a011: array<real>, a111: array<real>,
                             ghost s001: seq<real>, ghost s011: seq<real>, ghost s111: seq<real>)
    requires 3 * i + 3 <= euler.Length
    requires euler != a001 && euler != a011 && euler != a111
    requires a001 != a011 && a001 != a111 && a011 != a111
    requires 18 * i + 18 <= a001.Length && 36 * i + 36 <= a011.Length && 24 * i + 24 <= a111.Length
    requires Filled(a001, s001, k, euler[..], i, Dirs001)
    requires Filled(a011, s011, k, euler[..], i, Dirs011)
    requires Filled(a111, s111, k, euler[..], i, Dirs111)
    modifies a001, a011, a111
    ensures Filled(a001, s001, k, euler[..], i + 1, Dirs001)
    ensures Filled(a011, s011, k, euler[..], i + 1, Dirs011)
    ensures Filled(a111, s111, k, euler[..], i + 1, Dirs111)
  {
    ghost var e := euler[..];
    BlocksIsProduct(18, i);
    BlocksIsProduct(36, i);
    BlocksIsProduct(24, i);
    var currentEuler := Vec3(euler[i * 3], euler[i * 3 + 1], euler[i * 3 + 2]);
    var g := k.eulerToMat(currentEuler);
    var gTranspose := Transpose(g);
    assert gTranspose == SampleFrame(k, e, i);
    AppendFamily(a001, i * 18, gTranspose, Dirs001, k, e, i, s001);
    AppendFamily(a011, i * 36, gTranspose, Dirs011, k, e, i, s011);
    AppendFamily(a111, i * 24, gTranspose, Dirs111, k, e, i, s111);
  }

  /**
   * The generator's main loop: orientation i's frame is built from its Euler
   * triple and its three families are written at offsets 18 i, 36 i and 24 i.
   */
  method GenerateAll(k: Kernels, euler: array<real>, n: nat, a001: array<real>, a011: array<real>, a111: array<real>)
    requires 3 * n <= euler.Length
    requires euler != a001 && euler != a011 && euler != a111
    requires a001 != a011 && a001 != a111 && a011 != a111
    requires 18 * n <= a001.Length && 36 * n <= a011.Length && 24 * n <= a111.Length
    modifies a001, a011, a111
    ensures Filled(a001, old(a001[..]), k, euler[..], n, Dirs001)
    ensures Filled(a011, old(a011[..]), k, euler[..], n, Dirs011)
    ensures Filled(a111, old(a111[..]), k, euler[..], n, Dirs111)
  {
    ghost var s001, s011, s111 := a001[..], a011[..], a111[..];
    SpliceNothing(s001);
    SpliceNothing(s011);
    SpliceNothing(s111);
    var i := 0;
    while i < n
      modifies a001, a011, a111
      invariant 0 <= i <= n
      invariant Filled(a001, s001, k, euler[..], i, Dirs001)
      invariant Filled(a011, s011, k, euler[..], i, Dirs011)
      invariant Filled(a111, s111, k, euler[..], i, Dirs111)
    {
      GenerateOrientation(k, euler, i, a001, a011, a111, s001, s011, s111);
      i := i + 1;
    }
  }
}
