/**
 * The Gaussian-splatting reader's data preparation (vtkF3DGaussianSplattingReader):
 * the Morton codes of the vertices, the permutation that orders the vertices by
 * increasing code, the float arrays filled by scattering every vertex's values
 * into the tuple the permutation assigns it, and the one-vertex-per-cell topology.
 *
 * The PLY columns arrive as sequences of reals; the per-value transforms
 * (sigmoid, exponential, colour from spherical-harmonic DC term) are given
 * functions.
 */
module SplatReader {
  import opened Permutations
  import opened Morton

  /** A float array: a name and a table of `data.Length0` tuples of `data.Length1` components. */
  class FloatArray {
    var name: string
    var data: array2<real>

    constructor (name: string, nbTuples: nat, nbComponents: nat)
      ensures this.name == name && fresh(data)
      ensures data.Length0 == nbTuples && data.Length1 == nbComponents
    {
      this.name := name;
      data := new real[nbTuples, nbComponents];
    }
  }

  /** At least one component vector, and all of them as long as the first. */
  ghost predicate SameLengths(components: seq<seq<real>>)
  {
    |components| >= 1 && forall i :: 0 <= i < |components| ==> |components[i]| == |components[0]|
  }

  /**
   * `arr` holds one tuple per entry of `mapping` and one component per vector
   * of `components`, and component `i` of tuple `mapping[j]` is
   * `func(components[i][j])`.
   */
  ghost predicate Scattered(arr: FloatArray, mapping: seq<int>, components: seq<seq<real>>, func: real -> real)
    reads arr, arr.data
  {
    arr.data.Length0 == |mapping| && arr.data.Length1 == |components| &&
    (forall i :: 0 <= i < |components| ==> |components[i]| == |mapping|) &&
    (forall j :: 0 <= j < |mapping| ==> 0 <= mapping[j] < |mapping|) &&
    forall j, i :: 0 <= j < |mapping| && 0 <= i < |components| ==>
      arr.data[mapping[j], i] == func(components[i][j])
  }

  /**
   * Builds the array `name` with one component per vector of `components`
   * and one tuple per value, writing `func(components[i][j])` to component
   * `i` of tuple `mapping[j]` (a scatter through the permutation). Returns
   * null when there is no component vector or when their lengths differ.
   */
  method ConvertToFloatArray(name: string, mapping: seq<int>, components: seq<seq<real>>, func: real -> real)
    returns (arr: FloatArray?)
    requires SameLengths(components) ==> IsPermutation(mapping, |components[0]|)
    ensures arr == null <==> !SameLengths(components)
    ensures arr != null ==> fresh(arr) && fresh(arr.data) && arr.name == name
    ensures arr != null ==> Scattered(arr, mapping, components, func)
  {
    if |components| < 1 {
      return null;
    }
    var nbPts := |components[0]|;
    for i := 1 to |components|
      invariant forall k :: 0 <= k < i ==> |components[k]| == nbPts
    {
      if |components[i]| != nbPts {
        return null;
      }
    }
    PermutationFacts(mapping, nbPts);
    arr := new FloatArray(name, nbPts, |components|);
    for i := 0 to |components|
      invariant fresh(arr) && fresh(arr.data) && arr.name == name
      invariant arr.data.Length0 == nbPts && arr.data.Length1 == |components|
      invariant forall c, j :: 0 <= c < i && 0 <= j < nbPts ==> arr.data[mapping[j], c] == func(components[c][j])
    {
      for j := 0 to nbPts
        invariant fresh(arr) && fresh(arr.data) && arr.name == name
        invariant arr.data.Length0 == nbPts && arr.data.Length1 == |components|
        invariant forall c, k :: 0 <= c < i && 0 <= k < nbPts ==> arr.data[mapping[k], c] == func(components[c][k])
        invariant forall k :: 0 <= k < j ==> arr.data[mapping[k], i] == func(components[i][k])
      {
        arr.data[mapping[j], i] := func(components[i][j]);
      }
    }
  }

  /**
   * Scattering through a permutation fills every tuple from exactly one
   * vertex: each component of tuple `t` is the transformed value of the one
   * vertex `j` that the permutation sends to `t`.
   */
  lemma EveryTupleWrittenOnce(arr: FloatArray, mapping: seq<int>, components: seq<seq<real>>, func: real -> real)
    requires Scattered(arr, mapping, components, func) && IsPermutation(mapping, |mapping|)
    ensures forall t, i :: 0 <= t < arr.data.Length0 && 0 <= i < arr.data.Length1 ==>
      WrittenOnce(arr, mapping, components, func, t, i)
  {
    PermutationFacts(mapping, |mapping|);
    forall t, i | 0 <= t < arr.data.Length0 && 0 <= i < arr.data.Length1
      ensures WrittenOnce(arr, mapping, components, func, t, i)
    {
      assert t in mapping;
      var j :| 0 <= j < |mapping| && mapping[j] == t;
      assert arr.data[mapping[j], i] == func(components[i][j]);
      assert SoleSource(mapping, t, j);
    }
  }

  /** Component `i` of tuple `t` holds the value of the one vertex sent to `t`. */
  ghost predicate WrittenOnce(arr: FloatArray, mapping: seq<int>, components: seq<seq<real>>, func: real -> real, t: int, i: int)
    reads arr, arr.data
    requires 0 <= t < arr.data.Length0 && 0 <= i < arr.data.Length1 && |components| == arr.data.Length1
  {
    exists j :: SoleSource(mapping, t, j) && j < |components[i]| && arr.data[t, i] == func(components[i][j])
  }

  /** Vertex `j` is the one and only vertex that `mapping` sends to tuple `t`. */
  ghost predicate SoleSource(mapping: seq<int>, t: int, j: int)
  {
    0 <= j < |mapping| && mapping[j] == t &&
    forall j' :: 0 <= j' < |mapping| && mapping[j'] == t ==> j' == j
  }

  /**
   * Along `s`, the codes of the indexed vertices never decrease. Codes are
   * compared as the unsigned integers they are, i.e. by their integer values.
   */
  ghost predicate CodeOrdered(s: seq<int>, codes: seq<bv32>)
  {
    KeyOrdered(s, CodeKeys(codes), false)
  }

  /** The sort keys of the reader: every code as the unsigned integer it is. */
  function CodeKeys(codes: seq<bv32>): (keys: seq<real>)
    ensures |keys| == |codes|
    ensures forall k :: 0 <= k < |codes| ==> keys[k] == codes[k] as int as real
  {
    seq(|codes|, k requires 0 <= k < |codes| => codes[k] as int as real)
  }

  /** Along a code-ordered sequence, the codes compared as unsigned integers never decrease. */
  lemma CodeOrderedValues(s: seq<int>, codes: seq<bv32>)
    requires CodeOrdered(s, codes)
    ensures forall k :: 0 <= k < |s| ==> 0 <= s[k] < |codes|
    ensures forall i, j :: 0 <= i < j < |s| ==> codes[s[i]] as int <= codes[s[j]] as int
  {
    var keys := CodeKeys(codes);
    forall i, j | 0 <= i < j < |s|
      ensures codes[s[i]] as int <= codes[s[j]] as int
    {
      assert InOrder(keys[s[i]], keys[s[j]], false);
    }
  }

  /** The vertex order of the reader: the identity, sorted by increasing Morton code. */
  method MortonOrder(codes: seq<bv32>) returns (mapping: seq<int>)
    ensures IsPermutation(mapping, |codes|)
    ensures CodeOrdered(mapping, codes)
  {
    var order := IotaArray(|codes|);
    SortByKey(order, CodeKeys(codes), false);
    mapping := order[..];
  }

  /** The vertex cells: offsets 0..n and connectivity 0..n-1. */
  method BuildVerts(nbPoints: nat) returns (offsets: seq<int>, connectivity: seq<int>)
    ensures offsets == Iota(nbPoints + 1) && connectivity == Iota(nbPoints)
  {
    var offsetArray := IotaArray(nbPoints + 1);
    offsets := offsetArray[..];
    var connectivityArray := IotaArray(nbPoints);
    connectivity := connectivityArray[..];
  }

  /** Cell `k` of the vertex topology holds exactly output point `k`. */
  lemma VertsAreSinglePoints(nbPoints: nat, k: nat)
    requires k < nbPoints
    ensures var offsets, connectivity := Iota(nbPoints + 1), Iota(nbPoints);
      0 <= offsets[k] <= offsets[k + 1] <= |connectivity| &&
      connectivity[offsets[k]..offsets[k + 1]] == [k]
  {
  }

  /** The per-vertex columns the reader takes from the PLY file's "vertex" element. */
  datatype PlyVertices = PlyVertices(
    x: seq<real>, y: seq<real>, z: seq<real>,
    fDc0: seq<real>, fDc1: seq<real>, fDc2: seq<real>,
    opacity: seq<real>,
    scale0: seq<real>, scale1: seq<real>, scale2: seq<real>,
    rot0: seq<real>, rot1: seq<real>, rot2: seq<real>, rot3: seq<real>)

  /** Every column holds one value per vertex, as every property of a PLY element does. */
  ghost predicate WellFormed(v: PlyVertices)
  {
    var n := |v.x|;
    |v.y| == n && |v.z| == n && |v.fDc0| == n && |v.fDc1| == n && |v.fDc2| == n &&
    |v.opacity| == n && |v.scale0| == n && |v.scale1| == n && |v.scale2| == n &&
    |v.rot0| == n && |v.rot1| == n && |v.rot2| == n && |v.rot3| == n
  }

  /** Colour channel from its spherical-harmonic DC coefficient, clamped to [0, 1]. */
  function ShDcToColor(c: real): (r: real)
    ensures 0.0 <= r <= 1.0
  {
    var v := c * 0.282094791774 + 0.5;
    if v < 0.0 then 0.0 else if v > 1.0 then 1.0 else v
  }

  /** The identity transform, for positions and rotations. */
  function Identity(c: real): real
  {
    c
  }

  /** The Morton code of every vertex. */
  function MortonCodes(x: seq<real>, y: seq<real>, z: seq<real>): (codes: seq<bv32>)
    requires |y| == |x| && |z| == |x|
    ensures |codes| == |x|
  {
    seq(|x|, j requires 0 <= j < |x| => Morton3D(x[j], y[j], z[j]))
  }

  /**
   * With three vertices whose codes are 2, 0 and 1, the only order by
   * increasing code is vertex 1, vertex 2, vertex 0.
   */
  lemma MortonOrderOfThree(s: seq<int>)
    requires IsPermutation(s, 3) && CodeOrdered(s, [2, 0, 1])
    ensures s == [1, 2, 0]
  {
    PermutationFacts(s, 3);
    var codes: seq<bv32> := [2, 0, 1];
    assert forall t :: 0 <= t < 3 ==> codes[t] as int == [2, 0, 1][t];
    assert [2, 0, 1][s[0]] <= [2, 0, 1][s[1]] <= [2, 0, 1][s[2]];
    assert s == [s[0], s[1], s[2]];
  }

  /**
   * Three vertices at (0, 1/1024, 0), (0, 0, 0) and (0, 0, 1/1024) have the
   * codes 2, 0 and 1. Scattering their positions through the order by
   * increasing code leaves tuple 1 with a larger code than tuple 2, so the
   * stored positions are not in Morton order.
   */
  lemma ScatterLeavesMortonOrder(arr: FloatArray, mapping: seq<int>)
    requires |mapping| == 3 && IsPermutation(mapping, 3)
    requires CodeOrdered(mapping, MortonCodes([0.0, 0.0, 0.0], [1.0 / 1024.0, 0.0, 0.0], [0.0, 0.0, 1.0 / 1024.0]))
    requires Scattered(arr, mapping, [[0.0, 0.0, 0.0], [1.0 / 1024.0, 0.0, 0.0], [0.0, 0.0, 1.0 / 1024.0]], Identity)
    ensures Morton3D(arr.data[1, 0], arr.data[1, 1], arr.data[1, 2]) as int >
            Morton3D(arr.data[2, 0], arr.data[2, 1], arr.data[2, 2]) as int
  {
    ExampleOrder(mapping);
    ExampleCodes();
    var components := [[0.0, 0.0, 0.0], [1.0 / 1024.0, 0.0, 0.0], [0.0, 0.0, 1.0 / 1024.0]];
    // vertex 0 (code 2) lands in tuple mapping[0] == 1, vertex 1 (code 0) in tuple mapping[1] == 2
    assert arr.data[1, 0] == components[0][0] && arr.data[1, 1] == components[1][0] && arr.data[1, 2] == components[2][0];
    assert arr.data[2, 0] == components[0][1] && arr.data[2, 1] == components[1][1] && arr.data[2, 2] == components[2][1];
  }

  /** The only Morton order of the three vertices of the counterexample is 1, 2, 0. */
  lemma ExampleOrder(mapping: seq<int>)
    requires IsPermutation(mapping, 3)
    requires CodeOrdered(mapping, MortonCodes([0.0, 0.0, 0.0], [1.0 / 1024.0, 0.0, 0.0], [0.0, 0.0, 1.0 / 1024.0]))
    ensures mapping == [1, 2, 0]
  {
    ExampleCodes();
    var codes := MortonCodes([0.0, 0.0, 0.0], [1.0 / 1024.0, 0.0, 0.0], [0.0, 0.0, 1.0 / 1024.0]);
    assert codes[0] == 2 && codes[1] == 0 && codes[2] == 1;
    assert codes == [2, 0, 1];
    MortonOrderOfThree(mapping);
  }

  /** The codes of the three vertices of the counterexample. */
  lemma ExampleCodes()
    ensures Morton3D(0.0, 1.0 / 1024.0, 0.0) == 2
    ensures Morton3D(0.0, 0.0, 0.0) == 0
    ensures Morton3D(0.0, 0.0, 1.0 / 1024.0) == 1
  {
    ExpandBitsSpreads(0);
    ExpandBitsSpreads(1);
  }

  /**
   * `arr` holds one tuple per entry of `mapping` and one component per vector
   * of `components`, and component `i` of tuple `k` is
   * `func(components[i][mapping[k]])`: a gather through the permutation.
   */
  ghost predicate GatheredFrom(arr: FloatArray, mapping: seq<int>, components: seq<seq<real>>, func: real -> real)
    reads arr, arr.data
  {
    arr.data.Length0 == |mapping| && arr.data.Length1 == |components| &&
    (forall i :: 0 <= i < |components| ==> |components[i]| == |mapping|) &&
    (forall k :: 0 <= k < |mapping| ==> 0 <= mapping[k] < |mapping|) &&
    forall k, i :: 0 <= k < |mapping| && 0 <= i < |components| ==>
      arr.data[k, i] == func(components[i][mapping[k]])
  }

  /**
   * `ConvertToFloatArray` with the copy direction reversed, as the
   * spatial-locality order calls for: tuple `k` receives vertex `mapping[k]`.
   * Same validation, same null results.
   */
  method GatherToFloatArray(name: string, mapping: seq<int>, components: seq<seq<real>>, func: real -> real)
    returns (arr: FloatArray?)
    requires SameLengths(components) ==> IsPermutation(mapping, |components[0]|)
    ensures arr == null <==> !SameLengths(components)
    ensures arr != null ==> fresh(arr) && fresh(arr.data) && arr.name == name
    ensures arr != null ==> GatheredFrom(arr, mapping, components, func)
  {
    if |components| < 1 {
      return null;
    }
    var nbPts := |components[0]|;
    for i := 1 to |components|
      invariant forall k :: 0 <= k < i ==> |components[k]| == nbPts
    {
      if |components[i]| != nbPts {
        return null;
      }
    }
    PermutationFacts(mapping, nbPts);
    arr := new FloatArray(name, nbPts, |components|);
    for i := 0 to |components|
      invariant fresh(arr) && fresh(arr.data) && arr.name == name
      invariant arr.data.Length0 == nbPts && arr.data.Length1 == |components|
      invariant forall c, k :: 0 <= c < i && 0 <= k < nbPts ==> arr.data[k, c] == func(components[c][mapping[k]])
    {
      for k := 0 to nbPts
        invariant fresh(arr) && fresh(arr.data) && arr.name == name
        invariant arr.data.Length0 == nbPts && arr.data.Length1 == |components|
        invariant forall c, l :: 0 <= c < i && 0 <= l < nbPts ==> arr.data[l, c] == func(components[c][mapping[l]])
        invariant forall l :: 0 <= l < k ==> arr.data[l, i] == func(components[i][mapping[l]])
      {
        arr.data[k, i] := func(components[i][mapping[k]]);
      }
    }
  }

  /**
   * Positions gathered through the Morton order are stored by increasing
   * Morton code: the spatial-locality order the pre-pass is meant to give.
   */
  lemma GatherFollowsMortonOrder(arr: FloatArray, mapping: seq<int>, x: seq<real>, y: seq<real>, z: seq<real>)
    requires |y| == |x| && |z| == |x|
    requires GatheredFrom(arr, mapping, [x, y, z], Identity)
    requires CodeOrdered(mapping, MortonCodes(x, y, z))
    ensures forall k, l :: 0 <= k < l < arr.data.Length0 ==>
      Morton3D(arr.data[k, 0], arr.data[k, 1], arr.data[k, 2]) as int <=
      Morton3D(arr.data[l, 0], arr.data[l, 1], arr.data[l, 2]) as int
  {
    var codes := MortonCodes(x, y, z);
    forall k | 0 <= k < |mapping|
      ensures Morton3D(arr.data[k, 0], arr.data[k, 1], arr.data[k, 2]) == codes[mapping[k]]
    {
      var components := [x, y, z];
      assert arr.data[k, 0] == Identity(components[0][mapping[k]]);
      assert arr.data[k, 1] == Identity(components[1][mapping[k]]);
      assert arr.data[k, 2] == Identity(components[2][mapping[k]]);
    }
    CodeOrderedValues(mapping, codes);
  }

  /** The reader's output: points, colour scalars, the other arrays and the vertex cells. */
  datatype SplatPolyData = SplatPolyData(
    points: FloatArray, scalars: FloatArray, arrays: seq<FloatArray>,
    offsets: seq<int>, connectivity: seq<int>)

  /**
   * Reads the splats: Morton codes of the positions, the vertex order by
   * increasing code, then positions, colours, opacities, scales and rotations
   * all scattered through that same order, and one vertex cell per point.
   * `sigmoid` and `exp` stand for the floating-point functions of the same names.
   */
  method RequestData(v: PlyVertices, sigmoid: real -> real, exp: real -> real)
    returns (output: SplatPolyData, mapping: seq<int>)
    requires WellFormed(v)
    ensures IsPermutation(mapping, |v.x|)
    ensures CodeOrdered(mapping, MortonCodes(v.x, v.y, v.z))
    ensures output.points.name == "points" && output.scalars.name == "color"
    ensures |output.arrays| == 3 && output.arrays[0].name == "opacity"
    ensures output.arrays[1].name == "scale" && output.arrays[2].name == "rotation"
    ensures Scattered(output.points, mapping, [v.x, v.y, v.z], Identity)
    ensures Scattered(output.scalars, mapping, [v.fDc0, v.fDc1, v.fDc2], ShDcToColor)
    ensures Scattered(output.arrays[0], mapping, [v.opacity], sigmoid)
    ensures Scattered(output.arrays[1], mapping, [v.scale0, v.scale1, v.scale2], exp)
    ensures Scattered(output.arrays[2], mapping, [v.rot0, v.rot1, v.rot2, v.rot3], Identity)
    ensures output.offsets == Iota(|v.x| + 1) && output.connectivity == Iota(|v.x|)
  {
    var codes := ComputeMortonCodes(v.x, v.y, v.z);
    assert codes == MortonCodes(v.x, v.y, v.z);
    var nbPts := |v.x|;
    mapping := MortonOrder(codes);
    PermutationFacts(mapping, nbPts);
    var points := ConvertToFloatArray("points", mapping, [v.x, v.y, v.z], Identity);
    var color := ConvertToFloatArray("color", mapping, [v.fDc0, v.fDc1, v.fDc2], ShDcToColor);
    var opacity := ConvertToFloatArray("opacity", mapping, [v.opacity], sigmoid);
    var scale := ConvertToFloatArray("scale", mapping, [v.scale0, v.scale1, v.scale2], exp);
    var rotation := ConvertToFloatArray("rotation", mapping, [v.rot0, v.rot1, v.rot2, v.rot3], Identity);
    var nbPoints := points.data.Length0;
    var offsets, connectivity := BuildVerts(nbPoints);
    output := SplatPolyData(points, color, [opacity, scale, rotation], offsets, connectivity);
  }
}
