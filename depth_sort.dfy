/**
 * The view-dependent depth sort of a point cloud (vtkF3DDepthSortPointCloud).
 *
 * The filter keeps, between executions, an index permutation `mapping`, the
 * direction of its last sort and the poly data it produced last. Executing
 * it resets the permutation to the identity only when the number of points
 * changed, sorts it in place so that the projections of the points on the
 * view direction are non-increasing (far to near), records the direction and
 * gathers the positions and every point-data array through the permutation.
 * Its modification time follows the camera only when the view direction
 * moved away from the last sorted one.
 *
 * The camera is reduced to its normalised view direction (focal point minus
 * position) and its modification time; points and tuples hold reals.
 */
module DepthSort {
  import opened Permutations

  datatype Option<T> = None | Some(value: T)

  datatype Vec3 = Vec3(x: real, y: real, z: real)

  const Zero: Vec3 := Vec3(0.0, 0.0, 0.0)

  /** Above this cosine between the last sorted and the current direction, the view counts as unchanged. */
  const SameDirectionCosine: real := 0.99

  function Dot(a: Vec3, b: Vec3): real
  {
    a.x * b.x + a.y * b.y + a.z * b.z
  }

  /**
   * A camera as the filter sees it: the identity of the camera object, its
   * normalised view direction and its modification time. The same object
   * keeps its identity while it moves.
   */
  datatype Camera = Camera(id: nat, direction: Vec3, mTime: nat)

  /** Two camera slots refer to the same camera object (or are both empty): pointer equality. */
  predicate SameCamera(a: Option<Camera>, b: Option<Camera>)
  {
    (a.None? && b.None?) || (a.Some? && b.Some? && a.value.id == b.value.id)
  }

  /** A point-data array: an optional name, a component count and one tuple per point. */
  datatype DataArray = DataArray(name: Option<string>, numberOfComponents: nat, tuples: seq<seq<real>>)

  /** Poly data reduced to what the filter reads and writes: point positions and point-data arrays. */
  datatype PolyData = PolyData(points: seq<Vec3>, pointData: seq<DataArray>)

  /** The sort key of point `m`: its projection on the view direction. */
  function Depth(points: seq<Vec3>, d: Vec3, m: int): real
    requires 0 <= m < |points|
  {
    Dot(points[m], d)
  }

  /** Along `s`, the projections of the indexed points never increase (back to front). */
  ghost predicate DepthOrdered(s: seq<int>, points: seq<Vec3>, d: Vec3)
  {
    KeyOrdered(s, Depths(points, d), true)
  }

  /** The sort keys of the filter: the projection of every point on `d`. */
  function Depths(points: seq<Vec3>, d: Vec3): (keys: seq<real>)
    ensures |keys| == |points|
    ensures forall m :: 0 <= m < |points| ==> keys[m] == Depth(points, d, m)
  {
    seq(|points|, m requires 0 <= m < |points| => Dot(points[m], d))
  }

  /** Position of the first array named `name` in `pd`, or -1 (how point data finds an array by name). */
  function FindArray(pd: seq<DataArray>, name: string): (k: int)
    ensures -1 <= k < |pd|
    ensures k >= 0 ==> pd[k].name == Some(name)
    ensures forall i :: 0 <= i < |pd| && (k < 0 || i < k) ==> pd[i].name != Some(name)
  {
    if pd == [] then -1
    else if pd[0].name == Some(name) then 0
    else
      var k := FindArray(pd[1..], name);
      if k < 0 then -1 else k + 1
  }

  /** The array that point data `pd` answers for `name`. */
  function Lookup(pd: seq<DataArray>, name: string): Option<DataArray>
  {
    var k := FindArray(pd, name);
    if k < 0 then None else Some(pd[k])
  }

  /**
   * Adds array `a` to point data `pd`: it replaces the first array of the
   * same name, or is appended when there is none or when `a` has no name.
   */
  function AddArray(pd: seq<DataArray>, a: DataArray): (r: seq<DataArray>)
    ensures a in r
    ensures |r| == |pd| || r == pd + [a]
    ensures forall i :: 0 <= i < |pd| && i < |r| && r[i] != pd[i] ==> r[i] == a && a.name.Some? && pd[i].name == a.name
    ensures a.name.None? ==> r == pd + [a]
  {
    match a.name
    case None => pd + [a]
    case Some(n) =>
      var k := FindArray(pd, n);
      if k < 0 then pd + [a]
      else
        assert pd[k := a][k] == a;
        pd[k := a]
  }

  /** After adding `a`, a lookup by `a`'s name finds `a`, and a lookup by any other name is unchanged. */
  lemma LookupAddArray(pd: seq<DataArray>, a: DataArray, name: string)
    ensures Lookup(AddArray(pd, a), name) == if a.name == Some(name) then Some(a) else Lookup(pd, name)
  {
    var r := AddArray(pd, a);
    var k := FindArray(pd, name);
    var k' := FindArray(r, name);
    if a.name == Some(name) {
      if k < 0 {
        assert r[|pd|] == a;
        assert k' == |pd|;
      } else {
        assert r[k] == a;
        assert k' == k;
      }
    } else {
      match a.name
      case None =>
        if k >= 0 {
          assert r[k] == pd[k];
          assert k' == k;
        }
      case Some(n) =>
        var j := FindArray(pd, n);
        if k >= 0 {
          assert j != k;
          assert r[k] == pd[k];
          assert k' == k;
        }
    }
  }

  /** Adds the arrays of `arrays` one after the other, first to last. */
  function AddArrays(pd: seq<DataArray>, arrays: seq<DataArray>): seq<DataArray>
  {
    if arrays == [] then pd
    else AddArray(AddArrays(pd, arrays[..|arrays| - 1]), arrays[|arrays| - 1])
  }

  /** No two arrays of `arrays` share a name (unnamed arrays are not compared). */
  ghost predicate DistinctNames(arrays: seq<DataArray>)
  {
    forall i, j :: 0 <= i < j < |arrays| && arrays[i].name.Some? ==> arrays[i].name != arrays[j].name
  }

  /**
   * After adding arrays with distinct names, each is found under its own
   * name, and a name none of them carries still finds what it found before.
   */
  lemma {:induction false} LookupAddArrays(pd: seq<DataArray>, arrays: seq<DataArray>, name: string)
    requires DistinctNames(arrays)
    ensures forall k :: 0 <= k < |arrays| && arrays[k].name == Some(name) ==>
      Lookup(AddArrays(pd, arrays), name) == Some(arrays[k])
    ensures (forall k :: 0 <= k < |arrays| ==> arrays[k].name != Some(name)) ==>
      Lookup(AddArrays(pd, arrays), name) == Lookup(pd, name)
  {
    if arrays != [] {
      var init := arrays[..|arrays| - 1];
      var last := arrays[|arrays| - 1];
      LookupAddArrays(pd, init, name);
      LookupAddArray(AddArrays(pd, init), last, name);
    }
  }

  /** Point positions as the filter outputs them: output point `i` is input point `mapping[i]`. */
  method GatherPoints(points: seq<Vec3>, mapping: array<int>) returns (gathered: seq<Vec3>)
    requires mapping.Length == |points| && InRange(mapping[..], |points|)
    ensures |gathered| == |points|
    ensures forall i :: 0 <= i < |points| ==> gathered[i] == points[mapping[i]]
  {
    var nbPoints := |points|;
    var arr := new Vec3[nbPoints];
    for i := 0 to nbPoints
      invariant forall k :: 0 <= k < i ==> arr[k] == points[mapping[k]]
    {
      arr[i] := points[mapping[i]];
    }
    gathered := arr[..];
  }

  /** `s` read through `mapping`: entry `j` is `s[mapping[j]]`. */
  function Reordered<T>(s: seq<T>, mapping: seq<int>): (r: seq<T>)
    requires InRange(mapping, |s|)
    ensures |r| == |mapping|
  {
    seq(|mapping|, j requires 0 <= j < |mapping| => s[mapping[j]])
  }

  lemma ReorderedAppend<T>(s: seq<T>, a: seq<int>, b: seq<int>)
    requires InRange(a, |s|) && InRange(b, |s|)
    ensures InRange(a + b, |s|)
    ensures Reordered(s, a + b) == Reordered(s, a) + Reordered(s, b)
  {
    assert forall k :: 0 <= k < |a + b| ==> (a + b)[k] == if k < |a| then a[k] else b[k - |a|];
  }

  /** Removing the last entry of `m1` and an equal entry of `m2` keeps the two multisets equal. */
  lemma CancelEntry(m1: seq<int>, m2: seq<int>, p: int)
    requires multiset(m1) == multiset(m2) && m1 != [] && 0 <= p < |m2| && m2[p] == m1[|m1| - 1]
    ensures multiset(m1[..|m1| - 1]) == multiset(m2[..p] + m2[p + 1..])
  {
    var x := m2[p];
    assert m1 == m1[..|m1| - 1] + [x];
    assert m2 == m2[..p] + [x] + m2[p + 1..];
    assert multiset(m1[..|m1| - 1]) == multiset(m1) - multiset{x};
    assert multiset(m2[..p] + m2[p + 1..]) == multiset(m2) - multiset{x};
  }

  /** Reading through `m2` is reading through `m2` without entry `p`, with that entry's element put back. */
  lemma ReorderedRemove<T>(s: seq<T>, m2: seq<int>, p: int)
    requires InRange(m2, |s|) && 0 <= p < |m2|
    ensures InRange(m2[..p] + m2[p + 1..], |s|)
    ensures multiset(Reordered(s, m2)) == multiset(Reordered(s, m2[..p] + m2[p + 1..])) + multiset{s[m2[p]]}
  {
    var before, after := m2[..p], m2[p + 1..];
    assert m2 == before + [m2[p]] + after;
    ReorderedAppend(s, before, after);
    ReorderedAppend(s, before, [m2[p]]);
    ReorderedAppend(s, before + [m2[p]], after);
  }

  /** Reading through two mappings that hold the same indices yields the same elements, in another order. */
  lemma {:induction false} ReorderedSameElements<T>(s: seq<T>, m1: seq<int>, m2: seq<int>)
    requires InRange(m1, |s|) && InRange(m2, |s|) && multiset(m1) == multiset(m2)
    ensures multiset(Reordered(s, m1)) == multiset(Reordered(s, m2))
    decreases |m1|
  {
    if m1 == [] {
      assert |m2| == |multiset(m2)| == 0;
    } else {
      var init, x := m1[..|m1| - 1], m1[|m1| - 1];
      assert m1 == init + [x];
      assert x in multiset(m2) by {
        assert x in multiset(m1);
      }
      var p :| 0 <= p < |m2| && m2[p] == x;
      var rest := m2[..p] + m2[p + 1..];
      CancelEntry(m1, m2, p);
      ReorderedRemove(s, m2, p);
      assert InRange(init, |s|);
      ReorderedSameElements(s, init, rest);
      ReorderedAppend(s, init, [x]);
      assert Reordered(s, [x]) == [s[x]];
    }
  }

  /** Read through a permutation, a sequence keeps its elements: only their order changes. */
  lemma ReorderedPermutes<T>(s: seq<T>, mapping: seq<int>)
    requires IsPermutation(mapping, |s|)
    ensures InRange(mapping, |s|)
    ensures multiset(Reordered(s, mapping)) == multiset(s)
  {
    PermutationFacts(mapping, |s|);
    ReorderedSameElements(s, mapping, Iota(|s|));
    assert Reordered(s, Iota(|s|)) == s;
  }

  /** `source` reordered through `mapping`: same name, components and tuple count. */
  function Gathered(source: DataArray, mapping: seq<int>): DataArray
    requires |source.tuples| == |mapping| && InRange(mapping, |mapping|)
  {
    DataArray(source.name, source.numberOfComponents, Reordered(source.tuples, mapping))
  }

  /**
   * Copy of a point-data array with the same name, component count and tuple
   * count, whose tuple `j` is the source's tuple `mapping[j]`.
   */
  method GatherArray(source: DataArray, mapping: array<int>) returns (dest: DataArray)
    requires |source.tuples| == mapping.Length && InRange(mapping[..], mapping.Length)
    ensures dest.name == source.name && dest.numberOfComponents == source.numberOfComponents
    ensures |dest.tuples| == |source.tuples|
    ensures forall j :: 0 <= j < |dest.tuples| ==> dest.tuples[j] == source.tuples[mapping[j]]
  {
    var nbPoints := mapping.Length;
    var tuples := new seq<real>[|source.tuples|];
    for j := 0 to nbPoints
      invariant forall k :: 0 <= k < j ==> tuples[k] == source.tuples[mapping[k]]
    {
      tuples[j] := source.tuples[mapping[j]];
    }
    dest := DataArray(source.name, source.numberOfComponents, tuples[..]);
  }

  /** Every point-data array of `input` holds one tuple per point. */
  ghost predicate Consistent(input: PolyData)
  {
    forall a :: a in input.pointData ==> |a.tuples| == |input.points|
  }

  /** The filter and the state it keeps between executions. */
  class DepthSortPointCloud {
    /** The camera whose view direction drives the sort, if one is set. */
    var camera: Option<Camera>
    /** The filter's own modification time, as its superclass reports it. */
    var mTime: nat
    /** The view direction of the last sort; (0, 0, 0) before the first one. */
    var lastDirection: Vec3
    /** The persistent permutation: output position `i` shows input point `mapping[i]`. */
    var mapping: array<int>
    /** The output of the last execution. */
    var lastPolyData: PolyData

    ghost predicate Valid()
      reads this, mapping
    {
      IsPermutation(mapping[..], mapping.Length)
    }

    constructor ()
      ensures Valid() && fresh(mapping)
      ensures camera == None && mTime == 0 && lastDirection == Zero
      ensures mapping.Length == 0 && lastPolyData == PolyData([], [])
    {
      camera := None;
      mTime := 0;
      lastDirection := Zero;
      mapping := new int[0];
      lastPolyData := PolyData([], []);
    }

    /**
     * Sets the camera. Only a different camera object marks the filter
     * modified, at the fresh global time `stamp`, which is later than every
     * time handed out before, the camera's included. Handing over the same
     * object, even after it moved, changes nothing but the view of its state.
     */
    method SetCamera(c: Option<Camera>, stamp: nat)
      requires stamp > mTime && (c.Some? ==> stamp > c.value.mTime)
      modifies this`camera, this`mTime
      ensures camera == c
      ensures mTime == if SameCamera(c, old(camera)) then old(mTime) else stamp
      ensures !SameCamera(c, old(camera)) ==> GetMTime() == mTime
    {
      if !SameCamera(camera, c) {
        mTime := stamp;
      }
      camera := c;
    }

    /**
     * The filter's modification time: the camera's, when there is a camera
     * newer than the filter whose direction is not within the threshold of
     * the last sorted one; the filter's own otherwise.
     */
    function GetMTime(): (t: nat)
      reads this
      ensures t >= mTime
      ensures t != mTime <==>
        camera.Some? && camera.value.mTime > mTime && Dot(lastDirection, camera.value.direction) <= SameDirectionCosine
      ensures t != mTime ==> t == camera.value.mTime
    {
      var baseTime := mTime;
      if camera.Some? && camera.value.mTime > baseTime then
        if Dot(lastDirection, camera.value.direction) > SameDirectionCosine then baseTime
        else camera.value.mTime
      else baseTime
    }

    /**
     * Before the first sort the last direction is (0, 0, 0), so a camera
     * newer than the filter always makes the filter out of date.
     */
    lemma FirstCheckFollowsCamera()
      requires lastDirection == Zero && camera.Some? && camera.value.mTime > mTime
      ensures GetMTime() == camera.value.mTime
    {
      assert Dot(Zero, camera.value.direction) == 0.0;
    }

    /**
     * Once sorted for the camera's (unit) direction, the filter is up to
     * date whatever the camera's modification time.
     */
    lemma SortedDirectionIsCurrent()
      requires camera.Some? && lastDirection == camera.value.direction
      requires Dot(lastDirection, lastDirection) == 1.0
      ensures GetMTime() == mTime
    {
    }

    /**
     * Resizes the permutation to `nbPoints` entries, resetting it to the
     * identity only when its size differs; otherwise the previous order is kept.
     */
    method ResetMapping(nbPoints: nat)
      requires Valid()
      modifies this`mapping
      ensures Valid() && mapping.Length == nbPoints
      ensures old(mapping.Length) == nbPoints ==> mapping == old(mapping) && mapping[..] == old(mapping[..])
      ensures old(mapping.Length) != nbPoints ==> fresh(mapping) && mapping[..] == Iota(nbPoints)
    {
      if mapping.Length != nbPoints {
        mapping := IotaArray(nbPoints);
      }
    }

    /**
     * One execution on `input` (which requires a camera): reset or keep the
     * permutation, sort it by decreasing projection on the camera direction,
     * record that direction, and gather positions and point-data arrays
     * through it into the kept poly data, which is also the output.
     */
    method RequestData(input: PolyData) returns (output: PolyData)
      requires Valid() && camera.Some? && Consistent(input)
      modifies this`mapping, this`lastDirection, this`lastPolyData, mapping
      ensures Valid() && mapping.Length == |input.points|
      ensures camera == old(camera) && mTime == old(mTime)
      ensures lastDirection == camera.value.direction
      ensures old(mapping.Length) == |input.points| ==>
        mapping == old(mapping) && multiset(mapping[..]) == multiset(old(mapping[..]))
      ensures old(mapping.Length) != |input.points| ==> fresh(mapping)
      ensures DepthOrdered(mapping[..], input.points, lastDirection)
      ensures |lastPolyData.points| == |input.points|
      ensures forall i :: 0 <= i < |input.points| ==> lastPolyData.points[i] == input.points[mapping[i]]
      ensures lastPolyData.pointData == AddArrays(old(lastPolyData.pointData), GatheredAll(input.pointData, mapping[..]))
      ensures output == lastPolyData
    {
      var direction := camera.value.direction;
      lastDirection := direction;
      var nbPoints := |input.points|;
      ResetMapping(nbPoints);
      lastDirection := direction;
      SortMapping(input.points, direction);
      var points := GatherPoints(input.points, mapping);
      var pointData := GatherPointData(lastPolyData.pointData, input.pointData, mapping);
      lastPolyData := PolyData(points, pointData);
      output := lastPolyData;
    }

    /** Sorts the permutation in place by decreasing projection of the points on `direction`. */
    method SortMapping(points: seq<Vec3>, direction: Vec3)
      requires Valid() && mapping.Length == |points|
      modifies mapping
      ensures Valid()
      ensures multiset(mapping[..]) == multiset(old(mapping[..]))
      ensures DepthOrdered(mapping[..], points, direction)
    {
      PermutationFacts(mapping[..], mapping.Length);
      SortByKey(mapping, Depths(points, direction), true);
    }
  }

  /**
   * Adds to point data `dest`, one after the other, the arrays of `source`
   * gathered through `mapping`.
   */
  method GatherPointData(dest: seq<DataArray>, source: seq<DataArray>, mapping: array<int>)
    returns (pointData: seq<DataArray>)
    requires forall a :: a in source ==> |a.tuples| == mapping.Length
    requires InRange(mapping[..], mapping.Length)
    ensures pointData == AddArrays(dest, GatheredAll(source, mapping[..]))
  {
    pointData := dest;
    for i := 0 to |source|
      invariant pointData == AddArrays(dest, GatheredAll(source[..i], mapping[..]))
    {
      assert source[i] in source;
      var destArray := GatherArray(source[i], mapping);
      assert destArray == Gathered(source[i], mapping[..]);
      assert source[..i + 1][..i] == source[..i];
      pointData := AddArray(pointData, destArray);
    }
    assert source[..|source|] == source;
  }

  lemma {:induction false} GatheredAllAt(arrays: seq<DataArray>, mapping: seq<int>, k: int)
    requires forall a :: a in arrays ==> |a.tuples| == |mapping|
    requires InRange(mapping, |mapping|)
    requires 0 <= k < |arrays|
    ensures arrays[k] in arrays
    ensures GatheredAll(arrays, mapping)[k] == Gathered(arrays[k], mapping)
  {
    if k < |arrays| - 1 {
      var init := arrays[..|arrays| - 1];
      assert init[k] == arrays[k];
      GatheredAllAt(init, mapping, k);
    }
  }

  /**
   * The kept point data after an execution on input arrays with distinct
   * names: each input array is found under its name, gathered through the
   * permutation, with the same tuples in another order; a name no input
   * array carries still finds what it found before the execution.
   */
  lemma PointDataAfterExecution(previous: seq<DataArray>, source: seq<DataArray>, mapping: seq<int>, name: string)
    requires forall a :: a in source ==> |a.tuples| == |mapping|
    requires IsPermutation(mapping, |mapping|) && DistinctNames(source)
    ensures InRange(mapping, |mapping|)
    ensures forall k :: 0 <= k < |source| && source[k].name == Some(name) ==>
      Lookup(AddArrays(previous, GatheredAll(source, mapping)), name) == Some(Gathered(source[k], mapping)) &&
      multiset(Gathered(source[k], mapping).tuples) == multiset(source[k].tuples)
    ensures (forall k :: 0 <= k < |source| ==> source[k].name != Some(name)) ==>
      Lookup(AddArrays(previous, GatheredAll(source, mapping)), name) == Lookup(previous, name)
  {
    PermutationFacts(mapping, |mapping|);
    var gathered := GatheredAll(source, mapping);
    forall k | 0 <= k < |source|
      ensures gathered[k] == Gathered(source[k], mapping)
    {
      GatheredAllAt(source, mapping, k);
    }
    LookupAddArrays(previous, gathered, name);
    forall k | 0 <= k < |source|
      ensures multiset(Gathered(source[k], mapping).tuples) == multiset(source[k].tuples)
    {
      assert source[k] in source;
      ReorderedPermutes(source[k].tuples, mapping);
    }
  }

  /**
   * The output points, read front to back, are the input points ordered by
   * non-increasing projection on the view direction, each input point once.
   */
  lemma OutputBackToFront(points: seq<Vec3>, mapping: seq<int>, d: Vec3, output: seq<Vec3>)
    requires IsPermutation(mapping, |points|) && |mapping| == |points| && DepthOrdered(mapping, points, d)
    requires |output| == |points| && forall i :: 0 <= i < |points| ==> output[i] == points[mapping[i]]
    ensures forall i, j :: 0 <= i < j < |output| ==> Dot(output[i], d) >= Dot(output[j], d)
    ensures multiset(output) == multiset(points)
  {
    PermutationFacts(mapping, |points|);
    assert output == Reordered(points, mapping);
    ReorderedPermutes(points, mapping);
  }

  /** Every array of `arrays` gathered through `mapping`, in order. */
  function GatheredAll(arrays: seq<DataArray>, mapping: seq<int>): (r: seq<DataArray>)
    requires forall a :: a in arrays ==> |a.tuples| == |mapping|
    requires InRange(mapping, |mapping|)
    ensures |r| == |arrays|
  {
    if arrays == [] then []
    else GatheredAll(arrays[..|arrays| - 1], mapping) + [Gathered(arrays[|arrays| - 1], mapping)]
  }
}
