/**
 * The data model of the volume cropper: a volume is a W x H x D grid of
 * integer voxel intensities, indexed v[x][y][z]. This module holds the
 * shape predicate, the three kinds of axis-orthogonal slice and their sums,
 * Python-style sub-volume slicing and the truncating `int(...)` conversion.
 */
module Volumes {

  /** One of the three axes of a volume. */
  datatype Axis = X | Y | Z

  /** A value for each axis: volume sizes, crop sizes, coordinates, bounds. */
  datatype Triple<T> = Triple(x: T, y: T, z: T) {
    function Along(a: Axis): T {
      match a
      case X => x
      case Y => y
      case Z => z
    }
  }

  type Size3 = Triple<nat>

  /** Voxel intensities, v[x][y][z]. */
  type Volume = seq<seq<seq<int>>>

  /** v is a W x H x D array with (W, H, D) == s. */
  predicate Shaped(v: Volume, s: Size3) {
    && |v| == s.x
    && forall i :: 0 <= i < |v| ==>
         && |v[i]| == s.y
         && forall j :: 0 <= j < |v[i]| ==> |v[i][j]| == s.z
  }

  /** Every voxel of v is zero. */
  predicate AllZero(v: Volume) {
    forall i, j, k :: 0 <= i < |v| && 0 <= j < |v[i]| && 0 <= k < |v[i][j]| ==> v[i][j][k] == 0
  }

  function Sum(s: seq<int>): int {
    if s == [] then 0 else Sum(s[..|s| - 1]) + s[|s| - 1]
  }

  /** The sum of every entry of a 2-D array (what a full-array sum gives). */
  function PlaneSum(p: seq<seq<int>>): int {
    if p == [] then 0 else PlaneSum(p[..|p| - 1]) + Sum(p[|p| - 1])
  }

  /**
   * The 2-D slice of v orthogonal to axis a at index i:
   * v[i, :, :] for X, v[:, i, :] for Y and v[:, :, i] for Z.
   */
  function Plane(v: Volume, s: Size3, a: Axis, i: nat): (p: seq<seq<int>>)
    requires Shaped(v, s) && i < s.Along(a)
    ensures |p| == (if a == X then s.y else s.x)
    ensures forall m :: 0 <= m < |p| ==> |p[m]| == (if a == Z then s.y else s.z)
    ensures forall m, n :: 0 <= m < |p| && 0 <= n < |p[m]| ==>
              p[m][n] == match a
                         case X => v[i][m][n]
                         case Y => v[m][i][n]
                         case Z => v[m][n][i]
  {
    match a
    case X => v[i]
    case Y => seq(|v|, m requires 0 <= m < |v| => v[m][i])
    case Z => seq(|v|, m requires 0 <= m < |v| => seq(|v[m]|, n requires 0 <= n < |v[m]| => v[m][n][i]))
  }

  /** The sum of every voxel in the slice orthogonal to a at index i. */
  function SliceSum(v: Volume, s: Size3, a: Axis, i: nat): int
    requires Shaped(v, s) && i < s.Along(a)
  {
    PlaneSum(Plane(v, s, a, i))
  }

  lemma {:induction false} SumOfZeros(s: seq<int>)
    requires forall k :: 0 <= k < |s| ==> s[k] == 0
    ensures Sum(s) == 0
  {
    if s != [] {
      SumOfZeros(s[..|s| - 1]);
    }
  }

  lemma {:induction false} PlaneSumOfZeros(p: seq<seq<int>>)
    requires forall m, n :: 0 <= m < |p| && 0 <= n < |p[m]| ==> p[m][n] == 0
    ensures PlaneSum(p) == 0
  {
    if p != [] {
      PlaneSumOfZeros(p[..|p| - 1]);
      SumOfZeros(p[|p| - 1]);
    }
  }

  /** Every slice of an all-zero volume sums to zero. */
  lemma ZeroVolumeSlices(v: Volume, s: Size3, a: Axis, i: nat)
    requires Shaped(v, s) && i < s.Along(a) && AllZero(v)
    ensures SliceSum(v, s, a, i) == 0
  {
    var p := Plane(v, s, a, i);
    forall m, n | 0 <= m < |p| && 0 <= n < |p[m]| ensures p[m][n] == 0 {
      match a
      case X => assert p[m][n] == v[i][m][n];
      case Y => assert p[m][n] == v[m][i][n];
      case Z => assert p[m][n] == v[m][n][i];
    }
    PlaneSumOfZeros(p);
  }

  /**
   * Python's `int(r)` on a float: truncation toward zero (which is the floor
   * for non-negative r and the ceiling for negative r).
   */
  function Trunc(r: real): (t: int)
    ensures 0.0 <= r ==> 0 <= t && t as real <= r < t as real + 1.0
    ensures r < 0.0 ==> t <= 0 && t as real - 1.0 < r <= t as real
  {
    if r >= 0.0 then r.Floor else -((-r).Floor)
  }

  /** All of lo..hi fits in s, axis by axis. */
  predicate Window(lo: Triple<int>, hi: Triple<int>, s: Size3) {
    && 0 <= lo.x <= hi.x <= s.x
    && 0 <= lo.y <= hi.y <= s.y
    && 0 <= lo.z <= hi.z <= s.z
  }

  /**
   * The slicing expression v[lo.x:hi.x, lo.y:hi.y, lo.z:hi.z] for bounds that
   * lie inside the volume: a (hi - lo)-shaped volume whose voxel (i, j, k) is
   * the voxel (lo.x + i, lo.y + j, lo.z + k) of v.
   */
  function SubVolume(v: Volume, s: Size3, lo: Triple<int>, hi: Triple<int>): (r: Volume)
    requires Shaped(v, s) && Window(lo, hi, s)
    ensures Shaped(r, Triple(hi.x - lo.x, hi.y - lo.y, hi.z - lo.z))
    ensures forall i, j, k :: 0 <= i < |r| && 0 <= j < |r[i]| && 0 <= k < |r[i][j]| ==>
              r[i][j][k] == v[lo.x + i][lo.y + j][lo.z + k]
  {
    seq(hi.x - lo.x, i requires 0 <= i < hi.x - lo.x =>
      seq(hi.y - lo.y, j requires 0 <= j < hi.y - lo.y =>
        v[lo.x + i][lo.y + j][lo.z..hi.z]))
  }
}
