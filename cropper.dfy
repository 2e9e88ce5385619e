/**
 * The margin filter and cropper of processmgz, and the whole batch transform:
 * one coordinate per input volume, then every volume whose coordinate lies
 * strictly inside the crop margins on all three axes is cut down to the crop
 * size around that coordinate.
 */
module Cropper {
  import opened Volumes
  import opened ExtentFinder

  /** Every volume of the batch is a dims-shaped array. */
  predicate AllShaped(brains: seq<Volume>, dims: Size3) {
    forall i :: 0 <= i < |brains| ==> Shaped(brains[i], dims)
  }

  /** The margin test on one axis: r/2 < c < dim - r/2, both strict. */
  predicate Fits(c: real, dim: nat, r: nat) {
    c > r as real / 2.0 && c < dim as real - r as real / 2.0
  }

  /** The six margin inequalities of one coordinate. */
  predicate Passes(co: Coord, dims: Size3, crop: Size3) {
    && Fits(co.x, dims.x, crop.x)
    && Fits(co.y, dims.y, crop.y)
    && Fits(co.z, dims.z, crop.z)
  }

  /** The slice start int(c - r/2). */
  function CropLo(c: real, r: nat): int {
    Trunc(c - r as real / 2.0)
  }

  /** The slice end int(c + r/2). */
  function CropHi(c: real, r: nat): int {
    Trunc(c + r as real / 2.0)
  }

  /**
   * A coordinate that passes the margin test on an axis gives slice bounds
   * inside [0, dim] that are exactly r apart: c - r/2 and c + r/2 are both
   * positive and differ by the whole number r, so truncating each of them
   * never makes the crop one voxel too wide or too narrow.
   */
  lemma CropWindow(c: real, dim: nat, r: nat)
    requires Fits(c, dim, r)
    ensures 0 <= CropLo(c, r) <= CropHi(c, r) < dim
    ensures CropHi(c, r) - CropLo(c, r) == r
  {
  }

  function LoCorner(co: Coord, crop: Size3): Triple<int> {
    Triple(CropLo(co.x, crop.x), CropLo(co.y, crop.y), CropLo(co.z, crop.z))
  }

  function HiCorner(co: Coord, crop: Size3): Triple<int> {
    Triple(CropHi(co.x, crop.x), CropHi(co.y, crop.y), CropHi(co.z, crop.z))
  }

  /**
   * The crop of a volume whose coordinate passes the margin test: a
   * crop-shaped volume whose voxel (i, j, k) is the voxel at
   * LoCorner + (i, j, k) of the input.
   */
  function CropAt(v: Volume, dims: Size3, co: Coord, crop: Size3): (r: Volume)
    requires Shaped(v, dims) && Passes(co, dims, crop)
    ensures Shaped(r, crop)
    ensures forall i, j, k :: 0 <= i < |r| && 0 <= j < |r[i]| && 0 <= k < |r[i][j]| ==>
              var lo := LoCorner(co, crop);
              0 <= lo.x + i < dims.x && 0 <= lo.y + j < dims.y && 0 <= lo.z + k < dims.z &&
              r[i][j][k] == v[lo.x + i][lo.y + j][lo.z + k]
  {
    CropWindow(co.x, dims.x, crop.x);
    CropWindow(co.y, dims.y, crop.y);
    CropWindow(co.z, dims.z, crop.z);
    SubVolume(v, dims, LoCorner(co, crop), HiCorner(co, crop))
  }

  /** The crops appended to data_new, in input order. */
  function Kept(brains: seq<Volume>, coords: seq<Coord>, dims: Size3, crop: Size3): seq<Volume>
    requires AllShaped(brains, dims) && |coords| == |brains|
  {
    if brains == [] then []
    else
      var n := |brains| - 1;
      Kept(brains[..n], coords[..n], dims, crop) +
      if Passes(coords[n], dims, crop) then [CropAt(brains[n], dims, coords[n], crop)] else []
  }

  /** The input indices whose coordinates pass the margin test, in input order. */
  function Survivors(coords: seq<Coord>, dims: Size3, crop: Size3): seq<nat> {
    if coords == [] then []
    else
      var n := |coords| - 1;
      Survivors(coords[..n], dims, crop) + if Passes(coords[n], dims, crop) then [n] else []
  }

  /**
   * The survivors are exactly the indices whose coordinate passes all six
   * margin inequalities, each once, in increasing order.
   */
  lemma {:induction false} SurvivorsSpec(coords: seq<Coord>, dims: Size3, crop: Size3)
    ensures forall k :: 0 <= k < |Survivors(coords, dims, crop)| ==> Survivors(coords, dims, crop)[k] < |coords|
    ensures forall k, l :: 0 <= k < l < |Survivors(coords, dims, crop)| ==>
              Survivors(coords, dims, crop)[k] < Survivors(coords, dims, crop)[l]
    ensures forall i :: 0 <= i < |coords| ==> (i in Survivors(coords, dims, crop) <==> Passes(coords[i], dims, crop))
  {
    if coords != [] {
      var n := |coords| - 1;
      SurvivorsSpec(coords[..n], dims, crop);
      assert forall i :: 0 <= i < n ==> coords[..n][i] == coords[i];
    }
  }

  /**
   * data_new holds, in order, the crop of each surviving volume and nothing
   * else: its k-th entry is the crop of input volume Survivors[k].
   */
  lemma {:induction false} KeptAreSurvivorCrops(brains: seq<Volume>, coords: seq<Coord>, dims: Size3, crop: Size3)
    requires AllShaped(brains, dims) && |coords| == |brains|
    ensures |Kept(brains, coords, dims, crop)| == |Survivors(coords, dims, crop)|
    ensures forall k :: 0 <= k < |Kept(brains, coords, dims, crop)| ==>
              var i := Survivors(coords, dims, crop)[k];
              && i < |brains|
              && Passes(coords[i], dims, crop)
              && Kept(brains, coords, dims, crop)[k] == CropAt(brains[i], dims, coords[i], crop)
  {
    SurvivorsSpec(coords, dims, crop);
    if brains != [] {
      var n := |brains| - 1;
      KeptAreSurvivorCrops(brains[..n], coords[..n], dims, crop);
      SurvivorsSpec(coords[..n], dims, crop);
    }
  }

  /** data_new never holds more volumes than the input batch. */
  lemma {:induction false} KeptAtMostInput(brains: seq<Volume>, coords: seq<Coord>, dims: Size3, crop: Size3)
    requires AllShaped(brains, dims) && |coords| == |brains|
    ensures |Kept(brains, coords, dims, crop)| <= |brains|
  {
    if brains != [] {
      KeptAtMostInput(brains[..|brains| - 1], coords[..|brains| - 1], dims, crop);
    }
  }

  /** With the volume size as the crop size the margin test cannot pass. */
  lemma NeverFitsOwnSize(c: real, r: nat)
    ensures !Fits(c, r, r)
  {
  }

  /**
   * With a volume dim larger than the crop size the margin test can pass:
   * the middle of the axis always does.
   */
  lemma MarginSatisfiable(dim: nat, r: nat)
    requires r < dim
    ensures Fits(dim as real / 2.0, dim, r)
  {
  }

  /**
   * When the volume dims and the crop sizes are the same triple, data_new is
   * empty whatever the batch and its coordinates.
   */
  lemma {:induction false} SameSizeKeepsNothing(brains: seq<Volume>, coords: seq<Coord>, size: Size3)
    requires AllShaped(brains, size) && |coords| == |brains|
    ensures Kept(brains, coords, size, size) == []
  {
    if brains != [] {
      var n := |brains| - 1;
      SameSizeKeepsNothing(brains[..n], coords[..n], size);
      NeverFitsOwnSize(coords[n].x, size.x);
    }
  }

  /** A volume without signal (coordinate (0, 0, 0)) never passes the margin test. */
  lemma ZeroVolumeDropped(v: Volume, dims: Size3, crop: Size3)
    requires Shaped(v, dims) && AllZero(v)
    ensures !Passes(CoordOf(v, dims), dims, crop)
  {
    ZeroVolumeCoord(v, dims);
  }

  /**
   * The first loop of processmgz (lines 20-49): the six scans of every
   * volume and the coordinate built from them, one per volume in input order.
   */
  method Coordinates(brains: seq<Volume>, dims: Size3) returns (coord: seq<Coord>)
    requires AllShaped(brains, dims)
    ensures |coord| == |brains|
    ensures forall i :: 0 <= i < |brains| ==> coord[i] == CoordOf(brains[i], dims)
  {
    coord := [];
    for i := 0 to |brains|
      invariant |coord| == i
      invariant forall k :: 0 <= k < i ==> coord[k] == CoordOf(brains[k], dims)
    {
      var b := FindExtent(brains[i], dims);
      var td := Triple(Center(b.x), Center(b.y), Center(b.z));
      coord := coord + [td];
    }
  }

  /**
   * The second loop of processmgz (lines 52-64): the margin test on the
   * volume dims (voxel_width, ...) and the crop sizes (x_range, ...), and
   * the crop of every volume that passes, appended in input order.
   */
  method MarginCrop(brains: seq<Volume>, coord: seq<Coord>, dims: Size3, crop: Size3) returns (dataNew: seq<Volume>)
    requires AllShaped(brains, dims) && |coord| == |brains|
    ensures dataNew == Kept(brains, coord, dims, crop)
  {
    dataNew := [];
    for i := 0 to |brains|
      invariant dataNew == Kept(brains[..i], coord[..i], dims, crop)
    {
      var co := coord[i];
      assert brains[..i + 1][..i] == brains[..i] && coord[..i + 1][..i] == coord[..i];
      if && co.x > crop.x as real / 2.0 && co.x < dims.x as real - crop.x as real / 2.0
         && co.y > crop.y as real / 2.0 && co.y < dims.y as real - crop.y as real / 2.0
         && co.z > crop.z as real / 2.0 && co.z < dims.z as real - crop.z as real / 2.0
      {
        CropWindow(co.x, dims.x, crop.x);
        CropWindow(co.y, dims.y, crop.y);
        CropWindow(co.z, dims.z, crop.z);
        var lo := Triple(CropLo(co.x, crop.x), CropLo(co.y, crop.y), CropLo(co.z, crop.z));
        var hi := Triple(CropHi(co.x, crop.x), CropHi(co.y, crop.y), CropHi(co.z, crop.z));
        assert SubVolume(brains[i], dims, lo, hi) == CropAt(brains[i], dims, co, crop);
        dataNew := dataNew + [SubVolume(brains[i], dims, lo, hi)];
      }
    }
    assert brains[..|brains|] == brains && coord[..|brains|] == coord;
  }

  /**
   * processmgz with the volume dims and the crop sizes as separate
   * parameters: one coordinate per volume in input order, then the crops of
   * the volumes that pass the margin test.
   */
  method CropBatch(brains: seq<Volume>, dims: Size3, crop: Size3) returns (dataNew: seq<Volume>, coord: seq<Coord>)
    requires AllShaped(brains, dims)
    ensures |coord| == |brains|
    ensures forall i :: 0 <= i < |brains| ==> coord[i] == CoordOf(brains[i], dims)
    ensures dataNew == Kept(brains, coord, dims, crop)
  {
    coord := Coordinates(brains, dims);
    dataNew := MarginCrop(brains, coord, dims, crop);
  }

  /**
   * processmgz(brains, voxel_size=(128, 128, 128)): the volume dims and the
   * crop sizes are both voxel_size, so every volume gets its coordinate and
   * none is kept.
   */
  method ProcessMgz(brains: seq<Volume>, voxelSize: Size3 := Triple(128, 128, 128)) returns (dataNew: seq<Volume>, coord: seq<Coord>)
    requires AllShaped(brains, voxelSize)
    ensures |coord| == |brains|
    ensures forall i :: 0 <= i < |brains| ==> coord[i] == CoordOf(brains[i], voxelSize)
    ensures dataNew == []
  {
    dataNew, coord := CropBatch(brains, voxelSize, voxelSize);
    SameSizeKeepsNothing(brains, coord, voxelSize);
  }
}
