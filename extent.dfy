/**
 * The extent finder and the coordinate builder of processmgz: for every axis
 * two scans (low to high for the first, high to low for the last slice whose
 * voxel sum exceeds the threshold), and the per-axis coordinate
 * abs(max + min) / 2 built from the six bounds.
 */
module ExtentFinder {
  import opened Volumes

  /** A slice "has signal" when its voxel sum is greater than this. */
  const Threshold: int := 50

  /** The bounds found along one axis (xmin/xmax, ymin/ymax or zmin/zmax). */
  datatype Span = Span(min: nat, max: nat)

  type Bounds = Triple<Span>
  type Coord = Triple<real>

  /** The slice across a at index i has signal: its voxel sum exceeds 50. */
  predicate Qualifies(v: Volume, s: Size3, a: Axis, i: nat)
    requires Shaped(v, s) && i < s.Along(a)
  {
    SliceSum(v, s, a, i) > Threshold
  }

  /** Whether each slice along a has signal, index by index. */
  function Signal(v: Volume, s: Size3, a: Axis): (q: seq<bool>)
    requires Shaped(v, s)
    ensures |q| == s.Along(a)
    ensures forall i :: 0 <= i < |q| ==> q[i] == Qualifies(v, s, a, i)
  {
    seq(s.Along(a), i requires 0 <= i < s.Along(a) => Qualifies(v, s, a, i))
  }

  /** Some flag of q is set. */
  predicate Any(q: seq<bool>) {
    exists i :: 0 <= i < |q| && q[i]
  }

  /** m is the first set flag of q, or the default 0 when none is set. */
  predicate IsFirst(q: seq<bool>, m: int) {
    if Any(q) then 0 <= m < |q| && q[m] && forall j :: 0 <= j < m ==> !q[j]
    else m == 0
  }

  /** m is the last set flag of q, or the default 0 (not |q| - 1) when none is set. */
  predicate IsLast(q: seq<bool>, m: int) {
    if Any(q) then 0 <= m < |q| && q[m] && forall j :: m < j < |q| ==> !q[j]
    else m == 0
  }

  /** Some slice along a has signal. */
  predicate AnyQualifies(v: Volume, s: Size3, a: Axis)
    requires Shaped(v, s)
  {
    Any(Signal(v, s, a))
  }

  /**
   * m is the min bound along a: the smallest index whose slice sum exceeds
   * the threshold, or the default 0 when there is none.
   */
  predicate IsMinBound(v: Volume, s: Size3, a: Axis, m: int)
    requires Shaped(v, s)
  {
    IsFirst(Signal(v, s, a), m)
  }

  /**
   * m is the max bound along a: the largest index whose slice sum exceeds
   * the threshold, or the default 0 when there is none.
   */
  predicate IsMaxBound(v: Volume, s: Size3, a: Axis, m: int)
    requires Shaped(v, s)
  {
    IsLast(Signal(v, s, a), m)
  }

  /** The first set flag at or above i, or 0 if there is none. */
  function FirstFrom(q: seq<bool>, i: nat): nat
    requires i <= |q|
    decreases |q| - i
  {
    if i == |q| then 0
    else if q[i] then i
    else FirstFrom(q, i + 1)
  }

  /** The last set flag below i, or 0 if there is none. */
  function LastBelow(q: seq<bool>, i: nat): nat
    requires i <= |q|
  {
    if i == 0 then 0
    else if q[i - 1] then i - 1
    else LastBelow(q, i - 1)
  }

  lemma {:induction false} FirstFromFound(q: seq<bool>, i: nat, k: nat)
    requires i <= k < |q| && q[k]
    ensures i <= FirstFrom(q, i) <= k
    ensures q[FirstFrom(q, i)]
    ensures forall j :: i <= j < FirstFrom(q, i) ==> !q[j]
    decreases |q| - i
  {
    if !q[i] {
      FirstFromFound(q, i + 1, k);
    }
  }

  lemma {:induction false} FirstFromNone(q: seq<bool>, i: nat)
    requires i <= |q|
    requires forall j :: i <= j < |q| ==> !q[j]
    ensures FirstFrom(q, i) == 0
    decreases |q| - i
  {
    if i < |q| {
      FirstFromNone(q, i + 1);
    }
  }

  lemma {:induction false} LastBelowFound(q: seq<bool>, i: nat, k: nat)
    requires k < i <= |q| && q[k]
    ensures k <= LastBelow(q, i) < i
    ensures q[LastBelow(q, i)]
    ensures forall j :: LastBelow(q, i) < j < i ==> !q[j]
  {
    if !q[i - 1] {
      LastBelowFound(q, i - 1, k);
    }
  }

  lemma {:induction false} LastBelowNone(q: seq<bool>, i: nat)
    requires i <= |q|
    requires forall j :: 0 <= j < i ==> !q[j]
    ensures LastBelow(q, i) == 0
  {
    if i > 0 {
      LastBelowNone(q, i - 1);
    }
  }

  /** The forward search from 0 finds the first set flag, or 0. */
  lemma FirstFromSpec(q: seq<bool>)
    ensures IsFirst(q, FirstFrom(q, 0))
  {
    if k :| 0 <= k < |q| && q[k] {
      FirstFromFound(q, 0, k);
    } else {
      FirstFromNone(q, 0);
    }
  }

  /** The backward search from |q| finds the last set flag, or 0. */
  lemma LastBelowSpec(q: seq<bool>)
    ensures IsLast(q, LastBelow(q, |q|))
  {
    if k :| 0 <= k < |q| && q[k] {
      LastBelowFound(q, |q|, k);
    } else {
      LastBelowNone(q, |q|);
    }
  }

  /** IsFirst singles out one index. */
  lemma IsFirstUnique(q: seq<bool>, m: int)
    requires IsFirst(q, m)
    ensures m == FirstFrom(q, 0)
  {
    FirstFromSpec(q);
  }

  /** IsLast singles out one index. */
  lemma IsLastUnique(q: seq<bool>, m: int)
    requires IsLast(q, m)
    ensures m == LastBelow(q, |q|)
  {
    LastBelowSpec(q);
  }

  function MinBound(v: Volume, s: Size3, a: Axis): nat
    requires Shaped(v, s)
  {
    FirstFrom(Signal(v, s, a), 0)
  }

  function MaxBound(v: Volume, s: Size3, a: Axis): nat
    requires Shaped(v, s)
  {
    LastBelow(Signal(v, s, a), s.Along(a))
  }

  /** MinBound is the first qualifying index, or 0 when none qualifies. */
  lemma MinBoundSpec(v: Volume, s: Size3, a: Axis)
    requires Shaped(v, s)
    ensures IsMinBound(v, s, a, MinBound(v, s, a))
  {
    FirstFromSpec(Signal(v, s, a));
  }

  /** MaxBound is the last qualifying index, or 0 when none qualifies. */
  lemma MaxBoundSpec(v: Volume, s: Size3, a: Axis)
    requires Shaped(v, s)
    ensures IsMaxBound(v, s, a, MaxBound(v, s, a))
  {
    LastBelowSpec(Signal(v, s, a));
  }

  /** The forward scan of one axis (`for xm in range(W): ... break`). */
  method ScanMin(v: Volume, s: Size3, a: Axis) returns (m: nat)
    requires Shaped(v, s)
    ensures IsMinBound(v, s, a, m)
    ensures m == MinBound(v, s, a)
  {
    ghost var q := Signal(v, s, a);
    m := 0;
    var n := s.Along(a);
    var i := 0;
    while i < n
      invariant 0 <= i <= n
      invariant m == 0
      invariant forall j :: 0 <= j < i ==> !q[j]
    {
      if SliceSum(v, s, a, i) > Threshold {
        assert q[i];
        m := i;
        break;
      }
      i := i + 1;
    }
    IsFirstUnique(q, m);
  }

  /** The backward scan of one axis, visiting W - 1 - xm for xm = 0, 1, ... */
  method ScanMax(v: Volume, s: Size3, a: Axis) returns (m: nat)
    requires Shaped(v, s)
    ensures IsMaxBound(v, s, a, m)
    ensures m == MaxBound(v, s, a)
  {
    ghost var q := Signal(v, s, a);
    m := 0;
    var n := s.Along(a);
    var i := 0;
    while i < n
      invariant 0 <= i <= n
      invariant m == 0
      invariant forall j :: n - i <= j < n ==> !q[j]
    {
      var last := n - 1 - i;
      if SliceSum(v, s, a, last) > Threshold {
        assert Qualifies(v, s, a, last);
        m := last;
        break;
      }
      assert !q[last];
      i := i + 1;
    }
    IsLastUnique(q, m);
  }

  /** The six bounds, as the scans define them. */
  function ExtentOf(v: Volume, s: Size3): Bounds
    requires Shaped(v, s)
  {
    Triple(Span(MinBound(v, s, X), MaxBound(v, s, X)),
           Span(MinBound(v, s, Y), MaxBound(v, s, Y)),
           Span(MinBound(v, s, Z), MaxBound(v, s, Z)))
  }

  /** The six scans of one volume (xmin, xmax, ymin, ymax, zmin, zmax). */
  method FindExtent(v: Volume, s: Size3) returns (b: Bounds)
    requires Shaped(v, s)
    ensures b == ExtentOf(v, s)
  {
    var xmin := ScanMin(v, s, X);
    var xmax := ScanMax(v, s, X);
    var ymin := ScanMin(v, s, Y);
    var ymax := ScanMax(v, s, Y);
    var zmin := ScanMin(v, s, Z);
    var zmax := ScanMax(v, s, Z);
    b := Triple(Span(xmin, xmax), Span(ymin, ymax), Span(zmin, zmax));
  }

  function Abs(n: int): nat {
    if n < 0 then -n else n
  }

  /** One coordinate from its two bounds: abs(max + min) / 2. */
  function Center(sp: Span): real {
    Abs(sp.max + sp.min) as real / 2.0
  }

  /** The coordinate appended for one volume. */
  function CenterOf(b: Bounds): Coord {
    Triple(Center(b.x), Center(b.y), Center(b.z))
  }

  function CoordOf(v: Volume, s: Size3): (c: Coord)
    requires Shaped(v, s)
  {
    CenterOf(ExtentOf(v, s))
  }

  /** The coordinate of v along a is the one built from the bounds along a. */
  lemma CoordAlong(v: Volume, s: Size3, a: Axis)
    requires Shaped(v, s)
    ensures CoordOf(v, s).Along(a) == Center(Span(MinBound(v, s, a), MaxBound(v, s, a)))
  {
  }

  /**
   * When some slice along a has signal the two bounds are ordered, the
   * coordinate is their exact midpoint (the abs changes nothing), and it
   * lies within [0, dim - 1].
   */
  lemma CenterInRange(v: Volume, s: Size3, a: Axis)
    requires Shaped(v, s) && AnyQualifies(v, s, a)
    ensures MinBound(v, s, a) <= MaxBound(v, s, a)
    ensures CoordOf(v, s).Along(a) == (MinBound(v, s, a) + MaxBound(v, s, a)) as real / 2.0
    ensures 0.0 <= CoordOf(v, s).Along(a) <= (s.Along(a) - 1) as real
  {
    MinBoundSpec(v, s, a);
    MaxBoundSpec(v, s, a);
    CoordAlong(v, s, a);
  }

  /** An axis with no qualifying slice contributes coordinate 0. */
  lemma NoSignalAxis(v: Volume, s: Size3, a: Axis)
    requires Shaped(v, s) && !AnyQualifies(v, s, a)
    ensures MinBound(v, s, a) == 0 && MaxBound(v, s, a) == 0
    ensures CoordOf(v, s).Along(a) == 0.0
  {
    MinBoundSpec(v, s, a);
    MaxBoundSpec(v, s, a);
    CoordAlong(v, s, a);
  }

  /** A volume with no qualifying slice on any axis gets coordinate (0, 0, 0). */
  lemma NoSignalCoordZero(v: Volume, s: Size3)
    requires Shaped(v, s)
    requires !AnyQualifies(v, s, X) && !AnyQualifies(v, s, Y) && !AnyQualifies(v, s, Z)
    ensures CoordOf(v, s) == Triple(0.0, 0.0, 0.0)
  {
    NoSignalAxis(v, s, X);
    NoSignalAxis(v, s, Y);
    NoSignalAxis(v, s, Z);
  }

  /** An all-zero volume has no qualifying slice, so its coordinate is (0, 0, 0). */
  lemma ZeroVolumeCoord(v: Volume, s: Size3)
    requires Shaped(v, s) && AllZero(v)
    ensures CoordOf(v, s) == Triple(0.0, 0.0, 0.0)
  {
    forall a, i | 0 <= i < s.Along(a) ensures !Qualifies(v, s, a, i) {
      ZeroVolumeSlices(v, s, a, i);
    }
    NoSignalCoordZero(v, s);
  }

  /**
   * When the qualifying slices along a are exactly lo..hi-1, the bounds are
   * lo and hi - 1 (the last qualifying index, not hi), and the coordinate is
   * (lo + hi - 1) / 2.
   */
  lemma BandExtent(v: Volume, s: Size3, a: Axis, lo: nat, hi: nat)
    requires Shaped(v, s) && lo < hi <= s.Along(a)
    requires forall i :: 0 <= i < s.Along(a) ==> (Qualifies(v, s, a, i) <==> lo <= i < hi)
    ensures MinBound(v, s, a) == lo && MaxBound(v, s, a) == hi - 1
    ensures CoordOf(v, s).Along(a) == (lo + hi - 1) as real / 2.0
  {
    var q := Signal(v, s, a);
    assert q[lo] && q[hi - 1];
    FirstFromSpec(q);
    LastBelowSpec(q);
    assert FirstFrom(q, 0) == lo && LastBelow(q, |q|) == hi - 1;
    CoordAlong(v, s, a);
  }
}
