# processmgz: find the signal and crop

This project models `processmgz` from `function/preprocess_flex.py`, the
batch transform that crops brain volumes around their signal. For every
W x H x D volume it does three things:

- It scans each axis from both ends for the first and the last slice whose
  voxel sum is greater than 50.
- It builds one coordinate per volume from those six bounds, as
  `abs(max + min) / 2` per axis.
- It keeps a volume only if that coordinate lies strictly inside the crop
  margins on all three axes. A kept volume is cut to the crop size around
  the coordinate.

The function returns the list of crops (`data_new`) and the list of
coordinates (`coord`).

Three modules make up the model:

- `Volumes` (`volumes.dfy`) is the data model. It holds volumes as
  `seq<seq<seq<int>>>`, the shape predicate, the three kinds of slice and
  their sums (`np.sum(buf[xm, :, :])` and its y and z forms), sub-volume
  slicing and the truncating `int(...)`.
- `ExtentFinder` (`extent.dfy`) holds the six scan loops as two methods
  parameterised by axis, `ScanMin` and `ScanMax`. Each is proved against a
  declarative specification: the first or last qualifying index, or the
  default 0 when none qualifies. That specification is stated on `Signal`,
  the sequence of per-index flags "this slice's sum exceeds 50". The
  first/last-flag searches and their lemmas work on that sequence. This
  module also holds the coordinate builder and its properties.
- `Cropper` (`cropper.dfy`) holds the margin test, the crop, the two batch
  loops (`Coordinates` and `MarginCrop`), `CropBatch` and `ProcessMgz`.
  `CropBatch` keeps the volume dims and the crop sizes as separate
  parameters. `ProcessMgz` passes `voxel_size` as both, as the source does.

Coordinates are exact `real`s. Each one is a half-integer, so no
floating-point rounding is involved. Voxel intensities and slice sums are
`int`.

Three consequences of the code are worth spelling out:

- A block of signal filling indices 54..73 gets coordinate
  `abs(73 + 54) / 2 = 63.5`, because `/` is true division (line 48).
  `ExtentFinder.BandExtent` states the general rule, `(lo + hi - 1) / 2`.
- The margin test is strict on both sides (line 57):
  `crop_half < c < dim - crop_half`.
- For a coordinate that passes the margin test, truncating the two crop
  bounds separately (lines 61-63) never changes the crop width: both bounds
  are positive and differ by the whole number `r` (`Cropper.CropWindow`).

## Model

| member | source | states |
|---|---|---|
| `Volumes.Plane` | function/preprocess_flex.py:25-45 | The slice at index i across axis a (`buf[i,:,:]`, `buf[:,i,:]`, `buf[:,:,i]`) has the shape of the other two axes and holds exactly the voxels whose a-coordinate is i. |
| `Volumes.ZeroVolumeSlices` | function/preprocess_flex.py:25-45 | Every slice of an all-zero volume sums to 0, so it never exceeds the threshold. |
| `Volumes.Trunc` | function/preprocess_flex.py:61-63 | `int(r)` rounds toward zero: the floor for non-negative r and the ceiling for negative r. |
| `Volumes.SubVolume` | function/preprocess_flex.py:60-64 | Slicing `v[lo.x:hi.x, lo.y:hi.y, lo.z:hi.z]` with in-range bounds gives an (hi - lo)-shaped volume whose voxel (i,j,k) is voxel lo + (i,j,k) of v. |
| `ExtentFinder.ScanMin` | function/preprocess_flex.py:24-27 | The forward scan (x here; y and z at lines 32-35 and 40-43) returns the smallest index whose slice sum exceeds 50, or 0 if none does. It equals `MinBound`. |
| `ExtentFinder.ScanMax` | function/preprocess_flex.py:28-31 | The backward scan (x here; y and z at lines 36-39 and 44-47) returns the largest index whose slice sum exceeds 50. If none does it returns 0, not dim - 1. It equals `MaxBound`. |
| `ExtentFinder.MinBoundSpec` | function/preprocess_flex.py:23-27 | `MinBound` is the first index whose slice sum exceeds 50 when one exists, and the line-23 default 0 otherwise. |
| `ExtentFinder.MaxBoundSpec` | function/preprocess_flex.py:28-31 | `MaxBound` is the last index whose slice sum exceeds 50 when one exists, and the line-23 default 0 otherwise. |
| `ExtentFinder.FirstFromFound` | function/preprocess_flex.py:24-27 | If flag k at or above i is set, the forward search from i returns a set flag in [i, k] with no set flag between i and it. |
| `ExtentFinder.FirstFromNone` | function/preprocess_flex.py:23-27 | If no flag at or above i is set, the forward search keeps the default 0. |
| `ExtentFinder.LastBelowFound` | function/preprocess_flex.py:28-31 | If flag k below i is set, the backward search from i returns a set flag in [k, i) with no set flag between it and i. |
| `ExtentFinder.LastBelowNone` | function/preprocess_flex.py:23-31 | If no flag below i is set, the backward search keeps the default 0. |
| `ExtentFinder.FirstFromSpec` | function/preprocess_flex.py:23-27 | The forward search from index 0 returns the first set flag, or 0 when none is set. |
| `ExtentFinder.LastBelowSpec` | function/preprocess_flex.py:23-31 | The backward search from the end returns the last set flag, or 0 (not the last index) when none is set. |
| `ExtentFinder.IsFirstUnique` | function/preprocess_flex.py:24-27 | Only one index meets the first-set-flag property, so the property determines xmin, ymin and zmin. |
| `ExtentFinder.IsLastUnique` | function/preprocess_flex.py:28-31 | Only one index meets the last-set-flag property, so the property determines xmax, ymax and zmax. |
| `ExtentFinder.FindExtent` | function/preprocess_flex.py:23-47 | The six scans of one volume yield exactly (MinBound, MaxBound) on each of x, y and z. |
| `ExtentFinder.CenterInRange` | function/preprocess_flex.py:24-48 | If some slice along an axis qualifies, then min <= max. The coordinate is then exactly (min + max) / 2, so the `abs` is a no-op, and it lies in [0, dim - 1]. |
| `ExtentFinder.NoSignalAxis` | function/preprocess_flex.py:23-48 | An axis with no qualifying slice has both bounds 0 and coordinate 0. |
| `ExtentFinder.NoSignalCoordZero` | function/preprocess_flex.py:23-48 | A volume with no qualifying slice on any axis gets coordinate (0, 0, 0). |
| `ExtentFinder.ZeroVolumeCoord` | function/preprocess_flex.py:23-48 | An all-zero volume gets coordinate (0, 0, 0). |
| `ExtentFinder.BandExtent` | function/preprocess_flex.py:24-48 | If the qualifying slices along an axis are exactly lo..hi-1, the bounds are lo and hi - 1 and the coordinate is (lo + hi - 1) / 2. |
| `Cropper.CropWindow` | function/preprocess_flex.py:57-63 | For a coordinate passing the margin test on an axis, `int(c - r/2)` and `int(c + r/2)` satisfy 0 <= lo <= hi < dim and hi - lo == r. |
| `Cropper.CropAt` | function/preprocess_flex.py:60-64 | The crop of a passing volume has exactly the crop shape. Every voxel (i,j,k) of it is the in-range voxel (lo.x+i, lo.y+j, lo.z+k) of the input. |
| `Cropper.SurvivorsSpec` | function/preprocess_flex.py:53-60 | The surviving indices are strictly increasing and in range. An index survives exactly when its coordinate satisfies all six strict margin inequalities. |
| `Cropper.KeptAreSurvivorCrops` | function/preprocess_flex.py:53-64 | `data_new` has one entry per surviving index, in input order. Entry k is the crop of input volume Survivors[k], and nothing else is in it. |
| `Cropper.KeptAtMostInput` | function/preprocess_flex.py:53-60 | `data_new` never has more entries than the input batch. |
| `Cropper.NeverFitsOwnSize` | function/preprocess_flex.py:51-59 | If the volume dim and the crop size on an axis are the same number, no coordinate passes that axis's margin test. |
| `Cropper.MarginSatisfiable` | function/preprocess_flex.py:57-59 | If the volume dim exceeds the crop size, the middle of the axis passes the margin test. |
| `Cropper.SameSizeKeepsNothing` | function/preprocess_flex.py:51-60 | When the dims and the crop sizes are the same triple, `data_new` is empty for every batch and every coordinate list. |
| `Cropper.ZeroVolumeDropped` | function/preprocess_flex.py:57-59 | An all-zero volume never passes the margin test, whatever the dims and crop sizes. |
| `Cropper.Coordinates` | function/preprocess_flex.py:18-49 | The first loop returns exactly one coordinate per input volume, in input order. Entry i is `CoordOf(brains[i])`. |
| `Cropper.MarginCrop` | function/preprocess_flex.py:52-64 | The second loop returns `Kept`: the crops of the volumes passing the margin test, in input order. |
| `Cropper.CropBatch` | function/preprocess_flex.py:17-64 | With separate dims and crop sizes, the result is one coordinate per volume (whether or not it is kept) and the kept crops. |
| `Cropper.ProcessMgz` | function/preprocess_flex.py:4-66 | `processmgz(brains, voxel_size)` computes one coordinate per volume, in order, and the list `data_new` that line 65 receives is empty for every input. |

## Findings

| source | as written | input that shows it | evidently intended | confidence | as-written member | corrected member |
|---|---|---|---|---|---|---|
| function/preprocess_flex.py:19-59 | The volume dims (`voxel_width`, ...) and the margin sizes (`x_range`, ...) are both unpacked from `voxel_size`. The test then reads `r/2 < c < r - r/2 = r/2`, which no coordinate meets. | Any batch, e.g. one 128x128x128 volume with a signal block filling indices 54..73 on every axis (coordinate (63.5, 63.5, 63.5)): `data_new` stays empty. | The margin is measured against the volume's own dims, and `voxel_size` gives only the crop size. A volume whose coordinate is far enough from the edges is then cut to the crop size. | high (not executed) | `Cropper.ProcessMgz` (with `Cropper.SameSizeKeepsNothing`) | `Cropper.CropBatch` (with `Cropper.KeptAreSurvivorCrops`, `Cropper.CropWindow`, `Cropper.MarginSatisfiable`) |

## Left out

- `np.asarray` and `reshape` (lines 17, 22, 56) are not modelled. They become the precondition that every volume is already a `voxel_size`-shaped array (`AllShaped`). NumPy's shape errors on a wrong element count are not modelled.
- `np.expand_dims(data_new, axis=4)` (line 65) only wraps the shape. It is not modelled: `ProcessMgz` returns the list that line 65 receives. This step's behaviour is left open. `data_new` is always empty, and current NumPy rejects axis 4 for an empty list, which would make the call raise.
- The unused `import os` (line 2) is not modelled.
- Voxel intensities and slice sums are modelled as unbounded integers, not floats. The rounding of NumPy's floating-point summation is not modelled.
- `ExtentFinder.ScanMin` and `ExtentFinder.ScanMax` model the six near-identical scan loops as two loops parameterised by axis. Each is proved for every axis.
- `Cropper.CropBatch` runs the source's two loops as two methods, `Coordinates` and `MarginCrop`, called one after the other. The second only reads what the first produced, so the behaviour is unchanged.
