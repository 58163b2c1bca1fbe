/**
 The offset-grid sweeps `make_psf_grid` and `strehl_map`: both re-point one
 PSF model at every offset of a square `np.mgrid` and collect what it
 reports there, `make_psf_grid` as a flat row-major list of kernels and
 `strehl_map` as a 2-D array of strehl ratios. The PSF model is the caller's
 function from an offset (in whole arcsec) to a kernel or a strehl ratio.
 */
module GridSweeps {
  import opened Wrappers
  import opened NumpyRanges
  import opened Sweeps

  /** The axis of `np.mgrid[-r:r+1:dr]` in `make_psf_grid`. */
  function KernelAxis(r: int, dr: int): Result<seq<int>, RangeError>
  {
    MgridAxis(-r, r + 1, dr)
  }

  /** The axis of `np.mgrid[-r:r+dr:dr]` in `strehl_map`. */
  function StrehlAxis(r: int, dr: int): Result<seq<int>, RangeError>
  {
    MgridAxis(-r, r + dr, dr)
  }

  /** `make_psf_grid(r, dr)`: the kernel at every grid offset (x, y), outer
      loop over x and inner loop over y, appended to one list. */
  method PsfGrid<K>(r: int, dr: int, kernelAt: (int, int) -> K) returns (res: Result<seq<K>, RangeError>)
    ensures res.Failure? <==> KernelAxis(r, dr).Failure?
    ensures res.Success? ==> res.value == Sweep(KernelAxis(r, dr).value, KernelAxis(r, dr).value, kernelAt)
  {
    var axis := MgridAxis(-r, r + 1, dr);
    if axis.Failure? {
      return Failure(axis.error);
    }
    var x := axis.value;
    var y := axis.value;
    var grid: seq<K> := [];
    for i := 0 to |x|
      invariant grid == Sweep(x[..i], y, kernelAt)
    {
      for j := 0 to |x|
        invariant grid == Sweep(x[..i], y, kernelAt) + Row(x[i], y[..j], kernelAt)
      {
        grid := grid + [kernelAt(x[i], y[j])];
        RowPrefixStep(x[i], y, j, kernelAt);
      }
      assert y[..|x|] == y;
      SweepPrefixStep(x, i, y, kernelAt);
    }
    assert x[..|x|] == x;
    return Success(grid);
  }

  /** `strehl_map(r, dr)`: a fresh square array, zero-filled, whose cell
      (i, j) is then set to the strehl ratio at grid offset (x[i], y[j]). */
  method StrehlMap(r: int, dr: int, strehlAt: (int, int) -> real) returns (res: Result<array2<real>, RangeError>)
    ensures res.Failure? <==> StrehlAxis(r, dr).Failure?
    ensures res.Success? ==> fresh(res.value)
    ensures res.Success? ==>
      var axis := StrehlAxis(r, dr).value;
      && res.value.Length0 == |axis| && res.value.Length1 == |axis|
      && forall i, j :: 0 <= i < |axis| && 0 <= j < |axis| ==> res.value[i, j] == strehlAt(axis[i], axis[j])
  {
    var axis := MgridAxis(-r, r + dr, dr);
    if axis.Failure? {
      return Failure(axis.error);
    }
    var x := axis.value;
    var y := axis.value;
    var map2 := new real[|x|, |x|]((_, _) => 0.0);
    for i := 0 to |x|
      invariant forall a, b :: 0 <= a < i && 0 <= b < |x| ==> map2[a, b] == strehlAt(x[a], y[b])
    {
      for j := 0 to |x|
        invariant forall a, b :: 0 <= a < i && 0 <= b < |x| ==> map2[a, b] == strehlAt(x[a], y[b])
        invariant forall b :: 0 <= b < j ==> map2[i, b] == strehlAt(x[i], y[b])
      {
        map2[i, j] := strehlAt(x[i], y[j]);
      }
    }
    return Success(map2);
  }

  /** For r >= 0 and dr > 0 the axis of `make_psf_grid` exists, is not empty,
      and is -r, -r + dr, ... up to the last value not above r. */
  lemma KernelAxisShape(r: int, dr: int)
    requires r >= 0 && dr > 0
    ensures KernelAxis(r, dr).Success?
    ensures var axis := KernelAxis(r, dr).value;
      && axis != [] && axis[0] == -r
      && (forall k :: 0 <= k < |axis| ==> axis[k] == -r + k * dr && axis[k] <= r)
      && -r + |axis| * dr > r
  {
    ArangeBounds(-r, r + 1, dr);
  }

  /** For r >= 0 and dr > 0 the axis of `strehl_map` exists, is not empty,
      and is -r, -r + dr, ... up to the last value below r + dr. */
  lemma StrehlAxisShape(r: int, dr: int)
    requires r >= 0 && dr > 0
    ensures StrehlAxis(r, dr).Success?
    ensures var axis := StrehlAxis(r, dr).value;
      && axis != [] && axis[0] == -r
      && (forall k :: 0 <= k < |axis| ==> axis[k] == -r + k * dr && axis[k] < r + dr)
      && -r + |axis| * dr >= r + dr
  {
    ArangeBounds(-r, r + dr, dr);
  }

  /** `make_psf_grid` returns n * n kernels, n the axis length, and entry
      i * n + j is the kernel at offset (-r + i * dr, -r + j * dr). */
  lemma PsfGridEntry<K>(r: int, dr: int, kernelAt: (int, int) -> K, i: nat, j: nat)
    requires KernelAxis(r, dr).Success?
    requires i < |KernelAxis(r, dr).value| && j < |KernelAxis(r, dr).value|
    ensures var axis := KernelAxis(r, dr).value; var n := |axis|;
      && |Sweep(axis, axis, kernelAt)| == n * n
      && i * n + j < n * n
      && Sweep(axis, axis, kernelAt)[i * n + j] == kernelAt(-r + i * dr, -r + j * dr)
  {
    var axis := KernelAxis(r, dr).value;
    SweepAt(axis, axis, kernelAt, i, j);
    ArangeBounds(-r, r + 1, dr);
  }

  /** The defaults r = 14, dr = 7 give the axis -14, -7, 0, 7, 14 and so a
      grid of 25 kernels. */
  lemma DefaultPsfGrid<K>(kernelAt: (int, int) -> K)
    ensures KernelAxis(14, 7) == Success([-14, -7, 0, 7, 14])
    ensures |Sweep(KernelAxis(14, 7).value, KernelAxis(14, 7).value, kernelAt)| == 25
  {
    var axis := KernelAxis(14, 7).value;
    ArangeBounds(-14, 15, 7);
    assert |axis| == 5;
    assert axis == [-14, -7, 0, 7, 14];
    SweepLength(axis, axis, kernelAt);
  }

  /** The defaults r = 25, dr = 3 give an 18 by 18 strehl map over the axis
      -25, -22, ..., 26. */
  lemma DefaultStrehlAxis()
    ensures StrehlAxis(25, 3).Success?
    ensures |StrehlAxis(25, 3).value| == 18
    ensures StrehlAxis(25, 3).value[0] == -25 && StrehlAxis(25, 3).value[17] == 26
  {
    ArangeBounds(-25, 28, 3);
  }
}
