/**
 Integer ranges as NumPy builds them: `np.arange(start, stop, step)` and one
 axis of `np.mgrid[start:stop:step]`, for integer arguments.
 */
module NumpyRanges {
  import opened Wrappers

  /** Why NumPy refuses a range: a zero step (a division by zero when the
      length is computed) or, for `np.mgrid`, a negative axis length. */
  datatype RangeError = ZeroStep | NegativeLength

  /** ceil(a / b), the length formula `math.ceil((stop - start) / step)`. */
  function CeilDiv(a: int, b: int): (q: int)
    requires b != 0
    ensures b > 0 ==> (q - 1) * b < a <= q * b
    ensures b < 0 ==> q * b <= a < (q - 1) * b
  {
    if b > 0 then
      var p := (-a) / b;
      assert -a == p * b + (-a) % b;
      -p
    else
      var p := a / (-b);
      assert a == p * (-b) + a % (-b);
      -p
  }

  lemma MulMonotone(a: int, b: int, c: int)
    requires a <= b && c >= 0
    ensures a * c <= b * c
  {
  }

  /** `np.arange(start, stop, step)`: ceil((stop - start) / step) values
      start + k * step, or none when that length is negative; a zero step is
      an error. ArangeBounds states what the values are. */
  function Arange(start: int, stop: int, step: int): (r: Result<seq<int>, RangeError>)
    ensures r.Failure? <==> step == 0
  {
    if step == 0 then Failure(ZeroStep)
    else
      var q := CeilDiv(stop - start, step);
      Success(seq(if q < 0 then 0 else q, k => start + k * step))
  }

  /** A range is the progression start, start + step, start + 2 * step, ...
      cut at the first value that is not strictly before stop in the direction
      of the step. */
  lemma ArangeBounds(start: int, stop: int, step: int)
    requires step != 0
    ensures var s := Arange(start, stop, step).value;
      && (forall k :: 0 <= k < |s| ==> s[k] == start + k * step)
      && (step > 0 ==> (forall k :: 0 <= k < |s| ==> s[k] < stop) && start + |s| * step >= stop)
      && (step < 0 ==> (forall k :: 0 <= k < |s| ==> s[k] > stop) && start + |s| * step <= stop)
  {
    var s := Arange(start, stop, step).value;
    var q := CeilDiv(stop - start, step);
    var n := |s|;
    if step > 0 {
      forall k | 0 <= k < n ensures s[k] < stop { MulMonotone(k, n - 1, step); }
      if q < 0 { MulMonotone(q, 0, step); }
    } else {
      forall k | 0 <= k < n ensures s[k] > stop { MulMonotone(k, n - 1, -step); }
      if q < 0 { MulMonotone(q, 0, -step); }
    }
  }

  /** One axis of `np.mgrid[start:stop:step]`: ceil((stop - start) / step)
      values start + k * step. A zero step is an error, and so is a negative
      length, which NumPy passes on as a negative array dimension. */
  function MgridAxis(start: int, stop: int, step: int): (r: Result<seq<int>, RangeError>)
    ensures r.Failure? <==> step == 0 || (step > 0 && stop <= start - step) || (step < 0 && stop >= start - step)
    ensures r.Success? ==> r == Arange(start, stop, step)
  {
    if step == 0 then Failure(ZeroStep)
    else
      var n := CeilDiv(stop - start, step);
      NegativeLengthIff(start, stop, step, n);
      if n < 0 then Failure(NegativeLength)
      else Success(seq(n, k => start + k * step))
  }

  /** The length ceil((stop - start) / step) is negative exactly when stop lies
      a whole step or more behind start. */
  lemma NegativeLengthIff(start: int, stop: int, step: int, n: int)
    requires step != 0 && n == CeilDiv(stop - start, step)
    ensures step > 0 ==> (n < 0 <==> stop <= start - step)
    ensures step < 0 ==> (n < 0 <==> stop >= start - step)
  {
    if step > 0 {
      if n < 0 { MulMonotone(n, -1, step); } else { MulMonotone(-1, n - 1, step); }
    } else {
      if n < 0 { MulMonotone(n, -1, -step); } else { MulMonotone(-1, n - 1, -step); }
    }
  }
}
