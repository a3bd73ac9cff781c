/** `np.arange(start, stop, step)` on integer-valued arguments. */
module NumericRange {

  /** ceil(a / b) for a positive divisor. */
  function CeilDiv(a: int, b: int): (q: int)
    requires 0 < b
    ensures a <= q * b < a + b
  {
    (a + b - 1) / b
  }

  /**
   * numpy's length: ceil((stop - start) / step), clamped at zero; for a
   * negative step, ceil((start - stop) / -step) is the same quotient.
   */
  function ArangeLength(start: int, stop: int, step: int): nat
    requires step != 0
  {
    var n := if 0 < step then CeilDiv(stop - start, step) else CeilDiv(start - stop, -step);
    if n < 0 then 0 else n
  }

  /** With distance `a` to cover in strides of `b`, the clamped ceiling is the number of strides that stay short of `a`. */
  lemma StridesShortOf(a: int, b: int, n: nat)
    requires 0 < b
    requires n == (var q := CeilDiv(a, b); if q < 0 then 0 else q)
    ensures forall i :: 0 <= i < n ==> i * b < a
    ensures a <= n * b
  {
    var q := CeilDiv(a, b);
    forall i | 0 <= i < n ensures i * b < a {
      assert (n - 1) * b - i * b == (n - 1 - i) * b;
      assert 0 <= (n - 1 - i) * b;
    }
    if q < 0 {
      assert q * b <= 0;
    }
  }

  lemma NegateFactor(i: int, s: int)
    ensures i * s == -(i * -s)
  {
  }

  /** The entries numpy fills in stay short of `stop` and the first one it leaves out does not. */
  lemma ArangeStopsBeforeStop(start: int, stop: int, step: int)
    requires step != 0
    ensures var n := ArangeLength(start, stop, step);
      && (forall i :: 0 <= i < n ==> if 0 < step then start + i * step < stop else stop < start + i * step)
      && (if 0 < step then stop <= start + n * step else start + n * step <= stop)
  {
    var n := ArangeLength(start, stop, step);
    if 0 < step {
      StridesShortOf(stop - start, step, n);
    } else {
      StridesShortOf(start - stop, -step, n);
      forall i | 0 <= i < n ensures stop < start + i * step {
        NegateFactor(i, step);
      }
      NegateFactor(n, step);
    }
  }

  /**
   * The values start, start + step, ... that lie strictly before `stop` in the
   * direction of `step`: every entry is before `stop` and the next one is not.
   */
  function Arange(start: int, stop: int, step: int): (r: seq<int>)
    requires step != 0
    ensures forall i :: 0 <= i < |r| ==> r[i] == start + i * step
    ensures forall i :: 0 <= i < |r| ==> if 0 < step then r[i] < stop else stop < r[i]
    ensures if 0 < step then stop <= start + |r| * step else start + |r| * step <= stop
  {
    ArangeStopsBeforeStop(start, stop, step);
    seq(ArangeLength(start, stop, step), i => start + i * step)
  }
}
