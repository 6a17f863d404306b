/** Sample-level vocabulary shared by the equalizer and the effect chain.
    A frame is a sequence of real-valued samples; floating-point rounding is
    not modelled, so every operation here is exact. */
module Signal {

  /** Samples per frame read from the microphone (CHUNK = 1024 * 8). */
  const CHUNK: nat := 8192
  /** Sample rate in Hz. */
  const RATE: nat := 44100

  type Frame = seq<real>

  datatype Option<T> = None | Some(value: T)

  /** One complex spectral bin. */
  datatype Complex = Complex(re: real, im: real)

  function Abs(x: real): (r: real)
    ensures r >= 0.0 && (r == x || r == -x)
  {
    if x < 0.0 then -x else x
  }

  /** A complex bin multiplied by a real gain. */
  function ScaleBin(c: Complex, g: real): (r: Complex)
    ensures r.re == c.re * g && r.im == c.im * g
  {
    Complex(c.re * g, c.im * g)
  }

  /** `a + b * k` on two frames of the same length (numpy broadcasting of
      equal shapes). */
  function Mix(a: Frame, b: Frame, k: real): (r: Frame)
    requires |a| == |b|
    ensures |r| == |a|
    ensures forall i :: 0 <= i < |a| ==> r[i] == a[i] + b[i] * k
  {
    seq(|a|, i requires 0 <= i < |a| => a[i] + b[i] * k)
  }

  /** `x * k` on a frame. */
  function Scale(x: Frame, k: real): (r: Frame)
    ensures |r| == |x|
    ensures forall i :: 0 <= i < |x| ==> r[i] == x[i] * k
  {
    seq(|x|, i requires 0 <= i < |x| => x[i] * k)
  }

  /** A frame of n zero samples. */
  function Silence(n: nat): (r: Frame)
    ensures |r| == n && forall i :: 0 <= i < n ==> r[i] == 0.0
  {
    seq(n, _ => 0.0)
  }

  /** `np.max(np.abs(x))`; numpy refuses an empty array, so this does too. */
  function PeakAbs(x: Frame): (m: real)
    requires |x| > 0
    ensures forall i :: 0 <= i < |x| ==> Abs(x[i]) <= m
    ensures exists i :: 0 <= i < |x| && Abs(x[i]) == m
  {
    if |x| == 1 then Abs(x[0])
    else
      var rest := PeakAbs(x[1..]);
      assert forall i :: 1 <= i < |x| ==> x[i] == x[1..][i - 1];
      if Abs(x[0]) >= rest then Abs(x[0]) else rest
  }

  /** `base ** n` for a natural exponent. */
  function Power(base: real, n: nat): (r: real)
    ensures base > 0.0 ==> r > 0.0
    ensures 0.0 <= base <= 1.0 ==> 0.0 <= r <= 1.0
  {
    if n == 0 then 1.0
    else
      var p := Power(base, n - 1);
      assert 0.0 <= base <= 1.0 ==> base * p <= p;
      base * p
  }

  /** Dividing a sample by a bound on its magnitude lands in [-1, 1]. */
  lemma DivideByBound(x: real, m: real)
    requires m > 0.0 && Abs(x) <= m
    ensures Abs(x / m) <= 1.0 && (x / m) * m == x
  {
    assert (x / m) * m == x;
  }
}
