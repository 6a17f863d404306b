/** The conversion of recorded frames to 16-bit samples done when a
    recording is saved: every sample is multiplied by 32767 and cast to
    int16, frame after frame in the order they were recorded. */
module Recording {
  import opened Signal

  /** The multiplier applied before the cast. */
  const FULL_SCALE: int := 32767
  const INT16_MIN: int := -32768
  const INT16_MAX: int := 32767
  /** Number of distinct int16 values. */
  const INT16_SPAN: int := 65536

  /** The float-to-integer cast: truncation toward zero, not rounding. */
  function TruncateToInt(x: real): (n: int)
    ensures x >= 0.0 ==> 0 <= n && n as real <= x < n as real + 1.0
    ensures x < 0.0 ==> n <= 0 && n as real - 1.0 < x <= n as real
  {
    if x >= 0.0 then x.Floor else -((-x).Floor)
  }

  /** Two's-complement wrap-around of an integer into the int16 range. */
  function WrapInt16(n: int): (w: int)
    ensures INT16_MIN <= w <= INT16_MAX
    ensures (w - n) % INT16_SPAN == 0
    ensures INT16_MIN <= n <= INT16_MAX ==> w == n
  {
    (n - INT16_MIN) % INT16_SPAN + INT16_MIN
  }

  /** `(sample * 32767).astype(np.int16)` for one sample. */
  function Int16Sample(s: real): (v: int)
    ensures INT16_MIN <= v <= INT16_MAX
  {
    WrapInt16(TruncateToInt(s * FULL_SCALE as real))
  }

  /** A sample in [-1, 1] converts without wrapping: the result keeps the
      sign of the sample, lies in [-32767, 32767], and is the scaled sample
      moved toward zero by less than one step. */
  lemma Int16InRange(s: real)
    requires -1.0 <= s <= 1.0
    ensures var v := Int16Sample(s);
      && -FULL_SCALE <= v <= FULL_SCALE
      && (s >= 0.0 ==> 0 <= v && v as real <= s * 32767.0 < v as real + 1.0)
      && (s < 0.0 ==> v <= 0 && v as real - 1.0 < s * 32767.0 <= v as real)
  {
    var t := TruncateToInt(s * FULL_SCALE as real);
    assert -32767.0 <= s * 32767.0 <= 32767.0;
    assert -FULL_SCALE <= t <= FULL_SCALE;
  }

  /** Full scale maps to the largest magnitude; half scale shows the
      truncation: rounding would give 16384, flooring -16384. */
  lemma Int16Points()
    ensures Int16Sample(1.0) == 32767 && Int16Sample(-1.0) == -32767
    ensures Int16Sample(0.5) == 16383 && Int16Sample(-0.5) == -16383
    ensures Int16Sample(0.0) == 0
  {
    assert TruncateToInt(0.5 * 32767.0) == 16383;
    assert TruncateToInt(-0.5 * 32767.0) == -16383;
  }

  /** In range, the conversion is odd: negating the sample negates the
      result. */
  lemma Int16Odd(s: real)
    requires -1.0 <= s <= 1.0
    ensures Int16Sample(-s) == -Int16Sample(s)
  {
    Int16InRange(s);
    Int16InRange(-s);
    if s > 0.0 {
      assert TruncateToInt(-s * 32767.0) == -TruncateToInt(s * 32767.0);
    }
  }

  /** Out of range the cast wraps round: 1.5 * 32767 = 49150.5 truncates to
      49150 and comes back negative. */
  lemma Int16Wraps()
    ensures Int16Sample(1.5) == -16386
  {
    assert TruncateToInt(1.5 * 32767.0) == 49150;
  }

  /** One recorded frame as int16 samples. */
  function EncodeFrame(frame: Frame): (r: seq<int>)
    ensures |r| == |frame|
    ensures forall k :: 0 <= k < |r| ==> r[k] == Int16Sample(frame[k])
  {
    seq(|frame|, k requires 0 <= k < |frame| => Int16Sample(frame[k]))
  }

  /** Everything written to the file: the frames one after the other. */
  function EncodeRecording(frames: seq<Frame>): (r: seq<int>)
  {
    if frames == [] then [] else EncodeFrame(frames[0]) + EncodeRecording(frames[1..])
  }

  /** Writing two runs of frames one after the other writes the first run,
      then the second. */
  lemma {:induction false} EncodeAppend(a: seq<Frame>, b: seq<Frame>)
    ensures EncodeRecording(a + b) == EncodeRecording(a) + EncodeRecording(b)
  {
    if a != [] {
      assert (a + b)[1..] == a[1..] + b;
      EncodeAppend(a[1..], b);
    } else {
      assert a + b == b;
    }
  }

  /** With frames of a common length, the file holds exactly
      `|frames| * len` samples. */
  lemma {:induction false} EncodeLength(frames: seq<Frame>, len: nat)
    requires forall i :: 0 <= i < |frames| ==> |frames[i]| == len
    ensures |EncodeRecording(frames)| == |frames| * len
  {
    if frames != [] {
      var rest := frames[1..];
      EncodeLength(rest, len);
      assert |frames| * len == len + |rest| * len;
    }
  }

  /** With frames of a common length, sample k of frame f lands at position
      `f * len + k` of the file. */
  lemma {:induction false} EncodeLayout(frames: seq<Frame>, len: nat, f: nat, k: nat)
    requires forall i :: 0 <= i < |frames| ==> |frames[i]| == len
    requires f < |frames| && k < len
    ensures f * len + k < |EncodeRecording(frames)|
    ensures EncodeRecording(frames)[f * len + k] == Int16Sample(frames[f][k])
  {
    var rest := frames[1..];
    EncodeLength(rest, len);
    if f > 0 {
      EncodeLayout(rest, len, f - 1, k);
      assert f * len + k == len + ((f - 1) * len + k);
    }
  }
}
