/** The time-domain effect units, the gated chain that runs them after the
    equalizer, the final peak limiter, and the whole per-frame processing
    step with its fall-back to the unprocessed frame. */
module Effects {
  import opened Signal
  import opened Bands

  const ECHO: string := "Echo"
  const REVERB: string := "Reverb"
  const DELAY: string := "Delay"
  const DISTORTION: string := "Distortion"
  const VOLUME: string := "Volume"

  /** Number of past frames the reverb keeps, and the decay per tap. */
  const REVERB_TAPS: nat := 4
  const REVERB_DECAY: real := 0.5
  /** Fraction of the delay line fed back into itself on every frame. */
  const DELAY_FEEDBACK: real := 0.3

  /** One entry of the effects dictionary: the echo, reverb and delay
      entries carry a history buffer, distortion and volume only a gain. */
  datatype Effect = Buffered(gain: real, buffer: Frame) | Plain(gain: real)

  /** The shape the effects dictionary always has: five named entries, and
      history buffers of one frame (echo, delay) or four frames (reverb). */
  predicate WellFormed(fx: map<string, Effect>)
  {
    && fx.Keys == {ECHO, REVERB, DELAY, DISTORTION, VOLUME}
    && fx[ECHO].Buffered? && |fx[ECHO].buffer| == CHUNK
    && fx[REVERB].Buffered? && |fx[REVERB].buffer| == REVERB_TAPS * CHUNK
    && fx[DELAY].Buffered? && |fx[DELAY].buffer| == CHUNK
    && fx[DISTORTION].Plain? && fx[VOLUME].Plain?
  }

  /** What a pass through the chain may do to the dictionary: no gain
      changes, and a unit whose gain is not positive keeps its history. */
  predicate KeepsGains(before: map<string, Effect>, after: map<string, Effect>)
  {
    && after.Keys == before.Keys
    && forall name :: name in before ==>
         && after[name].gain == before[name].gain
         && (before[name].gain <= 0.0 ==> after[name] == before[name])
  }

  /** The dictionary as the module creates it: every effect off except the
      volume, which starts at 1.0, and silent history buffers. */
  function InitialEffects(): (fx: map<string, Effect>)
    ensures WellFormed(fx)
    ensures fx[VOLUME].gain == 1.0
    ensures forall name :: name in fx && name != VOLUME ==> fx[name].gain == 0.0
    ensures fx[ECHO].buffer == Silence(CHUNK) && fx[DELAY].buffer == Silence(CHUNK)
    ensures fx[REVERB].buffer == Silence(REVERB_TAPS * CHUNK)
  {
    map[ECHO := Buffered(0.0, Silence(CHUNK)),
        REVERB := Buffered(0.0, Silence(REVERB_TAPS * CHUNK)),
        DELAY := Buffered(0.0, Silence(CHUNK)),
        DISTORTION := Plain(0.0),
        VOLUME := Plain(1.0)]
  }

  // ---------------------------------------------------------------- reverb

  /** The reverb output after the first n taps: tap i adds the i-th frame of
      the history scaled by `0.5 ** (i+1) * gain`. */
  function ReverbTaps(data: Frame, buffer: Frame, gain: real, n: nat): (r: Frame)
    requires |data| == CHUNK && |buffer| == REVERB_TAPS * CHUNK && n <= REVERB_TAPS
    ensures |r| == CHUNK
  {
    if n == 0 then data
    else
      Mix(ReverbTaps(data, buffer, gain, n - 1), buffer[(n - 1) * CHUNK .. n * CHUNK],
          Power(REVERB_DECAY, n) * gain)
  }

  /** Sample k of the taps added so far: the history sample at offset k in
      each of the first n frames, weighted by decay and gain. */
  function TapSum(buffer: Frame, gain: real, k: nat, n: nat): real
    requires k < CHUNK && |buffer| == REVERB_TAPS * CHUNK && n <= REVERB_TAPS
  {
    if n == 0 then 0.0
    else TapSum(buffer, gain, k, n - 1) + buffer[(n - 1) * CHUNK + k] * (Power(REVERB_DECAY, n) * gain)
  }

  lemma {:induction false} ReverbTapsAt(data: Frame, buffer: Frame, gain: real, n: nat, k: nat)
    requires |data| == CHUNK && |buffer| == REVERB_TAPS * CHUNK && n <= REVERB_TAPS && k < CHUNK
    ensures ReverbTaps(data, buffer, gain, n)[k] == data[k] + TapSum(buffer, gain, k, n)
  {
    if n > 0 {
      ReverbTapsAt(data, buffer, gain, n - 1, k);
      var lo := (n - 1) * CHUNK;
      assert buffer[lo .. n * CHUNK][k] == buffer[lo + k];
    }
  }

  lemma TapSumFour(buffer: Frame, gain: real, k: nat)
    requires k < CHUNK && |buffer| == REVERB_TAPS * CHUNK
    ensures TapSum(buffer, gain, k, REVERB_TAPS) ==
      buffer[k] * (0.5 * gain) + buffer[CHUNK + k] * (0.25 * gain)
      + buffer[2 * CHUNK + k] * (0.125 * gain) + buffer[3 * CHUNK + k] * (0.0625 * gain)
  {
    assert Power(REVERB_DECAY, 2) == 0.25;
    assert Power(REVERB_DECAY, 3) == 0.125;
    assert Power(REVERB_DECAY, 4) == 0.0625;
    assert TapSum(buffer, gain, k, 1) == buffer[k] * (0.5 * gain);
    assert TapSum(buffer, gain, k, 2) == TapSum(buffer, gain, k, 1) + buffer[CHUNK + k] * (0.25 * gain);
    assert TapSum(buffer, gain, k, 3) == TapSum(buffer, gain, k, 2) + buffer[2 * CHUNK + k] * (0.125 * gain);
  }

  /** The four reverb taps by age: the oldest frame of the history (slot 0)
      is weighted 1/2, the most recent (slot 3) 1/16. */
  lemma ReverbWeights(data: Frame, buffer: Frame, gain: real, k: nat)
    requires |data| == CHUNK && |buffer| == REVERB_TAPS * CHUNK && k < CHUNK
    ensures ReverbTaps(data, buffer, gain, REVERB_TAPS)[k] ==
      data[k] + gain * (buffer[k] / 2.0 + buffer[CHUNK + k] / 4.0
                        + buffer[2 * CHUNK + k] / 8.0 + buffer[3 * CHUNK + k] / 16.0)
  {
    ReverbTapsAt(data, buffer, gain, REVERB_TAPS, k);
    TapSumFour(buffer, gain, k);
  }

  /** `np.roll(s, -n)`: every sample moves n places towards the front and
      the first n wrap round to the back. */
  function RollLeft(s: Frame, n: nat): (r: Frame)
    requires n <= |s|
    ensures |r| == |s|
  {
    seq(|s|, j requires 0 <= j < |s| => s[(j + n) % |s|])
  }

  /** `s[-len(tail):] = tail`. */
  function OverwriteTail(s: Frame, tail: Frame): (r: Frame)
    requires |tail| <= |s|
    ensures |r| == |s|
    ensures r[|s| - |tail|..] == tail
    ensures r[..|s| - |tail|] == s[..|s| - |tail|]
  {
    s[..|s| - |tail|] + tail
  }

  /** The reverb history after one call: the roll followed by the tail
      overwrite drops the oldest frame and appends the current input. */
  lemma ReverbWindow(buffer: Frame, data: Frame)
    requires |buffer| == REVERB_TAPS * CHUNK && |data| == CHUNK
    ensures OverwriteTail(RollLeft(buffer, CHUNK), data) == buffer[CHUNK..] + data
  {
    var rolled := RollLeft(buffer, CHUNK);
    assert rolled[..|buffer| - CHUNK] == buffer[CHUNK..] by {
      forall j | 0 <= j < |buffer| - CHUNK
        ensures rolled[j] == buffer[CHUNK..][j]
      {
        assert (j + CHUNK) % |buffer| == j + CHUNK;
      }
    }
  }

  // ------------------------------------------------------ distortion, volume

  /** `np.clip(x, -1.0, 1.0)`. */
  function Clip(x: real): (r: real)
    ensures -1.0 <= r <= 1.0
    ensures -1.0 <= x <= 1.0 ==> r == x
    ensures x > 1.0 ==> r == 1.0
    ensures x < -1.0 ==> r == -1.0
  {
    if x < -1.0 then -1.0 else if x > 1.0 then 1.0 else x
  }

  lemma ScaleWithinGain(a: real, g: real)
    requires Abs(a) <= 1.0 && g >= 0.0
    ensures Abs(a * g) <= g
  {
    if a >= 0.0 {
      assert a * g <= 1.0 * g;
    } else {
      assert -a * g <= 1.0 * g;
    }
  }

  /** A frame within [-1, 1] scaled by a non-negative gain stays within
      [-gain, gain]. */
  lemma ScaleBound(x: Frame, g: real)
    requires g >= 0.0 && forall k :: 0 <= k < |x| ==> Abs(x[k]) <= 1.0
    ensures forall k :: 0 <= k < |x| ==> Abs(Scale(x, g)[k]) <= g
  {
    forall k | 0 <= k < |x| ensures Abs(Scale(x, g)[k]) <= g {
      ScaleWithinGain(x[k], g);
    }
  }

  /** The driven, clipped and shaped samples, before normalisation. */
  function Shaped(data: Frame, gain: real, shape: real -> real): (r: Frame)
    ensures |r| == |data|
  {
    var drive := 1.0 + gain * 10.0;
    seq(|data|, k requires 0 <= k < |data| => shape(Clip(data[k] * drive)))
  }

  /** Every sample divided by m, a bound on the frame's magnitudes. */
  function DivideBy(x: Frame, m: real): (r: Frame)
    requires m > 0.0 && forall k :: 0 <= k < |x| ==> Abs(x[k]) <= m
    ensures |r| == |x|
    ensures forall k :: 0 <= k < |r| ==> Abs(r[k]) <= 1.0 && r[k] * m == x[k]
  {
    var r := seq(|x|, k requires 0 <= k < |x| => x[k] / m);
    assert forall k :: 0 <= k < |r| ==> Abs(r[k]) <= 1.0 && r[k] * m == x[k] by {
      forall k | 0 <= k < |r| ensures Abs(r[k]) <= 1.0 && r[k] * m == x[k] {
        DivideByBound(x[k], m);
      }
    }
    r
  }

  /** `s / np.max(np.abs(s))` when that peak is non-zero, `s` otherwise. */
  function Normalize(s: Frame): (r: Frame)
    requires |s| > 0
    ensures |r| == |s|
    ensures forall k :: 0 <= k < |r| ==> Abs(r[k]) <= 1.0
  {
    var m := PeakAbs(s);
    if m > 0.0 then DivideBy(s, m) else s
  }

  /** The waveshaping distortion: drive the input by `1 + 10 * gain`, clip
      to [-1, 1], shape every sample with `shape` (the source's
      `sin(x * pi / 2)`), normalise to unit peak when the peak is non-zero,
      and scale by the raw gain. Whatever the shaping does, no output
      sample exceeds the gain in magnitude. */
  function Distortion(data: Frame, gain: real, shape: real -> real): (r: Frame)
    requires |data| > 0
    ensures |r| == |data|
    ensures gain >= 0.0 ==> forall k :: 0 <= k < |r| ==> Abs(r[k]) <= gain
  {
    var normalized := Normalize(Shaped(data, gain, shape));
    assert gain >= 0.0 ==> forall k :: 0 <= k < |data| ==> Abs(Scale(normalized, gain)[k]) <= gain by {
      if gain >= 0.0 { ScaleBound(normalized, gain); }
    }
    Scale(normalized, gain)
  }

  // ---------------------------------------------------------------- limiter

  /** The safety limiter after the chain: a frame whose peak exceeds 1.0 is
      divided by that peak; any other frame is left as it is. */
  function Limit(x: Frame): (r: Frame)
    requires |x| > 0
    ensures |r| == |x|
    ensures forall k :: 0 <= k < |r| ==> Abs(r[k]) <= 1.0
    ensures PeakAbs(x) <= 1.0 ==> r == x
    ensures PeakAbs(x) > 1.0 ==> r == DivideBy(x, PeakAbs(x))
  {
    var m := PeakAbs(x);
    if m > 1.0 then DivideBy(x, m) else x
  }

  // ------------------------------------------------------------------ chain

  /** The state between two stages of the chain: the frame so far (None once
      a stage has raised) and the effects dictionary as it now stands. */
  datatype Pass = Pass(frame: Option<Frame>, effects: map<string, Effect>)

  /** Echo, run when its gain is positive: adds the previous input scaled by
      the gain and keeps the current input as the new history. A frame whose
      length differs from the history raises before anything changes. */
  function EchoStage(p: Pass): (q: Pass)
    requires WellFormed(p.effects)
    ensures WellFormed(q.effects) && KeepsGains(p.effects, q.effects)
  {
    if p.frame.None? || p.effects[ECHO].gain <= 0.0 then p
    else
      var x, e := p.frame.value, p.effects[ECHO];
      if |x| != |e.buffer| then Pass(None, p.effects)
      else Pass(Some(Mix(x, e.buffer, e.gain)), p.effects[ECHO := Buffered(e.gain, x)])
  }

  /** Reverb, run when its gain is positive: adds the four weighted taps and
      rolls the current input into the history. */
  function ReverbStage(p: Pass): (q: Pass)
    requires WellFormed(p.effects)
    ensures WellFormed(q.effects) && KeepsGains(p.effects, q.effects)
  {
    if p.frame.None? || p.effects[REVERB].gain <= 0.0 then p
    else
      var x, e := p.frame.value, p.effects[REVERB];
      if |x| != CHUNK then Pass(None, p.effects)
      else
        Pass(Some(ReverbTaps(x, e.buffer, e.gain, REVERB_TAPS)),
             p.effects[REVERB := Buffered(e.gain, OverwriteTail(RollLeft(e.buffer, CHUNK), x))])
  }

  /** Delay, run when its gain is positive: adds the delay line scaled by
      the gain; the line becomes the input plus 0.3 of its old value. */
  function DelayStage(p: Pass): (q: Pass)
    requires WellFormed(p.effects)
    ensures WellFormed(q.effects) && KeepsGains(p.effects, q.effects)
  {
    if p.frame.None? || p.effects[DELAY].gain <= 0.0 then p
    else
      var x, e := p.frame.value, p.effects[DELAY];
      if |x| != |e.buffer| then Pass(None, p.effects)
      else
        Pass(Some(Mix(x, e.buffer, e.gain)),
             p.effects[DELAY := Buffered(e.gain, Mix(x, e.buffer, DELAY_FEEDBACK))])
  }

  /** Distortion, run when its gain is positive; the peak it takes of an
      empty frame raises. */
  function DistortionStage(p: Pass, shape: real -> real): (q: Pass)
    requires WellFormed(p.effects)
    ensures q.effects == p.effects
  {
    if p.frame.None? || p.effects[DISTORTION].gain <= 0.0 then p
    else if |p.frame.value| == 0 then Pass(None, p.effects)
    else Pass(Some(Distortion(p.frame.value, p.effects[DISTORTION].gain, shape)), p.effects)
  }

  /** Volume, always run. */
  function VolumeStage(p: Pass): (q: Pass)
    requires WellFormed(p.effects)
    ensures q.effects == p.effects
  {
    if p.frame.None? then p else Pass(Some(Scale(p.frame.value, p.effects[VOLUME].gain)), p.effects)
  }

  /** The final limiter; the peak it takes of an empty frame raises. */
  function LimiterStage(p: Pass): (q: Pass)
    ensures q.effects == p.effects
    ensures Limited(q)
  {
    if p.frame.None? then p
    else if |p.frame.value| == 0 then Pass(None, p.effects)
    else Pass(Some(Limit(p.frame.value)), p.effects)
  }

  /** The frame, unless a stage has raised, lies within [-1, 1]. */
  predicate Limited(p: Pass)
  {
    p.frame.Some? ==> forall k :: 0 <= k < |p.frame.value| ==> Abs(p.frame.value[k]) <= 1.0
  }

  /** The units of the chain. */
  datatype Unit = EchoUnit | ReverbUnit | DelayUnit | DistortionUnit | VolumeUnit | LimiterUnit

  /** The chain in the order it runs: echo, reverb, delay and distortion,
      each only when its gain is positive, then volume and the limiter. */
  const CHAIN: seq<Unit> := [EchoUnit, ReverbUnit, DelayUnit, DistortionUnit, VolumeUnit, LimiterUnit]

  function RunUnit(u: Unit, p: Pass, shape: real -> real): (q: Pass)
    requires WellFormed(p.effects)
    ensures WellFormed(q.effects) && KeepsGains(p.effects, q.effects)
    ensures u == LimiterUnit ==> Limited(q)
  {
    match u
    case EchoUnit => EchoStage(p)
    case ReverbUnit => ReverbStage(p)
    case DelayUnit => DelayStage(p)
    case DistortionUnit => DistortionStage(p, shape)
    case VolumeUnit => VolumeStage(p)
    case LimiterUnit => LimiterStage(p)
  }

  /** Runs the units one after the other; a chain ending in the limiter
      leaves the frame within [-1, 1], and no unit changes a gain. */
  function RunChain(units: seq<Unit>, p: Pass, shape: real -> real): (q: Pass)
    requires WellFormed(p.effects)
    ensures WellFormed(q.effects) && KeepsGains(p.effects, q.effects)
    ensures |units| > 0 && units[|units| - 1] == LimiterUnit ==> Limited(q)
    decreases |units|
  {
    if units == [] then p
    else
      var p1 := RunUnit(units[0], p, shape);
      var q := RunChain(units[1..], p1, shape);
      assert |units| > 1 ==> units[1..][|units| - 2] == units[|units| - 1];
      q
  }

  /** The whole chain on one frame. */
  function Chain(x: Frame, fx: map<string, Effect>, shape: real -> real): (q: Pass)
    requires WellFormed(fx)
    ensures WellFormed(q.effects) && KeepsGains(fx, q.effects)
    ensures Limited(q)
  {
    RunChain(CHAIN, Pass(Some(x), fx), shape)
  }

  /** Running a chain runs its first unit, then the rest. */
  lemma RunChainCons(u: Unit, rest: seq<Unit>, p: Pass, shape: real -> real)
    requires WellFormed(p.effects)
    ensures RunChain([u] + rest, p, shape) == RunChain(rest, RunUnit(u, p, shape), shape)
  {
    assert ([u] + rest)[1..] == rest;
  }

  /** A chain of three units runs them one after the other. */
  lemma RunThree(a: Unit, b: Unit, c: Unit, p: Pass, shape: real -> real)
    requires WellFormed(p.effects)
    ensures RunChain([a, b, c], p, shape) == RunUnit(c, RunUnit(b, RunUnit(a, p, shape), shape), shape)
  {
    var p1 := RunUnit(a, p, shape);
    var p2 := RunUnit(b, p1, shape);
    RunChainCons(a, [b, c], p, shape);
    RunChainCons(b, [c], p1, shape);
    RunChainCons(c, [], p2, shape);
  }

  /** The last three units are distortion, volume and the limiter. */
  lemma ChainTail(p: Pass, shape: real -> real)
    requires WellFormed(p.effects)
    ensures RunChain([DistortionUnit, VolumeUnit, LimiterUnit], p, shape)
      == LimiterStage(VolumeStage(DistortionStage(p, shape)))
  {
    RunThree(DistortionUnit, VolumeUnit, LimiterUnit, p, shape);
  }

  /** The chain is the six stages composed in order. */
  lemma ChainUnrolled(x: Frame, fx: map<string, Effect>, shape: real -> real)
    requires WellFormed(fx)
    ensures Chain(x, fx, shape)
      == LimiterStage(VolumeStage(DistortionStage(DelayStage(ReverbStage(EchoStage(Pass(Some(x), fx)))), shape)))
  {
    var p0 := Pass(Some(x), fx);
    var p1 := EchoStage(p0);
    var p2 := ReverbStage(p1);
    var tail := [DistortionUnit, VolumeUnit, LimiterUnit];
    assert CHAIN == [EchoUnit] + ([ReverbUnit] + ([DelayUnit] + tail));
    RunChainCons(EchoUnit, [ReverbUnit] + ([DelayUnit] + tail), p0, shape);
    RunChainCons(ReverbUnit, [DelayUnit] + tail, p1, shape);
    RunChainCons(DelayUnit, tail, p2, shape);
    ChainTail(DelayStage(p2), shape);
  }

  /** One call of the per-frame processing: transform, scale every bin by
      its band's gain, transform back, run the chain. Any exception along
      the way yields the unprocessed input, but the histories the units
      before the failing one already updated stay updated. The transforms
      are the library's and are parameters here; `ifft` stands for the real
      part of the inverse transform. An empty input or spectrum raises in
      the transform. */
  function Process(data: Frame, gains: seq<real>, fx: map<string, Effect>,
                   fft: Frame -> seq<Complex>, ifft: seq<Complex> -> Frame,
                   shape: real -> real): (r: (Frame, map<string, Effect>))
    requires |gains| == |BANDS| && WellFormed(fx)
    ensures WellFormed(r.1)
    ensures r.0 == data || forall k :: 0 <= k < |r.0| ==> Abs(r.0[k]) <= 1.0
  {
    if |data| == 0 then (data, fx)
    else
      var bins := fft(data);
      if |bins| == 0 then (data, fx)
      else
        var q := Chain(ifft(Equalize(bins, FftFreqs(|bins|), gains)), fx, shape);
        (if q.frame.Some? then q.frame.value else data, q.effects)
  }

  // ---------------------------------------------------------- chain lemmas

  /** With echo, reverb, delay and distortion off, volume at 1.0 and no
      sample above 1.0 in magnitude, the chain hands the frame back
      unchanged and touches no history. */
  lemma ChainPassThrough(x: Frame, fx: map<string, Effect>, shape: real -> real)
    requires WellFormed(fx) && |x| > 0
    requires fx[ECHO].gain <= 0.0 && fx[REVERB].gain <= 0.0
    requires fx[DELAY].gain <= 0.0 && fx[DISTORTION].gain <= 0.0
    requires fx[VOLUME].gain == 1.0
    requires forall k :: 0 <= k < |x| ==> Abs(x[k]) <= 1.0
    ensures Chain(x, fx, shape) == Pass(Some(x), fx)
  {
    ChainUnrolled(x, fx, shape);
    var v := Scale(x, 1.0);
    assert v == x;
    var i :| 0 <= i < |x| && Abs(x[i]) == PeakAbs(x);
  }

  /** Volume always runs: with its gain at 0.0, any frame the chain returns
      is silent, whatever the other units do. */
  lemma ChainMuted(x: Frame, fx: map<string, Effect>, shape: real -> real)
    requires WellFormed(fx) && fx[VOLUME].gain == 0.0
    ensures var q := Chain(x, fx, shape);
      q.frame.Some? ==> forall k :: 0 <= k < |q.frame.value| ==> q.frame.value[k] == 0.0
  {
    ChainUnrolled(x, fx, shape);
    var p3 := DelayStage(ReverbStage(EchoStage(Pass(Some(x), fx))));
    var p4 := DistortionStage(p3, shape);
    var p5 := VolumeStage(p4);
    assert p4.effects[VOLUME].gain == 0.0;
    if p5.frame.Some? && |p5.frame.value| > 0 {
      var v := p5.frame.value;
      assert forall k :: 0 <= k < |v| ==> v[k] == 0.0;
      var i :| 0 <= i < |v| && Abs(v[i]) == PeakAbs(v);
      assert Limit(v) == v;
    }
  }

  /** Distortion runs when its gain is positive: with echo, reverb and delay
      off, distortion at a gain in (0, 1] and volume at 1.0, the chain
      returns exactly the distorted frame (its samples already lie within
      the gain, so neither volume nor the limiter changes it). */
  lemma ChainDistortionOnly(x: Frame, fx: map<string, Effect>, shape: real -> real)
    requires WellFormed(fx) && |x| > 0
    requires fx[ECHO].gain <= 0.0 && fx[REVERB].gain <= 0.0 && fx[DELAY].gain <= 0.0
    requires 0.0 < fx[DISTORTION].gain <= 1.0 && fx[VOLUME].gain == 1.0
    ensures Chain(x, fx, shape).frame == Some(Distortion(x, fx[DISTORTION].gain, shape))
  {
    ChainUnrolled(x, fx, shape);
    var d := Distortion(x, fx[DISTORTION].gain, shape);
    assert Scale(d, 1.0) == d;
    var i :| 0 <= i < |d| && Abs(d[i]) == PeakAbs(d);
    assert Limit(d) == d;
  }

  /** The order of the chain: when echo, reverb and delay are all on, the
      echo keeps the chain's input, the reverb history receives the echo's
      output, and the delay line receives the reverb's output. */
  lemma ChainOrder(x: Frame, fx: map<string, Effect>, shape: real -> real)
    requires WellFormed(fx) && |x| == CHUNK
    requires fx[ECHO].gain > 0.0 && fx[REVERB].gain > 0.0 && fx[DELAY].gain > 0.0
    ensures var q := Chain(x, fx, shape);
      var afterEcho := Mix(x, fx[ECHO].buffer, fx[ECHO].gain);
      var afterReverb := ReverbTaps(afterEcho, fx[REVERB].buffer, fx[REVERB].gain, REVERB_TAPS);
      && q.effects[ECHO].buffer == x
      && q.effects[REVERB].buffer == fx[REVERB].buffer[CHUNK..] + afterEcho
      && q.effects[DELAY].buffer == Mix(afterReverb, fx[DELAY].buffer, DELAY_FEEDBACK)
  {
    var afterEcho := Mix(x, fx[ECHO].buffer, fx[ECHO].gain);
    ReverbWindow(fx[REVERB].buffer, afterEcho);
    var p1 := EchoStage(Pass(Some(x), fx));
    assert p1.frame == Some(afterEcho) && p1.effects[ECHO].buffer == x;
    var p2 := ReverbStage(p1);
    var p3 := DelayStage(p2);
    ChainUnrolled(x, fx, shape);
    assert Chain(x, fx, shape).effects == p3.effects;
  }

  /** A frame of the wrong length with the echo on raises in the first
      unit: the whole processing step returns the input and leaves every
      history as it was. */
  lemma WrongLengthFallsBack(data: Frame, gains: seq<real>, fx: map<string, Effect>,
                             fft: Frame -> seq<Complex>, ifft: seq<Complex> -> Frame,
                             shape: real -> real)
    requires |gains| == |BANDS| && WellFormed(fx) && fx[ECHO].gain > 0.0
    requires |data| > 0 && |fft(data)| > 0
    requires |ifft(Equalize(fft(data), FftFreqs(|fft(data)|), gains))| != CHUNK
    ensures Process(data, gains, fx, fft, ifft, shape) == (data, fx)
  {
  }

  /** With a transform pair that round-trips the frame, every band at 1.0,
      the effects off, volume at 1.0 and no sample above 1.0, processing is
      the identity. */
  lemma ProcessIdentity(data: Frame, gains: seq<real>, fx: map<string, Effect>,
                        fft: Frame -> seq<Complex>, ifft: seq<Complex> -> Frame,
                        shape: real -> real)
    requires |gains| == |BANDS| && WellFormed(fx)
    requires forall i :: 0 <= i < |gains| ==> gains[i] == 1.0
    requires |data| > 0 && |fft(data)| > 0 && ifft(fft(data)) == data
    requires fx[ECHO].gain <= 0.0 && fx[REVERB].gain <= 0.0
    requires fx[DELAY].gain <= 0.0 && fx[DISTORTION].gain <= 0.0
    requires fx[VOLUME].gain == 1.0
    requires forall k :: 0 <= k < |data| ==> Abs(data[k]) <= 1.0
    ensures Process(data, gains, fx, fft, ifft, shape) == (data, fx)
  {
    var bins := fft(data);
    EqualizeUnity(bins, FftFreqs(|bins|), gains);
    ChainPassThrough(data, fx, shape);
  }

  // ------------------------------------------------------- unit behaviour

  /** A unit impulse through the echo followed by a silent frame: the
      second output is the impulse scaled by the echo gain, and a third
      silent frame comes out silent (a single tap). */
  lemma EchoImpulse(u: Frame, fx: map<string, Effect>)
    requires WellFormed(fx) && fx[ECHO].gain > 0.0 && |u| == CHUNK
    ensures var z := Silence(CHUNK);
      var p1 := EchoStage(Pass(Some(u), fx));
      var p2 := EchoStage(Pass(Some(z), p1.effects));
      var p3 := EchoStage(Pass(Some(z), p2.effects));
      p2.frame == Some(Scale(u, fx[ECHO].gain)) && p3.frame == Some(z)
  {
    var z := Silence(CHUNK);
    var g := fx[ECHO].gain;
    assert Mix(z, u, g) == Scale(u, g);
    assert Mix(z, z, g) == z;
  }

  /** n silent frames of the given length. */
  function Silences(n: nat, len: nat): (r: seq<Frame>)
    ensures |r| == n && forall i :: 0 <= i < n ==> r[i] == Silence(len)
  {
    seq(n, _ => Silence(len))
  }

  /** The outputs of the delay unit over a run of frames, from history b. */
  function DelayRun(b: Frame, frames: seq<Frame>, gain: real): (outs: seq<Frame>)
    requires forall i :: 0 <= i < |frames| ==> |frames[i]| == |b|
    ensures |outs| == |frames|
    ensures forall i :: 0 <= i < |outs| ==> |outs[i]| == |b|
    decreases |frames|
  {
    if frames == [] then []
    else [Mix(frames[0], b, gain)] + DelayRun(Mix(frames[0], b, DELAY_FEEDBACK), frames[1..], gain)
  }

  /** The frames the delay stage outputs over a run of frames, each pass
      starting from the dictionary the one before left. */
  function DelayStages(frames: seq<Frame>, fx: map<string, Effect>): (outs: seq<Option<Frame>>)
    requires WellFormed(fx)
    ensures |outs| == |frames|
    decreases |frames|
  {
    if frames == [] then []
    else
      var q := DelayStage(Pass(Some(frames[0]), fx));
      [q.frame] + DelayStages(frames[1..], q.effects)
  }

  /** With its gain positive, the delay stage run over frames one chunk long
      outputs exactly what DelayRun computes from its line and gain. */
  lemma {:induction false} DelayStagesAreRun(frames: seq<Frame>, fx: map<string, Effect>)
    requires WellFormed(fx) && fx[DELAY].gain > 0.0
    requires forall i :: 0 <= i < |frames| ==> |frames[i]| == CHUNK
    ensures var outs := DelayRun(fx[DELAY].buffer, frames, fx[DELAY].gain);
      forall i :: 0 <= i < |frames| ==> DelayStages(frames, fx)[i] == Some(outs[i])
    decreases |frames|
  {
    if frames != [] {
      var e := fx[DELAY];
      var q := DelayStage(Pass(Some(frames[0]), fx));
      assert q.effects == fx[DELAY := Buffered(e.gain, Mix(frames[0], e.buffer, DELAY_FEEDBACK))];
      DelayStagesAreRun(frames[1..], q.effects);
    }
  }

  /** One silent frame through the delay: the output is the line scaled by
      the gain, and the line keeps 0.3 of itself. */
  lemma DelaySilentStep(b: Frame, n: nat, gain: real)
    requires n > 0
    ensures DelayRun(b, Silences(n, |b|), gain)
            == [Scale(b, gain)] + DelayRun(Scale(b, DELAY_FEEDBACK), Silences(n - 1, |b|), gain)
  {
    var z := Silence(|b|);
    var frames := Silences(n, |b|);
    assert Mix(z, b, gain) == Scale(b, gain);
    assert Mix(z, b, DELAY_FEEDBACK) == Scale(b, DELAY_FEEDBACK);
    assert frames[1..] == Silences(n - 1, |b|);
  }

  /** The delay line after j silent frames: each frame keeps 0.3 of it. */
  function Decayed(b: Frame, j: nat): (r: Frame)
    ensures |r| == |b|
    decreases j
  {
    if j == 0 then b else Decayed(Scale(b, DELAY_FEEDBACK), j - 1)
  }

  /** j rounds of feedback scale every sample by `0.3 ** j`. */
  lemma {:induction false} DecayedPower(b: Frame, j: nat, k: nat)
    requires k < |b|
    ensures Decayed(b, j)[k] == b[k] * Power(DELAY_FEEDBACK, j)
    decreases j
  {
    if j > 0 {
      var b1 := Scale(b, DELAY_FEEDBACK);
      DecayedPower(b1, j - 1, k);
      var p := Power(DELAY_FEEDBACK, j - 1);
      assert b1[k] * p == b[k] * (DELAY_FEEDBACK * p);
    }
  }

  /** Fed only silence, the delay unit outputs its line with the gain
      applied, and the line decays by the feedback factor on every frame. */
  lemma {:induction false} DelayDecay(b: Frame, n: nat, gain: real, j: nat)
    requires j < n
    ensures DelayRun(b, Silences(n, |b|), gain)[j] == Scale(Decayed(b, j), gain)
    decreases j
  {
    DelaySilentStep(b, n, gain);
    if j > 0 {
      DelayDecay(Scale(b, DELAY_FEEDBACK), n - 1, gain, j - 1);
    }
  }

  /** Delay's impulse response: an impulse u into a silent delay line,
      followed by silence, comes back on frame j >= 1 as the impulse after
      j - 1 rounds of feedback, times the gain, however large the gain
      (with DecayedPower: sample k is `u[k] * 0.3 ** (j-1) * gain`). */
  lemma DelayImpulse(u: Frame, n: nat, gain: real, j: nat)
    requires 1 <= j < n
    ensures DelayRun(Silence(|u|), [u] + Silences(n - 1, |u|), gain)[j]
            == Scale(Decayed(u, j - 1), gain)
  {
    var z := Silence(|u|);
    var frames := [u] + Silences(n - 1, |u|);
    var b1 := Mix(u, z, DELAY_FEEDBACK);
    assert b1 == u;
    assert frames[1..] == Silences(n - 1, |u|);
    assert DelayRun(z, frames, gain) == [Mix(u, z, gain)] + DelayRun(b1, frames[1..], gain);
    DelayDecay(u, n - 1, gain, j - 1);
  }

  /** The reverb history after four more calls holds exactly those four
      input frames, oldest first, whatever it held before. */
  lemma ReverbForgets(b: Frame, f1: Frame, f2: Frame, f3: Frame, f4: Frame)
    requires |b| == REVERB_TAPS * CHUNK
    requires |f1| == CHUNK && |f2| == CHUNK && |f3| == CHUNK && |f4| == CHUNK
    ensures var b1 := OverwriteTail(RollLeft(b, CHUNK), f1);
      var b2 := OverwriteTail(RollLeft(b1, CHUNK), f2);
      var b3 := OverwriteTail(RollLeft(b2, CHUNK), f3);
      OverwriteTail(RollLeft(b3, CHUNK), f4) == f1 + f2 + f3 + f4
  {
    ReverbWindow(b, f1);
    var b1 := b[CHUNK..] + f1;
    ReverbWindow(b1, f2);
    var b2 := b1[CHUNK..] + f2;
    ReverbWindow(b2, f3);
    var b3 := b2[CHUNK..] + f3;
    ReverbWindow(b3, f4);
    assert b3[CHUNK..] == f1 + f2 + f3;
  }
}
