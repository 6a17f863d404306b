/** The equalizer screen's audio state: the streaming and recording flags,
    the recorded frames, the pitch factor and the two parameter
    dictionaries, with the operations the buttons, the sliders and the
    streaming loop perform on them. */
module EqualizerScreen {
  import opened Signal
  import opened Bands
  import opened Effects
  import opened Recording

  /** One entry of the equalizer dictionary. */
  datatype Band = Band(gain: real, freq: nat)

  /** The shape the equalizer dictionary always has: one entry per band
      label, carrying that band's frequency. */
  predicate EqualizerShape(eq: map<string, Band>)
  {
    && (forall key :: key in eq ==> key in BAND_KEYS)
    && forall i :: 0 <= i < |BANDS| ==> BAND_KEYS[i] in eq && eq[BAND_KEYS[i]].freq == BANDS[i]
  }

  /** The equalizer dictionary as the module builds it: one entry per band
      at gain 1.0, keyed by the band's label (which BandKeysMatchLabels
      shows is what the key formula gives). */
  function InitialEqualizer(): (eq: map<string, Band>)
    ensures EqualizerShape(eq)
    ensures forall i :: 0 <= i < |BANDS| ==> eq[BAND_KEYS[i]].gain == 1.0
  {
    BandKeysDistinct();
    map i | 0 <= i < |BANDS| :: BAND_KEYS[i] := Band(1.0, BANDS[i])
  }

  /** The gains of the ten bands, lowest band first. */
  function GainsOf(eq: map<string, Band>): (g: seq<real>)
    requires EqualizerShape(eq)
    ensures |g| == |BANDS|
    ensures forall i :: 0 <= i < |BANDS| ==> g[i] == eq[BAND_KEYS[i]].gain
  {
    seq(|BANDS|, i requires 0 <= i < |BANDS| => eq[BAND_KEYS[i]].gain)
  }

  /** Equalizer slider position (0 to 100) to band gain: 50 gives 2.0 and
      100 gives 4.0. */
  function BandGain(value: real): (g: real)
    ensures g * 25.0 == value
    ensures 0.0 <= value <= 100.0 ==> 0.0 <= g <= 4.0
  {
    value / 25.0
  }

  /** Effect slider position (0 to 100) to effect gain (0.0 to 1.0). */
  function EffectGain(value: real): (g: real)
    ensures g * 100.0 == value
    ensures 0.0 <= value <= 100.0 ==> 0.0 <= g <= 1.0
  {
    value / 100.0
  }

  /** An effect entry with a new gain: the kind of entry and its history
      buffer stay as they were. */
  function WithGain(e: Effect, g: real): (r: Effect)
    ensures r.gain == g && r.Buffered? == e.Buffered?
    ensures e.Buffered? ==> r.buffer == e.buffer
  {
    match e
    case Buffered(_, buffer) => Buffered(g, buffer)
    case Plain(_) => Plain(g)
  }

  /** Moving one band's slider changes that band's gain and no other, and
      so changes only the bins that fall in that band. */
  lemma SetBandGain(eq: map<string, Band>, i: nat, g: real, bins: seq<Complex>, freqs: seq<real>)
    requires EqualizerShape(eq) && i < |BANDS| && |freqs| == |bins|
    ensures var eq' := eq[BAND_KEYS[i] := Band(g, eq[BAND_KEYS[i]].freq)];
      && EqualizerShape(eq')
      && GainsOf(eq') == GainsOf(eq)[i := g]
      && (forall k :: 0 <= k < |bins| && !InBand(i, freqs[k]) ==>
            Equalize(bins, freqs, GainsOf(eq'))[k] == Equalize(bins, freqs, GainsOf(eq))[k])
  {
    var eq' := eq[BAND_KEYS[i] := Band(g, eq[BAND_KEYS[i]].freq)];
    BandKeysDistinct();
    assert GainsOf(eq') == GainsOf(eq)[i := g];
    EqualizeLocal(bins, freqs, GainsOf(eq), i, g);
  }

  /** `fft_data[mask] *= g` for band i's mask, in place. */
  method ScaleBandInPlace(spectrum: array<Complex>, freqs: seq<real>, i: nat, g: real)
    requires |freqs| == spectrum.Length && i < |BANDS|
    modifies spectrum
    ensures spectrum[..] == ScaleBand(old(spectrum[..]), freqs, i, g)
  {
    ghost var orig := spectrum[..];
    for k := 0 to spectrum.Length
      invariant forall m :: 0 <= m < k ==> spectrum[m] == ScaleBand(orig, freqs, i, g)[m]
      invariant forall m :: k <= m < spectrum.Length ==> spectrum[m] == orig[m]
    {
      if InBand(i, freqs[k]) {
        spectrum[k] := ScaleBin(spectrum[k], g);
      }
    }
  }

  /** The frames the streaming loop plays, and the effects dictionary it
      leaves, for the frames read while streaming, in reading order: each
      frame is processed, then pitch-shifted; a frame whose pitch shift
      raises is dropped, the histories its processing updated stay
      updated. */
  function Stream(frames: seq<Frame>, gains: seq<real>, fx: map<string, Effect>,
                  fft: Frame -> seq<Complex>, ifft: seq<Complex> -> Frame,
                  shape: real -> real, shift: (Frame, real) -> Option<Frame>,
                  pitch: real): (r: (seq<Frame>, map<string, Effect>))
    requires |gains| == |BANDS| && WellFormed(fx)
    ensures WellFormed(r.1) && |r.0| <= |frames|
    decreases |frames|
  {
    if frames == [] then ([], fx)
    else
      StreamStep(Stream(frames[..|frames| - 1], gains, fx, fft, ifft, shape, shift, pitch),
                 frames[|frames| - 1], gains, fft, ifft, shape, shift, pitch)
  }

  /** One turn of the streaming loop, from the frames played so far and the
      dictionary as it stands. */
  function StreamStep(before: (seq<Frame>, map<string, Effect>), frame: Frame, gains: seq<real>,
                      fft: Frame -> seq<Complex>, ifft: seq<Complex> -> Frame,
                      shape: real -> real, shift: (Frame, real) -> Option<Frame>,
                      pitch: real): (r: (seq<Frame>, map<string, Effect>))
    requires |gains| == |BANDS| && WellFormed(before.1)
    ensures WellFormed(r.1) && |before.0| <= |r.0| <= |before.0| + 1 && r.0[..|before.0|] == before.0
  {
    var processed := Process(frame, gains, before.1, fft, ifft, shape);
    var z := shift(processed.0, pitch);
    (if z.Some? then before.0 + [z.value] else before.0, processed.1)
  }

  /** Reading one more frame extends the stream by one turn of the loop. */
  lemma StreamExtend(frames: seq<Frame>, i: nat, gains: seq<real>, fx: map<string, Effect>,
                     fft: Frame -> seq<Complex>, ifft: seq<Complex> -> Frame,
                     shape: real -> real, shift: (Frame, real) -> Option<Frame>, pitch: real)
    requires |gains| == |BANDS| && WellFormed(fx) && i < |frames|
    ensures Stream(frames[..i + 1], gains, fx, fft, ifft, shape, shift, pitch)
      == StreamStep(Stream(frames[..i], gains, fx, fft, ifft, shape, shift, pitch), frames[i],
                    gains, fft, ifft, shape, shift, pitch)
  {
    assert frames[..i + 1][..i] == frames[..i];
  }

  /** Streaming a run of frames in two pieces, the second starting from
      the dictionary the first left, plays the same frames and leaves the
      same dictionary as streaming it in one piece. */
  lemma {:induction false} StreamAppend(a: seq<Frame>, b: seq<Frame>, gains: seq<real>, fx: map<string, Effect>,
                                        fft: Frame -> seq<Complex>, ifft: seq<Complex> -> Frame,
                                        shape: real -> real, shift: (Frame, real) -> Option<Frame>,
                                        pitch: real)
    requires |gains| == |BANDS| && WellFormed(fx)
    ensures var first := Stream(a, gains, fx, fft, ifft, shape, shift, pitch);
      var second := Stream(b, gains, first.1, fft, ifft, shape, shift, pitch);
      Stream(a + b, gains, fx, fft, ifft, shape, shift, pitch) == (first.0 + second.0, second.1)
    decreases |b|
  {
    var first := Stream(a, gains, fx, fft, ifft, shape, shift, pitch);
    if b == [] {
      assert a + b == a;
      assert first.0 + [] == first.0;
    } else {
      var b' := b[..|b| - 1];
      assert (a + b)[..|a + b| - 1] == a + b';
      assert (a + b)[|a + b| - 1] == b[|b| - 1];
      StreamAppend(a, b', gains, fx, fft, ifft, shape, shift, pitch);
      var mid := Stream(b', gains, first.1, fft, ifft, shape, shift, pitch);
      StreamStepPrefix(first.0, mid, b[|b| - 1], gains, fft, ifft, shape, shift, pitch);
    }
  }

  /** Regrouping three runs of frames; called from the streaming loop, where
      stating it inline makes the loop's proof several times costlier. */
  lemma ConcatAssoc(a: seq<Frame>, b: seq<Frame>, c: seq<Frame>)
    ensures (a + b) + c == a + (b + c)
  {
  }

  /** A turn of the loop only appends to what was played before. */
  lemma StreamStepPrefix(earlier: seq<Frame>, before: (seq<Frame>, map<string, Effect>), frame: Frame,
                         gains: seq<real>, fft: Frame -> seq<Complex>, ifft: seq<Complex> -> Frame,
                         shape: real -> real, shift: (Frame, real) -> Option<Frame>, pitch: real)
    requires |gains| == |BANDS| && WellFormed(before.1)
    ensures var r := StreamStep(before, frame, gains, fft, ifft, shape, shift, pitch);
      StreamStep((earlier + before.0, before.1), frame, gains, fft, ifft, shape, shift, pitch)
        == (earlier + r.0, r.1)
  {
    var z := shift(Process(frame, gains, before.1, fft, ifft, shape).0, pitch);
    if z.Some? {
      assert (earlier + before.0) + [z.value] == earlier + (before.0 + [z.value]);
    }
  }

  /** When the pitch shift never raises, every frame read is played, in
      the order it was read: the last frame played is the last frame read,
      processed and shifted. */
  lemma {:induction false} StreamPlaysAll(frames: seq<Frame>, gains: seq<real>, fx: map<string, Effect>,
                                          fft: Frame -> seq<Complex>, ifft: seq<Complex> -> Frame,
                                          shape: real -> real, shift: (Frame, real) -> Option<Frame>,
                                          pitch: real)
    requires |gains| == |BANDS| && WellFormed(fx)
    requires forall y :: shift(y, pitch).Some?
    ensures var r := Stream(frames, gains, fx, fft, ifft, shape, shift, pitch);
      && |r.0| == |frames|
      && (|frames| > 0 ==>
            var before := Stream(frames[..|frames| - 1], gains, fx, fft, ifft, shape, shift, pitch);
            r.0 == before.0 + [shift(Process(frames[|frames| - 1], gains, before.1, fft, ifft, shape).0, pitch).value])
    decreases |frames|
  {
    if frames != [] {
      StreamPlaysAll(frames[..|frames| - 1], gains, fx, fft, ifft, shape, shift, pitch);
    }
  }

  /** The screen's audio state: the globals of the screen module. */
  class Engine {
    var isStreaming: bool
    var isRecording: bool
    var recordedFrames: seq<Frame>
    var pitchFactor: real
    var equalizer: map<string, Band>
    var effects: map<string, Effect>

    predicate Valid()
      reads this`equalizer, this`effects
    {
      EqualizerShape(equalizer) && WellFormed(effects)
    }

    /** The band gains the processing step reads, lowest band first. */
    function Gains(): (g: seq<real>)
      reads this`equalizer
      requires EqualizerShape(equalizer)
      ensures |g| == |BANDS|
    {
      GainsOf(equalizer)
    }

    /** The state when the screen module is loaded: not streaming, not
        recording, pitch factor 0, every band at 1.0, every effect off
        except the volume. */
    constructor ()
      ensures Valid()
      ensures !isStreaming && !isRecording && recordedFrames == [] && pitchFactor == 0.0
      ensures equalizer == InitialEqualizer() && effects == InitialEffects()
    {
      isStreaming := false;
      isRecording := false;
      recordedFrames := [];
      pitchFactor := 0.0;
      equalizer := InitialEqualizer();
      effects := InitialEffects();
    }

    /** Start: opens the streams and launches the streaming loop, unless
        already streaming, in which case it does nothing. */
    method StartStream() returns (launched: bool)
      modifies this`isStreaming
      ensures isStreaming
      ensures launched <==> !old(isStreaming)
    {
      launched := !isStreaming;
      if !isStreaming {
        isStreaming := true;
      }
    }

    /** Stop: ends the streaming loop and closes the streams, unless not
        streaming, in which case it does nothing. */
    method StopStream() returns (stopped: bool)
      modifies this`isStreaming
      ensures !isStreaming
      ensures stopped <==> old(isStreaming)
    {
      stopped := isStreaming;
      if isStreaming {
        isStreaming := false;
      }
    }

    /** Start recording: discards whatever was recorded before. */
    method StartRecording()
      modifies this`isRecording, this`recordedFrames
      ensures isRecording && recordedFrames == []
    {
      recordedFrames := [];
      isRecording := true;
    }

    /** Stop recording: when recording, clears the flag and hands the
        recorded frames, as int16 samples, to the save step; otherwise
        does nothing. The recorded frames stay as they are. */
    method StopRecording() returns (saved: Option<seq<int>>)
      modifies this`isRecording
      ensures !isRecording
      ensures old(isRecording) ==> saved == Some(EncodeRecording(recordedFrames))
      ensures !old(isRecording) ==> saved == None
    {
      saved := None;
      if isRecording {
        isRecording := false;
        saved := Some(EncodeRecording(recordedFrames));
      }
    }

    /** The record button: stops when recording, starts otherwise. */
    method ToggleRecording() returns (saved: Option<seq<int>>)
      modifies this`isRecording, this`recordedFrames
      ensures isRecording == !old(isRecording)
      ensures old(isRecording) ==> recordedFrames == old(recordedFrames)
                                   && saved == Some(EncodeRecording(recordedFrames))
      ensures !old(isRecording) ==> recordedFrames == [] && saved == None
    {
      if isRecording {
        saved := StopRecording();
      } else {
        StartRecording();
        saved := None;
      }
    }

    /** The pitch slider: the pitch factor becomes the slider value in
        semitones. */
    method UpdatePitch(value: real)
      modifies this`pitchFactor
      ensures pitchFactor == value
    {
      pitchFactor := value;
    }

    /** An equalizer slider: the named band's gain becomes the converted
        slider value; every other entry, and the band's frequency, stay.
        A name that is not a band raises (ok is false) and changes
        nothing. */
    method UpdateEqualizer(band: string, value: real) returns (ok: bool)
      requires Valid()
      modifies this`equalizer
      ensures Valid()
      ensures ok <==> band in old(equalizer)
      ensures ok ==> equalizer == old(equalizer)[band := Band(BandGain(value), old(equalizer)[band].freq)]
      ensures !ok ==> equalizer == old(equalizer)
    {
      ok := band in equalizer;
      if ok {
        equalizer := equalizer[band := Band(BandGain(value), equalizer[band].freq)];
      }
    }

    /** Building the screen runs each band slider's callback once with the
        slider's default position, 50: every band leaves at gain 2.0, not
        1.0, keeping its frequency. */
    method SetSliderDefaults()
      requires Valid()
      modifies this`equalizer
      ensures Valid()
      ensures forall i :: 0 <= i < |BANDS| ==> equalizer[BAND_KEYS[i]] == Band(2.0, BANDS[i])
    {
      BandKeysDistinct();
      for i := 0 to |BAND_KEYS|
        invariant Valid()
        invariant forall j :: 0 <= j < i ==> equalizer[BAND_KEYS[j]] == Band(2.0, BANDS[j])
      {
        var ok := UpdateEqualizer(BAND_KEYS[i], 50.0);
      }
    }

    /** An effect slider: the named effect's gain becomes the converted
        slider value; its history buffer and every other effect stay. A
        name that is not an effect raises (ok is false) and changes
        nothing. */
    method UpdateEffect(effect: string, value: real) returns (ok: bool)
      requires Valid()
      modifies this`effects
      ensures Valid()
      ensures ok <==> effect in old(effects)
      ensures ok ==> effects == old(effects)[effect := WithGain(old(effects)[effect], EffectGain(value))]
      ensures !ok ==> effects == old(effects)
    {
      ok := effect in effects;
      if ok {
        effects := effects[effect := WithGain(effects[effect], EffectGain(value))];
      }
    }

    /** The echo unit: adds the previous input scaled by the gain and keeps
        the current input as the history. A frame whose length differs from
        the history raises before the history changes. */
    method ApplyEcho(data: Frame, gain: real) returns (output: Option<Frame>)
      requires Valid()
      modifies this`effects
      ensures Valid()
      ensures var e := old(effects)[ECHO];
        if |data| != |e.buffer| then output == None && effects == old(effects)
        else output == Some(Mix(data, e.buffer, gain))
             && effects == old(effects)[ECHO := Buffered(e.gain, data)]
    {
      var buffer := effects[ECHO].buffer;
      if |data| != |buffer| {
        return None;
      }
      output := Some(Mix(data, buffer, gain));
      effects := effects[ECHO := Buffered(effects[ECHO].gain, data)];
    }

    /** The reverb unit: adds the four taps of the history, tap i weighted
        by `0.5 ** (i+1) * gain`, then drops the oldest frame of the
        history and appends the current input. A frame that is not one
        chunk long raises before the history changes. */
    method ApplyReverb(data: Frame, gain: real) returns (output: Option<Frame>)
      requires Valid()
      modifies this`effects
      ensures Valid()
      ensures var e := old(effects)[REVERB];
        if |data| != CHUNK then output == None && effects == old(effects)
        else output == Some(ReverbTaps(data, e.buffer, gain, REVERB_TAPS))
             && effects == old(effects)[REVERB := Buffered(e.gain, e.buffer[CHUNK..] + data)]
    {
      var buffer := effects[REVERB].buffer;
      if |data| != CHUNK {
        return None;
      }
      var out := data;
      for i := 0 to REVERB_TAPS
        invariant out == ReverbTaps(data, buffer, gain, i)
      {
        var delayIdx := i * CHUNK;
        assert (i + 1 - 1) * CHUNK == delayIdx && (i + 1) * CHUNK == delayIdx + CHUNK;
        out := Mix(out, buffer[delayIdx .. delayIdx + CHUNK], Power(REVERB_DECAY, i + 1) * gain);
        assert out == ReverbTaps(data, buffer, gain, i + 1);
      }
      ReverbWindow(buffer, data);
      effects := effects[REVERB := Buffered(effects[REVERB].gain, OverwriteTail(RollLeft(buffer, CHUNK), data))];
      output := Some(out);
    }

    /** The delay unit: adds the delay line scaled by the gain; the line
        becomes the input plus 0.3 of its old content, whatever the gain.
        A frame whose length differs from the line raises before the line
        changes. */
    method ApplyDelay(data: Frame, gain: real) returns (output: Option<Frame>)
      requires Valid()
      modifies this`effects
      ensures Valid()
      ensures var e := old(effects)[DELAY];
        if |data| != |e.buffer| then output == None && effects == old(effects)
        else output == Some(Mix(data, e.buffer, gain))
             && effects == old(effects)[DELAY := Buffered(e.gain, Mix(data, e.buffer, DELAY_FEEDBACK))]
    {
      var buffer := effects[DELAY].buffer;
      if |data| != |buffer| {
        return None;
      }
      output := Some(Mix(data, buffer, gain));
      effects := effects[DELAY := Buffered(effects[DELAY].gain, Mix(data, buffer, DELAY_FEEDBACK))];
    }

    /** The band loop: for each band in turn, every bin whose frequency
        falls in the band's mask is scaled, in place, by the band's gain
        looked up under the band's key. */
    method ApplyBandGains(spectrum: array<Complex>, freqs: seq<real>)
      requires Valid() && |freqs| == spectrum.Length
      modifies spectrum
      ensures spectrum[..] == Equalize(old(spectrum[..]), freqs, Gains())
    {
      ghost var orig := spectrum[..];
      ghost var gains := Gains();
      for i := 0 to |BANDS|
        invariant spectrum[..] == BandsApplied(orig, freqs, gains, i)
      {
        BandKeyOf(i);
        var g := equalizer[BandKey(BANDS[i])].gain;
        assert g == gains[i];
        ScaleBandInPlace(spectrum, freqs, i, g);
      }
      BandLoopEqualizes(orig, freqs, gains);
    }

    /** The three effects that keep a history, in the order the processing
        step runs them, each only when its gain is positive; once one
        raises, the rest are skipped. */
    method ApplyBufferedEffects(x: Frame) returns (frame: Option<Frame>)
      requires Valid()
      modifies this`effects
      ensures Valid()
      ensures Pass(frame, effects) == DelayStage(ReverbStage(EchoStage(Pass(Some(x), old(effects)))))
    {
      ghost var p := Pass(Some(x), effects);
      frame := Some(x);
      if effects[ECHO].gain > 0.0 {
        frame := ApplyEcho(x, effects[ECHO].gain);
      }
      assert Pass(frame, effects) == EchoStage(p);
      ghost var p1 := Pass(frame, effects);
      if frame.Some? && effects[REVERB].gain > 0.0 {
        if |frame.value| == CHUNK {
          ReverbWindow(effects[REVERB].buffer, frame.value);
        }
        frame := ApplyReverb(frame.value, effects[REVERB].gain);
      }
      assert Pass(frame, effects) == ReverbStage(p1);
      if frame.Some? && effects[DELAY].gain > 0.0 {
        frame := ApplyDelay(frame.value, effects[DELAY].gain);
      }
    }

    /** One call of the per-frame processing: transform, band gains, inverse
        transform, the gated chain and the limiter; any exception returns
        the input. Exactly the processing step specified by Process. */
    method ProcessWithEqualizer(data: Frame, fft: Frame -> seq<Complex>, ifft: seq<Complex> -> Frame,
                                shape: real -> real) returns (out: Frame)
      requires Valid()
      modifies this`effects
      ensures Valid()
      ensures (out, effects) == Process(data, Gains(), old(effects), fft, ifft, shape)
    {
      if |data| == 0 {
        return data;
      }
      var bins := fft(data);
      if |bins| == 0 {
        return data;
      }
      var spectrum := new Complex[|bins|](k requires 0 <= k < |bins| => bins[k]);
      assert spectrum[..] == bins;
      ApplyBandGains(spectrum, FftFreqs(spectrum.Length));
      var x := ifft(spectrum[..]);
      ghost var fx := effects;
      var frame := ApplyBufferedEffects(x);
      ghost var mid := Pass(frame, effects);
      if frame.Some? && effects[DISTORTION].gain > 0.0 {
        frame := if |frame.value| == 0 then None
                 else Some(Distortion(frame.value, effects[DISTORTION].gain, shape));
      }
      assert Pass(frame, effects) == DistortionStage(mid, shape);
      if frame.Some? {
        frame := Some(Scale(frame.value, effects[VOLUME].gain));
      }
      assert Pass(frame, effects) == VolumeStage(DistortionStage(mid, shape));
      if frame.Some? {
        frame := if |frame.value| == 0 then None else Some(Limit(frame.value));
      }
      ChainUnrolled(x, fx, shape);
      out := if frame.Some? then frame.value else data;
    }

    /** One turn of the streaming loop: process the frame, pitch-shift it,
        and unless the shift raises, record it (when recording) and play
        it; `added` is what this turn plays, nothing or one frame. */
    method StreamFrame(frame: Frame, ghost played: seq<Frame>, fft: Frame -> seq<Complex>,
                       ifft: seq<Complex> -> Frame, shape: real -> real,
                       shift: (Frame, real) -> Option<Frame>)
      returns (added: seq<Frame>)
      requires Valid()
      modifies this`effects, this`recordedFrames
      ensures Valid()
      ensures (played + added, effects) == StreamStep((played, old(effects)), frame, Gains(), fft, ifft, shape, shift, pitchFactor)
      ensures isRecording ==> recordedFrames == old(recordedFrames) + added
      ensures !isRecording ==> recordedFrames == old(recordedFrames)
    {
      var y := ProcessWithEqualizer(frame, fft, ifft, shape);
      var z := shift(y, pitchFactor);
      added := [];
      if z.Some? {
        if isRecording {
          recordedFrames := recordedFrames + [z.value];
        }
        added := [z.value];
      } else {
        assert played + added == played;
      }
    }

    /** Turn i of the streaming loop, given that the turns before it
        played `played` and left the dictionary as it now stands. */
    method StreamTurn(captured: seq<Frame>, i: nat, ghost played: seq<Frame>, ghost gains: seq<real>,
                      ghost fx0: map<string, Effect>, fft: Frame -> seq<Complex>,
                      ifft: seq<Complex> -> Frame, shape: real -> real,
                      shift: (Frame, real) -> Option<Frame>)
      returns (added: seq<Frame>)
      requires Valid() && i < |captured| && Gains() == gains && WellFormed(fx0)
      requires (played, effects) == Stream(captured[..i], gains, fx0, fft, ifft, shape, shift, pitchFactor)
      modifies this`effects, this`recordedFrames
      ensures Valid()
      ensures (played + added, effects) == Stream(captured[..i + 1], gains, fx0, fft, ifft, shape, shift, pitchFactor)
      ensures isRecording ==> recordedFrames == old(recordedFrames) + added
      ensures !isRecording ==> recordedFrames == old(recordedFrames)
    {
      added := StreamFrame(captured[i], played, fft, ifft, shape, shift);
      StreamExtend(captured, i, gains, fx0, fft, ifft, shape, shift, pitchFactor);
    }

    /** The streaming loop over the frames read while streaming: each is
        processed and pitch-shifted; one whose pitch shift raises is
        skipped; the others are appended to the recording when recording,
        and played. Not streaming, the loop does not run. */
    method StreamAudio(captured: seq<Frame>, fft: Frame -> seq<Complex>, ifft: seq<Complex> -> Frame,
                       shape: real -> real, shift: (Frame, real) -> Option<Frame>)
      returns (played: seq<Frame>)
      requires Valid()
      modifies this`effects, this`recordedFrames
      ensures Valid()
      ensures isStreaming ==>
        (played, effects) == Stream(captured, Gains(), old(effects), fft, ifft, shape, shift, pitchFactor)
      ensures !isStreaming ==> played == [] && effects == old(effects) && recordedFrames == old(recordedFrames)
      ensures recordedFrames == old(recordedFrames) + (if isRecording then played else [])
    {
      if !isStreaming {
        return [];
      }
      played := StreamLoop(captured, fft, ifft, shape, shift);
    }

    /** The body of the streaming loop run over the frames read. */
    method StreamLoop(captured: seq<Frame>, fft: Frame -> seq<Complex>, ifft: seq<Complex> -> Frame,
                      shape: real -> real, shift: (Frame, real) -> Option<Frame>)
      returns (played: seq<Frame>)
      requires Valid()
      modifies this`effects, this`recordedFrames
      ensures Valid()
      ensures (played, effects) == Stream(captured, Gains(), old(effects), fft, ifft, shape, shift, pitchFactor)
      ensures recordedFrames == old(recordedFrames) + (if isRecording then played else [])
    {
      played := [];
      ghost var gains := Gains();
      ghost var fx0 := effects;
      var i := 0;
      assert captured[..i] == [];
      while i < |captured|
        invariant 0 <= i <= |captured| && Valid() && Gains() == gains
        invariant (played, effects) == Stream(captured[..i], gains, fx0, fft, ifft, shape, shift, pitchFactor)
        invariant isRecording ==> recordedFrames == old(recordedFrames) + played
        invariant !isRecording ==> recordedFrames == old(recordedFrames)
      {
        var added := StreamTurn(captured, i, played, gains, fx0, fft, ifft, shape, shift);
        ConcatAssoc(old(recordedFrames), played, added);
        played := played + added;
        i := i + 1;
      }
      assert captured[..i] == captured;
    }
  }
}
