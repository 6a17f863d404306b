/** The ten-band partition of the spectrum used by the equalizer, and the
    per-bin gain stage built on it. */
module Bands {
  import opened Signal

  /** Band centre frequencies in Hz, ascending. */
  const BANDS: seq<nat> := [32, 64, 125, 250, 500, 1000, 2000, 4000, 8000, 16000]

  /** The dictionary keys the slider labels use, band by band. */
  const BAND_KEYS: seq<string> := ["32", "64", "125", "250", "500", "1k", "2k", "4k", "8k", "16k"]

  function Digit(d: nat): (c: char)
    requires d < 10
    ensures '0' <= c <= '9'
  {
    "0123456789"[d]
  }

  /** `str(n)` for a natural number. */
  function DecimalString(n: nat): (s: string)
    ensures |s| > 0 && '0' <= s[|s| - 1] <= '9'
  {
    if n < 10 then [Digit(n)] else DecimalString(n / 10) + [Digit(n % 10)]
  }

  /** The key of a band: `str(freq)` below 1000 Hz, `f"{int(freq/1000)}k"`
      from 1000 Hz up. */
  function BandKey(freq: nat): (key: string)
    ensures |key| > 0
    ensures freq >= 1000 <==> key[|key| - 1] == 'k'
  {
    if freq >= 1000 then DecimalString(freq / 1000) + "k" else DecimalString(freq)
  }

  /** The ten slider labels are distinct, so the equalizer dictionary has
      ten separate entries. */
  lemma BandKeysDistinct()
    ensures forall i, j :: 0 <= i < j < |BAND_KEYS| ==> BAND_KEYS[i] != BAND_KEYS[j]
  {
  }

  /** `str(n)` of a two-digit number is its two digits. */
  lemma TwoDigits(n: nat)
    requires 10 <= n < 100
    ensures DecimalString(n) == [Digit(n / 10), Digit(n % 10)]
  {
  }

  /** `str(n)` of a three-digit number is its three digits. */
  lemma ThreeDigits(n: nat)
    requires 100 <= n < 1000
    ensures DecimalString(n) == [Digit(n / 100), Digit(n / 10 % 10), Digit(n % 10)]
  {
    var m := n / 10;
    TwoDigits(m);
    assert m / 10 == n / 100;
  }

  /** Below 1000 Hz the key formula gives exactly the slider labels. */
  lemma PlainBandKeys()
    ensures BandKey(32) == "32" && BandKey(64) == "64" && BandKey(125) == "125"
    ensures BandKey(250) == "250" && BandKey(500) == "500"
  {
    TwoDigits(32);
    TwoDigits(64);
    ThreeDigits(125);
    ThreeDigits(250);
    ThreeDigits(500);
  }

  /** From 1000 Hz up the key formula gives exactly the slider labels. */
  lemma KiloBandKeys()
    ensures BandKey(1000) == "1k" && BandKey(2000) == "2k" && BandKey(4000) == "4k"
    ensures BandKey(8000) == "8k" && BandKey(16000) == "16k"
  {
    TwoDigits(16);
  }

  /** The key formula gives exactly the slider label of every band. */
  lemma BandKeysMatchLabels()
    ensures |BAND_KEYS| == |BANDS|
    ensures forall i :: 0 <= i < |BANDS| ==> BandKey(BANDS[i]) == BAND_KEYS[i]
  {
    PlainBandKeys();
    KiloBandKeys();
    forall i | 0 <= i < |BANDS|
      ensures BandKey(BANDS[i]) == BAND_KEYS[i]
    {
      if i < 5 {
        assert BANDS[i] in [32, 64, 125, 250, 500];
      }
    }
  }

  /** The key band i's gain is looked up under is its slider label. */
  lemma BandKeyOf(i: nat)
    requires i < |BANDS|
    ensures BandKey(BANDS[i]) == BAND_KEYS[i]
  {
    BandKeysMatchLabels();
  }

  /** The mask of band i applied to a bin of frequency f: the first band
      takes |f| <= 32, the last takes |f| > 8000, band i in between takes
      BANDS[i-1] < |f| <= BANDS[i]. */
  predicate InBand(i: nat, f: real)
    requires i < |BANDS|
  {
    if i == 0 then Abs(f) <= BANDS[0] as real
    else if i == |BANDS| - 1 then Abs(f) > BANDS[i - 1] as real
    else BANDS[i - 1] as real < Abs(f) <= BANDS[i] as real
  }

  /** The first band at or after i whose mask accepts magnitude a. */
  function BandFrom(a: real, i: nat): (b: nat)
    requires i < |BANDS|
    requires a >= 0.0
    requires i == 0 || a > BANDS[i - 1] as real
    ensures i <= b < |BANDS|
    ensures InBand(b, a)
    decreases |BANDS| - i
  {
    if i == |BANDS| - 1 || a <= BANDS[i] as real then i else BandFrom(a, i + 1)
  }

  /** The band a bin of frequency f belongs to. */
  function BandIndex(f: real): (b: nat)
    ensures b < |BANDS|
    ensures InBand(b, f)
  {
    BandFrom(Abs(f), 0)
  }

  /** Two different masks never both accept the same frequency. */
  lemma MasksDisjoint(i: nat, j: nat, f: real)
    requires i < j < |BANDS|
    ensures !(InBand(i, f) && InBand(j, f))
  {
    assert BANDS[i] <= BANDS[j - 1];
  }

  /** Every frequency lies in exactly one band: the masks cover the whole
      frequency axis without gaps or overlaps. */
  lemma ExactlyOneBand(f: real, i: nat)
    requires i < |BANDS|
    ensures InBand(i, f) <==> i == BandIndex(f)
  {
    var b := BandIndex(f);
    if i < b {
      MasksDisjoint(i, b, f);
    } else if b < i {
      MasksDisjoint(b, i, f);
    }
  }

  /** `np.fft.fftfreq(n, 1/RATE)[k]`: the non-negative frequencies first,
      then the negative ones. */
  function FftFreq(n: nat, k: nat): (f: real)
    requires k < n
    ensures k < (n + 1) / 2 ==> f == (k * RATE) as real / n as real
    ensures k >= (n + 1) / 2 ==> f == -(((n - k) * RATE) as real / n as real)
  {
    var signed: int := if k < (n + 1) / 2 then k else k - n;
    (signed * RATE) as real / n as real
  }

  function FftFreqs(n: nat): (fs: seq<real>)
    ensures |fs| == n
    ensures forall k :: 0 <= k < n ==> fs[k] == FftFreq(n, k)
  {
    seq(n, k requires 0 <= k < n => FftFreq(n, k))
  }

  /** Bins k and n - k are mirror images, so they fall in the same band and
      receive the same gain. */
  lemma MirrorBinsShareBand(n: nat, k: nat)
    requires 0 < k < n
    ensures BandIndex(FftFreq(n, k)) == BandIndex(FftFreq(n, n - k))
  {
    var fk, fm := FftFreq(n, k), FftFreq(n, n - k);
    assert Abs(fk) == Abs(fm);
  }

  /** The spectrum after the band loop: every bin scaled by the gain of the
      band its frequency falls in. */
  function Equalize(bins: seq<Complex>, freqs: seq<real>, gains: seq<real>): (r: seq<Complex>)
    requires |freqs| == |bins| && |gains| == |BANDS|
    ensures |r| == |bins|
  {
    seq(|bins|, k requires 0 <= k < |bins| => ScaleBin(bins[k], gains[BandIndex(freqs[k])]))
  }

  /** With every band at gain 1.0 the band stage is the identity. */
  lemma EqualizeUnity(bins: seq<Complex>, freqs: seq<real>, gains: seq<real>)
    requires |freqs| == |bins| && |gains| == |BANDS|
    requires forall i :: 0 <= i < |gains| ==> gains[i] == 1.0
    ensures Equalize(bins, freqs, gains) == bins
  {
  }

  /** With every band at gain 0.0 every bin is silenced. */
  lemma EqualizeMute(bins: seq<Complex>, freqs: seq<real>, gains: seq<real>)
    requires |freqs| == |bins| && |gains| == |BANDS|
    requires forall i :: 0 <= i < |gains| ==> gains[i] == 0.0
    ensures forall k :: 0 <= k < |bins| ==> Equalize(bins, freqs, gains)[k] == Complex(0.0, 0.0)
  {
  }

  /** Changing one band's gain changes only the bins inside that band. */
  lemma EqualizeLocal(bins: seq<Complex>, freqs: seq<real>, gains: seq<real>, i: nat, g: real)
    requires |freqs| == |bins| && |gains| == |BANDS| && i < |BANDS|
    ensures forall k :: 0 <= k < |bins| && !InBand(i, freqs[k]) ==>
      Equalize(bins, freqs, gains[i := g])[k] == Equalize(bins, freqs, gains)[k]
    ensures forall k :: 0 <= k < |bins| && InBand(i, freqs[k]) ==>
      Equalize(bins, freqs, gains[i := g])[k] == ScaleBin(bins[k], g)
  {
    forall k | 0 <= k < |bins|
      ensures InBand(i, freqs[k]) <==> BandIndex(freqs[k]) == i
    {
      ExactlyOneBand(freqs[k], i);
    }
  }

  /** One pass of the band loop: the bins inside band i's mask scaled by g,
      the others left as they are. */
  function ScaleBand(bins: seq<Complex>, freqs: seq<real>, i: nat, g: real): (r: seq<Complex>)
    requires |freqs| == |bins| && i < |BANDS|
    ensures |r| == |bins|
  {
    seq(|bins|, k requires 0 <= k < |bins| => if InBand(i, freqs[k]) then ScaleBin(bins[k], g) else bins[k])
  }

  /** The spectrum after the first i passes of the band loop, band 0 first. */
  function BandsApplied(bins: seq<Complex>, freqs: seq<real>, gains: seq<real>, i: nat): (r: seq<Complex>)
    requires |freqs| == |bins| && |gains| == |BANDS| && i <= |BANDS|
    ensures |r| == |bins|
    decreases i
  {
    if i == 0 then bins else ScaleBand(BandsApplied(bins, freqs, gains, i - 1), freqs, i - 1, gains[i - 1])
  }

  /** After i passes, a bin whose band comes before i has been scaled once,
      by its own band's gain, and every other bin is untouched. */
  lemma {:induction false} BandsAppliedBins(bins: seq<Complex>, freqs: seq<real>, gains: seq<real>, i: nat)
    requires |freqs| == |bins| && |gains| == |BANDS| && i <= |BANDS|
    ensures forall k :: 0 <= k < |bins| ==>
      BandsApplied(bins, freqs, gains, i)[k] ==
        if BandIndex(freqs[k]) < i then ScaleBin(bins[k], gains[BandIndex(freqs[k])]) else bins[k]
    decreases i
  {
    if i > 0 {
      BandsAppliedBins(bins, freqs, gains, i - 1);
      forall k | 0 <= k < |bins|
        ensures InBand(i - 1, freqs[k]) <==> BandIndex(freqs[k]) == i - 1
      {
        ExactlyOneBand(freqs[k], i - 1);
      }
    }
  }

  /** Running the band loop over all ten bands is the same as scaling each
      bin once by the gain of its band: since the masks are disjoint, no bin
      is scaled twice and none is missed. */
  lemma BandLoopEqualizes(bins: seq<Complex>, freqs: seq<real>, gains: seq<real>)
    requires |freqs| == |bins| && |gains| == |BANDS|
    ensures BandsApplied(bins, freqs, gains, |BANDS|) == Equalize(bins, freqs, gains)
  {
    BandsAppliedBins(bins, freqs, gains, |BANDS|);
  }
}
