/** The spectral analyser: it accumulates raw EEG samples into batches of
    250, rejects batches that hold a blink or motion artifact, and publishes
    the frequency axis of the retained DFT bins. The analysis, which the
    Python client runs on a thread of its own, is a synchronous call here. */
module Processing {

  /** Number of samples that triggers an analysis. */
  const DataResolution: nat := 250
  /** Amplitude bound of the blink test (exclusive on both sides). */
  const BlinkThreshold: int := 150
  /** Sample rate, in Hz, that the frequency axis assumes. */
  const Fs: nat := 512
  /** Bounds of the slice `[2:50]` that keeps the meaningful EEG bins. */
  const FirstBin: nat := 2
  const EndBin: nat := 50

  /** Largest sample of a non-empty batch (numpy's `amax`). */
  function Max(s: seq<int>): (m: int)
    requires |s| > 0
    ensures m in s
    ensures forall i :: 0 <= i < |s| ==> s[i] <= m
  {
    if |s| == 1 then s[0]
    else
      var rest := Max(s[1..]);
      assert rest in s[1..];
      if s[0] >= rest then s[0] else rest
  }

  /** Smallest sample of a non-empty batch (numpy's `amin`). */
  function Min(s: seq<int>): (m: int)
    requires |s| > 0
    ensures m in s
    ensures forall i :: 0 <= i < |s| ==> m <= s[i]
  {
    if |s| == 1 then s[0]
    else
      var rest := Min(s[1..]);
      assert rest in s[1..];
      if s[0] <= rest then s[0] else rest
  }

  /** The gate of the analysis step as the code writes it: a non-empty batch
      passes when its maximum is below the threshold OR its minimum is above
      its negation. So a batch is turned away exactly when it is empty, or
      when it reaches the threshold at the top AND at the bottom. */
  predicate Accepted(batch: seq<int>)
    ensures Accepted(batch) <==>
      |batch| != 0 &&
      !((exists i :: 0 <= i < |batch| && batch[i] >= BlinkThreshold) &&
        (exists j :: 0 <= j < |batch| && batch[j] <= -BlinkThreshold))
  {
    |batch| != 0 && (BlinkThreshold > Max(batch) || -BlinkThreshold < Min(batch))
  }

  /** The usual blink rule: a batch passes only when every sample lies
      strictly inside (-150, 150). */
  predicate InsideBothBounds(batch: seq<int>)
  {
    |batch| != 0 && forall i :: 0 <= i < |batch| ==> -BlinkThreshold < batch[i] < BlinkThreshold
  }

  /** The code's gate lets through every batch the usual rule lets through,
      and more: a batch touching only the upper bound still passes. */
  lemma GateIsWeakerThanBothBounds(batch: seq<int>)
    ensures InsideBothBounds(batch) ==> Accepted(batch)
    ensures Accepted([BlinkThreshold, 0]) && !InsideBothBounds([BlinkThreshold, 0])
  {
    var spike := [BlinkThreshold, 0];
    assert spike[1] == 0;
  }

  /** Frequency of DFT bin `k` for an `n`-sample window, as numpy's
      `rfftfreq(n, d)` gives it with the spacing `d = 2 * (1 / fs)` the code
      passes: `k * (1 / (n * d))`, which is `k * fs / (2 * n)` Hz. */
  function BinFrequency(k: nat, n: nat): (f: real)
    requires n > 0
    ensures f == (k * Fs) as real / (2 * n) as real
  {
    var nr := n as real;
    var d := 2.0 * (1.0 / (Fs as real));
    assert d == 1.0 / 256.0;
    assert 1.0 / (nr * d) == 256.0 / nr by {
      assert nr * d == nr / 256.0;
    }
    assert (k * Fs) as real / (2 * n) as real == 256.0 * (k as real) / nr by {
      assert (k * Fs) as real == 512.0 * (k as real);
      assert (2 * n) as real == 2.0 * nr;
    }
    (k as real) * (1.0 / (nr * d))
  }

  /** A larger bin index lies at a strictly higher frequency. */
  lemma BinFrequencyIncreasing(n: nat)
    requires n > 0
    ensures forall k1: nat, k2: nat :: k1 < k2 ==> BinFrequency(k1, n) < BinFrequency(k2, n)
  {
    forall k1: nat, k2: nat | k1 < k2
      ensures BinFrequency(k1, n) < BinFrequency(k2, n)
    {
      var step := 1.0 / ((n as real) * (2.0 * (1.0 / (Fs as real))));
      assert step > 0.0 by {
        assert (n as real) * (2.0 * (1.0 / (Fs as real))) > 0.0;
      }
      assert BinFrequency(k1, n) == (k1 as real) * step;
      assert BinFrequency(k2, n) == (k2 as real) * step;
      var gap := (k2 - k1) as real;
      assert BinFrequency(k2, n) - BinFrequency(k1, n) == gap * step;
      assert gap * step > 0.0;
    }
  }

  /** The whole axis `rfftfreq(n, d)`: bins 0 ..= n / 2, starting at 0 Hz,
      strictly increasing. */
  function RfftFreq(n: nat): (f: seq<real>)
    requires n > 0
    ensures |f| == n / 2 + 1 && f[0] == 0.0
    ensures forall k :: 0 <= k < |f| ==> f[k] == BinFrequency(k, n)
    ensures forall i, j :: 0 <= i < j < |f| ==> f[i] < f[j]
  {
    BinFrequencyIncreasing(n);
    seq(n / 2 + 1, k requires 0 <= k => BinFrequency(k, n))
  }

  /** Index clamped to a length, as Python clamps slice bounds. */
  function Clamp(i: nat, len: nat): nat
  {
    if i < len then i else len
  }

  /** Python's `s[2:50]`: at most 48 entries, entry `i` being `s[i + 2]`;
      nothing when `s` has two entries or fewer. */
  function RetainedBins<T>(s: seq<T>): (r: seq<T>)
    ensures |r| <= EndBin - FirstBin
    ensures |s| <= FirstBin ==> r == []
    ensures FirstBin <= |s| ==> |r| == Clamp(EndBin, |s|) - FirstBin
    ensures forall i :: 0 <= i < |r| ==> r[i] == s[i + FirstBin]
  {
    s[Clamp(FirstBin, |s|)..Clamp(EndBin, |s|)]
  }

  /** Frequencies the analysis publishes for an `n`-sample window: bins 2, 3,
      ... of the full axis, at most 48 of them, each at its own bin
      frequency, in strictly increasing order. */
  function Freqs(n: nat): (f: seq<real>)
    requires n > 0
    ensures |f| == Clamp(EndBin, n / 2 + 1) - Clamp(FirstBin, n / 2 + 1)
    ensures forall i :: 0 <= i < |f| ==> f[i] == BinFrequency(i + FirstBin, n)
    ensures forall i, j :: 0 <= i < j < |f| ==> f[i] < f[j]
  {
    RetainedBins(RfftFreq(n))
  }

  /** A full batch of 250 samples yields exactly 48 bins, indices 2 ..= 49,
      at strictly increasing frequencies `k * 512 / 500` Hz. */
  lemma FullBatchSpectrum()
    ensures |Freqs(DataResolution)| == 48
    ensures forall i :: 0 <= i < 48 ==>
      Freqs(DataResolution)[i] == ((i + 2) * Fs) as real / (2 * DataResolution) as real
    ensures forall i, j :: 0 <= i < j < 48 ==> Freqs(DataResolution)[i] < Freqs(DataResolution)[j]
  {
    var f := Freqs(DataResolution);
    forall i | 0 <= i < 48
      ensures f[i] == ((i + 2) * Fs) as real / (2 * DataResolution) as real
    {
      assert f[i] == BinFrequency(i + FirstBin, DataResolution);
    }
  }

  /** The published spectrum: the frequency row, and the window the
      magnitude row is computed from (the magnitudes themselves are not
      modelled). `NoData` is the initial empty list. */
  datatype FftData = NoData | Bins(freqs: seq<real>, window: seq<int>)

  class Processor {
    /** Samples gathered since the last analysis, in arrival order. */
    var rawDataBatch: seq<int>
    var fftData: FftData
    var isAvailable: bool

    /** A spectrum is published exactly when `isAvailable` is set, and every
        published spectrum comes from an accepted window, with its axis. */
    ghost predicate SpectrumValid()
      reads this
    {
      isAvailable == fftData.Bins? &&
      (fftData.Bins? ==> Accepted(fftData.window) && fftData.freqs == Freqs(|fftData.window|))
    }

    /** With a synchronous trigger the live batch never holds a full window. */
    ghost predicate Valid()
      reads this
    {
      SpectrumValid() && |rawDataBatch| < DataResolution
    }

    constructor ()
      ensures Valid()
      ensures rawDataBatch == [] && fftData == NoData && !isAvailable
    {
      rawDataBatch := [];
      fftData := NoData;
      isAvailable := false;
    }

    /** Adds one sample to the end of the batch; once the batch holds
        `DataResolution` samples it is analysed and the batch starts over. */
    method AppendData(rawData: int)
      requires Valid()
      modifies this
      ensures Valid()
      ensures old(isAvailable) ==> isAvailable
      ensures |old(rawDataBatch)| + 1 < DataResolution ==>
        rawDataBatch == old(rawDataBatch) + [rawData] &&
        fftData == old(fftData) && isAvailable == old(isAvailable)
      ensures |old(rawDataBatch)| + 1 == DataResolution ==>
        rawDataBatch == [] &&
        (Accepted(old(rawDataBatch) + [rawData]) ==>
           fftData == Bins(Freqs(DataResolution), old(rawDataBatch) + [rawData]) && isAvailable) &&
        (!Accepted(old(rawDataBatch) + [rawData]) ==>
           fftData == old(fftData) && isAvailable == old(isAvailable))
    {
      rawDataBatch := rawDataBatch + [rawData];
      if |rawDataBatch| >= DataResolution {
        Fft();
      }
    }

    /** Takes the batch, clears it, and publishes the spectrum of the taken
        window if the window is non-empty and passes the blink gate. */
    method Fft()
      modifies this
      ensures old(SpectrumValid()) ==> SpectrumValid()
      ensures rawDataBatch == []
      ensures old(isAvailable) ==> isAvailable
      ensures Accepted(old(rawDataBatch)) ==>
        fftData == Bins(Freqs(|old(rawDataBatch)|), old(rawDataBatch)) && isAvailable
      ensures !Accepted(old(rawDataBatch)) ==>
        fftData == old(fftData) && isAvailable == old(isAvailable)
    {
      var tmp := rawDataBatch;
      rawDataBatch := [];
      var batchSize := |tmp|;
      if batchSize != 0 && (BlinkThreshold > Max(tmp) || -BlinkThreshold < Min(tmp)) {
        fftData := Bins(Freqs(batchSize), tmp);
        isAvailable := true;
      }
    }
  }
}
