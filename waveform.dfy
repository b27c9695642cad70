/**
 * The waveform pipeline of WaveformView.swift: `AVAsset.waveformSamples`
 * (collect the decoded PCM buffers, downsample into per-chunk peaks,
 * normalise by the largest magnitude) and the choice of sample indices that
 * `WaveformView` draws. Sample values are reals in place of 32-bit floats.
 */
module Waveform {
  import opened System

  // ---------------------------------------------------------------------
  // Integer arithmetic as Swift's `Int` does it
  // ---------------------------------------------------------------------

  /** Swift's `a / b` for a non-negative count `a`: truncates toward zero (and traps on zero). */
  function SwiftDiv(a: nat, b: int): (q: int)
    requires b != 0
    ensures b > 0 ==> 0 <= q && q * b <= a < q * b + b
    ensures b < 0 ==> q <= 0 && q * b <= a < q * b - b
  {
    if b > 0 then a / b else -(a / -b)
  }

  function Min(a: int, b: int): int { if a <= b then a else b }

  function Max(a: int, b: int): int { if a >= b then a else b }

  /** The number of elements of `stride(from: 0, to: n, by: step)` for a positive step. */
  function Ceil(n: nat, step: int): nat
    requires step >= 1
  {
    (n + step - 1) / step
  }

  lemma CeilBounds(n: nat, step: int)
    requires step >= 1
    ensures Ceil(n, step) * step >= n
    ensures (Ceil(n, step) - 1) * step < n
  {
    var q, r := (n + step - 1) / step, (n + step - 1) % step;
    assert n + step - 1 == q * step + r;
    assert (q - 1) * step == q * step - step;
  }

  lemma MulMonotone(a: int, b: int, m: int)
    requires a <= b && 0 <= m
    ensures a * m <= b * m
  {
    assert b * m - a * m == (b - a) * m;
  }

  lemma DivIsUnique(x: int, m: int, q: int)
    requires 0 < m && q * m <= x < q * m + m
    ensures x / m == q
  {
    var d, r := x / m, x % m;
    assert x == d * m + r;
    assert (d + 1) * m == d * m + m;
    assert (q + 1) * m == q * m + m;
    if d < q {
      MulMonotone(d + 1, q, m);
    } else if d > q {
      MulMonotone(q + 1, d, m);
    }
  }

  // ---------------------------------------------------------------------
  // stride(from: 0, to: bound, by: step)
  // ---------------------------------------------------------------------

  /** The elements of `stride(from: 0, to: bound, by: step)`, in order. */
  function Stride(bound: nat, step: int): (r: seq<nat>)
    requires step != 0
    ensures step < 0 ==> r == []
    ensures step > 0 ==> |r| == Ceil(bound, step)
  {
    if step < 0 then [] else seq(Ceil(bound, step), k requires 0 <= k => k * step)
  }

  /**
   * A positive stride starts at 0, its k-th element is `k * step`, it stays
   * below the bound and strictly increases, and every position below the
   * bound lies in the window `[r[k], r[k] + step)` of some element `r[k]`.
   */
  lemma StrideSpec(bound: nat, step: int)
    requires step >= 1
    ensures bound > 0 ==> |Stride(bound, step)| > 0 && Stride(bound, step)[0] == 0
    ensures forall k :: 0 <= k < |Stride(bound, step)| ==> Stride(bound, step)[k] == k * step < bound
    ensures forall j, k :: 0 <= j < k < |Stride(bound, step)| ==> Stride(bound, step)[j] < Stride(bound, step)[k]
    ensures forall i :: 0 <= i < bound ==>
      i / step < |Stride(bound, step)| && Stride(bound, step)[i / step] <= i < Stride(bound, step)[i / step] + step
  {
    StrideBelow(bound, step);
    StrideIncreasing(bound, step);
    StrideCovers(bound, step);
  }

  lemma StrideCovers(bound: nat, step: int)
    requires step >= 1
    ensures forall i :: 0 <= i < bound ==>
      i / step < |Stride(bound, step)| && Stride(bound, step)[i / step] <= i < Stride(bound, step)[i / step] + step
  {
    var r := Stride(bound, step);
    forall i | 0 <= i < bound
      ensures i / step < |r| && r[i / step] <= i < r[i / step] + step
    {
      ChunkOf(bound, step, i);
    }
  }

  lemma StrideBelow(bound: nat, step: int)
    requires step >= 1
    ensures bound > 0 ==> |Stride(bound, step)| > 0 && Stride(bound, step)[0] == 0
    ensures forall k :: 0 <= k < |Stride(bound, step)| ==> Stride(bound, step)[k] == k * step < bound
  {
    var r := Stride(bound, step);
    var c := Ceil(bound, step);
    CeilBounds(bound, step);
    forall k | 0 <= k < |r|
      ensures r[k] < bound
    {
      MulMonotone(k, c - 1, step);
    }
  }

  lemma StrideIncreasing(bound: nat, step: int)
    requires step >= 1
    ensures forall j, k :: 0 <= j < k < |Stride(bound, step)| ==> Stride(bound, step)[j] < Stride(bound, step)[k]
  {
    var r := Stride(bound, step);
    forall j, k | 0 <= j < k < |r|
      ensures r[j] < r[k]
    {
      MulMonotone(j + 1, k, step);
      assert (j + 1) * step == j * step + step;
    }
  }

  // ---------------------------------------------------------------------
  // Signed maximum and magnitudes
  // ---------------------------------------------------------------------

  /** `Sequence.max()` of a non-empty sequence: the largest value, which occurs in it. */
  function SeqMax(s: seq<real>): (m: real)
    requires |s| > 0
    ensures forall i :: 0 <= i < |s| ==> s[i] <= m
    ensures exists i :: 0 <= i < |s| && s[i] == m
  {
    if |s| == 1 then s[0]
    else
      var rest := SeqMax(s[1..]);
      assert forall i :: 1 <= i < |s| ==> s[i] == s[1..][i - 1];
      if s[0] >= rest then s[0] else rest
  }

  function Abs(x: real): real { if x < 0.0 then -x else x }

  // ---------------------------------------------------------------------
  // Collecting the decoded buffers (the `while let` loop)
  // ---------------------------------------------------------------------

  /**
   * A block buffer of a sample buffer: its length in bytes and the 32-bit
   * floats its bytes hold, as `CMBlockBufferCopyDataBytes` reads them.
   */
  datatype Block = Block(byteLength: nat, floats: seq<real>)

  /** A sample buffer from `copyNextSampleBuffer`; it may lack a data buffer. */
  datatype SampleBuffer = SampleBuffer(dataBuffer: Option<Block>)

  /** The float array one block contributes: `length / 4` zeros overwritten by the copied floats. */
  function BlockSamples(b: Block): (r: seq<real>)
    ensures |r| == b.byteLength / 4
  {
    seq(b.byteLength / 4, i requires 0 <= i => if i < |b.floats| then b.floats[i] else 0.0)
  }

  /**
   * What the loop gathers from the reader output: the blocks' float arrays in
   * order, up to the end of the output or the first sample buffer without a
   * data buffer, whichever comes first.
   */
  function Collected(buffers: seq<SampleBuffer>): seq<real>
  {
    if |buffers| == 0 || buffers[0].dataBuffer.None? then []
    else BlockSamples(buffers[0].dataBuffer.value) + Collected(buffers[1..])
  }

  predicate AllHaveData(buffers: seq<SampleBuffer>)
  {
    forall i :: 0 <= i < |buffers| ==> buffers[i].dataBuffer.Some?
  }

  /** Over buffers that all carry data, collecting is in-order concatenation. */
  lemma {:induction false} CollectedConcat(a: seq<SampleBuffer>, b: seq<SampleBuffer>)
    requires AllHaveData(a)
    ensures Collected(a + b) == Collected(a) + Collected(b)
  {
    if |a| > 0 {
      assert (a + b)[0] == a[0];
      assert (a + b)[1..] == a[1..] + b;
      assert AllHaveData(a[1..]) by {
        forall i | 0 <= i < |a[1..]| ensures a[1..][i].dataBuffer.Some? { assert a[1..][i] == a[i + 1]; }
      }
      CollectedConcat(a[1..], b);
    } else {
      assert a + b == b;
    }
  }

  /** The first sample buffer without a data buffer ends the collection. */
  lemma CollectedStopsAtGap(a: seq<SampleBuffer>, b: seq<SampleBuffer>)
    requires AllHaveData(a)
    ensures Collected(a + [SampleBuffer(None)] + b) == Collected(a)
  {
    CollectedConcat(a, [SampleBuffer(None)] + b);
    assert a + [SampleBuffer(None)] + b == a + ([SampleBuffer(None)] + b);
  }

  /** Each block with data contributes exactly `byteLength / 4` samples. */
  lemma {:induction false} CollectedLength(buffers: seq<SampleBuffer>)
    requires AllHaveData(buffers)
    ensures |Collected(buffers)| == TotalFloats(buffers)
  {
    if |buffers| > 0 {
      CollectedLength(buffers[1..]);
    }
  }

  function TotalFloats(buffers: seq<SampleBuffer>): nat
    requires AllHaveData(buffers)
  {
    if |buffers| == 0 then 0 else buffers[0].dataBuffer.value.byteLength / 4 + TotalFloats(buffers[1..])
  }

  /** The `while let` loop that appends every buffer's floats to `samples`. */
  method CollectSamples(buffers: seq<SampleBuffer>) returns (samples: seq<real>)
    ensures samples == Collected(buffers)
  {
    samples := [];
    var i := 0;
    while i < |buffers| && buffers[i].dataBuffer.Some?
      invariant 0 <= i <= |buffers|
      invariant samples + Collected(buffers[i..]) == Collected(buffers)
    {
      assert buffers[i..][1..] == buffers[i + 1..];
      samples := samples + BlockSamples(buffers[i].dataBuffer.value);
      i := i + 1;
    }
  }

  // ---------------------------------------------------------------------
  // Downsampling and normalisation
  // ---------------------------------------------------------------------

  /**
   * The chunk `samples[i..<min(i + step, n)]` for each `i` of the stride;
   * `ChunkAt` shows that the clamped start below is the stride element itself.
   */
  function Chunks(samples: seq<real>, step: int): (cs: seq<seq<real>>)
    requires step >= 1
    ensures |cs| == Ceil(|samples|, step)
  {
    var n := |samples|;
    seq(Ceil(n, step), k requires 0 <= k => samples[Min(k * step, n)..Min(k * step + step, n)])
  }

  /** `chunk.max() ?? 0`: the signed maximum of a chunk. */
  function Peak(chunk: seq<real>): real
  {
    if |chunk| == 0 then 0.0 else SeqMax(chunk)
  }

  /** The `stride(...).map` of the downsampling step: one peak per chunk. */
  function Downsample(samples: seq<real>, step: int): (peaks: seq<real>)
    requires step >= 1
    ensures |peaks| == Ceil(|samples|, step)
  {
    var cs := Chunks(samples, step);
    seq(|cs|, k requires 0 <= k < |cs| => Peak(cs[k]))
  }

  /** `downsampled.map { abs($0) }.max() ?? 1`. */
  function MaxAbs(peaks: seq<real>): (m: real)
    ensures |peaks| == 0 ==> m == 1.0
    ensures |peaks| > 0 ==> 0.0 <= m
    ensures forall k :: 0 <= k < |peaks| ==> Abs(peaks[k]) <= m
    ensures |peaks| > 0 ==> exists k :: 0 <= k < |peaks| && Abs(peaks[k]) == m
  {
    if |peaks| == 0 then 1.0
    else
      var mags := seq(|peaks|, k requires 0 <= k < |peaks| => Abs(peaks[k]));
      assert forall k :: 0 <= k < |peaks| ==> mags[k] == Abs(peaks[k]);
      SeqMax(mags)
  }

  /** `downsampled.map { $0 / maxAbs }`. */
  function Normalized(peaks: seq<real>, maxAbs: real): seq<real>
    requires maxAbs != 0.0
  {
    seq(|peaks|, k requires 0 <= k < |peaks| => peaks[k] / maxAbs)
  }

  /** Concatenation of a sequence of chunks. */
  function Flatten(cs: seq<seq<real>>): seq<real>
  {
    if |cs| == 0 then [] else Flatten(cs[..|cs| - 1]) + cs[|cs| - 1]
  }

  /** Chunk `k` starts at `k * step` below `n`; all but the last end `step` later, the last ends at `n`. */
  lemma ChunkAt(samples: seq<real>, step: int, k: nat)
    requires step >= 1 && k < Ceil(|samples|, step)
    ensures k * step == Stride(|samples|, step)[k] < |samples|
    ensures Chunks(samples, step)[k] == samples[k * step..Min(k * step + step, |samples|)]
    ensures k + 1 < Ceil(|samples|, step) ==> k * step + step < |samples|
    ensures k + 1 == Ceil(|samples|, step) ==> k * step + step >= |samples|
  {
    var c := Ceil(|samples|, step);
    CeilBounds(|samples|, step);
    MulMonotone(k, c - 1, step);
    assert (k + 1) * step == k * step + step;
    if k + 1 < c {
      MulMonotone(k + 1, c - 1, step);
    }
  }

  /** The first `k` chunks laid end to end are the first `min(k * step, n)` samples. */
  lemma {:induction false} FlattenChunks(samples: seq<real>, step: int, k: nat)
    requires step >= 1 && k <= Ceil(|samples|, step)
    ensures Flatten(Chunks(samples, step)[..k]) == samples[..Min(k * step, |samples|)]
  {
    if k > 0 {
      var cs := Chunks(samples, step);
      var n := |samples|;
      var start := (k - 1) * step;
      assert k * step == start + step;
      FlattenChunks(samples, step, k - 1);
      ChunkAt(samples, step, k - 1);
      assert cs[..k][..k - 1] == cs[..k - 1];
      assert samples[..start] + samples[start..Min(start + step, n)] == samples[..Min(start + step, n)];
    }
  }

  /**
   * The chunks are non-empty; all but the last have exactly `step` samples;
   * chunk `k` is `samples[k * step..min(k * step + step, n)]`, so each starts
   * where the previous one ended; and laid end to end they are the samples
   * themselves, so they are disjoint and cover every index.
   */
  lemma ChunksPartition(samples: seq<real>, step: int)
    requires step >= 1
    ensures var cs := Chunks(samples, step);
      && (forall k :: 0 <= k < |cs| ==> |cs[k]| > 0)
      && (forall k :: 0 <= k < |cs| - 1 ==> |cs[k]| == step)
      && (forall k :: 0 <= k < |cs| ==>
            k * step < |samples| && cs[k] == samples[k * step..Min(k * step + step, |samples|)])
      && Flatten(cs) == samples
  {
    var cs := Chunks(samples, step);
    forall k | 0 <= k < |cs|
      ensures |cs[k]| > 0 && (k < |cs| - 1 ==> |cs[k]| == step)
      ensures k * step < |samples| && cs[k] == samples[k * step..Min(k * step + step, |samples|)]
    {
      ChunkAt(samples, step, k);
    }
    ChunksCover(samples, step);
  }

  lemma ChunksCover(samples: seq<real>, step: int)
    requires step >= 1
    ensures Flatten(Chunks(samples, step)) == samples
  {
    var cs := Chunks(samples, step);
    FlattenChunks(samples, step, |cs|);
    CeilBounds(|samples|, step);
    assert cs[..|cs|] == cs;
  }

  /** Index `i` falls in chunk `i / step`. */
  lemma ChunkOf(n: nat, step: int, i: nat)
    requires step >= 1 && i < n
    ensures i / step < Ceil(n, step)
    ensures (i / step) * step <= i < (i / step) * step + step
  {
    var q := i / step;
    assert i == q * step + i % step;
    CeilBounds(n, step);
    if q >= Ceil(n, step) {
      MulMonotone(Ceil(n, step), q, step);
    }
  }

  /** Each peak is at least every sample of its chunk and equals one of them. */
  lemma PeaksAreChunkMaxima(samples: seq<real>, step: int, k: nat)
    requires step >= 1 && k < Ceil(|samples|, step)
    ensures var chunk := Chunks(samples, step)[k];
      && (forall i :: 0 <= i < |chunk| ==> chunk[i] <= Downsample(samples, step)[k])
      && (exists i :: 0 <= i < |chunk| && chunk[i] == Downsample(samples, step)[k])
  {
    ChunkAt(samples, step, k);
    assert Downsample(samples, step)[k] == SeqMax(Chunks(samples, step)[k]);
  }

  /** A positive sample makes its chunk's peak positive, so the largest magnitude is not zero. */
  lemma PositiveSampleGivesPositivePeak(samples: seq<real>, step: int, i: nat)
    requires step >= 1 && i < |samples| && samples[i] > 0.0
    ensures MaxAbs(Downsample(samples, step)) > 0.0
  {
    ChunkOf(|samples|, step, i);
    var k := i / step;
    ChunkAt(samples, step, k);
    PeaksAreChunkMaxima(samples, step, k);
    var chunk := Chunks(samples, step)[k];
    assert chunk[i - k * step] == samples[i];
    var peaks := Downsample(samples, step);
    assert peaks[k] > 0.0;
    assert Abs(peaks[k]) <= MaxAbs(peaks);
  }

  /**
   * Normalising by the largest magnitude keeps the length, puts every value
   * in [-1, 1], and gives at least one value of magnitude exactly 1.
   */
  lemma NormalizedBounds(peaks: seq<real>)
    requires MaxAbs(peaks) > 0.0
    ensures var r := Normalized(peaks, MaxAbs(peaks));
      && |r| == |peaks|
      && (forall k :: 0 <= k < |r| ==> -1.0 <= r[k] <= 1.0)
      && (|peaks| > 0 ==> exists k :: 0 <= k < |r| && Abs(r[k]) == 1.0)
  {
    var r := Normalized(peaks, MaxAbs(peaks));
    forall k | 0 <= k < |r|
      ensures -1.0 <= r[k] <= 1.0
    {
      NormalizedAt(peaks, k);
    }
    if |peaks| > 0 {
      var k :| 0 <= k < |peaks| && Abs(peaks[k]) == MaxAbs(peaks);
      NormalizedAt(peaks, k);
    }
  }

  /**
   * Each normalised value times the largest magnitude gives back its peak,
   * so normalising only rescales: it lies in [-1, 1], and is 1 or -1 for a
   * peak of largest magnitude.
   */
  lemma NormalizedAt(peaks: seq<real>, k: nat)
    requires MaxAbs(peaks) > 0.0 && k < |peaks|
    ensures var m := MaxAbs(peaks); var v := Normalized(peaks, m)[k];
      && v * m == peaks[k] && -1.0 <= v <= 1.0
      && (Abs(peaks[k]) == m ==> Abs(v) == 1.0)
  {
    DivBounded(peaks[k], MaxAbs(peaks));
  }

  lemma DivBounded(x: real, m: real)
    requires 0.0 < m && Abs(x) <= m
    ensures (x / m) * m == x
    ensures -1.0 <= x / m <= 1.0
    ensures Abs(x) == m ==> Abs(x / m) == 1.0
  {
  }

  /** When every peak is zero the largest magnitude is zero; the code then divides 0 by 0. */
  lemma ZeroMaxAbsMeansSilence(peaks: seq<real>)
    requires |peaks| > 0
    ensures MaxAbs(peaks) == 0.0 <==> forall k :: 0 <= k < |peaks| ==> peaks[k] == 0.0
  {
    if forall k :: 0 <= k < |peaks| ==> peaks[k] == 0.0 {
      var k :| 0 <= k < |peaks| && Abs(peaks[k]) == MaxAbs(peaks);
    }
  }

  /** With `step = n / sampleCount` there are at least `sampleCount` peaks, exactly that many when it divides `n`. */
  lemma PeakCount(n: nat, sampleCount: int)
    requires 0 < sampleCount <= n
    ensures n / sampleCount >= 1
    ensures Ceil(n, n / sampleCount) >= sampleCount
    ensures n % sampleCount == 0 ==> Ceil(n, n / sampleCount) == sampleCount
  {
    var step := n / sampleCount;
    assert n == step * sampleCount + n % sampleCount;
    CeilBounds(n, step);
    var c := Ceil(n, step);
    assert (sampleCount - 1) * step == sampleCount * step - step;
    if c < sampleCount {
      MulMonotone(c, sampleCount - 1, step);
    }
    if n % sampleCount == 0 {
      assert n + step - 1 == sampleCount * step + (step - 1);
      DivIsUnique(n + step - 1, step, sampleCount);
    }
  }

  /** 999 samples reduced towards 500 give a stride of 1 and 999 peaks, not 500. */
  lemma PeakCountOverrun()
    ensures 999 / 500 == 1 && Ceil(999, 999 / 500) == 999
  {
  }

  /** The peak is the signed maximum: a chunk [-2, 1] gives 1, not the louder -2. */
  lemma PeakIsSigned()
    ensures Downsample([-2.0, 1.0], 2) == [1.0]
  {
    assert Ceil(2, 2) == 1;
    ChunkAt([-2.0, 1.0], 2, 0);
    assert [-2.0, 1.0][0..2] == [-2.0, 1.0];
    assert Chunks([-2.0, 1.0], 2) == [[-2.0, 1.0]];
    assert SeqMax([-2.0, 1.0]) == 1.0;
  }

  // ---------------------------------------------------------------------
  // The whole extraction
  // ---------------------------------------------------------------------

  type Track = nat

  /**
   * An asset as the extraction sees it: its audio tracks (`None` when
   * `loadTracks` throws), whether `AVAssetReader(asset:)` succeeds, and the
   * sample buffers the reader output yields for a track.
   */
  datatype Asset = Asset(audioTracks: Option<seq<Track>>, readerCreates: bool, output: Track -> seq<SampleBuffer>)

  /**
   * How the extraction task ends: `completion` called with an optional float
   * array, `completion` called with `count` NaN values (0 / 0), or a runtime
   * trap before `completion` is reached.
   */
  datatype Completion = Completed(samples: Option<seq<real>>) | CompletedWithNaN(count: nat) | Trapped

  function FirstTrack(asset: Asset): Option<Track>
  {
    if asset.audioTracks.Some? && |asset.audioTracks.value| > 0 then Some(asset.audioTracks.value[0]) else None
  }

  /** The samples the loop collects from the first audio track. */
  function AssetSamples(asset: Asset): seq<real>
  {
    match FirstTrack(asset)
    case None => []
    case Some(t) => Collected(asset.output(t))
  }

  /** The extraction, written as one expression: the reference the method is proved against. */
  function Extraction(asset: Asset, sampleCount: int): Completion
  {
    if FirstTrack(asset).None? || !asset.readerCreates then Completed(None)
    else
      var samples := AssetSamples(asset);
      if |samples| == 0 then Completed(None)
      else if sampleCount == 0 then Trapped
      else
        var step := SwiftDiv(|samples|, sampleCount);
        if step == 0 then Trapped
        else if step < 0 then Completed(Some([]))
        else
          var peaks := Downsample(samples, step);
          var maxAbs := MaxAbs(peaks);
          if maxAbs == 0.0 then CompletedWithNaN(|peaks|)
          else Completed(Some(Normalized(peaks, maxAbs)))
  }

  /** `AVAsset.waveformSamples(sampleCount:completion:)`; the completion value is the result. */
  method WaveformSamples(asset: Asset, sampleCount: int) returns (c: Completion)
    ensures c == Extraction(asset, sampleCount)
  {
    var track := FirstTrack(asset);
    if track.None? {
      return Completed(None);
    }
    if !asset.readerCreates {
      return Completed(None);
    }
    var samples := CollectSamples(asset.output(track.value));
    if |samples| == 0 {
      return Completed(None);
    }
    if sampleCount == 0 {
      return Trapped;
    }
    var step := SwiftDiv(|samples|, sampleCount);
    if step == 0 {
      return Trapped;
    }
    if step < 0 {
      return Completed(Some([]));
    }
    var downsampled := Downsample(samples, step);
    var maxAbs := MaxAbs(downsampled);
    if maxAbs == 0.0 {
      return CompletedWithNaN(|downsampled|);
    }
    c := Completed(Some(Normalized(downsampled, maxAbs)));
  }

  /** `completion(nil)` exactly when there is no audio track, no reader, or nothing was collected. */
  lemma ExtractionNilPaths(asset: Asset, sampleCount: int)
    ensures Extraction(asset, sampleCount) == Completed(None)
        <==> FirstTrack(asset).None? || !asset.readerCreates || AssetSamples(asset) == []
  {
  }

  function IntAbs(x: int): nat { if x < 0 then -x else x }

  /** A truncated quotient of a positive count is zero exactly when the divisor is larger in magnitude. */
  lemma SwiftDivZero(a: nat, b: int)
    requires b != 0 && a > 0
    ensures SwiftDiv(a, b) == 0 <==> a < IntAbs(b)
  {
    var q := SwiftDiv(a, b);
    if b > 0 && q >= 1 {
      MulMonotone(1, q, b);
    }
    if b < 0 && q <= -1 {
      assert q * b == (-q) * (-b);
      MulMonotone(1, -q, -b);
    }
  }

  /** The task traps (zero divisor or zero stride) exactly when there are samples but fewer than `|sampleCount|`. */
  lemma ExtractionTraps(asset: Asset, sampleCount: int)
    ensures Extraction(asset, sampleCount) == Trapped
        <==> FirstTrack(asset).Some? && asset.readerCreates
             && 0 < |AssetSamples(asset)| && (sampleCount == 0 || |AssetSamples(asset)| < IntAbs(sampleCount))
  {
    var n := |AssetSamples(asset)|;
    if n > 0 && sampleCount != 0 {
      SwiftDivZero(n, sampleCount);
    }
  }

  /**
   * For `0 < sampleCount <= n` with some peak of non-zero magnitude, the completion gets
   * `ceil(n / step)` values, `step = n / sampleCount`, at least `sampleCount`
   * of them and exactly that many when `sampleCount` divides `n`; each lies in
   * [-1, 1] and one has magnitude 1.
   */
  lemma ExtractionPeaks(asset: Asset, sampleCount: int)
    requires FirstTrack(asset).Some? && asset.readerCreates
    requires 0 < sampleCount <= |AssetSamples(asset)|
    requires MaxAbs(Downsample(AssetSamples(asset), |AssetSamples(asset)| / sampleCount)) > 0.0
    ensures var n := |AssetSamples(asset)|;
      && Extraction(asset, sampleCount).Completed?
      && Extraction(asset, sampleCount).samples.Some?
      && var v := Extraction(asset, sampleCount).samples.value;
      && |v| == Ceil(n, n / sampleCount)
      && |v| >= sampleCount
      && (n % sampleCount == 0 ==> |v| == sampleCount)
      && (forall k :: 0 <= k < |v| ==> -1.0 <= v[k] <= 1.0)
      && (exists k :: 0 <= k < |v| && Abs(v[k]) == 1.0)
  {
    var samples := AssetSamples(asset);
    var n := |samples|;
    PeakCount(n, sampleCount);
    var step := n / sampleCount;
    assert SwiftDiv(n, sampleCount) == step;
    NormalizedBounds(Downsample(samples, step));
  }

  /** A positive sample is enough for a peak of non-zero magnitude, so such an asset normalises. */
  lemma ExtractionPositiveSample(asset: Asset, sampleCount: int, i: nat)
    requires FirstTrack(asset).Some? && asset.readerCreates
    requires 0 < sampleCount <= |AssetSamples(asset)|
    requires i < |AssetSamples(asset)| && AssetSamples(asset)[i] > 0.0
    ensures Extraction(asset, sampleCount).Completed? && Extraction(asset, sampleCount).samples.Some?
  {
    var n := |AssetSamples(asset)|;
    PeakCount(n, sampleCount);
    PositiveSampleGivesPositivePeak(AssetSamples(asset), n / sampleCount, i);
    ExtractionPeaks(asset, sampleCount);
  }

  /** Every other input that gets this far has only zero peaks, and the completion gets NaNs, one per peak. */
  lemma ExtractionZeroPeaks(asset: Asset, sampleCount: int)
    requires FirstTrack(asset).Some? && asset.readerCreates
    requires 0 < sampleCount <= |AssetSamples(asset)|
    requires MaxAbs(Downsample(AssetSamples(asset), |AssetSamples(asset)| / sampleCount)) == 0.0
    ensures var n := |AssetSamples(asset)|;
      Extraction(asset, sampleCount) == CompletedWithNaN(Ceil(n, n / sampleCount))
  {
    var n := |AssetSamples(asset)|;
    PeakCount(n, sampleCount);
    assert SwiftDiv(n, sampleCount) == n / sampleCount;
  }

  /** A silent asset reaches the unguarded division: every peak is 0 and the completion gets NaNs. */
  lemma ExtractionSilent(asset: Asset, sampleCount: int)
    requires FirstTrack(asset).Some? && asset.readerCreates
    requires 0 < sampleCount <= |AssetSamples(asset)|
    requires forall i :: 0 <= i < |AssetSamples(asset)| ==> AssetSamples(asset)[i] == 0.0
    ensures var n := |AssetSamples(asset)|;
      Extraction(asset, sampleCount) == CompletedWithNaN(Ceil(n, n / sampleCount))
  {
    var samples := AssetSamples(asset);
    var n := |samples|;
    PeakCount(n, sampleCount);
    var step := n / sampleCount;
    assert SwiftDiv(n, sampleCount) == step;
    var peaks := Downsample(samples, step);
    forall k | 0 <= k < |peaks|
      ensures peaks[k] == 0.0
    {
      ChunkAt(samples, step, k);
      PeaksAreChunkMaxima(samples, step, k);
      var chunk := Chunks(samples, step)[k];
      assert forall t :: 0 <= t < |chunk| ==> chunk[t] == samples[k * step + t];
    }
    ZeroMaxAbsMeansSilence(peaks);
  }

  /** The division is unguarded for loud input too: the chunk [-1, 0] has peak 0, so the completion gets a NaN. */
  lemma NaNWithoutSilence()
    ensures Extraction(Asset(Some([0]), true, t => [SampleBuffer(Some(Block(8, [-1.0, 0.0])))]), 1)
         == CompletedWithNaN(1)
  {
    var asset := Asset(Some([0]), true, t => [SampleBuffer(Some(Block(8, [-1.0, 0.0])))]);
    assert BlockSamples(Block(8, [-1.0, 0.0])) == [-1.0, 0.0];
    assert AssetSamples(asset) == [-1.0, 0.0];
    assert Stride(2, 2) == [0];
    assert Chunks([-1.0, 0.0], 2) == [[-1.0, 0.0]];
    assert Downsample([-1.0, 0.0], 2) == [0.0];
    assert MaxAbs([0.0]) == 0.0;
  }

  // ---------------------------------------------------------------------
  // WaveformView.body: which samples become points of the path
  // ---------------------------------------------------------------------

  /** `max(1, count / Int(width))`; a zero `Int(width)` traps. */
  function DisplayStep(count: nat, widthInt: int): (step: int)
    requires widthInt != 0
    ensures step >= 1
  {
    Max(1, SwiftDiv(count, widthInt))
  }

  /** The sample indices `stride(from: 0, to: count, by: step)` that are mapped to points. */
  function DisplayIndices(count: nat, widthInt: int): seq<nat>
    requires widthInt != 0
  {
    Stride(count, DisplayStep(count, widthInt))
  }

  /** `guard points.count > 1`: a path is drawn only through two or more points. */
  predicate DrawsPath(pointCount: nat)
  {
    pointCount > 1
  }

  /**
   * The drawn indices start at 0, strictly increase and stay below `count`
   * (so `samples[i]` is in bounds), and a path is drawn exactly when there
   * are more samples than one stride.
   */
  lemma DisplayIndicesSpec(count: nat, widthInt: int)
    requires widthInt != 0
    ensures var idx := DisplayIndices(count, widthInt);
      && (count > 0 <==> |idx| > 0)
      && (count > 0 ==> idx[0] == 0)
      && (forall k :: 0 <= k < |idx| ==> idx[k] < count)
      && (forall j, k :: 0 <= j < k < |idx| ==> idx[j] < idx[k])
      && (DrawsPath(|idx|) <==> count > DisplayStep(count, widthInt))
  {
    var step := DisplayStep(count, widthInt);
    StrideSpec(count, step);
    CeilBounds(count, step);
    var c := Ceil(count, step);
    if c <= 1 {
      MulMonotone(c, 1, step);
    } else {
      MulMonotone(1, c - 1, step);
    }
  }

  /** A view at least as wide as the sample count draws every sample. */
  lemma DisplayAllWhenWide(count: nat, widthInt: int)
    requires 0 < widthInt && count <= widthInt
    ensures DisplayIndices(count, widthInt) == seq(count, i requires 0 <= i => i)
  {
    assert DisplayStep(count, widthInt) == 1;
    assert Ceil(count, 1) == count;
  }
}
