/** `averageAudioChunks` of wwwroot/js/app.js: collapses the buffered capture
    blocks into one frame. Samples are exact reals standing in for Float32. */
module ChunkAverager {

  /** `chunks.reduce((acc, chunk) => acc + chunk.length, 0)`. */
  function TotalSamples(chunks: seq<seq<real>>): nat
  {
    if chunks == [] then 0
    else TotalSamples(chunks[..|chunks| - 1]) + |chunks[|chunks| - 1]|
  }

  /** Length of the averaged frame, `Math.floor(totalSamples / chunks.length)`.
      With no chunks that quotient is NaN, and a Float32Array of length NaN is empty. */
  function FrameLength(chunks: seq<seq<real>>): nat
  {
    if |chunks| == 0 then 0 else TotalSamples(chunks) / |chunks|
  }

  /** Sum of `chunk[i]` over the chunks long enough to have index `i`. */
  function ColumnSum(chunks: seq<seq<real>>, i: nat): real
  {
    if chunks == [] then 0.0
    else
      var last := chunks[|chunks| - 1];
      ColumnSum(chunks[..|chunks| - 1], i) + (if i < |last| then last[i] else 0.0)
  }

  /** The averaged frame: each column sum divided by the number of chunks,
      also where fewer chunks reach that index. */
  function Averaged(chunks: seq<seq<real>>): (r: seq<real>)
  {
    seq(FrameLength(chunks), i requires 0 <= i < FrameLength(chunks) => ColumnSum(chunks, i) / |chunks| as real)
  }

  /** `averageAudioChunks`: fills a Float32Array index by index with a running sum. */
  method AverageAudioChunks(chunks: seq<seq<real>>) returns (averaged: seq<real>)
    ensures |chunks| > 0 ==> |averaged| == TotalSamples(chunks) / |chunks|
    ensures |chunks| == 0 ==> averaged == []
    ensures forall i :: 0 <= i < |averaged| ==> averaged[i] == ColumnSum(chunks, i) / |chunks| as real
    ensures averaged == Averaged(chunks)
  {
    var totalSamples := TotalSamples(chunks);
    var length := if |chunks| == 0 then 0 else totalSamples / |chunks|;
    var averagedData := new real[length];
    for i := 0 to length
      invariant forall m :: 0 <= m < i ==> averagedData[m] == ColumnSum(chunks, m) / |chunks| as real
    {
      var sum := 0.0;
      for c := 0 to |chunks|
        invariant sum == ColumnSum(chunks[..c], i)
      {
        var chunk := chunks[c];
        if i < |chunk| {
          sum := sum + chunk[i];
        }
        assert chunks[..c + 1][..c] == chunks[..c];
      }
      assert chunks[..|chunks|] == chunks;
      averagedData[i] := sum / |chunks| as real;
    }
    averaged := averagedData[..];
  }

  /** A single chunk comes back unchanged. */
  lemma AveragedSingleChunk(chunk: seq<real>)
    ensures Averaged([chunk]) == chunk
  {
    assert [chunk][..0] == [];
    assert TotalSamples([chunk]) == |chunk|;
    var r := Averaged([chunk]);
    assert |r| == |chunk|;
    forall i | 0 <= i < |chunk|
      ensures r[i] == chunk[i]
    {
      assert ColumnSum([chunk], i) == chunk[i];
    }
  }

  /** `[[1,1,1],[1,1]]` holds 5 samples in 2 chunks, so the frame has
      `floor(5 / 2) = 2` samples and index 2 is never computed. */
  lemma AveragedTwoUnevenChunks()
    ensures Averaged([[1.0, 1.0, 1.0], [1.0, 1.0]]) == [1.0, 1.0]
  {
    var chunks: seq<seq<real>> := [[1.0, 1.0, 1.0], [1.0, 1.0]];
    assert chunks[..1] == [[1.0, 1.0, 1.0]] && chunks[..1][..0] == [];
    assert TotalSamples(chunks) == 5;
    assert ColumnSum(chunks, 0) == 2.0;
    assert ColumnSum(chunks, 1) == 2.0;
    var r := Averaged(chunks);
    assert |r| == 2;
    assert r[0] == 1.0 && r[1] == 1.0;
  }

  /** The attenuation of a short chunk: `[[1,1,1,1],[1,1]]` averages to
      `[1,1,0.5]`, index 2 divided by both chunks although only one reaches it. */
  lemma AveragedShortChunkAttenuates()
    ensures Averaged([[1.0, 1.0, 1.0, 1.0], [1.0, 1.0]]) == [1.0, 1.0, 0.5]
  {
    var chunks: seq<seq<real>> := [[1.0, 1.0, 1.0, 1.0], [1.0, 1.0]];
    assert chunks[..1] == [[1.0, 1.0, 1.0, 1.0]] && chunks[..1][..0] == [];
    assert TotalSamples(chunks) == 6;
    assert ColumnSum(chunks, 0) == 2.0;
    assert ColumnSum(chunks, 1) == 2.0;
    assert ColumnSum(chunks, 2) == 1.0;
    var r := Averaged(chunks);
    assert |r| == 3;
    assert r[0] == 1.0 && r[1] == 1.0 && r[2] == 0.5;
  }

  /** `n * bound`, written as a repeated sum so the induction stays linear. */
  function Repeated(n: nat, bound: real): real
  {
    if n == 0 then 0.0 else Repeated(n - 1, bound) + bound
  }

  lemma {:induction false} RepeatedIsProduct(n: nat, bound: real)
    ensures Repeated(n, bound) == (n as real) * bound
  {
    if n > 0 {
      RepeatedIsProduct(n - 1, bound);
      assert (n as real) * bound == ((n - 1) as real) * bound + bound;
    }
  }

  /** A column sum over `n` chunks whose samples all lie in [-bound, bound]
      lies in [-n * bound, n * bound]. */
  lemma {:induction false} ColumnSumBounded(chunks: seq<seq<real>>, i: nat, bound: real)
    requires SamplesWithin(chunks, bound) && bound >= 0.0
    ensures -Repeated(|chunks|, bound) <= ColumnSum(chunks, i) <= Repeated(|chunks|, bound)
  {
    if chunks != [] {
      var last := chunks[|chunks| - 1];
      SamplesWithinInit(chunks, bound);
      ColumnSumBounded(chunks[..|chunks| - 1], i, bound);
      assert i < |last| ==> -bound <= last[i] <= bound;
    }
  }

  lemma SamplesWithinInit(chunks: seq<seq<real>>, bound: real)
    requires chunks != [] && SamplesWithin(chunks, bound)
    ensures SamplesWithin(chunks[..|chunks| - 1], bound)
  {
    var init := chunks[..|chunks| - 1];
    forall c, k | 0 <= c < |init| && 0 <= k < |init[c]|
      ensures -bound <= init[c][k] <= bound
    {
      assert init[c] == chunks[c];
    }
  }

  /** Every sample of every chunk lies in [-bound, bound]. */
  predicate SamplesWithin(chunks: seq<seq<real>>, bound: real)
  {
    forall c, k :: 0 <= c < |chunks| && 0 <= k < |chunks[c]| ==> -bound <= chunks[c][k] <= bound
  }

  /** Averaging never leaves the range of the input samples: blocks in
      [-bound, bound] give a frame in [-bound, bound]. */
  lemma AveragedBounded(chunks: seq<seq<real>>, bound: real)
    requires SamplesWithin(chunks, bound) && bound >= 0.0
    ensures forall i :: 0 <= i < |Averaged(chunks)| ==> -bound <= Averaged(chunks)[i] <= bound
  {
    forall i | 0 <= i < |Averaged(chunks)|
      ensures -bound <= Averaged(chunks)[i] <= bound
    {
      ColumnSumBounded(chunks, i, bound);
      RepeatedIsProduct(|chunks|, bound);
      var n := |chunks| as real;
      var s := ColumnSum(chunks, i);
      assert Averaged(chunks)[i] == s / n;
      assert -n * bound <= s <= n * bound;
      DivideBounds(s, n, bound);
    }
  }

  lemma DivideBounds(s: real, n: real, bound: real)
    requires n > 0.0 && -n * bound <= s <= n * bound
    ensures -bound <= s / n <= bound
  {
    assert s / n * n == s;
  }

  /** When every chunk has the same length, the frame has that length and is
      the sample-by-sample mean. */
  lemma {:induction false} AveragedEqualLengths(chunks: seq<seq<real>>, len: nat)
    requires |chunks| > 0
    requires forall c :: 0 <= c < |chunks| ==> |chunks[c]| == len
    ensures |Averaged(chunks)| == len
    ensures forall i :: 0 <= i < len ==> Averaged(chunks)[i] == ColumnSum(chunks, i) / |chunks| as real
  {
    TotalOfEqualLengths(chunks, len);
    MulDivCancel(|chunks|, len);
  }

  lemma {:induction false} MulAtLeast(n: nat, k: int)
    requires k >= 1
    ensures n * k >= n
  {
    if k > 1 {
      MulAtLeast(n, k - 1);
      assert n * k == n * (k - 1) + n;
    }
  }

  lemma MulDivCancel(n: nat, m: nat)
    requires n > 0
    ensures (n * m) / n == m
  {
    var q := (n * m) / n;
    var r := (n * m) % n;
    assert n * q + r == n * m;
    assert n * (m - q) == n * m - n * q;
    if m - q >= 1 {
      MulAtLeast(n, m - q);
    } else if q - m >= 1 {
      MulAtLeast(n, q - m);
    }
  }

  lemma {:induction false} TotalOfEqualLengths(chunks: seq<seq<real>>, len: nat)
    requires forall c :: 0 <= c < |chunks| ==> |chunks[c]| == len
    ensures TotalSamples(chunks) == |chunks| * len
  {
    if chunks != [] {
      TotalOfEqualLengths(chunks[..|chunks| - 1], len);
    }
  }
}
