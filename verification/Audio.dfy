/** The silence check of a finished recording: the chunked sum of squares and the threshold. */
module Audio {
  import opened Common

  function SumOfSquares(samples: seq<int>): int {
    if samples == [] then 0
    else SumOfSquares(samples[..|samples| - 1]) + samples[|samples| - 1] * samples[|samples| - 1]
  }

  /** One more sample adds its square. */
  lemma OneMoreSquare(samples: seq<int>, x: int)
    ensures SumOfSquares([]) == 0 && SumOfSquares(samples + [x]) == SumOfSquares(samples) + x * x
  {
    assert (samples + [x])[..|samples|] == samples;
  }

  lemma {:induction false} SquaresAddUp(a: seq<int>, b: seq<int>)
    ensures SumOfSquares(a + b) == SumOfSquares(a) + SumOfSquares(b)
  {
    if b == [] {
      assert a + b == a;
    } else {
      assert (a + b)[..|a + b| - 1] == a + b[..|b| - 1];
      SquaresAddUp(a, b[..|b| - 1]);
    }
  }

  lemma {:induction false} SquaresAreNotNegative(a: seq<int>)
    ensures SumOfSquares(a) >= 0
  {
    if a != [] {
      SquaresAreNotNegative(a[..|a| - 1]);
      assert a[|a| - 1] * a[|a| - 1] >= 0;
    }
  }

  /** Reads the file chunk by chunk; the totals do not depend on the chunk size. */
  method Accumulate(file: seq<int>, chunk: nat) returns (squaredTotal: int, sampleTotal: nat)
    requires chunk > 0
    ensures squaredTotal == SumOfSquares(file) && sampleTotal == |file|
  {
    squaredTotal, sampleTotal := 0, 0;
    while sampleTotal < |file|
      invariant sampleTotal <= |file|
      invariant squaredTotal == SumOfSquares(file[..sampleTotal])
    {
      var end := Min(sampleTotal + chunk, |file|);
      var samples := file[sampleTotal..end];
      var squares := 0;
      for i := 0 to |samples|
        invariant squares == SumOfSquares(samples[..i])
      {
        assert samples[..i + 1][..i] == samples[..i];
        squares := squares + samples[i] * samples[i];
      }
      assert samples[..|samples|] == samples;
      SquaresAddUp(file[..sampleTotal], samples);
      assert file[..end] == file[..sampleTotal] + samples;
      squaredTotal, sampleTotal := squaredTotal + squares, end;
    }
    assert file[..|file|] == file;
  }

  /** Comparing the root of the mean square with a floor is comparing the total with floor^2 * n:
      `rms` is any non-negative number whose square times n is the total. */
  lemma ThresholdWithoutRoot(file: seq<int>, rms: real, floor: real)
    requires file != [] && rms >= 0.0 && rms * rms * (|file| as real) == SumOfSquares(file) as real
    ensures rms < floor <==> floor > 0.0 && (SumOfSquares(file) as real) < floor * floor * (|file| as real)
  {
    var n := |file| as real;
    if rms < floor {
      SquareGrows(rms, floor);
      Scale(rms * rms, floor * floor, n);
    } else if floor > 0.0 {
      SquareKeepsOrder(floor, rms);
      ScaleWeak(floor * floor, rms * rms, n);
    }
  }

  lemma SquareGrows(x: real, y: real)
    requires 0.0 <= x < y
    ensures x * x < y * y
  {
    Scale(0.0, y - x, y + x);
    assert y * y - x * x == (y - x) * (y + x);
  }

  lemma SquareKeepsOrder(x: real, y: real)
    requires 0.0 <= x <= y
    ensures x * x <= y * y
  {
    assert y * y - x * x == (y - x) * (y + x);
  }

  lemma Scale(x: real, y: real, n: real)
    requires x < y && n > 0.0
    ensures x * n < y * n
  {
  }

  lemma ScaleWeak(x: real, y: real, n: real)
    requires x <= y && n > 0.0
    ensures x * n <= y * n
  {
  }

  /** What the check of the finished WAV says. */
  datatype WavVerdict = Audible | Silent | Missing | Unreadable

  /** Classifies a finished recording; `samples` is None when the file cannot be read as one. A file
      without samples has level zero. */
  method CheckRecording(samples: Option<seq<int>>, present: bool, floor: real, chunk: nat) returns (v: WavVerdict)
    requires chunk > 0
    ensures v.Missing? <==> samples.None? && !present
    ensures v.Unreadable? <==> samples.None? && present
    ensures samples.Some? ==>
      (v.Silent? <==>
         if samples.value == [] then 0.0 < floor
         else floor > 0.0 && (SumOfSquares(samples.value) as real) < floor * floor * (|samples.value| as real))
  {
    if samples.None? {
      return if present then Unreadable else Missing;
    }
    var total, n := Accumulate(samples.value, chunk);
    if n == 0 {
      return if 0.0 < floor then Silent else Audible;
    }
    v := if floor > 0.0 && (total as real) < floor * floor * (n as real) then Silent else Audible;
  }
}
