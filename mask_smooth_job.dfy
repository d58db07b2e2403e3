/** The job that smooths the seam of the island rim: a slice of the extents
    is replaced by a smoothstep blend from the slice's first value toward
    the first extent of the rim. */
module MaskSmoothJob {
  import opened Numerics

  /** The value written at position i of the slice. */
  function SmoothValue(startSample: real, endSample: real, smoothSamples: int, i: int): real
    requires smoothSamples > 0
  {
    Lerp(startSample, endSample, Smoothstep(0.0, 1.0, i as real / smoothSamples as real))
  }

  /** Position 0 keeps the start sample. */
  lemma SmoothStartsAtStart(startSample: real, endSample: real, smoothSamples: int)
    requires smoothSamples > 0
    ensures SmoothValue(startSample, endSample, smoothSamples, 0) == startSample
  {
    assert 0 as real / smoothSamples as real == 0.0;
  }

  /** Every value lies between the two samples. */
  lemma SmoothBetween(startSample: real, endSample: real, smoothSamples: int, i: int)
    requires smoothSamples > 0
    ensures Min(startSample, endSample) <= SmoothValue(startSample, endSample, smoothSamples, i) <= Max(startSample, endSample)
  {
    LerpBetween(startSample, endSample, Smoothstep(0.0, 1.0, i as real / smoothSamples as real));
  }

  /** The values move monotonically from the start sample toward the end sample. */
  lemma SmoothMonotone(startSample: real, endSample: real, smoothSamples: int, i: int, j: int)
    requires smoothSamples > 0 && i <= j
    ensures startSample <= endSample ==>
              SmoothValue(startSample, endSample, smoothSamples, i) <= SmoothValue(startSample, endSample, smoothSamples, j)
    ensures startSample >= endSample ==>
              SmoothValue(startSample, endSample, smoothSamples, i) >= SmoothValue(startSample, endSample, smoothSamples, j)
  {
    var p := i as real / smoothSamples as real;
    var q := j as real / smoothSamples as real;
    DivMonotone(i as real, j as real, smoothSamples as real);
    SmoothstepMonotone(p, q);
    LerpMonotone(startSample, endSample, Smoothstep(0.0, 1.0, p), Smoothstep(0.0, 1.0, q));
  }

  lemma DivMonotone(x: real, y: real, d: real)
    requires x <= y && d > 0.0
    ensures x / d <= y / d
  {
    var p, q := x / d, y / d;
    assert p * d == x && q * d == y;
    if p > q {
      MulLt(d, q, p);
      assert false;
    }
  }

  /** Inside the slice the weight stays below 1, so when the samples differ
      the end sample itself is never written. */
  lemma SmoothShortOfEnd(startSample: real, endSample: real, smoothSamples: int, i: int)
    requires smoothSamples > 0 && 0 <= i < smoothSamples && startSample != endSample
    ensures SmoothValue(startSample, endSample, smoothSamples, i) != endSample
  {
    var p := i as real / smoothSamples as real;
    assert p * smoothSamples as real == i as real;
    if p >= 1.0 {
      MulLe(smoothSamples as real, 1.0, p);
      assert false;
    }
    if p < 0.0 {
      MulLt(smoothSamples as real, p, 0.0);
      assert false;
    }
    assert (p - 0.0) / (1.0 - 0.0) == p;
    LerpReachesEnd(startSample, endSample, Smoothstep(0.0, 1.0, p));
  }

  class SmoothJob {
    const startSample: real
    const endSample: real
    /** The extents array, and the slice [sliceStart, sliceStart + sliceLength) of it that the job writes. */
    const target: array<real>
    const sliceStart: int
    const sliceLength: int
    const smoothSamples: int

    constructor(startSample: real, endSample: real, target: array<real>, sliceStart: int, sliceLength: int,
                smoothSamples: int)
      ensures this.startSample == startSample && this.endSample == endSample && this.target == target
      ensures this.sliceStart == sliceStart && this.sliceLength == sliceLength && this.smoothSamples == smoothSamples
    {
      this.startSample := startSample;
      this.endSample := endSample;
      this.target := target;
      this.sliceStart := sliceStart;
      this.sliceLength := sliceLength;
      this.smoothSamples := smoothSamples;
    }

    /** Writes slice position i, and nothing else. */
    method Execute(i: int)
      requires 0 <= sliceStart && sliceStart + sliceLength <= target.Length && 0 <= i < sliceLength
      requires smoothSamples > 0
      modifies target
      ensures target[sliceStart + i] == SmoothValue(startSample, endSample, smoothSamples, i)
      ensures forall k | 0 <= k < target.Length && k != sliceStart + i :: target[k] == old(target[k])
    {
      var position := i as real / smoothSamples as real;
      target[sliceStart + i] := Lerp(startSample, endSample, Smoothstep(0.0, 1.0, position));
    }
  }
}
