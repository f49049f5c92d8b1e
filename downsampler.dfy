/** The downsampler service of the timeline view: `init` records the session
    context, `process` validates its arguments and downsamples one trace at
    every requested resolution. */
module Downsampler {
  import opened Wrappers
  import opened Peaks

  /** 100% resolution keeps every sample. */
  const RESOLUTION_FULL: int := 100

  /** What is stored for one normalised resolution. */
  datatype ResolutionData =
    | Reduced(indexes: seq<int>)           // resolution below 100 that divides 100
    | Full(x: seq<int>, y: seq<int>)       // resolution of 100 or more
    | NonDivisor(resolution: int)          // below 100 but not dividing 100: fractional chunk size

  /** The value `downsample` resolves to. */
  datatype DownsampleResult = DownsampleResult(fullRes: seq<int>, downsampled: map<int, ResolutionData>)

  /** A requested resolution floored, then raised to at least 1. */
  function Normalise(r: real): (n: int)
    ensures n >= 1
    ensures r >= 1.0 ==> n as real <= r < n as real + 1.0
    ensures r < 1.0 ==> n == 1
  {
    var f := r.Floor;
    if f < 1 then 1 else f
  }

  /** The keys under which results are stored. */
  ghost function NormalisedKeys(resolutions: seq<real>): set<int>
  {
    set r | r in resolutions :: Normalise(r)
  }

  /** Appending a resolution adds its normalised key. */
  lemma NormalisedKeysSnoc(resolutions: seq<real>, r: real)
    ensures NormalisedKeys(resolutions + [r]) == NormalisedKeys(resolutions) + {Normalise(r)}
  {
  }

  /** Absolute instants of the relative timestamps, in order. */
  function ToInstants(relTimes: seq<int>, toInstant: int -> int): (x: seq<int>)
    ensures |x| == |relTimes|
    ensures forall i :: 0 <= i < |x| ==> x[i] == toInstant(relTimes[i])
  {
    seq(|relTimes|, i requires 0 <= i < |relTimes| => toInstant(relTimes[i]))
  }

  /** What is stored for normalised resolution `n`. */
  function ResolutionResult(fullRes: seq<int>, relTimes: seq<int>, toInstant: int -> int, n: int): (d: ResolutionData)
    requires n >= 1
    ensures n >= RESOLUTION_FULL <==> d.Full?
    ensures d.Full? ==> d.y == fullRes && |d.x| == |relTimes|
    ensures d.Reduced? <==> n < RESOLUTION_FULL && RESOLUTION_FULL % n == 0
    ensures d.Reduced? ==> IsPeakIndexList(fullRes, RESOLUTION_FULL / n, d.indexes)
  {
    if n < RESOLUTION_FULL then
      if RESOLUTION_FULL % n == 0 then
        PeakIndexesCorrect(fullRes, RESOLUTION_FULL / n);
        Reduced(PeakIndexes(fullRes, RESOLUTION_FULL / n))
      else NonDivisor(n)
    else Full(ToInstants(relTimes, toInstant), fullRes)
  }

  /** `out` is what downsampling `fullRes` at `resolutions` yields. */
  ghost predicate IsDownsampleOf(out: DownsampleResult, fullRes: seq<int>, relTimes: seq<int>,
                                 toInstant: int -> int, resolutions: seq<real>)
  {
    out.fullRes == fullRes &&
    out.downsampled.Keys == NormalisedKeys(resolutions) &&
    forall n :: n in out.downsampled ==>
      n >= 1 && out.downsampled[n] == ResolutionResult(fullRes, relTimes, toInstant, n)
  }

  /** Downsampling is deterministic: the same inputs give the same result. */
  lemma DownsampleDeterministic(a: DownsampleResult, b: DownsampleResult, fullRes: seq<int>,
                                relTimes: seq<int>, toInstant: int -> int, resolutions: seq<real>)
    requires IsDownsampleOf(a, fullRes, relTimes, toInstant, resolutions)
    requires IsDownsampleOf(b, fullRes, relTimes, toInstant, resolutions)
    ensures a == b
  {
  }

  /** One index per chunk of `c` samples: the first position of the chunk's
      maximum, in chunk order. */
  method ReduceToPeaks(fullRes: seq<int>, c: nat) returns (indexes: seq<int>)
    requires c > 0
    ensures IsPeakIndexList(fullRes, c, indexes)
    ensures indexes == PeakIndexes(fullRes, c)
  {
    var chunks := Chunks(fullRes, c);
    ghost var spec := PeakIndexes(fullRes, c);
    indexes := [];
    for i := 0 to |chunks|
      invariant indexes == spec[..i]
    {
      var localIndex := LocalPeak(chunks[i]);
      ChunkStartIsProduct(i, c);
      var globalIndex := i * c + localIndex;
      assert spec[..i + 1] == spec[..i] + [globalIndex];
      indexes := indexes + [globalIndex];
    }
    assert indexes == spec;
    PeakIndexesCorrect(fullRes, c);
  }

  class DownsamplerService {
    var sessionId: string
    var relTimes: seq<int>
    var initialized: bool

    /** A fresh service has not been initialised. */
    constructor ()
      ensures !initialized
    {
      sessionId := "";
      relTimes := [];
      initialized := false;
    }

    /** Records the session and its relative timestamps. */
    method Init(sessionId: string, relTimes: seq<int>)
      modifies this
      ensures this.sessionId == sessionId && this.relTimes == relTimes && initialized
    {
      this.sessionId := sessionId;
      this.relTimes := relTimes;
      this.initialized := true;
    }

    /** Downsamples the fetched series `fullRes` of `traceName`, after checking
        that the service was initialised and that a trace was named. */
    method Process(traceName: Option<string>, resolutions: seq<real>, fullRes: seq<int>,
                   toInstant: int -> int) returns (r: Result<DownsampleResult, string>)
      ensures !initialized ==> r == Failure("init() first")
      ensures initialized && traceName.None? ==> r == Failure("traceName was undefined")
      ensures initialized && traceName.Some? ==>
        r.Success? && IsDownsampleOf(r.value, fullRes, relTimes, toInstant, resolutions)
    {
      if !initialized {
        return Failure("init() first");
      }
      if traceName.None? {
        return Failure("traceName was undefined");
      }
      var out := Downsample(fullRes, resolutions, toInstant);
      r := Success(out);
    }

    /** Every requested resolution is normalised and its data stored under
        the normalised key; the full-resolution series is returned as is. */
    method Downsample(fullRes: seq<int>, resolutions: seq<real>, toInstant: int -> int)
      returns (out: DownsampleResult)
      ensures IsDownsampleOf(out, fullRes, relTimes, toInstant, resolutions)
    {
      var downsampled: map<int, ResolutionData> := map[];
      for i := 0 to |resolutions|
        invariant downsampled.Keys == NormalisedKeys(resolutions[..i])
        invariant forall n :: n in downsampled ==>
          n >= 1 && downsampled[n] == ResolutionResult(fullRes, relTimes, toInstant, n)
      {
        var resolutionData: ResolutionData;
        var resolution := resolutions[i].Floor;
        if resolution < 1 { resolution := 1; }

        if resolution < RESOLUTION_FULL {
          if RESOLUTION_FULL % resolution == 0 {
            var indexes := ReduceToPeaks(fullRes, RESOLUTION_FULL / resolution);
            resolutionData := Reduced(indexes);
          } else {
            resolutionData := NonDivisor(resolution);
          }
        } else {
          resolutionData := Full(ToInstants(relTimes, toInstant), fullRes);
        }

        assert resolution == Normalise(resolutions[i]);
        assert resolutions[..i + 1] == resolutions[..i] + [resolutions[i]];
        NormalisedKeysSnoc(resolutions[..i], resolutions[i]);
        downsampled := downsampled[resolution := resolutionData];
      }
      assert resolutions[..|resolutions|] == resolutions;
      out := DownsampleResult(fullRes, downsampled);
    }
  }
}
