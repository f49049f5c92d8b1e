/** Peak-preserving reduction of a sample series: the series is cut into
    consecutive chunks of a fixed length and, for every chunk, the global
    index of the first occurrence of that chunk's maximum is kept. */
module Peaks {

  function Min(a: int, b: int): int { if a <= b then a else b }

  /** Number of chunks of length `c` needed to cover `n` samples. */
  function CeilDiv(n: nat, c: nat): nat
    requires c > 0
  {
    (n + c - 1) / c
  }

  /** Integer division is determined by quotient and remainder. */
  lemma DivUnique(y: int, c: int, q: int, r: int)
    requires c > 0 && y == q * c + r && 0 <= r < c
    ensures y / c == q
  {
    var d := y / c - q;
    assert d * c == r - y % c;
    assert (d > 0 ==> d * c >= c) && (d < 0 ==> d * c <= -c);
  }

  /** Adding `c` samples adds exactly one chunk. */
  lemma CeilDivStep(n: nat, c: nat)
    requires c > 0
    ensures CeilDiv(n + c, c) == CeilDiv(n, c) + 1
  {
    var x := n + c - 1;
    var q, r := x / c, x % c;
    assert x == q * c + r && 0 <= r < c;
    assert x + c == (q + 1) * c + r;
    DivUnique(x + c, c, q + 1, r);
  }

  /** A non-empty series of at most `c` samples is one chunk. */
  lemma CeilDivOne(n: nat, c: nat)
    requires 0 < n <= c
    ensures CeilDiv(n, c) == 1
  {
  }

  /** First index of chunk `k` when chunks have length `c`: `k * c`,
      counted up chunk by chunk. */
  function ChunkStart(k: nat, c: nat): nat
  {
    if k == 0 then 0 else ChunkStart(k - 1, c) + c
  }

  /** The start of chunk `k` is `k * c`. */
  lemma {:induction false} ChunkStartIsProduct(k: nat, c: nat)
    ensures ChunkStart(k, c) == k * c
  {
    if k > 0 {
      ChunkStartIsProduct(k - 1, c);
      assert (k - 1) * c + c == k * c;
    }
  }

  /** Chunk `i` ends at or before chunk `j` starts when `i < j`. */
  lemma {:induction false} ChunksOrdered(i: nat, j: nat, c: nat, n: nat)
    requires i < j
    ensures ChunkEnd(i, c, n) <= ChunkStart(j, c)
    decreases j
  {
    if i + 1 < j {
      ChunksOrdered(i, j - 1, c, n);
    }
  }

  /** One past the last index of chunk `k` in a series of `n` samples. */
  function ChunkEnd(k: nat, c: nat, n: nat): nat { Min(ChunkStart(k, c) + c, n) }

  /** Cuts `s` into consecutive chunks of `c` samples; the last chunk may be
      shorter and an empty series gives no chunk at all. */
  function Chunks(s: seq<int>, c: nat): (cs: seq<seq<int>>)
    requires c > 0
    ensures |cs| == CeilDiv(|s|, c)
    ensures forall i :: 0 <= i < |cs| ==> cs[i] != []
    decreases |s|
  {
    if s == [] then []
    else if |s| <= c then CeilDivOne(|s|, c); [s]
    else CeilDivStep(|s| - c, c); [s[..c]] + Chunks(s[c..], c)
  }

  /** Concatenation of a sequence of chunks. */
  function Flatten(cs: seq<seq<int>>): seq<int>
  {
    if cs == [] then [] else cs[0] + Flatten(cs[1..])
  }

  /** The largest sample of a non-empty chunk. */
  function Max(xs: seq<int>): (m: int)
    requires xs != []
    ensures m in xs
    ensures forall i :: 0 <= i < |xs| ==> xs[i] <= m
  {
    if |xs| == 1 then xs[0]
    else
      var rest := Max(xs[1..]);
      if xs[0] >= rest then xs[0] else rest
  }

  /** Position of the first occurrence of `v` in `xs`, or -1 when `v` does
      not occur (strict-equality search). */
  function IndexOf(xs: seq<int>, v: int): (i: int)
    ensures -1 <= i < |xs|
    ensures i == -1 <==> v !in xs
    ensures 0 <= i ==> xs[i] == v && v !in xs[..i]
  {
    if xs == [] then -1
    else if xs[0] == v then 0
    else
      var j := IndexOf(xs[1..], v);
      assert xs[1..][..if j < 0 then 0 else j] == xs[1..if j < 0 then 1 else j + 1];
      if j < 0 then -1 else j + 1
  }

  /** Local index of the peak of a non-empty chunk: the first position
      holding the chunk's maximum. */
  function LocalPeak(chunk: seq<int>): (k: nat)
    requires chunk != []
    ensures k < |chunk|
    ensures forall j :: 0 <= j < |chunk| ==> chunk[j] <= chunk[k]
    ensures forall j :: 0 <= j < k ==> chunk[j] < chunk[k]
  {
    var i := IndexOf(chunk, Max(chunk));
    assert forall j :: 0 <= j < i ==> chunk[j] == chunk[..i][j];
    i
  }

  /** The reduced index list: for every chunk, the global index of its peak. */
  function PeakIndexes(s: seq<int>, c: nat): seq<int>
    requires c > 0
  {
    var cs := Chunks(s, c);
    seq(|cs|, i requires 0 <= i < |cs| => ChunkStart(i, c) + LocalPeak(cs[i]))
  }

  /** `idx` is a peak index list of `s` for chunk length `c`: one entry per
      chunk, each inside its chunk, holding the chunk's maximum, and no
      earlier sample of the chunk holds that maximum. */
  ghost predicate IsPeakIndexList(s: seq<int>, c: nat, idx: seq<int>)
    requires c > 0
  {
    |idx| == CeilDiv(|s|, c) &&
    forall k :: 0 <= k < |idx| ==>
      ChunkStart(k, c) <= idx[k] < ChunkEnd(k, c, |s|) &&
      (forall j :: ChunkStart(k, c) <= j < ChunkEnd(k, c, |s|) ==> s[j] <= s[idx[k]]) &&
      (forall j :: ChunkStart(k, c) <= j < idx[k] ==> s[j] < s[idx[k]])
  }

  /** Slicing the tail after `c` samples is slicing the series `c` further on. */
  lemma SliceOfTail(s: seq<int>, c: nat, lo: nat, hi: nat)
    requires c <= |s| && lo <= hi <= |s| - c
    ensures s[c..][lo..hi] == s[lo + c..hi + c]
  {
  }

  /** Chunk `i` is exactly the samples from ChunkStart to ChunkEnd. */
  lemma {:induction false} ChunkAt(s: seq<int>, c: nat, i: nat)
    requires c > 0 && i < |Chunks(s, c)|
    ensures ChunkStart(i, c) < ChunkEnd(i, c, |s|)
    ensures Chunks(s, c)[i] == s[ChunkStart(i, c)..ChunkEnd(i, c, |s|)]
    decreases |s|
  {
    if |s| <= c {
      assert i == 0 && Chunks(s, c) == [s];
      assert s[0..|s|] == s;
    } else if i == 0 {
      assert Chunks(s, c)[0] == s[..c];
    } else {
      var tail := s[c..];
      assert Chunks(s, c)[i] == Chunks(tail, c)[i - 1];
      ChunkAt(tail, c, i - 1);
      SliceOfTail(s, c, ChunkStart(i - 1, c), ChunkEnd(i - 1, c, |tail|));
    }
  }

  /** The chunks partition the series: joined back together they give it. */
  lemma {:induction false} ChunksCover(s: seq<int>, c: nat)
    requires c > 0
    ensures Flatten(Chunks(s, c)) == s
    decreases |s|
  {
    if s != [] && |s| > c {
      var cs := Chunks(s, c);
      assert cs[1..] == Chunks(s[c..], c);
      ChunksCover(s[c..], c);
      assert s == s[..c] + s[c..];
    }
  }

  /** The peak of the slice `s[lo..hi]`, read back in the series. */
  lemma SlicePeak(s: seq<int>, lo: nat, hi: nat)
    requires lo < hi <= |s|
    ensures lo <= lo + LocalPeak(s[lo..hi]) < hi
    ensures forall j :: lo <= j < hi ==> s[j] <= s[lo + LocalPeak(s[lo..hi])]
    ensures forall j :: lo <= j < lo + LocalPeak(s[lo..hi]) ==> s[j] < s[lo + LocalPeak(s[lo..hi])]
  {
    var chunk := s[lo..hi];
    var p := LocalPeak(chunk);
    forall j | lo <= j < hi ensures s[j] <= s[lo + p] {
      assert s[j] == chunk[j - lo];
    }
    forall j | lo <= j < lo + p ensures s[j] < s[lo + p] {
      assert s[j] == chunk[j - lo];
    }
  }

  /** The `k`-th entry of PeakIndexes lies in chunk `k`, holds its maximum
      and is its first occurrence. */
  lemma PeakAt(s: seq<int>, c: nat, k: nat)
    requires c > 0 && k < |PeakIndexes(s, c)|
    ensures ChunkStart(k, c) <= PeakIndexes(s, c)[k] < ChunkEnd(k, c, |s|)
    ensures forall j :: ChunkStart(k, c) <= j < ChunkEnd(k, c, |s|) ==> s[j] <= s[PeakIndexes(s, c)[k]]
    ensures forall j :: ChunkStart(k, c) <= j < PeakIndexes(s, c)[k] ==> s[j] < s[PeakIndexes(s, c)[k]]
  {
    ChunkAt(s, c, k);
    var lo, hi := ChunkStart(k, c), ChunkEnd(k, c, |s|);
    assert PeakIndexes(s, c)[k] == lo + LocalPeak(s[lo..hi]);
    SlicePeak(s, lo, hi);
  }

  /** PeakIndexes meets its specification (coverage, containment, peak
      preservation and first-occurrence tie-break). */
  lemma PeakIndexesCorrect(s: seq<int>, c: nat)
    requires c > 0
    ensures IsPeakIndexList(s, c, PeakIndexes(s, c))
  {
    forall k | 0 <= k < |PeakIndexes(s, c)|
      ensures ChunkStart(k, c) <= PeakIndexes(s, c)[k] < ChunkEnd(k, c, |s|)
      ensures forall j :: ChunkStart(k, c) <= j < ChunkEnd(k, c, |s|) ==> s[j] <= s[PeakIndexes(s, c)[k]]
      ensures forall j :: ChunkStart(k, c) <= j < PeakIndexes(s, c)[k] ==> s[j] < s[PeakIndexes(s, c)[k]]
    {
      PeakAt(s, c, k);
    }
  }

  /** The specification determines the index list: two lists meeting it are
      equal. */
  lemma PeakIndexListUnique(s: seq<int>, c: nat, a: seq<int>, b: seq<int>)
    requires c > 0
    requires IsPeakIndexList(s, c, a) && IsPeakIndexList(s, c, b)
    ensures a == b
  {
    forall k | 0 <= k < |a| ensures a[k] == b[k] {
      assert s[a[k]] <= s[b[k]] && s[b[k]] <= s[a[k]];
    }
  }

  /** Chunks are disjoint and in order, so the indexes strictly increase. */
  lemma PeakIndexesIncreasing(s: seq<int>, c: nat, idx: seq<int>)
    requires c > 0 && IsPeakIndexList(s, c, idx)
    ensures forall i, j :: 0 <= i < j < |idx| ==> idx[i] < idx[j]
  {
    forall i, j | 0 <= i < j < |idx| ensures idx[i] < idx[j] {
      ChunksOrdered(i, j, c, |s|);
    }
  }

  /** Every returned index is a valid index into the series. */
  lemma PeakIndexesInRange(s: seq<int>, c: nat, idx: seq<int>)
    requires c > 0 && IsPeakIndexList(s, c, idx)
    ensures forall k :: 0 <= k < |idx| ==> 0 <= idx[k] < |s|
  {
  }

  /** An empty series gives an empty index list. */
  lemma EmptySeries(c: nat)
    requires c > 0
    ensures PeakIndexes([], c) == []
  {
  }

  /** The chunks of the worked example. */
  lemma ExampleChunks(s: seq<int>)
    requires s == [1, 5, 3, 2, 8, 4, 0, 9]
    ensures Chunks(s, 2) == [[1, 5], [3, 2], [8, 4], [0, 9]]
  {
    var cs := Chunks(s, 2);
    ChunkAt(s, 2, 0);
    ChunkAt(s, 2, 1);
    ChunkAt(s, 2, 2);
    ChunkAt(s, 2, 3);
    assert cs[0] == [1, 5] && cs[1] == [3, 2] && cs[2] == [8, 4] && cs[3] == [0, 9];
  }

  /** The worked example: chunks [1,5],[3,2],[8,4],[0,9] give [1,2,4,7]. */
  lemma HalfResolutionExample(s: seq<int>)
    requires s == [1, 5, 3, 2, 8, 4, 0, 9]
    ensures PeakIndexes(s, 2) == [1, 2, 4, 7]
  {
    ExampleChunks(s);
    var idx := PeakIndexes(s, 2);
    assert idx[0] == 1 && idx[1] == 2 && idx[2] == 4 && idx[3] == 7;
  }
}
