/**
 * The discrete parts of the image comparison metrics (packages/web/lib/imageMetrics.ts):
 * the bit string of the perceptual hash, the Hamming similarity of two
 * hashes, and the share of pixels that differ between two RGBA buffers.
 * JavaScript numbers that can come out as `NaN` (a division 0 / 0) are
 * `JsNum`; the DCT output and the median of its low frequencies are
 * arguments.
 */
module ImageMetrics {
  import opened Wrappers

  datatype JsNum = Finite(value: real) | NaN

  // ---------------------------------------------------------- perceptual hash

  /** The side of the resized image and of the DCT output. */
  const DctSide: nat := 32
  /** The side of the low-frequency block. */
  const BlockSide: nat := 8

  /** The DCT index of the `j`-th cell of the 8x8 block, row by row. */
  function BlockCell(j: nat): nat
    requires j < BlockSide * BlockSide
  {
    (j / BlockSide) * DctSide + j % BlockSide
  }

  /** The coefficients of the first `n` cells of the block, row by row, without the DC term (cell 0). */
  function LowFreqUpTo(dct: seq<real>, n: nat): (r: seq<real>)
    requires |dct| == DctSide * DctSide && n <= BlockSide * BlockSide
    ensures |r| == if n == 0 then 0 else n - 1
  {
    if n == 0 then [] else seq(n - 1, k requires 0 <= k < n - 1 => dct[BlockCell(k + 1)])
  }

  lemma Cell(y: nat, x: nat)
    requires y < BlockSide && x < BlockSide
    ensures y * BlockSide + x < BlockSide * BlockSide
    ensures BlockCell(y * BlockSide + x) == y * DctSide + x
  {
  }

  /** The nested loop that collects the top-left 8x8 block of the DCT, skipping the DC term. */
  method LowFrequencies(dct: seq<real>) returns (lowFreq: seq<real>)
    requires |dct| == DctSide * DctSide
    ensures lowFreq == LowFreqUpTo(dct, BlockSide * BlockSide)
    ensures |lowFreq| == 63
  {
    lowFreq := [];
    var y := 0;
    while y < 8
      invariant 0 <= y <= 8
      invariant lowFreq == LowFreqUpTo(dct, y * 8)
    {
      var x := 0;
      while x < 8
        invariant 0 <= x <= 8
        invariant lowFreq == LowFreqUpTo(dct, y * 8 + x)
      {
        Cell(y, x);
        if x != 0 || y != 0 {
          lowFreq := lowFreq + [dct[y * 32 + x]];
        }
        x := x + 1;
      }
      y := y + 1;
    }
  }

  /** The hash character of one coefficient: `1` above the median, `0` otherwise. */
  function Bit(v: real, median: real): char
  {
    if v > median then '1' else '0'
  }

  /** The loop that turns the coefficients into the hash string. */
  method HashBits(lowFreq: seq<real>, median: real) returns (hash: string)
    ensures |hash| == |lowFreq|
    ensures forall i :: 0 <= i < |hash| ==> hash[i] == Bit(lowFreq[i], median)
  {
    hash := "";
    var i := 0;
    while i < |lowFreq|
      invariant 0 <= i <= |lowFreq|
      invariant |hash| == i
      invariant forall k :: 0 <= k < i ==> hash[k] == Bit(lowFreq[k], median)
    {
      hash := hash + [if lowFreq[i] > median then '1' else '0'];
      i := i + 1;
    }
  }

  /** A hash string: only `0` and `1`. */
  predicate IsBitString(s: string)
  {
    forall i :: 0 <= i < |s| ==> s[i] == '0' || s[i] == '1'
  }

  /**
   * `calculatePerceptualHash` from the DCT of the 32x32 grayscale image and
   * the median of its low frequencies: 63 characters, each `0` or `1` (the
   * 8x8 block has 64 cells and the DC term is skipped), and character `k`
   * says whether block cell `k + 1` lies above the median.
   */
  method PerceptualHash(dct: seq<real>, median: real) returns (hash: string)
    requires |dct| == DctSide * DctSide
    ensures |hash| == 63 && IsBitString(hash)
    ensures forall k :: 0 <= k < 63 ==> (hash[k] == '1' <==> dct[BlockCell(k + 1)] > median)
  {
    var lowFreq := LowFrequencies(dct);
    hash := HashBits(lowFreq, median);
  }

  // ----------------------------------------------------------- hashSimilarity

  /** The number of positions where two strings of equal length differ. */
  function Hamming(a: string, b: string): (d: nat)
    requires |a| == |b|
    ensures d <= |a|
    decreases |a|
  {
    if |a| == 0 then 0
    else Hamming(a[..|a| - 1], b[..|b| - 1]) + (if a[|a| - 1] != b[|b| - 1] then 1 else 0)
  }

  /** The Hamming distance does not depend on the order of its arguments. */
  lemma {:induction false} HammingSymmetric(a: string, b: string)
    requires |a| == |b|
    ensures Hamming(a, b) == Hamming(b, a)
    decreases |a|
  {
    if |a| > 0 {
      HammingSymmetric(a[..|a| - 1], b[..|b| - 1]);
    }
  }

  /** A string is at distance 0 from itself, and only from itself. */
  lemma {:induction false} HammingZero(a: string, b: string)
    requires |a| == |b|
    ensures Hamming(a, b) == 0 <==> a == b
    decreases |a|
  {
    if |a| > 0 {
      HammingZero(a[..|a| - 1], b[..|b| - 1]);
      assert a == a[..|a| - 1] + [a[|a| - 1]];
      assert b == b[..|b| - 1] + [b[|b| - 1]];
    }
  }

  /** `1 - differences / length`; `0 / 0` is `NaN` for two empty hashes. */
  function Similarity(differences: nat, length: nat): JsNum
  {
    if length == 0 then NaN else Finite(1.0 - differences as real / length as real)
  }

  /** `hashSimilarity(hash1, hash2)`: throws when the lengths differ. */
  method HashSimilarity(hash1: string, hash2: string) returns (r: Result<JsNum, string>)
    ensures |hash1| != |hash2| ==> r == Err("Hashes must be the same length")
    ensures |hash1| == |hash2| ==> r == Ok(Similarity(Hamming(hash1, hash2), |hash1|))
  {
    if |hash1| != |hash2| {
      return Err("Hashes must be the same length");
    }
    var differences := 0;
    var i := 0;
    while i < |hash1|
      invariant 0 <= i <= |hash1|
      invariant differences == Hamming(hash1[..i], hash2[..i])
    {
      assert hash1[..i + 1][..i] == hash1[..i] && hash2[..i + 1][..i] == hash2[..i];
      if hash1[i] != hash2[i] {
        differences := differences + 1;
      }
      i := i + 1;
    }
    assert hash1[..i] == hash1 && hash2[..i] == hash2;
    r := Ok(Similarity(differences, |hash1|));
  }

  /**
   * For two non-empty hashes of the same length the similarity lies in
   * [0, 1], does not depend on the order of the hashes, and is 1 exactly for
   * identical hashes.
   */
  lemma SimilaritySpec(hash1: string, hash2: string)
    requires |hash1| == |hash2| > 0
    ensures var s := Similarity(Hamming(hash1, hash2), |hash1|);
      s.Finite? && 0.0 <= s.value <= 1.0 &&
      s == Similarity(Hamming(hash2, hash1), |hash2|) &&
      (s.value == 1.0 <==> hash1 == hash2)
  {
    HammingSymmetric(hash1, hash2);
    HammingZero(hash1, hash2);
    RatioBounds(Hamming(hash1, hash2), |hash1|);
  }

  lemma RatioBounds(d: nat, n: nat)
    requires 0 < n && d <= n
    ensures 0.0 <= d as real / n as real <= 1.0
    ensures d as real / n as real == 0.0 <==> d == 0
  {
    var q := d as real / n as real;
    assert q * n as real == d as real;
  }

  /** Two perceptual hashes can always be compared: the similarity of two 63-character hashes is a number. */
  lemma PerceptualHashesComparable(hash1: string, hash2: string)
    requires |hash1| == 63 && |hash2| == 63
    ensures Similarity(Hamming(hash1, hash2), |hash1|).Finite?
  {
  }

  // -------------------------------------------------- calculatePixelDifference

  /** `data[k]`, `undefined` past the end. */
  function Channel(data: seq<int>, k: nat): Option<int>
  {
    if k < |data| then Some(data[k]) else None
  }

  /**
   * `Math.sqrt(dr² + dg² + db²) > threshold` for the pixel starting at `i`;
   * a channel past the end reads `undefined`, the distance is `NaN` and the
   * comparison is false.
   */
  predicate PixelDiffers(img1: seq<int>, img2: seq<int>, i: nat, threshold: real)
  {
    var c := [Channel(img1, i), Channel(img1, i + 1), Channel(img1, i + 2),
              Channel(img2, i), Channel(img2, i + 1), Channel(img2, i + 2)];
    (forall k :: 0 <= k < 6 ==> c[k].Some?) &&
    var dr := c[0].value - c[3].value;
    var dg := c[1].value - c[4].value;
    var db := c[2].value - c[5].value;
    var squared := (dr * dr + dg * dg + db * db) as real;
    threshold < 0.0 || squared > threshold * threshold
  }

  /** The number of differing pixels among the first `n` pixel starts `0, 4, 8, ...`. */
  function DifferentPixels(img1: seq<int>, img2: seq<int>, threshold: real, n: nat): (r: nat)
    ensures r <= n
  {
    if n == 0 then 0
    else DifferentPixels(img1, img2, threshold, n - 1) + (if PixelDiffers(img1, img2, 4 * (n - 1), threshold) then 1 else 0)
  }

  /** The number of iterations of `for (let i = 0; i < length; i += 4)`. */
  function Starts(length: nat): nat
  {
    (length + 3) / 4
  }

  /** `(differentPixels / (length / 4)) * 100`, `NaN` for empty buffers. */
  function Percentage(differentPixels: nat, length: nat): JsNum
  {
    if length == 0 then NaN else Finite(differentPixels as real / (length as real / 4.0) * 100.0)
  }

  /** `calculatePixelDifference(img1Data, img2Data, threshold)`: throws when the sizes differ. */
  method PixelDifference(img1: seq<int>, img2: seq<int>, threshold: real) returns (r: Result<JsNum, string>)
    ensures |img1| != |img2| ==> r == Err("Images must be the same size")
    ensures |img1| == |img2| ==> r == Ok(Percentage(DifferentPixels(img1, img2, threshold, Starts(|img1|)), |img1|))
  {
    if |img1| != |img2| {
      return Err("Images must be the same size");
    }
    var differentPixels := 0;
    var i := 0;
    while i < |img1|
      invariant i % 4 == 0 && i <= |img1| + 3
      invariant i / 4 <= Starts(|img1|)
      invariant differentPixels == DifferentPixels(img1, img2, threshold, i / 4)
      decreases |img1| - i
    {
      if PixelDiffers(img1, img2, i, threshold) {
        differentPixels := differentPixels + 1;
      }
      i := i + 4;
    }
    assert i / 4 == Starts(|img1|);
    r := Ok(Percentage(differentPixels, |img1|));
  }

  /** Identical pixels never differ, whatever the non-negative threshold. */
  lemma {:induction false} IdenticalNoDifferences(img: seq<int>, threshold: real, n: nat)
    requires threshold >= 0.0
    ensures DifferentPixels(img, img, threshold, n) == 0
  {
    if n > 0 {
      IdenticalNoDifferences(img, threshold, n - 1);
    }
  }

  /** Comparing a buffer with itself gives 0 % (for a non-empty buffer and a non-negative threshold). */
  lemma IdenticalIsZero(img: seq<int>, threshold: real)
    requires |img| > 0 && threshold >= 0.0
    ensures Percentage(DifferentPixels(img, img, threshold, Starts(|img|)), |img|) == Finite(0.0)
  {
    IdenticalNoDifferences(img, threshold, Starts(|img|));
  }

  /** A pixel whose blue channel is past the end is never counted. */
  lemma {:induction false} PartialPixelNotCounted(img1: seq<int>, img2: seq<int>, threshold: real, n: nat)
    requires |img1| == |img2| && n >= 1 && 4 * (n - 1) + 2 >= |img1|
    ensures DifferentPixels(img1, img2, threshold, n) == DifferentPixels(img1, img2, threshold, n - 1)
  {
    assert Channel(img1, 4 * (n - 1) + 2).None?;
  }

  /**
   * For a buffer of whole RGBA pixels, or one whose last partial pixel lacks
   * its blue byte, the percentage lies in [0, 100].
   */
  lemma PercentageBounded(img1: seq<int>, img2: seq<int>, threshold: real)
    requires |img1| == |img2| > 0 && |img1| % 4 != 3
    ensures var p := Percentage(DifferentPixels(img1, img2, threshold, Starts(|img1|)), |img1|);
      p.Finite? && 0.0 <= p.value <= 100.0
  {
    var n := |img1|;
    var whole := n / 4;
    var d := DifferentPixels(img1, img2, threshold, Starts(n));
    if Starts(n) > whole {
      assert Starts(n) - 1 == whole;
      PartialPixelNotCounted(img1, img2, threshold, Starts(n));
    }
    assert 4 * d <= n;
    PercentBound(d, n);
  }

  lemma PercentBound(d: nat, n: nat)
    requires 0 < n && 4 * d <= n
    ensures 0.0 <= d as real / (n as real / 4.0) * 100.0 <= 100.0
  {
    var q := d as real / (n as real / 4.0);
    assert q * (n as real / 4.0) == d as real;
    if q > 1.0 {
      assert q * (n as real / 4.0) > n as real / 4.0;
    }
  }

  /** A three-byte buffer is one partial pixel, yet it can count as 133.33 %. */
  lemma ThreeBytesExceedHundred()
    ensures Percentage(DifferentPixels([255, 255, 255], [0, 0, 0], 10.0, Starts(3)), 3) == Finite(400.0 / 3.0)
  {
    assert PixelDiffers([255, 255, 255], [0, 0, 0], 0, 10.0);
  }
}
