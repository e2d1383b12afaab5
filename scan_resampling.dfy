/**
 * The per-scan transform of the m/z resample filter: the number of bins
 * for a scan's m/z range, the extraction of parallel m/z and intensity
 * arrays, the call into the binning routine, and the placement of the
 * binned intensities at the bin centres.
 */
module ScanResampling {
  import opened RawData

  const LONG_MIN: int := -0x8000_0000_0000_0000
  const LONG_MAX: int := 0x7FFF_FFFF_FFFF_FFFF
  const INT_MIN: int := -0x8000_0000
  const INT_MAX: int := 0x7FFF_FFFF
  const TWO_TO_32: int := 0x1_0000_0000

  /**
   * The binning routine ScanUtils.binValues(x, y, range, numberOfBins,
   * interpolate, AVG). Its body is not part of this model: the task is
   * given it as an uninterpreted function from the m/z values, the
   * intensities, the range, the bin count and the interpolate flag to the
   * new intensities.
   */
  type BinValues = (seq<real>, seq<real>, Range, int, bool) -> seq<real>

  /**
   * java.lang.Math.round on a double, read on exact reals: the integer
   * nearest to v with halves rounded up, saturated at the bounds of long.
   */
  function Round(v: real): (r: int)
    ensures LONG_MIN <= r <= LONG_MAX
    ensures LONG_MIN < r < LONG_MAX ==> r as real - 0.5 <= v < r as real + 0.5
    ensures r == LONG_MAX <==> v >= LONG_MAX as real - 0.5
    ensures r == LONG_MIN <==> v < LONG_MIN as real + 0.5
  {
    var f := (v + 0.5).Floor;
    if f < LONG_MIN then LONG_MIN else if f > LONG_MAX then LONG_MAX else f
  }

  /** A Java (int) cast of a long: the low 32 bits, read as two's complement. */
  function ToInt(v: int): (r: int)
    ensures INT_MIN <= r <= INT_MAX
    ensures (v - r) % TWO_TO_32 == 0
    ensures INT_MIN <= v <= INT_MAX ==> r == v
  {
    var m := v % TWO_TO_32;
    if m > INT_MAX then m - TWO_TO_32 else m
  }

  /**
   * The bin count used for a scan: (int) Math.round((max - min) / binSize),
   * with a count of 0 replaced by 1.
   */
  function NumberOfBins(mzRange: Range, binSize: real): (n: int)
    requires binSize > 0.0
    ensures n != 0
    ensures INT_MIN <= n <= INT_MAX
  {
    var rounded := ToInt(Round((mzRange.max - mzRange.min) / binSize));
    if rounded == 0 then rounded + 1 else rounded
  }

  /** Dividing bounds on a width by a positive bin size bounds the ratio. */
  lemma RatioBounds(width: real, binSize: real, lo: real, hi: real)
    requires binSize > 0.0
    requires lo * binSize <= width < hi * binSize
    ensures lo <= width / binSize < hi
  {
    assert width / binSize - lo == (width - lo * binSize) / binSize;
    assert hi - width / binSize == (hi * binSize - width) / binSize;
  }

  /** Multiplying bounds on a ratio by the positive bin size. */
  lemma ScaleBounds(ratio: real, binSize: real, lo: real, hi: real)
    requires binSize > 0.0
    requires lo <= ratio < hi
    ensures lo * binSize <= ratio * binSize < hi * binSize
  {
    assert (ratio - lo) * binSize >= 0.0;
    assert (hi - ratio) * binSize > 0.0;
    assert ratio * binSize - lo * binSize == (ratio - lo) * binSize;
    assert hi * binSize - ratio * binSize == (hi - ratio) * binSize;
  }

  /**
   * Where the rounded ratio fits an int, the bin count is the nearest
   * integer to (max - min) / binSize, or 1 when that is 0.
   */
  lemma NumberOfBinsIsRoundedRatio(mzRange: Range, binSize: real)
    requires binSize > 0.0
    requires (INT_MIN as real - 0.5) * binSize <= mzRange.max - mzRange.min < (INT_MAX as real + 0.5) * binSize
    ensures var ratio := (mzRange.max - mzRange.min) / binSize;
            var n := NumberOfBins(mzRange, binSize);
            n == (if -0.5 <= ratio < 0.5 then 1 else Round(ratio))
            && (!(-0.5 <= ratio < 0.5) ==> n as real - 0.5 <= ratio < n as real + 0.5)
  {
    RatioBounds(mzRange.max - mzRange.min, binSize, INT_MIN as real - 0.5, INT_MAX as real + 0.5);
  }

  /**
   * A non-negative m/z range whose rounded ratio fits an int always gets
   * at least one bin.
   */
  lemma NumberOfBinsPositive(mzRange: Range, binSize: real)
    requires binSize > 0.0
    requires mzRange.min <= mzRange.max
    requires mzRange.max - mzRange.min < (INT_MAX as real + 0.5) * binSize
    ensures NumberOfBins(mzRange, binSize) >= 1
  {
    NumberOfBinsIsRoundedRatio(mzRange, binSize);
    RatioBounds(mzRange.max - mzRange.min, binSize, 0.0, INT_MAX as real + 0.5);
  }

  /**
   * The bin count is 1 exactly when the range is less than one and a half
   * bins wide (and, for a reversed range, no more than half a bin).
   */
  lemma NumberOfBinsIsOne(mzRange: Range, binSize: real)
    requires binSize > 0.0
    requires (INT_MIN as real - 0.5) * binSize <= mzRange.max - mzRange.min < (INT_MAX as real + 0.5) * binSize
    ensures NumberOfBins(mzRange, binSize) == 1
        <==> -0.5 * binSize <= mzRange.max - mzRange.min < 1.5 * binSize
  {
    var width := mzRange.max - mzRange.min;
    NumberOfBinsIsRoundedRatio(mzRange, binSize);
    var ratio := width / binSize;
    assert width == ratio * binSize;
    if -0.5 * binSize <= width < 1.5 * binSize {
      RatioBounds(width, binSize, -0.5, 1.5);
    }
    var n := NumberOfBins(mzRange, binSize);
    if -0.5 <= ratio < 1.5 {
      ScaleBounds(ratio, binSize, -0.5, 1.5);
      if 0.5 <= ratio {
        assert 0.0 < n as real < 2.0;
      }
    } else if ratio < -0.5 {
      assert n as real < 0.0;
    } else {
      assert n as real > 1.0;
    }
  }

  /** A zero-width range (a scan with a single m/z value) gets one bin. */
  lemma ZeroWidthRangeHasOneBin(mzRange: Range, binSize: real)
    requires binSize > 0.0
    requires mzRange.min == mzRange.max
    ensures NumberOfBins(mzRange, binSize) == 1
  {
    assert (mzRange.max - mzRange.min) / binSize == 0.0;
  }

  /**
   * With at least half a bin of range and no wrap-around, the end of the
   * bin grid, min + numberOfBins * binSize, lies within half a bin of max.
   */
  lemma GridEndWithinHalfBin(mzRange: Range, binSize: real)
    requires binSize > 0.0
    requires binSize / 2.0 <= mzRange.max - mzRange.min < (INT_MAX as real + 0.5) * binSize
    ensures var n := NumberOfBins(mzRange, binSize) as real;
            mzRange.max - binSize / 2.0 < mzRange.min + n * binSize <= mzRange.max + binSize / 2.0
  {
    var width := mzRange.max - mzRange.min;
    NumberOfBinsIsRoundedRatio(mzRange, binSize);
    RatioBounds(width, binSize, 0.5, INT_MAX as real + 0.5);
    NearestMultiple(width, binSize, NumberOfBins(mzRange, binSize) as real);
  }

  /** If n is the nearest integer to width / binSize then n * binSize is within half a bin of width. */
  lemma NearestMultiple(width: real, binSize: real, n: real)
    requires binSize > 0.0
    requires n - 0.5 <= width / binSize < n + 0.5
    ensures width - binSize / 2.0 < n * binSize <= width + binSize / 2.0
  {
    assert width / binSize * binSize == width;
    ScaledNearest(width / binSize, width, binSize, n);
  }

  /** NearestMultiple, with the ratio as a plain number. */
  lemma ScaledNearest(ratio: real, width: real, binSize: real, n: real)
    requires binSize > 0.0
    requires ratio * binSize == width
    requires n - 0.5 <= ratio < n + 0.5
    ensures width - binSize / 2.0 < n * binSize <= width + binSize / 2.0
  {
    ScaleBounds(ratio, binSize, n - 0.5, n + 0.5);
    WithinHalf(width, ratio * binSize, n * binSize, binSize / 2.0, (n - 0.5) * binSize, (n + 0.5) * binSize);
  }

  /** The linear step of ScaledNearest. */
  lemma WithinHalf(width: real, scaled: real, grid: real, half: real, lo: real, hi: real)
    requires scaled == width
    requires lo == grid - half && hi == grid + half
    requires lo <= scaled < hi
    ensures width - half < grid <= width + half
  {
  }

  /**
   * The (int) cast wraps: a range 2^31 bins wide gets a negative bin count
   * instead of 2^31 bins.
   */
  lemma WideRangeWrapsToNegativeBinCount()
    ensures NumberOfBins(Range(0.0, 2147483648.0), 1.0) == INT_MIN
  {
    assert Round(2147483648.0) == 2147483648;
  }

  /**
   * Beyond 2^32 bins the cast wraps around to small counts again: a range
   * 2^32 + 5 bins wide gets 5 bins, and one 2^32 bins wide gets 0, then 1.
   */
  lemma VeryWideRangeWrapsAround()
    ensures NumberOfBins(Range(0.0, 4294967301.0), 1.0) == 5
    ensures NumberOfBins(Range(0.0, 4294967296.0), 1.0) == 1
  {
    assert Round(4294967301.0) == 4294967301;
    assert Round(4294967296.0) == 4294967296;
  }

  /** The m/z values of a list of data points, in order. */
  function MzValues(dps: seq<DataPoint>): (x: seq<real>)
    ensures |x| == |dps|
    ensures forall i :: 0 <= i < |dps| ==> x[i] == dps[i].mz
  {
    if dps == [] then [] else [dps[0].mz] + MzValues(dps[1..])
  }

  /** The intensities of a list of data points, in order. */
  function Intensities(dps: seq<DataPoint>): (y: seq<real>)
    ensures |y| == |dps|
    ensures forall i :: 0 <= i < |dps| ==> y[i] == dps[i].intensity
  {
    if dps == [] then [] else [dps[0].intensity] + Intensities(dps[1..])
  }

  /** Data points built from parallel m/z and intensity lists. */
  function Zip(x: seq<real>, y: seq<real>): (dps: seq<DataPoint>)
    requires |x| == |y|
    ensures |dps| == |x|
    ensures forall i :: 0 <= i < |x| ==> dps[i] == DataPoint(x[i], y[i])
  {
    if x == [] then [] else [DataPoint(x[0], y[0])] + Zip(x[1..], y[1..])
  }

  /** Splitting data points into m/z and intensity lists loses nothing. */
  lemma {:induction false} ExtractionRoundTrip(dps: seq<DataPoint>)
    ensures Zip(MzValues(dps), Intensities(dps)) == dps
  {
    if dps != [] {
      ExtractionRoundTrip(dps[1..]);
      assert MzValues(dps)[1..] == MzValues(dps[1..]);
      assert Intensities(dps)[1..] == Intensities(dps[1..]);
    }
  }

  /** Building data points from two lists and splitting them again gives the two lists back. */
  lemma {:induction false} ZipRoundTrip(x: seq<real>, y: seq<real>)
    requires |x| == |y|
    ensures MzValues(Zip(x, y)) == x && Intensities(Zip(x, y)) == y
  {
    if x != [] {
      ZipRoundTrip(x[1..], y[1..]);
      assert Zip(x, y)[1..] == Zip(x[1..], y[1..]);
    }
  }

  /**
   * The copy loop of the task: parallel arrays holding the m/z values and
   * the intensities of the data points, in their order.
   */
  method ExtractArrays(dps: seq<DataPoint>) returns (x: array<real>, y: array<real>)
    ensures x.Length == y.Length == |dps|
    ensures x[..] == MzValues(dps) && y[..] == Intensities(dps)
  {
    x := new real[|dps|];
    y := new real[|dps|];
    for i := 0 to |dps|
      invariant forall k :: 0 <= k < i ==> x[k] == dps[k].mz && y[k] == dps[k].intensity
    {
      x[i] := dps[i].mz;
      y[i] := dps[i].intensity;
    }
  }

  /**
   * The m/z values produced by starting at first and adding step once per
   * point, as the task does with newX += binSize.
   */
  function Accumulated(first: real, step: real, count: nat): (xs: seq<real>)
    ensures |xs| == count
    decreases count
  {
    if count == 0 then [] else [first] + Accumulated(first + step, step, count - 1)
  }

  /** On exact reals the accumulated m/z values are first + i * step. */
  lemma {:induction false} AccumulatedClosedForm(first: real, step: real, count: nat, i: nat)
    requires i < count
    ensures Accumulated(first, step, count)[i] == first + i as real * step
    decreases i
  {
    if i > 0 {
      AccumulatedClosedForm(first + step, step, count - 1, i - 1);
    }
  }

  /** The m/z of the centre of bin i, for bins of width binSize starting at start. */
  function BinCentre(start: real, binSize: real, i: nat): real
  {
    start + binSize / 2.0 + i as real * binSize
  }

  /** Each bin centre lies strictly inside its bin, half a bin from either edge. */
  lemma BinCentreInsideBin(start: real, binSize: real, i: nat)
    requires binSize > 0.0
    ensures start + i as real * binSize < BinCentre(start, binSize, i) < start + (i + 1) as real * binSize
    ensures BinCentre(start, binSize, i + 1) - BinCentre(start, binSize, i) == binSize
  {
    assert (i + 1) as real * binSize == i as real * binSize + binSize;
  }

  /**
   * The new data points of a scan: the binned intensities placed at
   * m/z values starting at the centre of the first bin and advancing by
   * one bin at a time.
   */
  function BinCentredPoints(start: real, binSize: real, newY: seq<real>): seq<DataPoint>
  {
    Zip(Accumulated(start + binSize / 2.0, binSize, |newY|), newY)
  }

  /**
   * There is one new data point per binned intensity; point i carries
   * intensity newY[i] at the centre of bin i.
   */
  lemma BinCentredPointsAt(start: real, binSize: real, newY: seq<real>)
    ensures |BinCentredPoints(start, binSize, newY)| == |newY|
    ensures forall i :: 0 <= i < |newY| ==>
              BinCentredPoints(start, binSize, newY)[i] == DataPoint(BinCentre(start, binSize, i), newY[i])
    ensures Intensities(BinCentredPoints(start, binSize, newY)) == newY
  {
    var xs := Accumulated(start + binSize / 2.0, binSize, |newY|);
    forall i | 0 <= i < |newY|
      ensures xs[i] == BinCentre(start, binSize, i)
    {
      AccumulatedClosedForm(start + binSize / 2.0, binSize, |newY|, i);
    }
    ZipRoundTrip(xs, newY);
  }

  /**
   * The point-construction loop of the task: newX starts at the centre of
   * the first bin and advances by binSize after each point.
   */
  method BinCentredDataPoints(start: real, binSize: real, newY: seq<real>) returns (newPoints: array<DataPoint>)
    ensures newPoints[..] == BinCentredPoints(start, binSize, newY)
  {
    newPoints := new DataPoint[|newY|];
    var newX := start + binSize / 2.0;
    for i := 0 to |newY|
      invariant newX == BinCentre(start, binSize, i)
      invariant forall k :: 0 <= k < i ==> newPoints[k] == DataPoint(BinCentre(start, binSize, k), newY[k])
    {
      newPoints[i] := DataPoint(newX, newY[i]);
      newX := newX + binSize;
    }
    BinCentredPointsAt(start, binSize, newY);
    assert newPoints[..] == BinCentredPoints(start, binSize, newY);
  }

  /** The intensities the binning routine is asked for, for one scan. */
  function BinnedIntensities(oldScan: Scan, binSize: real, binValues: BinValues): seq<real>
    requires binSize > 0.0
  {
    var dps := oldScan.dataPoints;
    binValues(MzValues(dps), Intensities(dps), oldScan.mzRange,
              NumberOfBins(oldScan.mzRange, binSize), !oldScan.centroided)
  }

  /**
   * The resampled copy of a scan: the same scan with its data points
   * replaced by the binned intensities at the bin centres.
   */
  function Resampled(oldScan: Scan, binSize: real, binValues: BinValues): Scan
    requires binSize > 0.0
  {
    oldScan.(dataPoints := BinCentredPoints(oldScan.mzRange.min, binSize,
                                            BinnedIntensities(oldScan, binSize, binValues)))
  }

  /**
   * What resampling does to a scan: the copy keeps the scan's number,
   * m/z range and centroided flag and only its data points are replaced
   * (whatever SimpleScan.setDataPoints recomputes is not modelled); the binning routine is given the
   * scan's m/z values and intensities in order, its m/z range, its bin
   * count and interpolate = not centroided; the new data points are its
   * output, one per value, at the bin centres from the range's minimum.
   */
  lemma ResampledScanShape(oldScan: Scan, binSize: real, binValues: BinValues)
    requires binSize > 0.0
    ensures var newScan := Resampled(oldScan, binSize, binValues);
            var dps := oldScan.dataPoints;
            var newY := binValues(MzValues(dps), Intensities(dps), oldScan.mzRange,
                                  NumberOfBins(oldScan.mzRange, binSize), !oldScan.centroided);
            && newScan.(dataPoints := dps) == oldScan
            && newScan.centroided == oldScan.centroided
            && |newScan.dataPoints| == |newY|
            && Intensities(newScan.dataPoints) == newY
            && forall i :: 0 <= i < |newY| ==>
                 newScan.dataPoints[i].mz == oldScan.mzRange.min + binSize / 2.0 + i as real * binSize
  {
    BinCentredPointsAt(oldScan.mzRange.min, binSize, BinnedIntensities(oldScan, binSize, binValues));
  }

  /**
   * The body of the task's per-scan loop, from reading the m/z range to
   * building the updated scan.
   */
  method FilterScan(oldScan: Scan, binSize: real, binValues: BinValues) returns (newScan: Scan)
    requires binSize > 0.0
    ensures newScan == Resampled(oldScan, binSize, binValues)
  {
    var mzRange := oldScan.mzRange;
    var numberOfBins := ToInt(Round((mzRange.max - mzRange.min) / binSize));
    if numberOfBins == 0 {
      numberOfBins := numberOfBins + 1;
    }
    var x, y := ExtractArrays(oldScan.dataPoints);
    var newY := binValues(x[..], y[..], mzRange, numberOfBins, !oldScan.centroided);
    var newPoints := BinCentredDataPoints(mzRange.min, binSize, newY);
    newScan := oldScan.(dataPoints := newPoints[..]);
  }
}
