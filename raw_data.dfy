/**
 * The read-only raw data model the resample task consumes: data points,
 * m/z ranges, scans and raw data files. These stand for MZmine's
 * DataPoint, Range, Scan and RawDataFile; only the parts the task reads
 * are kept.
 */
module RawData {

  /** One (m/z, intensity) sample of a spectrum. */
  datatype DataPoint = DataPoint(mz: real, intensity: real)

  /** A closed m/z interval [min, max]. */
  datatype Range = Range(min: real, max: real)

  /**
   * One spectral scan: its number, its data points in acquisition order,
   * its m/z range and whether the points are centroided peaks (true) or
   * continuous profile samples (false).
   */
  datatype Scan = Scan(scanNumber: int, dataPoints: seq<DataPoint>, mzRange: Range, centroided: bool)

  /** A raw data file: a name and its scans, in the order the file lists them. */
  datatype RawDataFile = RawDataFile(name: string, scans: seq<Scan>)
}
