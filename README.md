# m/z resample filter task (MZmine 2) in Dafny

This project models the m/z resample filter of MZmine 2: the background
task that reads every scan of a raw data file, rebins its data points onto
a grid of equal-width m/z bins, writes the resampled scans into a new raw
data file, registers that file with the current project and, when asked,
removes the original. The task reports its status (WAITING, PROCESSING,
FINISHED, CANCELED, ERROR), an error message and a progress fraction, and
can be canceled from outside between two scans.

Modules:

- `Wrappers` — `Option`, standing for a Java reference that may be null.
- `RawData` — the read-only values the task consumes: data points, m/z
  ranges, scans, raw data files.
- `ScanResampling` — the per-scan transform: the bin count with Java's
  `Math.round` and `(int)` cast written out, the extraction of parallel m/z
  and intensity arrays, the call into the binning routine (left
  uninterpreted: `BinValues`), and the placement of the binned intensities
  at the bin centres. The two array loops are methods proved against
  specification functions.
- `TaskLifecycle` — the task's observable state as a value, the
  environment one run meets (an oracle that says which I/O call throws an
  `IOException`, and before which scan another thread calls `cancel()`),
  `RunSpec`, the state `run()` leaves behind, and the lemmas about it:
  successful, canceled and failed runs, progress, and the order of
  finalization and registration.
- `ResampleFilter` — the class `ResampleFilterTask` with the source's
  fields, its getters, `Cancel` and `Run`. `Run` is imperative: the scan
  loop with its invariant, split into the start of the run, one loop
  iteration and the end of the run, and proved to leave exactly the state
  `RunSpec` describes.

Collaborators are state of the class: the writer created by
`MZmineCore.createNewFile` is `writer` (its name, the scans appended so far
and whether `finishWriting` was called); the current project's files are
`projectFiles`; the source file is a value with its scans in the order
`getScanNumbers` lists them.

The model follows the code as written; in particular:

- The bin count is `(int) Math.round((max - min) / binSize)` with only a
  count of 0 replaced by 1; it is not clamped to at least 1. The `(int)`
  cast keeps the low 32 bits: a range from 2^31 - 1/2 up to 2^32 - 1/2
  bins wide gets a negative count (`WideRangeWrapsToNegativeBinCount`),
  and wider ones wrap around to any count, 0 (then 1) and small positive
  counts included (`VeryWideRangeWrapsAround`). "At least one bin" is
  therefore proved for non-negative ranges narrower than 2^31 - 1/2 bins
  (`NumberOfBinsPositive`).
- The new scan is a copy of the old one (`new SimpleScan(oldScan)`) whose
  data points are replaced; its centroided flag is copied, not switched to
  profile data.
- `getCreatedObjects` always returns a one-element array holding
  `filteredRawDataFile`, which is null (here `None`) unless the run
  finished; it is not empty for a canceled or failed run.
- `cancel()` sets CANCELED from any state, FINISHED and ERROR included,
  and `run()` sets PROCESSING whatever the status was, so a cancel before
  `run()` starts is lost (`StatusBeforeRunIsOverwritten`).
- The bin size is not checked by the task; the model takes it positive
  from the parameters (see Left out).

## Model

| member | source | states |
|---|---|---|
| `ResampleFilter.ResampleFilterTask.constructor` | src/net/sf/mzmine/modules/rawdata/resample/ResampleFilterTask.java:61-69 | The task keeps the source file, suffix, bin size and remove flag from the parameters and starts WAITING with no counters, no writer, no error message and no created file. |
| `ResampleFilter.ResampleFilterTask.GetFinishedPercentage` | src/net/sf/mzmine/modules/rawdata/resample/ResampleFilterTask.java:81-85 | The progress of a task in its invariant lies in [0, 1]; it is 0 while the total is 0 and 1 exactly when every scan is counted. |
| `TaskLifecycle.Progress` | src/net/sf/mzmine/modules/rawdata/resample/ResampleFilterTask.java:81-85 | 0 when `totalScans` is 0, never a division by zero; within [0, 1] whenever `filteredScans <= totalScans`; 1 exactly when the two are equal. |
| `ResampleFilter.ResampleFilterTask.GetStatus` | src/net/sf/mzmine/modules/rawdata/resample/ResampleFilterTask.java:90-92 | A WAITING task has no writer, no counted scans and no error message; a FINISHED task has a finished writer and its created file. |
| `ResampleFilter.ResampleFilterTask.GetErrorMessage` | src/net/sf/mzmine/modules/rawdata/resample/ResampleFilterTask.java:97-99 | A WAITING task has no error message. |
| `ResampleFilter.ResampleFilterTask.Cancel` | src/net/sf/mzmine/modules/rawdata/resample/ResampleFilterTask.java:104-106 | The status becomes CANCELED from any state and nothing else changes; the task invariant is kept. |
| `ResampleFilter.ResampleFilterTask.Run` | src/net/sf/mzmine/modules/rawdata/resample/ResampleFilterTask.java:111-192 | The fields after the run are exactly `RunSpec` of the fields before it, and the task invariant is kept. |
| `ResampleFilter.ResampleFilterTask.OpenRun` | src/net/sf/mzmine/modules/rawdata/resample/ResampleFilterTask.java:113-125 | PROCESSING is set first; a throwing `createNewFile` or `getScanNumbers` ends the run as `RunSpec` says; otherwise an empty unfinished writer with the new name exists and `totalScans` is the number of scans. |
| `ResampleFilter.ResampleFilterTask.FilterNextScan` | src/net/sf/mzmine/modules/rawdata/resample/ResampleFilterTask.java:128-173 | One loop iteration stops the run exactly when a cancel request or a fault meets this scan, with the state `RunSpec` gives; otherwise the scan's resampled copy is appended and counted. |
| `ResampleFilter.ResampleFilterTask.FinishRun` | src/net/sf/mzmine/modules/rawdata/resample/ResampleFilterTask.java:175-189 | After the loop: a throwing `finishWriting` ends in ERROR; otherwise the writer is finished, its file becomes the created file, is added to the project, the source is removed only if requested, and the status is FINISHED. |
| `ResampleFilter.ResampleFilterTask.GetCreatedObjects` | src/net/sf/mzmine/modules/rawdata/resample/ResampleFilterTask.java:194-196 | Always one element, the created file; when present it is the finished writer's output. |
| `TaskLifecycle.Initial` | src/net/sf/mzmine/modules/rawdata/resample/ResampleFilterTask.java:44-50 | A new task satisfies the task invariant, is WAITING and has no writer. |
| `TaskLifecycle.ExceptionText` | src/net/sf/mzmine/modules/rawdata/resample/ResampleFilterTask.java:188 | `Throwable.toString` as the error message: the text starts with the exception's class name; with no message it is exactly that long, and with a message the class name is followed by ": " and then the whole message. |
| `TaskLifecycle.NewName` | src/net/sf/mzmine/modules/rawdata/resample/ResampleFilterTask.java:119 | The new file's name is the source name, a space and the suffix, so it is longer than (and differs from) the source name. |
| `TaskLifecycle.FirstStop` | src/net/sf/mzmine/modules/rawdata/resample/ResampleFilterTask.java:128-173 | The loop stops at the first iteration met by a cancel request or a fault, or after the last scan. |
| `TaskLifecycle.ResampledScans` | src/net/sf/mzmine/modules/rawdata/resample/ResampleFilterTask.java:167-172 | The scans appended for a list of source scans: one per source scan. |
| `TaskLifecycle.ResampledScansAt` | src/net/sf/mzmine/modules/rawdata/resample/ResampleFilterTask.java:128-172 | Appended scan i is the resampled copy of source scan i: the output keeps the source order. |
| `TaskLifecycle.Scanned` | src/net/sf/mzmine/modules/rawdata/resample/ResampleFilterTask.java:124-173 | The state after k scans keeps the task invariant of a fresh task. |
| `TaskLifecycle.AfterScans` | src/net/sf/mzmine/modules/rawdata/resample/ResampleFilterTask.java:128-189 | Wherever the loop stops, the run ends in FINISHED, ERROR or CANCELED and keeps the task invariant. |
| `TaskLifecycle.RunSpec` | src/net/sf/mzmine/modules/rawdata/resample/ResampleFilterTask.java:111-192 | A run always ends FINISHED, ERROR or CANCELED, never lowers `filteredScans`, keeps the task invariant, and a writer it created holds the resampled copies of a prefix of the source scans under the new name. |
| `TaskLifecycle.RunSpecStopsAt` | src/net/sf/mzmine/modules/rawdata/resample/ResampleFilterTask.java:128-132 | Once the writer exists and the scan numbers are read, the run ends as its first interrupted iteration decides. |
| `TaskLifecycle.ScannedStep` | src/net/sf/mzmine/modules/rawdata/resample/ResampleFilterTask.java:171-172 | Writing scan k appends its resampled copy and increments `filteredScans`; nothing else changes. |
| `TaskLifecycle.ProgressPerScan` | src/net/sf/mzmine/modules/rawdata/resample/ResampleFilterTask.java:172 | During a fresh run the progress after k of n scans is k / n: it rises with every scan and reads 1 after the last. |
| `TaskLifecycle.SuccessfulRun` | src/net/sf/mzmine/modules/rawdata/resample/ResampleFilterTask.java:124-183 | A run ends FINISHED exactly when no call throws and no cancel arrives; then it appended one resampled scan per source scan in order, counted them all, finished the writer, registered the new file, removed the source only if requested, and left the error message alone. |
| `TaskLifecycle.CanceledRun` | src/net/sf/mzmine/modules/rawdata/resample/ResampleFilterTask.java:128-132 | A CANCELED run stopped at the cancel check of a scan it reached: only the scans before it are written and counted, the writer is not finished, no file is created, registered or removed, no error message is set. |
| `TaskLifecycle.CancelStopsRun` | src/net/sf/mzmine/modules/rawdata/resample/ResampleFilterTask.java:128-132 | A cancel before a scan the run reaches ends it there, CANCELED, with exactly the earlier scans written and counted. |
| `TaskLifecycle.ThrowingCallEndsRun` | src/net/sf/mzmine/modules/rawdata/resample/ResampleFilterTask.java:135-189 | An `IOException` from a call the run makes ends it in ERROR with that exception's text as the message; when `getScan` or `addScan` of scan k throws, exactly the k scans before it are written and counted and the writer is not finished. |
| `TaskLifecycle.FailedRun` | src/net/sf/mzmine/modules/rawdata/resample/ResampleFilterTask.java:186-189 | A run ends in ERROR exactly when a call it makes throws; the message is that exception's text, and no file is created, registered or removed and the writer is not finished. |
| `TaskLifecycle.StatusBeforeRunIsOverwritten` | src/net/sf/mzmine/modules/rawdata/resample/ResampleFilterTask.java:113 | The status before `run()`, CANCELED included, does not affect the run. |
| `TaskLifecycle.RegistryChangesOnlyAfterFinishWriting` | src/net/sf/mzmine/modules/rawdata/resample/ResampleFilterTask.java:176-181 | The project's files and the created file change only in a run that ends FINISHED with its writer finished. |
| `TaskLifecycle.FinishedRunReportsFullProgress` | src/net/sf/mzmine/modules/rawdata/resample/ResampleFilterTask.java:81-85 | A fresh run that finishes reports progress 1 (0 for a file without scans). |
| `TaskLifecycle.CanceledRunReportsPartialProgress` | src/net/sf/mzmine/modules/rawdata/resample/ResampleFilterTask.java:81-85 | A fresh run canceled before scan k of n reports k / n afterwards. |
| `ScanResampling.Round` | src/net/sf/mzmine/modules/rawdata/resample/ResampleFilterTask.java:137-139 | `Math.round`: the nearest integer with halves rounded up, saturated at the bounds of `long`. |
| `ScanResampling.ToInt` | src/net/sf/mzmine/modules/rawdata/resample/ResampleFilterTask.java:137 | The `(int)` cast keeps the low 32 bits: the result is an `int` congruent to its argument modulo 2^32, and equal to it when it fits. |
| `ScanResampling.NumberOfBins` | src/net/sf/mzmine/modules/rawdata/resample/ResampleFilterTask.java:137-142 | The bin count is never 0 and fits an `int`. |
| `ScanResampling.NumberOfBinsIsRoundedRatio` | src/net/sf/mzmine/modules/rawdata/resample/ResampleFilterTask.java:137-142 | Without wrap-around the bin count is the nearest integer to (max - min) / binSize, or 1 when that is 0. |
| `ScanResampling.NumberOfBinsPositive` | src/net/sf/mzmine/modules/rawdata/resample/ResampleFilterTask.java:137-142 | A non-negative range narrower than 2^31 - 1/2 bins gets at least one bin. |
| `ScanResampling.NumberOfBinsIsOne` | src/net/sf/mzmine/modules/rawdata/resample/ResampleFilterTask.java:137-142 | The count is 1 exactly when the range is at least -1/2 and less than 3/2 bins wide. |
| `ScanResampling.ZeroWidthRangeHasOneBin` | src/net/sf/mzmine/modules/rawdata/resample/ResampleFilterTask.java:140-142 | A zero-width range gets one bin. |
| `ScanResampling.GridEndWithinHalfBin` | src/net/sf/mzmine/modules/rawdata/resample/ResampleFilterTask.java:137-164 | For a range of at least half a bin, the bin grid ends within half a bin of the range's maximum. |
| `ScanResampling.WideRangeWrapsToNegativeBinCount` | src/net/sf/mzmine/modules/rawdata/resample/ResampleFilterTask.java:137-142 | A range 2^31 bins wide gets the bin count -2^31. |
| `ScanResampling.VeryWideRangeWrapsAround` | src/net/sf/mzmine/modules/rawdata/resample/ResampleFilterTask.java:137-142 | Past 2^32 bins the cast wraps around: 2^32 + 5 bins give 5, and 2^32 bins give 0, replaced by 1. |
| `ScanResampling.MzValues` | src/net/sf/mzmine/modules/rawdata/resample/ResampleFilterTask.java:146-151 | One m/z value per data point, in order: x[i] is the m/z of point i. |
| `ScanResampling.Intensities` | src/net/sf/mzmine/modules/rawdata/resample/ResampleFilterTask.java:147-151 | One intensity per data point, in order: y[i] is the intensity of point i. |
| `ScanResampling.Zip` | src/net/sf/mzmine/modules/rawdata/resample/ResampleFilterTask.java:162 | Point i is built from x[i] and y[i], one point per pair. |
| `ScanResampling.ExtractionRoundTrip` | src/net/sf/mzmine/modules/rawdata/resample/ResampleFilterTask.java:145-151 | Splitting data points into m/z and intensity arrays loses nothing: zipping them back gives the points. |
| `ScanResampling.ZipRoundTrip` | src/net/sf/mzmine/modules/rawdata/resample/ResampleFilterTask.java:145-162 | Zipping two arrays and splitting again gives both arrays back. |
| `ScanResampling.ExtractArrays` | src/net/sf/mzmine/modules/rawdata/resample/ResampleFilterTask.java:145-151 | The copy loop fills two arrays of the points' length with their m/z values and intensities, in order. |
| `ScanResampling.Accumulated` | src/net/sf/mzmine/modules/rawdata/resample/ResampleFilterTask.java:159-164 | One accumulated m/z value per binned intensity. |
| `ScanResampling.AccumulatedClosedForm` | src/net/sf/mzmine/modules/rawdata/resample/ResampleFilterTask.java:159-164 | On exact reals the i-th accumulated m/z is first + i * binSize. |
| `ScanResampling.BinCentreInsideBin` | src/net/sf/mzmine/modules/rawdata/resample/ResampleFilterTask.java:158-159 | Each bin centre lies strictly inside its bin, and consecutive centres are one bin apart. |
| `ScanResampling.BinCentredPointsAt` | src/net/sf/mzmine/modules/rawdata/resample/ResampleFilterTask.java:156-164 | One new point per binned intensity; point i has m/z min + binSize/2 + i*binSize and intensity newY[i]. |
| `ScanResampling.BinCentredDataPoints` | src/net/sf/mzmine/modules/rawdata/resample/ResampleFilterTask.java:156-164 | The point loop fills an array of newY's length with exactly those bin-centred points. |
| `ScanResampling.ResampledScanShape` | src/net/sf/mzmine/modules/rawdata/resample/ResampleFilterTask.java:135-168 | A resampled scan is a copy of the old one with its data points replaced (the centroided flag copied; the m/z range kept, see Left out); the binning routine gets the points' m/z values and intensities in order, the scan's range, its bin count and interpolate = not centroided; the new points are its output at the bin centres. |
| `ScanResampling.FilterScan` | src/net/sf/mzmine/modules/rawdata/resample/ResampleFilterTask.java:135-168 | The body of the scan loop builds exactly the resampled copy of the scan. |

## Left out

- `ScanUtils.binValues` is not part of this model: it is an uninterpreted
  function argument of the task, so nothing is claimed about averaging,
  interpolation, bin boundaries or its output length.
- `RawDataFileWriter`, `MZmineCore.createNewFile` and the project's
  `addFile`/`removeFile` are abstract state (the writer's name, scans and
  finished flag; a set of files); the on-disk format is not modelled.
  Files are compared as values, not by Java reference identity.
- I/O faults are an oracle naming the calls that throw: `createNewFile`,
  `getScanNumbers`, `getScan` of a scan, `addScan` of a scan and
  `finishWriting`. `addFile` and `removeFile` are taken not to throw.
  Exceptions other than `IOException` (for instance from the binning
  routine given a negative bin count) are not modelled.
- Concurrency: `cancel()` from another thread is modelled only as an
  event before the cancel check of a scan (a cancel during scan i is the
  same as one before the check of scan i + 1). A cancel that arrives after
  the loop, which `run()` then overwrites with FINISHED or ERROR, and the
  thread visibility of `status` are not modelled.
- `ResampleFilter.ResampleFilterTask.Run` requires a task whose `run()`
  has not yet created a writer: the task runtime runs a task once, and
  `filteredScans` is never reset, so a second run would count past
  `totalScans`.
- `ResampleFilter.ResampleFilterTask.constructor` requires a positive bin
  size; the parameter bounds live in ResampleFilterParameters, which is not
  part of this model.
- `ScanResampling.NumberOfBinsPositive` is stated for ranges narrower than
  2^31 - 1/2 bins, because the `(int)` cast turns ranges of 2^31 - 1/2 up
  to 2^32 - 1/2 bins into negative counts and wraps wider ones around to
  any count.
- `ScanResampling.ResampledScanShape` (and `Resampled`, which the writer's
  scans are built from) keeps the old scan's m/z range on the copy.
  `SimpleScan` is not part of this model, so whatever
  `SimpleScan.setDataPoints` recomputes from the new points (the m/z
  range, base peak or total ion current) is not modelled.
- Floating point: m/z values and intensities are exact reals; the
  rounding of `(max - min) / binSize` and the error accumulated by
  `newX += binSize` are not modelled, and NaN and infinities do not arise.
- Scan metadata other than the scan number, data points, m/z range and
  centroided flag (`SimpleScan` is not part of this model) is not
  represented.
- `getTaskDescription` (a display string built from the file's
  `toString`) and the logger calls are left out; they do not change any
  state.
