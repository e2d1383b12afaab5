/**
 * The lifecycle of one m/z resample run, stated on values: the task's
 * observable state, the environment the run meets (cancel requests and
 * I/O faults), the outcome of run() as a function of the state before it,
 * and the properties of that outcome.
 */
module TaskLifecycle {
  import opened Wrappers
  import opened RawData
  import opened ScanResampling

  /** net.sf.mzmine.taskcontrol.TaskStatus. */
  datatype TaskStatus = Waiting | Processing | Finished | Canceled | Error

  /**
   * An IOException thrown by a collaborator: the exception's class name
   * and its message (null in Java when absent).
   */
  datatype IOException = IOException(className: string, message: Option<string>)

  /** Throwable.toString: the class name, then ": " and the message when there is one. */
  function ExceptionText(e: IOException): (text: string)
    ensures |text| >= |e.className| && text[..|e.className|] == e.className
    ensures e.message.None? ==> |text| == |e.className|
    ensures e.message.Some? ==>
              && |text| == |e.className| + 2 + |e.message.value|
              && text[|e.className|..|e.className| + 2] == ": "
              && text[|e.className| + 2..] == e.message.value
  {
    match e.message
    case None => e.className
    case Some(m) => e.className + ": " + m
  }

  /** The calls of run() that can throw an IOException, scans named by their index. */
  datatype IoCall =
    | CreateNewFile
    | GetScanNumbers
    | GetScan(scanIndex: nat)
    | AddScan(scanIndex: nat)
    | FinishWriting

  /**
   * What the run meets from outside: cancelBefore(i) says that another
   * thread called cancel() after scan i - 1 was written and before scan i
   * is checked; fault(c) is the IOException call c throws, if any.
   */
  datatype Environment = Environment(cancelBefore: nat -> bool, fault: IoCall -> Option<IOException>)

  /** Why the scan loop left before processing a scan. */
  datatype Interruption = CancelRequested | Fault(e: IOException)

  /**
   * What stops iteration i of the scan loop, in the order the loop meets
   * it: the cancel check, then the scan read, then the append.
   */
  function Interrupt(env: Environment, i: nat): Option<Interruption>
  {
    if env.cancelBefore(i) then Some(CancelRequested)
    else if env.fault(GetScan(i)).Some? then Some(Fault(env.fault(GetScan(i)).value))
    else if env.fault(AddScan(i)).Some? then Some(Fault(env.fault(AddScan(i)).value))
    else None
  }

  /**
   * The index at which the scan loop, started at i, stops: the first
   * interrupted iteration, or n when every iteration completes.
   */
  function FirstStop(env: Environment, n: nat, i: nat): (k: nat)
    requires i <= n
    ensures i <= k <= n
    ensures forall j :: i <= j < k ==> Interrupt(env, j).None?
    ensures k < n ==> Interrupt(env, k).Some?
    decreases n - i
  {
    if i == n || Interrupt(env, i).Some? then i else FirstStop(env, n, i + 1)
  }

  /** The first uninterrupted stretch of iterations is exactly the one FirstStop finds. */
  lemma FirstStopIsFirstInterruption(env: Environment, n: nat, k: nat)
    requires k <= n
    requires forall j :: 0 <= j < k ==> Interrupt(env, j).None?
    requires k < n ==> Interrupt(env, k).Some?
    ensures FirstStop(env, n, 0) == k
  {
  }

  /**
   * The abstract state of the RawDataFileWriter a run creates: the file's
   * name, the scans appended so far and whether finishWriting was called.
   */
  datatype WriterState = WriterState(name: string, scans: seq<Scan>, finished: bool)

  /** The raw data file finishWriting returns: the writer's name and scans. */
  function WrittenFile(w: WriterState): RawDataFile
  {
    RawDataFile(w.name, w.scans)
  }

  /** The task's parameters and collaborators, fixed at construction. */
  datatype TaskConfig = TaskConfig(
    dataFile: RawDataFile,
    suffix: string,
    binSize: real,
    removeOriginal: bool,
    binValues: BinValues)

  /** The observable fields of the task together with its collaborators' state. */
  datatype TaskState = TaskState(
    status: TaskStatus,
    errorMessage: Option<string>,
    filteredScans: nat,
    totalScans: nat,
    filteredRawDataFile: Option<RawDataFile>,
    writer: Option<WriterState>,
    projectFiles: set<RawDataFile>)

  /**
   * What the task keeps true: the counters fit, the writer holds one scan
   * per counted scan, nothing is counted before a writer exists, the
   * created file exists only once the writer is finished, as its output,
   * a task still WAITING has neither a writer nor an error message, and
   * a FINISHED task has its created file.
   */
  predicate Consistent(s: TaskState)
  {
    && s.filteredScans <= s.totalScans
    && (s.writer.None? ==> s.filteredScans == 0 && s.totalScans == 0)
    && (s.writer.Some? ==> |s.writer.value.scans| == s.filteredScans)
    && (s.filteredRawDataFile.Some? ==>
          s.writer.Some? && s.writer.value.finished && s.filteredRawDataFile.value == WrittenFile(s.writer.value))
    && (s.status == Waiting ==> s.writer.None? && s.errorMessage.None?)
    && (s.status == Finished ==> s.filteredRawDataFile.Some?)
  }

  /** The state of a task just constructed. */
  function Initial(projectFiles: set<RawDataFile>): (s: TaskState)
    ensures Consistent(s) && s.status == Waiting && s.writer.None?
  {
    TaskState(Waiting, None, 0, 0, None, None, projectFiles)
  }

  /** getFinishedPercentage: filteredScans / totalScans, and 0 before the total is known. */
  function Progress(s: TaskState): (r: real)
    ensures s.filteredScans <= s.totalScans ==> 0.0 <= r <= 1.0
    ensures s.totalScans == 0 ==> r == 0.0
    ensures s.totalScans > 0 ==> (r == 1.0 <==> s.filteredScans == s.totalScans)
  {
    if s.totalScans == 0 then 0.0 else s.filteredScans as real / s.totalScans as real
  }

  /** The name of the new file: the source file's name, a space and the suffix. */
  function NewName(cfg: TaskConfig): (name: string)
    ensures |name| > |cfg.dataFile.name|
  {
    cfg.dataFile.name + " " + cfg.suffix
  }

  /** The resampled copies of a list of scans, appended one at a time in order. */
  function ResampledScans(cfg: TaskConfig, scans: seq<Scan>): (out: seq<Scan>)
    requires cfg.binSize > 0.0
    ensures |out| == |scans|
  {
    if scans == [] then []
    else ResampledScans(cfg, scans[..|scans| - 1]) + [Resampled(scans[|scans| - 1], cfg.binSize, cfg.binValues)]
  }

  /** Output scan i is the resampled copy of source scan i: one per source scan, in source order. */
  lemma {:induction false} ResampledScansAt(cfg: TaskConfig, scans: seq<Scan>)
    requires cfg.binSize > 0.0
    ensures forall i :: 0 <= i < |scans| ==>
              ResampledScans(cfg, scans)[i] == Resampled(scans[i], cfg.binSize, cfg.binValues)
  {
    if scans != [] {
      var front := scans[..|scans| - 1];
      ResampledScansAt(cfg, front);
      forall i | 0 <= i < |scans| - 1
        ensures ResampledScans(cfg, scans)[i] == Resampled(scans[i], cfg.binSize, cfg.binValues)
      {
        assert front[i] == scans[i];
      }
    }
  }

  /** The catch block: status ERROR and the exception's text as the message. */
  function Failed(s: TaskState, e: IOException): TaskState
  {
    s.(status := Error, errorMessage := Some(ExceptionText(e)))
  }

  /**
   * The end of a run whose scans are all written: finishWriting, addFile
   * with the result, removeFile of the source if requested, then FINISHED.
   */
  function Finish(cfg: TaskConfig, s: TaskState): TaskState
    requires s.writer.Some?
  {
    var w := s.writer.value.(finished := true);
    var file := WrittenFile(w);
    var registered := s.projectFiles + {file};
    s.(writer := Some(w), filteredRawDataFile := Some(file),
       projectFiles := if cfg.removeOriginal then registered - {cfg.dataFile} else registered,
       status := Finished)
  }

  /**
   * The state once run() has set PROCESSING, created the writer, read the
   * scan numbers and written the resampled copies of the first k scans.
   */
  function Scanned(cfg: TaskConfig, s: TaskState, k: nat): (r: TaskState)
    requires cfg.binSize > 0.0
    requires k <= |cfg.dataFile.scans|
    ensures Consistent(s) && s.writer.None? ==> Consistent(r)
  {
    s.(status := Processing, totalScans := |cfg.dataFile.scans|, filteredScans := s.filteredScans + k,
       writer := Some(WriterState(NewName(cfg), ResampledScans(cfg, cfg.dataFile.scans[..k]), false)))
  }

  /**
   * How run() ends once the scan loop stops at index k: the cancel or the
   * exception that interrupted iteration k, or, when all scans were
   * written, the end of the run.
   */
  function AfterScans(cfg: TaskConfig, s: TaskState, env: Environment, k: nat): (r: TaskState)
    requires cfg.binSize > 0.0
    requires k <= |cfg.dataFile.scans|
    requires k < |cfg.dataFile.scans| ==> Interrupt(env, k).Some?
    ensures r.status == Finished || r.status == Error || r.status == Canceled
    ensures Consistent(s) && s.writer.None? ==> Consistent(r)
  {
    var stopped := Scanned(cfg, s, k);
    if k < |cfg.dataFile.scans| then
      match Interrupt(env, k).value
      case CancelRequested => stopped.(status := Canceled)
      case Fault(e) => Failed(stopped, e)
    else if env.fault(FinishWriting).Some? then
      Failed(stopped, env.fault(FinishWriting).value)
    else
      Finish(cfg, stopped)
  }

  /**
   * The state run() leaves behind, given the state before it and the
   * environment it meets.
   */
  function RunSpec(cfg: TaskConfig, s: TaskState, env: Environment): (r: TaskState)
    requires cfg.binSize > 0.0
    ensures r.status == Finished || r.status == Error || r.status == Canceled
    ensures r.filteredScans >= s.filteredScans
    ensures Consistent(s) && s.writer.None? ==> Consistent(r)
    ensures s.writer.None? && r.writer.Some? ==>
              && r.writer.value.name == NewName(cfg)
              && |r.writer.value.scans| <= |cfg.dataFile.scans|
              && r.writer.value.scans == ResampledScans(cfg, cfg.dataFile.scans[..|r.writer.value.scans|])
  {
    var entered := s.(status := Processing);
    if env.fault(CreateNewFile).Some? then
      Failed(entered, env.fault(CreateNewFile).value)
    else if env.fault(GetScanNumbers).Some? then
      Failed(entered.(writer := Some(WriterState(NewName(cfg), [], false))), env.fault(GetScanNumbers).value)
    else
      AfterScans(cfg, s, env, FirstStop(env, |cfg.dataFile.scans|, 0))
  }

  /**
   * Once the writer is created and the scan numbers are read, run() ends
   * as the scan loop's first interruption k decides.
   */
  lemma RunSpecStopsAt(cfg: TaskConfig, s: TaskState, env: Environment, k: nat)
    requires cfg.binSize > 0.0
    requires env.fault(CreateNewFile).None? && env.fault(GetScanNumbers).None?
    requires k <= |cfg.dataFile.scans|
    requires forall j :: 0 <= j < k ==> Interrupt(env, j).None?
    requires k < |cfg.dataFile.scans| ==> Interrupt(env, k).Some?
    ensures RunSpec(cfg, s, env) == AfterScans(cfg, s, env, k)
  {
    FirstStopIsFirstInterruption(env, |cfg.dataFile.scans|, k);
  }

  /**
   * During a fresh run each written scan raises the progress by one n-th:
   * after k of n scans it reads k / n, so it never decreases from one scan
   * to the next and reads 1 once the last scan is written.
   */
  lemma ProgressPerScan(cfg: TaskConfig, s: TaskState, k: nat)
    requires cfg.binSize > 0.0
    requires Consistent(s) && s.writer.None?
    requires k <= |cfg.dataFile.scans|
    ensures |cfg.dataFile.scans| > 0 ==>
              Progress(Scanned(cfg, s, k)) == k as real / |cfg.dataFile.scans| as real
    ensures k < |cfg.dataFile.scans| ==>
              Progress(Scanned(cfg, s, k)) < Progress(Scanned(cfg, s, k + 1))
    ensures k == |cfg.dataFile.scans| > 0 ==> Progress(Scanned(cfg, s, k)) == 1.0
  {
    var n := |cfg.dataFile.scans| as real;
    if k < |cfg.dataFile.scans| {
      assert (k + 1) as real / n - k as real / n == 1.0 / n;
    }
  }

  /**
   * Writing scan k appends its resampled copy to the writer and counts it;
   * nothing else changes.
   */
  lemma ScannedStep(cfg: TaskConfig, s: TaskState, k: nat)
    requires cfg.binSize > 0.0
    requires k < |cfg.dataFile.scans|
    ensures var t := Scanned(cfg, s, k);
            Scanned(cfg, s, k + 1)
              == t.(filteredScans := t.filteredScans + 1,
                    writer := Some(t.writer.value.(scans := t.writer.value.scans
                                     + [Resampled(cfg.dataFile.scans[k], cfg.binSize, cfg.binValues)])))
  {
    var scans := cfg.dataFile.scans;
    assert scans[..k + 1][..k] == scans[..k];
  }

  /** The call run() reaches before scan i is checked: the file is open and scans 0 .. i - 1 were written. */
  predicate ReachesScan(cfg: TaskConfig, env: Environment, i: nat)
  {
    && env.fault(CreateNewFile).None?
    && env.fault(GetScanNumbers).None?
    && i < |cfg.dataFile.scans|
    && forall j :: 0 <= j < i ==> Interrupt(env, j).None?
  }

  /** No call throws and no cancel request arrives before any scan. */
  predicate Uninterrupted(cfg: TaskConfig, env: Environment)
  {
    && env.fault(CreateNewFile).None?
    && env.fault(GetScanNumbers).None?
    && (forall i :: 0 <= i < |cfg.dataFile.scans| ==> Interrupt(env, i).None?)
    && env.fault(FinishWriting).None?
  }

  /** A cancel request arrives before scan k, and run() gets that far. */
  predicate CanceledBefore(cfg: TaskConfig, env: Environment, k: nat)
  {
    ReachesScan(cfg, env, k) && env.cancelBefore(k)
  }

  /** Call c throws, and run() makes that call. */
  predicate ThrowsAt(cfg: TaskConfig, env: Environment, c: IoCall)
  {
    && env.fault(c).Some?
    && match c
       case CreateNewFile => true
       case GetScanNumbers => env.fault(CreateNewFile).None?
       case GetScan(i) => ReachesScan(cfg, env, i) && !env.cancelBefore(i)
       case AddScan(i) => ReachesScan(cfg, env, i) && !env.cancelBefore(i) && env.fault(GetScan(i)).None?
       case FinishWriting =>
         && env.fault(CreateNewFile).None?
         && env.fault(GetScanNumbers).None?
         && forall j :: 0 <= j < |cfg.dataFile.scans| ==> Interrupt(env, j).None?
  }

  /**
   * A run that meets no fault and no cancel appends one resampled scan
   * per source scan, in source order, counts them all, finishes the
   * writer, registers its file, removes the source file only when asked,
   * and ends FINISHED; and only such a run ends FINISHED.
   */
  lemma SuccessfulRun(cfg: TaskConfig, s: TaskState, env: Environment)
    requires cfg.binSize > 0.0
    ensures RunSpec(cfg, s, env).status == Finished <==> Uninterrupted(cfg, env)
    ensures Uninterrupted(cfg, env) ==>
              var r := RunSpec(cfg, s, env);
              var out := ResampledScans(cfg, cfg.dataFile.scans);
              var file := RawDataFile(NewName(cfg), out);
              && |out| == |cfg.dataFile.scans|
              && r.totalScans == |cfg.dataFile.scans|
              && r.filteredScans == s.filteredScans + |cfg.dataFile.scans|
              && r.writer == Some(WriterState(NewName(cfg), out, true))
              && r.filteredRawDataFile == Some(file)
              && file in r.projectFiles
              && (cfg.dataFile in r.projectFiles <==> !cfg.removeOriginal && cfg.dataFile in s.projectFiles)
              && (forall f :: f != file && f != cfg.dataFile ==> (f in r.projectFiles <==> f in s.projectFiles))
              && r.errorMessage == s.errorMessage
  {
    var n := |cfg.dataFile.scans|;
    if Uninterrupted(cfg, env) {
      FirstStopIsFirstInterruption(env, n, n);
      assert cfg.dataFile.scans[..n] == cfg.dataFile.scans;
      assert NewName(cfg) != cfg.dataFile.name;
    }
  }

  /**
   * A run that ends CANCELED stopped at the cancel check of a scan k it
   * reached: the k scans before it are written and counted, the writer
   * is not finished, and no file is registered or removed.
   */
  lemma CanceledRun(cfg: TaskConfig, s: TaskState, env: Environment)
    requires cfg.binSize > 0.0
    ensures var r := RunSpec(cfg, s, env);
            r.status == Canceled ==>
              && r.writer.Some?
              && var k := |r.writer.value.scans|;
              && CanceledBefore(cfg, env, k)
              && !r.writer.value.finished
              && r.writer.value.scans == ResampledScans(cfg, cfg.dataFile.scans[..k])
              && r.filteredScans == s.filteredScans + k
              && r.filteredRawDataFile == s.filteredRawDataFile
              && r.projectFiles == s.projectFiles
              && r.errorMessage == s.errorMessage
  {
  }

  /** A cancel request before a scan the run reaches ends the run there, CANCELED. */
  lemma CancelStopsRun(cfg: TaskConfig, s: TaskState, env: Environment, k: nat)
    requires cfg.binSize > 0.0
    requires CanceledBefore(cfg, env, k)
    ensures var r := RunSpec(cfg, s, env);
            && r.status == Canceled
            && r.writer == Some(WriterState(NewName(cfg), ResampledScans(cfg, cfg.dataFile.scans[..k]), false))
            && r.filteredScans == s.filteredScans + k
            && r.totalScans == |cfg.dataFile.scans|
  {
    FirstStopIsFirstInterruption(env, |cfg.dataFile.scans|, k);
  }

  /**
   * An exception thrown by a call that run() makes ends the run in ERROR
   * with that exception's text as the error message. When getScan or
   * addScan of scan k throws, the run leaves the loop there: exactly the
   * k scans before it are written and counted, and the writer is not
   * finished.
   */
  lemma ThrowingCallEndsRun(cfg: TaskConfig, s: TaskState, env: Environment, c: IoCall)
    requires cfg.binSize > 0.0
    requires ThrowsAt(cfg, env, c)
    ensures RunSpec(cfg, s, env).status == Error
    ensures RunSpec(cfg, s, env).errorMessage == Some(ExceptionText(env.fault(c).value))
    ensures (c.GetScan? || c.AddScan?) ==>
              var r := RunSpec(cfg, s, env);
              && r.writer == Some(WriterState(NewName(cfg), ResampledScans(cfg, cfg.dataFile.scans[..c.scanIndex]), false))
              && r.filteredScans == s.filteredScans + c.scanIndex
              && r.totalScans == |cfg.dataFile.scans|
  {
    var n := |cfg.dataFile.scans|;
    match c
    case GetScan(i) => FirstStopIsFirstInterruption(env, n, i);
    case AddScan(i) => FirstStopIsFirstInterruption(env, n, i);
    case FinishWriting => FirstStopIsFirstInterruption(env, n, n);
    case _ =>
  }

  /**
   * A run ends in ERROR exactly when a call it makes throws; its message
   * is then that exception's text, and no file is created, registered or
   * removed.
   */
  lemma FailedRun(cfg: TaskConfig, s: TaskState, env: Environment)
    requires cfg.binSize > 0.0
    ensures var r := RunSpec(cfg, s, env);
            r.status == Error <==> exists c :: ThrowsAt(cfg, env, c)
    ensures var r := RunSpec(cfg, s, env);
            forall c :: ThrowsAt(cfg, env, c) ==> r.errorMessage == Some(ExceptionText(env.fault(c).value))
    ensures var r := RunSpec(cfg, s, env);
            r.status == Error ==>
              && r.filteredRawDataFile == s.filteredRawDataFile
              && r.projectFiles == s.projectFiles
              && (s.writer.None? && r.writer.Some? ==> !r.writer.value.finished)
  {
    var r := RunSpec(cfg, s, env);
    forall c | ThrowsAt(cfg, env, c)
      ensures r.status == Error && r.errorMessage == Some(ExceptionText(env.fault(c).value))
    {
      ThrowingCallEndsRun(cfg, s, env, c);
    }
    if r.status == Error {
      var n := |cfg.dataFile.scans|;
      if env.fault(CreateNewFile).Some? {
        assert ThrowsAt(cfg, env, CreateNewFile);
      } else if env.fault(GetScanNumbers).Some? {
        assert ThrowsAt(cfg, env, GetScanNumbers);
      } else {
        var k := FirstStop(env, n, 0);
        if k < n && !env.cancelBefore(k) {
          if env.fault(GetScan(k)).Some? {
            assert ThrowsAt(cfg, env, GetScan(k));
          } else {
            assert ThrowsAt(cfg, env, AddScan(k));
          }
        } else if k == n {
          assert ThrowsAt(cfg, env, FinishWriting);
        }
      }
    }
  }

  /**
   * run() sets PROCESSING before anything else, so the status it starts
   * from, a CANCELED set by an earlier cancel() included, has no effect.
   */
  lemma StatusBeforeRunIsOverwritten(cfg: TaskConfig, s: TaskState, env: Environment, earlier: TaskStatus)
    requires cfg.binSize > 0.0
    ensures RunSpec(cfg, s.(status := earlier), env) == RunSpec(cfg, s, env)
  {
  }

  /**
   * The created file and the project's files change only in a run that
   * ends FINISHED, after the writer is finished.
   */
  lemma RegistryChangesOnlyAfterFinishWriting(cfg: TaskConfig, s: TaskState, env: Environment)
    requires cfg.binSize > 0.0
    ensures var r := RunSpec(cfg, s, env);
            r.projectFiles != s.projectFiles || r.filteredRawDataFile != s.filteredRawDataFile ==>
              r.status == Finished && r.writer.Some? && r.writer.value.finished
  {
  }

  /** A fresh run over a non-empty file that finishes reports full progress. */
  lemma FinishedRunReportsFullProgress(cfg: TaskConfig, s: TaskState, env: Environment)
    requires cfg.binSize > 0.0
    requires Consistent(s) && s.writer.None?
    ensures RunSpec(cfg, s, env).status == Finished ==>
              Progress(RunSpec(cfg, s, env)) == if |cfg.dataFile.scans| == 0 then 0.0 else 1.0
  {
    SuccessfulRun(cfg, s, env);
  }

  /** A fresh run canceled before scan k of n reports progress k / n from then on. */
  lemma CanceledRunReportsPartialProgress(cfg: TaskConfig, s: TaskState, env: Environment, k: nat)
    requires cfg.binSize > 0.0
    requires Consistent(s) && s.writer.None?
    requires CanceledBefore(cfg, env, k)
    ensures Progress(RunSpec(cfg, s, env)) == k as real / |cfg.dataFile.scans| as real
  {
    CancelStopsRun(cfg, s, env, k);
  }
}
