/**
 * The m/z resample task object: its fields, the getters the task runtime
 * polls, cancel(), and run(), which resamples every scan of the source
 * file into a new file.
 */
module ResampleFilter {
  import opened Wrappers
  import opened RawData
  import opened ScanResampling
  import opened TaskLifecycle

  /** The parameter values the task reads from ResampleFilterParameters. */
  datatype ResampleFilterParameters = ResampleFilterParameters(suffix: string, binSize: real, autoRemove: bool)

  class ResampleFilterTask {
    const dataFile: RawDataFile
    const suffix: string
    const binSize: real
    const removeOriginal: bool
    /** ScanUtils.binValues, which this model leaves uninterpreted. */
    const binValues: BinValues

    var status: TaskStatus
    var errorMessage: Option<string>
    var filteredScans: nat
    var totalScans: nat
    var filteredRawDataFile: Option<RawDataFile>

    /** The RawDataFileWriter that run() obtains from MZmineCore.createNewFile, once it has one. */
    var writer: Option<WriterState>
    /** The raw data files of MZmineCore's current project. */
    var projectFiles: set<RawDataFile>

    /** The parameters and collaborators fixed at construction. */
    function Config(): TaskConfig
    {
      TaskConfig(dataFile, suffix, binSize, removeOriginal, binValues)
    }

    /** The fields as one value. */
    function State(): TaskState
      reads this
    {
      TaskState(status, errorMessage, filteredScans, totalScans, filteredRawDataFile, writer, projectFiles)
    }

    ghost predicate Valid()
      reads this
    {
      binSize > 0.0 && Consistent(State())
    }

    /** A task for one source file: WAITING, nothing counted, no writer yet. */
    constructor (dataFile: RawDataFile, parameters: ResampleFilterParameters, binValues: BinValues,
                 projectFiles: set<RawDataFile>)
      requires parameters.binSize > 0.0
      ensures Valid()
      ensures Config() == TaskConfig(dataFile, parameters.suffix, parameters.binSize, parameters.autoRemove, binValues)
      ensures State() == Initial(projectFiles)
    {
      this.dataFile := dataFile;
      suffix := parameters.suffix;
      binSize := parameters.binSize;
      removeOriginal := parameters.autoRemove;
      this.binValues := binValues;
      status := Waiting;
      errorMessage := None;
      filteredScans, totalScans := 0, 0;
      filteredRawDataFile := None;
      writer := None;
      this.projectFiles := projectFiles;
    }

    /** getFinishedPercentage: the fraction of scans processed, always within [0, 1]. */
    function GetFinishedPercentage(): (r: real)
      reads this
      requires Valid()
      ensures 0.0 <= r <= 1.0
      ensures totalScans == 0 ==> r == 0.0
      ensures totalScans > 0 ==> (r == 1.0 <==> filteredScans == totalScans)
    {
      Progress(State())
    }

    /** getStatus: a task still WAITING has done nothing; a FINISHED one has created its file. */
    function GetStatus(): (r: TaskStatus)
      reads this
      requires Valid()
      ensures r == Waiting ==> writer.None? && filteredScans == 0 && errorMessage.None?
      ensures r == Finished ==> filteredRawDataFile.Some? && writer.Some? && writer.value.finished
    {
      status
    }

    /** getErrorMessage: the message the catch block of run() recorded; a WAITING task has none. */
    function GetErrorMessage(): (r: Option<string>)
      reads this
      requires Valid()
      ensures status == Waiting ==> r.None?
    {
      errorMessage
    }

    /** cancel: status becomes CANCELED, whatever it was; nothing else changes. */
    method Cancel()
      modifies this
      ensures State() == old(State()).(status := Canceled)
      ensures old(Valid()) ==> Valid()
    {
      status := Canceled;
    }

    /**
     * run: resample every scan of the source file into a new file, as
     * RunSpec describes, meeting the cancel requests and I/O faults of env.
     * The task runtime runs a task once: run() starts from a task that has
     * no writer yet.
     */
    method Run(env: Environment)
      requires Valid()
      requires writer.None?
      modifies this
      ensures Valid()
      ensures State() == RunSpec(Config(), old(State()), env)
    {
      ghost var before := State();
      var ready := OpenRun(env, before);
      if !ready {
        return;
      }

      var scanIndex := 0;
      while scanIndex < totalScans
        invariant 0 <= scanIndex <= totalScans == |dataFile.scans|
        invariant State() == Scanned(Config(), before, scanIndex)
        invariant forall j :: 0 <= j < scanIndex ==> Interrupt(env, j).None?
      {
        var stopped := FilterNextScan(env, scanIndex, before);
        if stopped {
          RunSpecStopsAt(Config(), before, env, scanIndex);
          return;
        }
        scanIndex := scanIndex + 1;
      }
      RunSpecStopsAt(Config(), before, env, |dataFile.scans|);
      FinishRun(env, before);
    }

    /**
     * The start of run(): PROCESSING, then MZmineCore.createNewFile for the
     * new file and dataFile.getScanNumbers, either of which may throw.
     * It reports whether both succeeded.
     */
    method OpenRun(env: Environment, ghost before: TaskState) returns (ready: bool)
      requires binSize > 0.0
      requires State() == before && writer.None?
      modifies this
      ensures ready <==> env.fault(CreateNewFile).None? && env.fault(GetScanNumbers).None?
      ensures !ready ==> State() == RunSpec(Config(), before, env)
      ensures ready ==> State() == Scanned(Config(), before, 0)
    {
      status := Processing;

      // MZmineCore.createNewFile(dataFile.getName() + " " + suffix)
      var createFault := env.fault(CreateNewFile);
      if createFault.Some? {
        status, errorMessage := Error, Some(ExceptionText(createFault.value));
        return false;
      }
      var newName := dataFile.name + " " + suffix;
      writer := Some(WriterState(newName, [], false));

      // dataFile.getScanNumbers()
      var numbersFault := env.fault(GetScanNumbers);
      if numbersFault.Some? {
        status, errorMessage := Error, Some(ExceptionText(numbersFault.value));
        return false;
      }
      totalScans := |dataFile.scans|;
      return true;
    }

    /**
     * One iteration of run()'s scan loop: the cancel check, the scan read,
     * its resampling and the append to the writer. It reports whether the
     * loop stops here, CANCELED or in ERROR.
     */
    method FilterNextScan(env: Environment, scanIndex: nat, ghost before: TaskState) returns (stopped: bool)
      requires binSize > 0.0
      requires scanIndex < |dataFile.scans|
      requires State() == Scanned(Config(), before, scanIndex)
      modifies this
      ensures stopped <==> Interrupt(env, scanIndex).Some?
      ensures stopped ==> State() == AfterScans(Config(), before, env, scanIndex)
      ensures !stopped ==> State() == Scanned(Config(), before, scanIndex + 1)
    {
      // another thread may call cancel() between two scans
      if env.cancelBefore(scanIndex) {
        Cancel();
      }
      if status == Canceled {
        assert Interrupt(env, scanIndex) == Some(CancelRequested);
        return true;
      }

      // dataFile.getScan(scanNumbers[scanIndex])
      var readFault := env.fault(GetScan(scanIndex));
      if readFault.Some? {
        assert Interrupt(env, scanIndex) == Some(Fault(readFault.value));
        status, errorMessage := Error, Some(ExceptionText(readFault.value));
        return true;
      }
      var oldScan := dataFile.scans[scanIndex];
      var newScan := FilterScan(oldScan, binSize, binValues);

      // rawDataFileWriter.addScan(newScan)
      var appendFault := env.fault(AddScan(scanIndex));
      if appendFault.Some? {
        assert Interrupt(env, scanIndex) == Some(Fault(appendFault.value));
        status, errorMessage := Error, Some(ExceptionText(appendFault.value));
        return true;
      }
      ScannedStep(Config(), before, scanIndex);
      writer := Some(writer.value.(scans := writer.value.scans + [newScan]));
      filteredScans := filteredScans + 1;
      return false;
    }

    /**
     * The end of run() once every scan is written: finishWriting, addFile
     * with the new file, removeFile of the source when requested, FINISHED.
     */
    method FinishRun(env: Environment, ghost before: TaskState)
      requires binSize > 0.0
      requires State() == Scanned(Config(), before, |dataFile.scans|)
      modifies this
      ensures State() == AfterScans(Config(), before, env, |dataFile.scans|)
    {
      // rawDataFileWriter.finishWriting()
      var finishFault := env.fault(FinishWriting);
      if finishFault.Some? {
        status, errorMessage := Error, Some(ExceptionText(finishFault.value));
        return;
      }
      writer := Some(writer.value.(finished := true));
      filteredRawDataFile := Some(WrittenFile(writer.value));

      // MZmineCore.getCurrentProject().addFile(filteredRawDataFile)
      projectFiles := projectFiles + {filteredRawDataFile.value};
      if removeOriginal {
        // MZmineCore.getCurrentProject().removeFile(dataFile)
        projectFiles := projectFiles - {dataFile};
      }
      status := Finished;
    }

    /** getCreatedObjects: always one element, the created file, set only once the writer is finished. */
    function GetCreatedObjects(): (created: seq<Option<RawDataFile>>)
      reads this
      requires Valid()
      ensures |created| == 1
      ensures created[0].Some? ==>
                writer.Some? && writer.value.finished && created[0].value == WrittenFile(writer.value)
      ensures created[0] == filteredRawDataFile
    {
      [filteredRawDataFile]
    }
  }
}
