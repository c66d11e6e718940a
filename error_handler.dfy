/** `ErrorHandler`: the error list and the file counters of a batch run. The
    clock is read by the caller and passed in. */
module ErrorHandling {
  import opened Wrappers

  /** A reading of the clock. */
  type Instant = int

  /** The record `log_error` keeps: the file, the error's message, its kind
      and the ISO time stamp of the moment it was logged. */
  datatype ErrorRecord = ErrorRecord(file: string, error: string, kind: string, timestamp: string)

  /** `error_type or type(error).__name__`: a missing or empty kind falls
      back to the name of the exception's class. */
  function ErrorKind(errorType: Option<string>, typeName: string): (kind: string)
    ensures kind == typeName || (errorType.Some? && kind == errorType.value)
    ensures errorType.Some? && errorType.value != "" ==> kind == errorType.value
    ensures errorType.None? || errorType.value == "" ==> kind == typeName
  {
    if errorType.Some? && errorType.value != "" then errorType.value else typeName
  }

  class ErrorHandler {
    var errors: seq<ErrorRecord>
    var totalFiles: int
    var processedFiles: int
    var failedFiles: int
    var startTime: Option<Instant>
    var endTime: Option<Instant>

    /** Every failed file has its record, and there is no other record. */
    ghost predicate Consistent()
      reads this
    {
      failedFiles == |errors|
    }

    /** A fresh handler: no errors, every counter at 0, no times. */
    constructor ()
      ensures errors == [] && totalFiles == 0 && processedFiles == 0 && failedFiles == 0
      ensures startTime == None && endTime == None
      ensures Consistent()
    {
      errors := [];
      totalFiles := 0;
      processedFiles := 0;
      failedFiles := 0;
      startTime := None;
      endTime := None;
    }

    /** `start_processing`: records the start and empties the error list, but
        resets no counter, so the counters agree with the list afterwards
        only if no file had failed. */
    method StartProcessing(now: Instant)
      modifies this
      ensures startTime == Some(now) && errors == []
      ensures totalFiles == old(totalFiles) && processedFiles == old(processedFiles)
      ensures failedFiles == old(failedFiles) && endTime == old(endTime)
      ensures Consistent() <==> old(failedFiles) == 0
    {
      startTime := Some(now);
      errors := [];
    }

    /** `end_processing`: records the end and nothing else. */
    method EndProcessing(now: Instant)
      modifies this
      ensures endTime == Some(now)
      ensures errors == old(errors) && startTime == old(startTime)
      ensures totalFiles == old(totalFiles) && processedFiles == old(processedFiles)
      ensures failedFiles == old(failedFiles)
      ensures Consistent() <==> old(Consistent())
    {
      endTime := Some(now);
    }

    /** `log_error`: appends exactly one record for the file and counts one
        more failed file; nothing else changes. */
    method LogError(file: string, error: string, errorType: Option<string>, typeName: string, timestamp: string)
      modifies this
      ensures errors == old(errors) + [ErrorRecord(file, error, ErrorKind(errorType, typeName), timestamp)]
      ensures failedFiles == old(failedFiles) + 1
      ensures totalFiles == old(totalFiles) && processedFiles == old(processedFiles)
      ensures startTime == old(startTime) && endTime == old(endTime)
      ensures Consistent() <==> old(Consistent())
    {
      var record := ErrorRecord(file, error, ErrorKind(errorType, typeName), timestamp);
      errors := errors + [record];
      failedFiles := failedFiles + 1;
    }

    /** `log_success`: counts one more processed file; nothing else changes. */
    method LogSuccess(file: string)
      modifies this
      ensures processedFiles == old(processedFiles) + 1
      ensures errors == old(errors) && failedFiles == old(failedFiles)
      ensures totalFiles == old(totalFiles)
      ensures startTime == old(startTime) && endTime == old(endTime)
      ensures Consistent() <==> old(Consistent())
    {
      processedFiles := processedFiles + 1;
    }

    /** `has_errors`: some error has been logged since the last start. */
    predicate HasErrors()
      reads this
      ensures HasErrors() <==> errors != []
    {
      |errors| > 0
    }
  }

  /** How the conversion of one file ended: converted, or failed with an
      exception's message, the name of its class and the time of logging. */
  datatype Outcome = Converted | Failed(message: string, typeName: string, timestamp: string)

  /** The records of the failed files, in order. */
  function Records(files: seq<string>, outcomes: seq<Outcome>): (records: seq<ErrorRecord>)
    requires |files| == |outcomes|
    ensures |records| <= |files|
    decreases |files|
  {
    if files == [] then []
    else
      var n := |files| - 1;
      Records(files[..n], outcomes[..n]) +
        match outcomes[n]
        case Failed(message, typeName, timestamp) => [ErrorRecord(files[n], message, typeName, timestamp)]
        case Converted => []
  }

  /** No record is kept exactly when every file was converted. */
  lemma {:induction false} RecordsEmpty(files: seq<string>, outcomes: seq<Outcome>)
    requires |files| == |outcomes|
    ensures Records(files, outcomes) == [] <==> forall i :: 0 <= i < |outcomes| ==> outcomes[i].Converted?
    decreases |files|
  {
    if files != [] {
      var n := |files| - 1;
      RecordsEmpty(files[..n], outcomes[..n]);
      assert forall i :: 0 <= i < n ==> outcomes[..n][i] == outcomes[i];
    }
  }

  /** `process_files` of the batch converter, as it drives the handler: a
      start, the file total, per file a success or the error, the end, and
      the verdict `not has_errors()`. The conversions' outcomes and the clock
      readings are parameters. */
  method ProcessFiles(handler: ErrorHandler, files: seq<string>, outcomes: seq<Outcome>, start: Instant, end: Instant)
    returns (ok: bool)
    requires |files| == |outcomes|
    modifies handler
    ensures handler.totalFiles == |files| && handler.startTime == Some(start)
    ensures handler.errors == Records(files, outcomes)
    ensures handler.failedFiles == old(handler.failedFiles) + |Records(files, outcomes)|
    ensures handler.processedFiles == old(handler.processedFiles) + |files| - |Records(files, outcomes)|
    ensures files != [] ==> handler.endTime == Some(end)
    ensures files == [] ==> handler.endTime == old(handler.endTime)
    ensures ok <==> forall i :: 0 <= i < |outcomes| ==> outcomes[i].Converted?
  {
    handler.StartProcessing(start);
    handler.totalFiles := |files|;
    if files == [] {
      return true;
    }
    for i := 0 to |files|
      invariant handler.totalFiles == |files| && handler.startTime == Some(start)
      invariant handler.endTime == old(handler.endTime)
      invariant handler.errors == Records(files[..i], outcomes[..i])
      invariant handler.failedFiles == old(handler.failedFiles) + |Records(files[..i], outcomes[..i])|
      invariant handler.processedFiles ==
        old(handler.processedFiles) + i - |Records(files[..i], outcomes[..i])|
    {
      assert files[..i + 1][..i] == files[..i] && outcomes[..i + 1][..i] == outcomes[..i];
      match outcomes[i]
      case Failed(message, typeName, timestamp) =>
        handler.LogError(files[i], message, None, typeName, timestamp);
      case Converted =>
        handler.LogSuccess(files[i]);
    }
    assert files[..|files|] == files && outcomes[..|outcomes|] == outcomes;
    handler.EndProcessing(end);
    RecordsEmpty(files, outcomes);
    ok := !handler.HasErrors();
  }
}
