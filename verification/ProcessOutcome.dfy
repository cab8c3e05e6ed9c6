/**
 The classification of how one child process ended
 (crates/local-deployment/src/container.rs, NormalizedProcessOutcome).
 */
module ProcessOutcome {
  import opened Options

  datatype Status = Running | Completed | Failed | Killed

  datatype OutcomeClass = UserStopped | TaskFailed | Provider(code: string)

  datatype Classification = Classification(kind: OutcomeClass, providerCode: Option<string>)

  /** What the operating system reports: an exit code, or death by a signal. */
  datatype ExitStatus = Exited(code: int) | Signalled

  datatype ExecutorSignal = SignalSuccess | SignalFailure(classification: Option<Classification>)

  datatype Outcome =
    | Success(exitCode: int)
    | Failure(failureCode: Option<int>, classification: Option<Classification>)
    | RequestedStop(status: Status, classification: Option<Classification>)

  datatype CaptureResult = CaptureComplete | CaptureUnavailable | CapturePanicked

  /** The columns of an execution row that the protocol reads and writes. */
  datatype Row =
    | Absent
    | Present(status: Status, exitCode: Option<int>, classification: Option<Classification>)

  predicate Terminal(row: Row) {
    row.Present? && row.status != Running
  }

  function FromExecutorSignal(result: Result<ExecutorSignal, ()>): Outcome {
    match result
    case Ok(SignalSuccess) => Success(0)
    case Ok(SignalFailure(c)) => Failure(Some(1), c)
    case Err(_) => Failure(Some(1), None)
  }

  function FromExitStatus(result: Result<ExitStatus, ()>): Outcome {
    match result
    case Ok(Exited(code)) => if code == 0 then Success(0) else Failure(Some(code), None)
    case Ok(Signalled) => Failure(Some(-1), None)
    case Err(_) => Failure(None, None)
  }

  function StopOutcome(status: Status): Outcome {
    RequestedStop(status, if status == Killed then Some(Classification(UserStopped, None)) else None)
  }

  function RecordingFailed(): Outcome {
    Failure(None, Some(Classification(TaskFailed, Some("local_recording_unavailable"))))
  }

  /** The row a finished monitor writes for an outcome. */
  function RowOf(o: Outcome): Row {
    match o
    case Success(code) => Present(Completed, Some(code), None)
    case Failure(code, c) => Present(Failed, code, c)
    case RequestedStop(st, c) => Present(st, if st == Completed then Some(0) else None, c)
  }

  /** Which outcome the monitor publishes: a broken recording first, then a requested stop, then the child's own. */
  function Decide(capture: CaptureResult, intent: Option<Status>, own: Outcome): Outcome {
    if capture != CaptureComplete then RecordingFailed()
    else if intent.Some? then StopOutcome(intent.value)
    else own
  }

  /** The child's own outcomes, the only ones an exit observation can produce. */
  predicate OwnOutcome(o: Outcome) {
    !o.RequestedStop?
  }

  /**
   The published row is Completed exactly when recording succeeded and either the requested stop
   asked for Completed or no stop was requested and the child itself succeeded.
   */
  lemma CompletedExactlyWhen(capture: CaptureResult, intent: Option<Status>, own: Outcome)
    requires OwnOutcome(own)
    ensures RowOf(Decide(capture, intent, own)).status == Completed
       <==> capture == CaptureComplete && (intent == Some(Completed) || (intent == None && own.Success?))
    ensures intent != Some(Running) ==> Terminal(RowOf(Decide(capture, intent, own)))
  {
  }

  /**
   A stopped execution's row has the requested status, no exit code unless that status is Completed,
   and blames the user exactly if it is Killed.
   */
  predicate StoppedRow(row: Row, st: Status) {
    && row.Present? && row.status == st
    && (st == Completed ==> row.exitCode == Some(0)) && (st != Completed ==> row.exitCode == None)
    && (st == Killed ==> row.classification == Some(Classification(UserStopped, None)))
    && (st != Killed ==> row.classification == None)
  }

  /** The row of an execution whose recording broke: Failed whatever the child did, with a code of its own. */
  predicate UnrecordedRow(row: Row) {
    && row.Present? && row.status == Failed && row.exitCode == None
    && row.classification == Some(Classification(TaskFailed, Some("local_recording_unavailable")))
  }

  /** What the monitor publishes, case by case, in terms of the row's columns. */
  lemma PublishedRow(capture: CaptureResult, intent: Option<Status>, own: Outcome)
    requires OwnOutcome(own)
    ensures var row := RowOf(Decide(capture, intent, own));
            && (capture != CaptureComplete ==> UnrecordedRow(row))
            && (capture == CaptureComplete && intent.Some? ==> StoppedRow(row, intent.value))
            && (capture == CaptureComplete && intent.None? ==>
                  row == Present(if own.Success? then Completed else Failed,
                                 if own.Success? then Some(own.exitCode) else own.failureCode,
                                 if own.Success? then None else own.classification))
  {
  }

  /** A watched exit: Completed exactly for code zero, the code recorded, -1 for a signal, none if the watch broke. */
  lemma ExitRow(exit: Result<ExitStatus, ()>)
    ensures var row := RowOf(FromExitStatus(exit));
            && OwnOutcome(FromExitStatus(exit)) && Terminal(row) && row.classification == None
            && (row.status == Completed <==> exit == Ok(Exited(0)))
            && (forall code :: exit == Ok(Exited(code)) ==> row.exitCode == Some(code))
            && (exit == Ok(Signalled) ==> row.exitCode == Some(-1))
            && (exit.Err? ==> row.exitCode == None)
  {
  }
}
