/** The persisted rows of one migration job, and the sets of phases, states and
  * error codes the runner tests them against.
  */
module Rows {

  datatype Option<+T> = None | Some(value: T)

  /** Positions in the insertion-ordered tables stand for the generated ids. */
  type EntryId = nat
  type AttemptId = nat

  /** The name of a file in the staging directory. */
  type Name = nat

  /** File contents; equal MD5 and equal size are read as equal contents. */
  type Content = seq<nat>

  datatype Phase =
    | Prepared | Downloading | DownloadRetryWait | Staged
    | TransferIntent | WaitingTransfer | Verifying
    | MoveIntent | WaitingMove | VerifyingFinal | Succeeded | Failed
    | UnknownTransfer | UnknownMove | AbandonedTransfer | AbandonedMove

  /** `Checking` is the entry state "verifying", `Fetching` is "downloading" and `Cached` is "staged". */
  datatype EntryState =
    | Planned | Transferring | WaitingOperation | Checking | Committing | Fetching | Cached
    | OutcomeUnknown | FailedEntry | Conflict | Done | AlreadyVerified | SkippedByUser
    | SourceChanged | VerificationUnavailable | Cancelled

  datatype JobState =
    | Queued | Planning | Ready | Running | Paused | NeedsAttention | AwaitingCredentials
    | Completed | CompletedWithIssues | Stopped

  datatype Namespace = Unclaimed | ClaimIntent | Owned | ClaimUnknown

  /** A remote path: the destination of an entry, or the private temporary path of an attempt. */
  datatype Place = Dest(e: EntryId) | Temp(e: EntryId, a: AttemptId)

  datatype Kind = File | Dir

  /** `direct` holds for a job whose `remote_root` is empty. */
  datatype Job = Job(direct: bool, state: JobState, resume: Option<JobState>,
                     stopRequested: bool, fullStop: bool, pauseRequested: bool,
                     retryEnabled: bool, space: Namespace)

  datatype Entry = Entry(kind: Kind, planned: Option<Content>, selected: bool, state: EntryState,
                         attempt: Option<AttemptId>, downloads: nat, retryAt: Option<int>,
                         pointRequested: bool, pointAttempts: nat)

  datatype Attempt = Attempt(entry: EntryId, remote: Place, phase: Phase,
                             local: Option<Name>, operation: bool, error: Option<Code>)

  predicate Active(s: EntryState) {
    s.Transferring? || s.WaitingOperation? || s.Checking? || s.Committing? || s.Fetching? || s.Cached?
  }

  predicate Success(s: EntryState) {
    s.Done? || s.AlreadyVerified? || s.SkippedByUser?
  }

  /** An entry that is being worked on, or that a point retry was requested for. */
  predicate Busy(e: Entry) {
    Active(e.state) || e.pointRequested
  }

  /** The states of an entry whose staged copy is still going to be used. */
  predicate Downloadable(s: EntryState) {
    s.Planned? || s.Transferring? || s.Fetching? || s.Cached?
  }

  /** The phases from which an upload may still be submitted. */
  predicate PreSubmit(p: Phase) {
    p.Prepared? || p.Downloading? || p.DownloadRetryWait? || p.Staged?
  }

  /** The phases from which a move may still be submitted. */
  predicate PreMove(p: Phase) {
    PreSubmit(p) || p.TransferIntent? || p.WaitingTransfer? || p.Verifying?
  }

  predicate UnknownPhase(p: Phase) {
    p.TransferIntent? || p.MoveIntent? || p.UnknownTransfer? || p.UnknownMove?
  }

  predicate AbandonedPhase(p: Phase) {
    p.AbandonedTransfer? || p.AbandonedMove?
  }

  predicate SideEffectPhase(p: Phase) {
    UnknownPhase(p) || p.WaitingTransfer? || p.WaitingMove? || p.Verifying? || p.VerifyingFinal?
  }

  /** The phase name contains "move". */
  predicate MovePhase(p: Phase) {
    p.MoveIntent? || p.WaitingMove? || p.UnknownMove? || p.AbandonedMove?
  }

  predicate PointRetryPhase(p: Phase) {
    p.Failed? || UnknownPhase(p) || AbandonedPhase(p) || p.WaitingTransfer? || p.WaitingMove?
  }

  /** What the runner learns of an error: its code, whether the mutation behind it may have
    * happened, whether it rejects the credentials, and whether it refuses one file only.
    */
  datatype Error = Error(code: Code, uncertain: bool, auth: bool, denied: bool)

  datatype Code =
    | DestinationOutage          // a "destination_" code that a point retry repeats
    | DestinationRefusal         // any other "destination_" code
    | DestinationConflict
    | DirectoryPending
    | RemoteOperationFailed
    | InvalidReference
    | ImpossiblePath                // the service names a path that is none
    | OutcomeUnknownCode
    | VerificationMismatch
    | SourceDownload             // a code that schedules another download
    | SourceError
    | SourceAltered              // the source no longer has the planned file
    | StagingError
    | NamespaceTaken             // the path of the technical namespace exists already
    | InternalError

  /** `destination_interrupted`. */
  predicate Interrupted(err: Error) {
    err.code.DestinationOutage? || err.code.DestinationRefusal?
  }

  /** A GET was answered, but with something the client does not recognise as an answer of the service: an
    * impossible path, or a document of another shape, over which the code itself fails.
    */
  predicate Malformed(err: Error) {
    (err.code.ImpossiblePath? || err.code.InternalError?) && !err.uncertain && !err.auth
  }

  predicate PointRepeats(err: Error) {
    err.code.DestinationOutage? || err.code.RemoteOperationFailed? || err.code.DirectoryPending?
    || err.code.SourceDownload?
  }

  /** The error proves that the submission behind it has no further effect. */
  predicate Definite(err: Error) {
    !err.uncertain && !Interrupted(err)
  }

  /** What may end a call early: the process dies, the stop request is noticed, the store refuses
    * a write because the job was stopped or because the row no longer allows it, or a classified error.
    */
  datatype Exn = Crashed | StopSeen | JobStopped | Refused | Raised(err: Error)

  datatype Status = Pass | Raise(exn: Exn) {
    predicate IsFailure() { Raise? }
    function PropagateFailure(): Status requires Raise? { this }
  }
}
