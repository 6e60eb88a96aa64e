/** The store transactions that touch more than one row, as functions on the tables.
  * A refused transaction changes nothing.
  */
module Transactions {
  import opened Rows

  datatype Tables = Tables(job: Job, entries: seq<Entry>, attempts: seq<Attempt>)

  datatype Outcome = Committed(t: Tables) | Rejected(exn: Exn)

  predicate HasEntry(t: Tables, e: EntryId) {
    e < |t.entries|
  }

  /** The attempt row an entry points at, if any. */
  predicate Linked(t: Tables, e: EntryId)
    requires HasEntry(t, e)
  {
    t.entries[e].attempt.Some? ==> t.entries[e].attempt.value < |t.attempts|
  }

  function Current(t: Tables, e: EntryId): Option<Attempt>
    requires HasEntry(t, e) && Linked(t, e)
  {
    if t.entries[e].attempt.None? then None else Some(t.attempts[t.entries[e].attempt.value])
  }

  predicate Halted(job: Job) {
    job.stopRequested || job.state.Stopped?
  }

  /** The phase a replaced attempt is left in by a point retry. */
  function Abandon(p: Phase): Phase {
    if p.Failed? then Failed else if MovePhase(p) then AbandonedMove else AbandonedTransfer
  }

  /** A failed file of a direct job whose attempt did not fail. */
  predicate Unretryable(t: Tables, e: EntryId) {
    && t.job.direct && HasEntry(t, e) && Linked(t, e)
    && t.entries[e].selected && t.entries[e].state.FailedEntry? && t.entries[e].kind.File?
    && Current(t, e).Some? && !Current(t, e).value.phase.Failed?
  }

  /** Entry `e` is in progress or still planned, but its attempt was abandoned and nobody asked for a point retry. The
    * namespace of the job, if it needs one, has been claimed.
    */
  predicate Stuck(t: Tables, e: EntryId) {
    && HasEntry(t, e) && Linked(t, e) && t.entries[e].selected && InWork(t.entries[e].state) && !t.entries[e].pointRequested
    && Current(t, e).Some? && AbandonedPhase(Current(t, e).value.phase)
    && (t.job.direct || t.job.space.Owned?)
  }

  ghost predicate KeepsStuck(t: Tables, t': Tables) {
    forall e: EntryId | Stuck(t, e) :: Stuck(t', e)
  }

  /** The stuck entry `e` is still stuck and in the same state, or it was a planned one with a directory above it. */
  ghost predicate StaysOrSkipped(t: Tables, t': Tables, e: EntryId, below: (EntryId, EntryId) -> bool)
    requires Stuck(t, e)
  {
    || (Stuck(t', e) && t'.entries[e].state == t.entries[e].state)
    || (t.entries[e].state.Planned? && exists d: EntryId :: below(d, e))
  }

  ghost predicate StaysStuck(t: Tables, t': Tables, below: (EntryId, EntryId) -> bool) {
    forall e: EntryId | Stuck(t, e) :: StaysOrSkipped(t, t', e, below)
  }

  lemma StaysReflexive(t: Tables, below: (EntryId, EntryId) -> bool)
    ensures StaysStuck(t, t, below)
  {
  }

  lemma StaysTransitive(t: Tables, t1: Tables, t2: Tables, below: (EntryId, EntryId) -> bool)
    requires StaysStuck(t, t1, below) && StaysStuck(t1, t2, below)
    ensures StaysStuck(t, t2, below)
  {
    forall e: EntryId | Stuck(t, e) ensures StaysOrSkipped(t, t2, e, below) {
      assert StaysOrSkipped(t, t1, e, below) && (Stuck(t1, e) ==> StaysOrSkipped(t1, t2, e, below));
    }
  }

  /** `new_attempt`: the id of the new row is the length of the table before the call. */
  function NewAttempt(t: Tables, e: EntryId, point: bool, reuse: bool): Outcome
    requires HasEntry(t, e) && Linked(t, e)
    requires reuse ==> point
  {
    var row, prior := t.entries[e], Current(t, e);
    if Halted(t.job) then Rejected(JobStopped)
    else if !point && t.job.direct && prior.Some? && !prior.value.phase.Failed? then Rejected(Refused)
    else if point && !row.pointRequested then Rejected(Refused)
    else if point && prior.None? && (!row.state.FailedEntry? || reuse) then Rejected(Refused)
    else if point && prior.Some?
            && (!PointRetryPhase(prior.value.phase) || (reuse && prior.value.local.None?)) then Rejected(Refused)
    else
      var a := |t.attempts|;
      var local := if reuse then prior.value.local else None;
      var created := Attempt(e, if t.job.direct then Dest(e) else Temp(e, a),
                           if local.Some? then Staged else Prepared, local, false, None);
      if point then
        var kept := if prior.None? then t.attempts else
          var o := row.attempt.value;
          t.attempts[o := t.attempts[o].(phase := Abandon(t.attempts[o].phase),
                                         local := if reuse then None else t.attempts[o].local)];
        Committed(t.(attempts := kept + [created],
                     entries := t.entries[e := row.(attempt := Some(a), state := Transferring,
                                                    downloads := 0, retryAt := None)]))
      else
        Committed(t.(attempts := t.attempts + [created], entries := t.entries[e := row.(attempt := Some(a))]))
  }

  /** `confirm_point_copy`: the destination already holds the file, so no new upload is needed. */
  function ConfirmPointCopy(t: Tables, e: EntryId): Outcome
    requires HasEntry(t, e) && Linked(t, e)
  {
    var row, prior := t.entries[e], Current(t, e);
    if Halted(t.job) then Rejected(JobStopped)
    else if !row.pointRequested || !row.kind.File? || prior.None? || !PointRetryPhase(prior.value.phase)
    then Rejected(Refused)
    else
      var a := row.attempt.value;
      var phase := if t.job.direct then Succeeded
                   else if MovePhase(prior.value.phase) then AbandonedMove else AbandonedTransfer;
      Committed(t.(entries := t.entries[e := row.(state := AlreadyVerified)],
                   attempts := t.attempts[a := t.attempts[a].(phase := phase)]))
  }

  predicate InWork(s: EntryState) {
    s.Planned? || Active(s)
  }

  /** The state a job takes when a point retry of one of its entries ends. */
  function StateAfterPoint(t: Tables): JobState {
    if Halted(t.job) then t.job.state
    else if t.job.pauseRequested then Paused
    else if exists i | 0 <= i < |t.entries| :: InWork(t.entries[i].state) then Running
    else if exists i | 0 <= i < |t.entries| :: t.entries[i].state.OutcomeUnknown? then NeedsAttention
    else if forall i | 0 <= i < |t.entries| :: Success(t.entries[i].state) then Completed
    else CompletedWithIssues
  }

  /** `finish_point_retry`. */
  function FinishPointRetry(t: Tables, e: EntryId): Tables
    requires HasEntry(t, e)
  {
    if !t.entries[e].pointRequested then t
    else
      var state := StateAfterPoint(t);
      var entries := t.entries[e := t.entries[e].(pointRequested := false, retryAt := None)];
      var job := if t.job.state.AwaitingCredentials? && !t.job.stopRequested
                 then t.job.(resume := Some(state)) else t.job.(state := state);
      t.(entries := entries, job := job)
  }

  /** `schedule_download_retry`: `None` when the retry must not be scheduled. */
  function ScheduleDownloadRetry(t: Tables, e: EntryId, retryAt: int, code: Code): Option<Tables>
    requires HasEntry(t, e) && Linked(t, e) && t.entries[e].attempt.Some?
  {
    var row := t.entries[e];
    if !t.job.retryEnabled || t.job.stopRequested || t.job.fullStop || row.pointRequested then None
    else
      var a := row.attempt.value;
      Some(t.(entries := t.entries[e := row.(state := Fetching, retryAt := Some(retryAt))],
              attempts := t.attempts[a := t.attempts[a].(phase := DownloadRetryWait, error := Some(code))]))
  }

  /** The scheduled download of an entry that disabling the retries cancels. */
  predicate WaitsForDownload(t: Tables, e: EntryId)
    requires HasEntry(t, e) && Linked(t, e)
  {
    && !t.entries[e].pointRequested
    && Current(t, e).Some? && Current(t, e).value.phase.DownloadRetryWait?
  }

  ghost predicate AllLinked(t: Tables) {
    && (forall e: EntryId | HasEntry(t, e) :: Linked(t, e))
    && (forall a: AttemptId | a < |t.attempts| :: HasEntry(t, t.attempts[a].entry))
  }

  /** The single transaction of `set_retry_enabled`; the point retries it cancels are finished afterwards. */
  function SetRetryEnabled(t: Tables, enabled: bool): Tables
    requires AllLinked(t)
  {
    if t.job.retryEnabled == enabled then t
    else if enabled then t.(job := t.job.(retryEnabled := true))
    else
      var entries := seq(|t.entries|, e requires 0 <= e < |t.entries| && Linked(t, e) =>
        var row := t.entries[e].(retryAt := None);
        if WaitsForDownload(t, e) then row.(state := FailedEntry) else row);
      var attempts := seq(|t.attempts|, a requires 0 <= a < |t.attempts| && HasEntry(t, t.attempts[a].entry)
                                                  && Linked(t, t.attempts[a].entry) =>
        var e := t.attempts[a].entry;
        if t.entries[e].attempt == Some(a) && WaitsForDownload(t, e)
        then t.attempts[a].(phase := Failed) else t.attempts[a]);
      Tables(t.job.(retryEnabled := false), entries, attempts)
  }

  // ---------------------------------------------------------------- what the runner asks of the rows

  /** The entry a step takes up: the one a point retry was requested for, or the one in progress, or the next
    * planned one.
    */
  predicate NextUp(t: Tables, e: EntryId) {
    && HasEntry(t, e) && t.entries[e].selected
    && if t.entries[e].pointRequested then !t.job.pauseRequested
       else
         && (forall i | 0 <= i < |t.entries| :: !(t.entries[i].selected && t.entries[i].pointRequested))
         && if Active(t.entries[e].state) then forall i | 0 <= i < e :: !(t.entries[i].selected && Active(t.entries[i].state))
            else
              && t.entries[e].state.Planned? && !t.job.pauseRequested
              && (forall i | 0 <= i < |t.entries| :: !(t.entries[i].selected && Active(t.entries[i].state)))
              && forall i | 0 <= i < e :: !(t.entries[i].selected && t.entries[i].state.Planned?)
  }

  /** Nothing is in progress, and the job is to pause or has nothing left to do. */
  predicate AtRest(t: Tables) {
    && (forall i | 0 <= i < |t.entries| :: !(t.entries[i].selected && Active(t.entries[i].state)))
    && (t.job.pauseRequested
        || forall i | 0 <= i < |t.entries| ::
             !(t.entries[i].selected && (t.entries[i].state.Planned? || t.entries[i].pointRequested)))
  }

  /** The state of a job with nothing left to do. */
  ghost function FinalState(t: Tables): JobState {
    if t.job.retryEnabled && exists e | 0 <= e < |t.entries| :: t.entries[e].selected && t.entries[e].state.OutcomeUnknown?
    then NeedsAttention
    else if forall e | 0 <= e < |t.entries| :: t.entries[e].selected ==> Success(t.entries[e].state) then Completed
    else CompletedWithIssues
  }

  /** What a retry asks for before it begins. */
  predicate Retryable(t: Tables) {
    && (if t.job.state.AwaitingCredentials? then t.job.resume else Some(t.job.state))
       in {Some(CompletedWithIssues), Some(NeedsAttention), Some(Paused)}
    && (forall e | 0 <= e < |t.entries| :: !Busy(t.entries[e]) && !t.entries[e].state.OutcomeUnknown?)
    && (forall e | 0 <= e < |t.entries| :: !NeedsPointRetry(t, e))
  }

  /** The failed entry was abandoned: only a point retry takes it up. */
  predicate NeedsPointRetry(t: Tables, e: EntryId)
    requires e < |t.entries|
  {
    var row := t.entries[e];
    row.state.FailedEntry? && row.attempt.Some? && row.attempt.value < |t.attempts|
    && AbandonedPhase(t.attempts[row.attempt.value].phase)
  }

  /** A job on hold may go on unless its namespace is in doubt, or all that is left is unknown. */
  predicate Resumable(t: Tables) {
    && (t.job.state.Paused? || t.job.state.AwaitingCredentials? || t.job.state.NeedsAttention?)
    && !t.job.space.ClaimIntent? && !t.job.space.ClaimUnknown?
    && ((exists e | 0 <= e < |t.entries| :: t.entries[e].pointRequested || InWork(t.entries[e].state))
        || forall e | 0 <= e < |t.entries| :: !t.entries[e].state.OutcomeUnknown?)
  }

  /** The state a job goes on in: one that was waiting for its plan waits for it again. */
  function ResumedState(t: Tables): JobState {
    if exists e | 0 <= e < |t.entries| :: t.entries[e].pointRequested then Running
    else if t.job.resume == Some(Queued) || t.job.resume == Some(Planning) then Queued
    else if t.job.resume == Some(JobState.Ready) then JobState.Ready
    else if t.entries == [] then Queued
    else Running
  }

  /** The entry a retry comes to next. */
  predicate NextFailed(t: Tables, e: EntryId) {
    && HasEntry(t, e) && t.entries[e].selected && t.entries[e].state.FailedEntry?
    && forall i | 0 <= i < e :: !(t.entries[i].selected && t.entries[i].state.FailedEntry?)
  }

  /** The attempt of `e` has failed although the entry is still planned: the process died in between. */
  predicate HalfFailed(t: Tables, e: EntryId)
    requires HasEntry(t, e)
  {
    var attempt := t.entries[e].attempt;
    t.entries[e].state.Planned? && attempt.Some? && attempt.value < |t.attempts| && t.attempts[attempt.value].phase.Failed?
  }

  predicate Stoppable(s: JobState) {
    !s.Completed? && !s.Stopped?
  }

  /** `request_stop`. */
  function RequestStop(t: Tables): Outcome {
    if Halted(t.job) then Committed(t)
    else if !Stoppable(t.job.state) then Rejected(Refused)
    else Committed(t.(job := t.job.(stopRequested := true)))
  }

  /** `request_full_stop`. */
  function RequestFullStop(t: Tables): Outcome {
    if t.job.fullStop then Committed(t)
    else if t.job.state.Completed? then Rejected(Refused)
    else
      Committed(Tables(t.job.(stopRequested := true, fullStop := true),
                       seq(|t.entries|, e requires 0 <= e < |t.entries| =>
                         t.entries[e].(pointRequested := false, retryAt := None)),
                       t.attempts))
  }

  /** `cancel_local_entries`. */
  function CancelLocalEntries(t: Tables): Outcome {
    if !t.job.state.Stopped? || !t.job.fullStop then Rejected(Refused)
    else
      Committed(t.(entries := seq(|t.entries|, e requires 0 <= e < |t.entries| =>
        if InWork(t.entries[e].state) || t.entries[e].state.OutcomeUnknown?
        then t.entries[e].(state := Cancelled, pointRequested := false, retryAt := None)
        else t.entries[e])))
  }

  /** `queue_point_retry`, with `attempt` the row the caller believes to be current. */
  function QueuePointRetry(t: Tables, e: EntryId, attempt: Option<AttemptId>): Outcome
    requires HasEntry(t, e) && Linked(t, e)
  {
    var row := t.entries[e];
    var state := if t.job.state.AwaitingCredentials? then t.job.resume else Some(t.job.state);
    if Halted(t.job) then Rejected(JobStopped)
    else if state !in {Some(NeedsAttention), Some(Paused), Some(CompletedWithIssues)} then Rejected(Refused)
    else if !t.job.space.Owned? then Rejected(Refused)
    else if !row.selected || !row.kind.File? || !(row.state.FailedEntry? || row.state.OutcomeUnknown?)
    then Rejected(Refused)
    else if row.attempt != attempt then Rejected(Refused)
    else if attempt.None? && !row.state.FailedEntry? then Rejected(Refused)
    else if attempt.Some? && !PointRetryPhase(t.attempts[attempt.value].phase) then Rejected(Refused)
    else if exists i | 0 <= i < |t.entries| :: Busy(t.entries[i]) then Rejected(Refused)
    else
      Committed(t.(entries := t.entries[e := row.(pointRequested := true, pointAttempts := 0, retryAt := None)],
                   job := t.job.(state := Running, resume := None, pauseRequested := false)))
  }

  /** `recover`, run when the process starts. */
  function Recover(t: Tables): Tables {
    var s := t.job.state;
    if !t.job.stopRequested
       && (s.Queued? || s.Planning? || s.Ready? || s.Running? || s.Paused? || s.NeedsAttention?)
    then t.(job := t.job.(state := AwaitingCredentials, resume := Some(if s.Planning? then Queued else s)))
    else t
  }

  predicate Verified(t: Tables, a: AttemptId)
    requires a < |t.attempts| && HasEntry(t, t.attempts[a].entry)
  {
    var r := t.attempts[a];
    && t.entries[r.entry].attempt == Some(a) && r.phase.Staged? && !r.operation
    && Downloadable(t.entries[r.entry].state)
  }

  predicate Refers(r: Attempt, names: set<Name>) {
    r.local.Some? && r.local.value in names
  }

  /** `clear_cache_references`: forgets the named copies, and gives an entry whose
    * verified copy is among them a created download budget.
    */
  function ClearCacheReferences(t: Tables, names: set<Name>): Tables
    requires AllLinked(t)
  {
    t.(attempts := seq(|t.attempts|, a requires 0 <= a < |t.attempts| =>
         if Refers(t.attempts[a], names) then t.attempts[a].(local := None) else t.attempts[a]),
       entries := seq(|t.entries|, e requires 0 <= e < |t.entries| && Linked(t, e) && AllLinked(t) =>
         var row := t.entries[e];
         if row.attempt.Some? && t.attempts[row.attempt.value].entry == e
            && Refers(t.attempts[row.attempt.value], names) && Verified(t, row.attempt.value)
         then row.(downloads := 0) else row))
  }
}
