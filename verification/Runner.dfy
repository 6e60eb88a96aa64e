/** `step`, `retry` and the other operations on one job, taken one at a time under its guard. */
module Runner {
  import opened Rows
  import opened Transactions
  import opened World
  import opened Effects
  import opened Landing
  import opened Destination
  import opened Session
  import opened Staging
  import opened Faults
  import opened Transfer
  import opened Purge

  /** The entry of a point retry, and its attempt if there is one. */
  ghost predicate PointWork(w: World, e: EntryId) {
    Work(w, e) && (w.entries[e].attempt.Some? ==> Held(w, e, w.entries[e].attempt.value, true))
  }

  lemma PointBegins(w: World, e: EntryId)
    requires Inv(w) && e < |w.entries| && w.entries[e].pointRequested && w.finished.None?
    requires w.job.state.Running?
    ensures PointWork(w, e)
  {
    assert EntryInv(w, e);
    forall i: EntryId | i != e ensures Idle(w, i) {
      if i < |w.entries| { assert NotBoth(w.entries, e, i); }
    }
    if w.entries[e].attempt.Some? { assert AttemptInv(w, w.entries[e].attempt.value); }
  }

  lemma PointGoesOn(w: World, w': World, e: EntryId)
    requires PointWork(w, e) && Env(w, w')
    ensures PointWork(w', e) && EnvEntry(w.entries[e], w'.entries[e]) && w'.entries[e].state == w.entries[e].state
    ensures w'.staging == w.staging && |w'.attempts| == |w.attempts|
    ensures w.entries[e].attempt.Some? ==>
              w'.attempts[w.entries[e].attempt.value] == w.attempts[w.entries[e].attempt.value]
  {
    EntryGoesOn(w, w', e);
    if w.entries[e].attempt.Some? {
      GoOn(w, w', e, w.entries[e].attempt.value);
      HeldOn(w, w', e, w.entries[e].attempt.value, true);
    }
  }

  /** In a point retry every error goes to `_point_failure`. */
  lemma PointTrouble(w: World, e: EntryId, err: Error)
    requires PointWork(w, e) && (err.code.DestinationConflict? ==> !err.uncertain)
    ensures Trouble(w, e, err, true)
  {
  }

  lemma PointSaved(w: World, e: EntryId, row: Entry, w': World)
    requires PointWork(w, e) && Env(SetEntry(w, e, row), w')
    requires SamePlan(w.entries[e], row) && row.attempt == w.entries[e].attempt
    requires StillOpen(w.entries[e], row) && (row.pointRequested ==> w.entries[e].pointRequested)
    ensures PointWork(w', e) && EnvEntry(row, w'.entries[e]) && w'.entries[e].state == row.state
    ensures PhaseOf(w', e) == PhaseOf(w, e)
  {
    var mid := SetEntry(w, e, row);
    EntryStable(w, e, row);
    if w.entries[e].attempt.Some? {
      var a := w.entries[e].attempt.value;
      EntrySaved(w, e, row, w', a);
      assert Held(mid, e, a, true);
    }
    PointGoesOn(mid, w', e);
  }

  ghost predicate PointFault(w: World, e: EntryId, exn: Exn) {
    exn.Crashed? || exn.StopSeen? || exn.JobStopped? || (exn.Raised? && Trouble(w, e, exn.err, true))
  }

  /** The attempt of the point retry is one to go on with. */
  ghost predicate Replaced(w: World, e: EntryId) {
    && PointWork(w, e) && w.entries[e].attempt.Some?
    && PreSubmit(w.attempts[w.entries[e].attempt.value].phase)
  }

  /** How `_failure` leaves the entry of a file. */
  ghost predicate EndedBy(w: World, e: EntryId, err: Error) {
    && e < |w.entries| && w.entries[e].state == FailedState(err)
    && (w.entries[e].attempt.Some? ==>
          w.entries[e].attempt.value < |w.attempts|
          && exists p :: w.attempts[w.entries[e].attempt.value].phase == FailedPhase(p, err))
  }

  /** How `_point_failure` leaves the entry of a point retry. */
  ghost predicate PointEndedBy(w: World, e: EntryId, err: Error) {
    && e < |w.entries| && w.entries[e].state == PointFailedState(w.entries[e].attempt, err)
    && (w.entries[e].attempt.Some? ==>
          w.entries[e].attempt.value < |w.attempts|
          && exists p :: w.attempts[w.entries[e].attempt.value].phase == PointFailedPhase(p, err))
  }

  /** The worlds in which an error is looked at, the rows of the entry are written, and the job row may be. */
  datatype Trail = Trail(before: World, from: World, closed: World, mid: World)

  /** The credentials as such were rejected. */
  predicate RejectedIn(w: World, err: Error) {
    err.auth && (w.job.retryEnabled || !err.denied)
  }

  /** Rejected credentials stop the job; it goes on later from where an outage has left it. */
  ghost predicate Reacts(mid: World, w: World, err: Error, rejected: bool) {
    if rejected
    then Env(SetJob(mid, AfterError(mid.job, AwaitingCredentials,
                                    Some(if Interrupted(err) then NeedsAttention else JobState.Running))), w)
    else w == mid
  }

  /** What the handlers of `step` do with an error of a file: `_failure`, unless the credentials were rejected. */
  ghost predicate FileHandled(t: Trail, w: World, e: EntryId, err: Error) {
    && e < |t.before.entries| && Reacts(t.mid, w, err, RejectedIn(t.before, err))
    && if RejectedIn(t.before, err) && !Interrupted(err) then t.mid == t.before
       else
         && Noted(t.from, t.mid, err)
         && Stands(t.from, e, FailedState(err), t.before.entries[e].attempt, FailedPhase(PhaseOf(t.before, e), err))
  }

  ghost predicate DirectoryHandled(t: Trail, w: World, e: EntryId, err: Error, below: (EntryId, EntryId) -> bool) {
    && Reacts(t.mid, w, err, RejectedIn(t.before, err))
    && if RejectedIn(t.before, err) && !Interrupted(err) then t.mid == t.before
       else Stands(t.from, e, FailedState(err), None, Failed) && NotedBelow(t.from, t.mid, e, err, below)
  }

  ghost predicate PointHandled(t: Trail, w: World, e: EntryId, err: Error) {
    && e < |t.before.entries| && Reacts(t.mid, w, err, RejectedIn(t.before, err))
    && if RejectedIn(t.before, err) && !Interrupted(err) then t.mid == t.before
       else
         && PointClosed(t.from, t.closed, e, err) && PointNoted(t.closed, t.mid, err)
         && var attempt := t.before.entries[e].attempt;
            Stands(t.from, e, PointFailedState(attempt, err), attempt, PointFailedPhase(PhaseOf(t.before, e), err))
  }

  /** How the work on an entry ended, and the worlds its error was handled in if it was one. */
  datatype Report = Report(e: EntryId, end: Status, ev: Evidence, trail: Trail)

  predicate LeftAbandoned(w: World, e: EntryId)
    requires e < |w.entries|
  {
    w.entries[e].attempt.Some? && AbandonedPhase(PhaseOf(w, e))
  }

  /** What the work on an entry has come to: a directory is there or takes its error; a file ends as the evidence says
    * or takes its error, unless its attempt was abandoned: then nothing happens to it.
    */
  ghost predicate Settles(w: World, w': World, r: Report, below: (EntryId, EntryId) -> bool)
    requires r.e < |w.entries|
  {
    if w.entries[r.e].kind.Dir? then
      && (r.end.Pass? ==> r.e < |w'.entries| && w'.entries[r.e].state.Done? && Delivered(w', r.e))
      && (r.end.Raise? && r.end.exn.Raised? ==> DirectoryHandled(r.trail, w', r.e, r.end.exn.err, below))
    else if LeftAbandoned(w, r.e) then (r.end.Pass? || r.end == Raise(StopSeen)) && RowsKept(w, w')
    else
      && (r.end.Pass? ==> PassOver(w', r.e) && Ends(w', r.e, r.ev))
      && (r.end.Raise? && r.end.exn.Raised? ==> FileHandled(r.trail, w', r.e, r.end.exn.err))
  }

  /** What a step comes to when no point retry is requested. The entry that is next is worked on. If there is none, a job
    * that is to pause pauses, and one with nothing left to do takes its final state.
    */
  ghost predicate Taken(w: World, w': World, r: Option<Report>, below: (EntryId, EntryId) -> bool) {
    if r.Some? then NextUp(TablesOf(w), r.value.e) && Settles(w, w', r.value, below)
    else
      && (forall e: EntryId :: !NextUp(TablesOf(w), e))
      && if w.job.pauseRequested then Env(SetJob(w, AfterError(w.job, Paused, None)), w')
         else if Halted(w.job) then w' == w
         else Env(SetJob(w, w.job.(state := FinalState(TablesOf(w)))), w')
  }

  /** The entry in progress waits for a download of a job whose retries are off. */
  ghost predicate CancelsDownload(w: World) {
    exists e: EntryId :: AwaitsOff(w, e)
  }

  predicate AwaitsOff(w: World, e: EntryId) {
    && e < |w.entries| && w.entries[e].selected && Active(w.entries[e].state)
    && (forall i | 0 <= i < e :: !(w.entries[i].selected && Active(w.entries[i].state)))
    && !w.job.retryEnabled && w.entries[e].attempt.Some? && PhaseOf(w, e).DownloadRetryWait?
  }

  /** `e` is the one entry whose point retry was requested. */
  predicate AskedFor(w: World, e: EntryId) {
    && e < |w.entries| && w.entries[e].selected && w.entries[e].pointRequested
    && forall i | 0 <= i < |w.entries| && w.entries[i].pointRequested :: i == e
  }

  /** What a step did: nothing, because the job does not run; it paused the job; it looked after a requested point retry;
    * it gave up a scheduled download; it had to wait; it found the credentials rejected or the namespace in doubt; it
    * claimed the namespace; it noticed a stop; or it worked.
    */
  datatype Way =
    | OffDuty | HoldsJob | Retries(e: EntryId, route: Route, seen: World, begun: World, legacy: bool)
    | DropsDownload(d: EntryId) | Rests | Rejects | Doubts
    | Claims(waiting: Option<EntryId>, claim: Claim, trail: Trail) | Halts | Works(mid: World, r: Option<Report>)

  /** When a step goes which way, and what it leaves. */
  ghost predicate Went(w: World, w': World, way: Way, below: (EntryId, EntryId) -> bool) {
    && (way.OffDuty? <==> !w.job.state.Running? || w.job.stopRequested)
    && (way.HoldsJob? <==> !way.OffDuty? && w.job.pauseRequested && Nowhere(TablesOf(w), Active))
    && (!way.OffDuty? && !way.HoldsJob? ==>
          && (way.Retries? <==> exists e: EntryId :: AskedFor(w, e))
          && (!way.Retries? ==> (way.DropsDownload? <==> CancelsDownload(w))))
    && Leaves(w, w', way, below)
  }

  ghost predicate Leaves(w: World, w': World, way: Way, below: (EntryId, EntryId) -> bool) {
    match way
    case OffDuty => w' == w
    case HoldsJob => Env(SetJob(w, AfterError(w.job, Paused, None)), w')
    case Retries(e, route, seen, begun, legacy) =>
      && AskedFor(w, e) && Routed(route, seen, begun, w', e)
      && Stands(seen, e, FoundState(w.entries[e], PhaseOf(w, e), legacy), w.entries[e].attempt,
                FoundPhase(PhaseOf(w, e), legacy))
      && seen.entries[e].pointAttempts == w.entries[e].pointAttempts
    case DropsDownload(e) => AwaitsOff(w, e) && Stands(w', e, FailedEntry, w.entries[e].attempt, Failed)
    case Rests => w' == w
    case Rejects => Env(SetJob(w, AfterError(w.job, AwaitingCredentials, Some(w.job.state))), w')
    case Doubts =>
      (w.job.space.ClaimIntent? || w.job.space.ClaimUnknown?)
      && Env(SetJob(w, AfterError(w.job, NeedsAttention, None)), w')
    case Claims(waiting, claim, trail) =>
      !w.job.direct && w.job.space.Unclaimed? && w'.job.space == SpaceAfter(claim) && ClaimSettled(w, w', waiting, claim, trail)
    case Halts => ReadyToWork(w.job) && Env(w, w')
    case Works(mid, r) => ReadyToWork(w.job) && Env(w, mid) && Taken(mid, w', r, below)
  }

  /** A step waits or finds its credentials rejected only if that is given, and works on a plain entry only if not. */
  predicate Given(way: Way, later: bool, rejected: bool) {
    match way
    case Rests => later
    case Rejects => rejected && !later
    case Retries(_, route, _, _, _) => RouteGiven(route, later, rejected)
    case OffDuty => true
    case HoldsJob => true
    case DropsDownload(_) => true
    case _ => !later && !rejected
  }

  /** A step was cut short by a stop. */
  predicate CutShort(way: Way) {
    match way
    case Halts => true
    case Retries(_, route, _, _, _) => Told(route)
    case Claims(_, claim, _) => claim.NotSent? || claim.Cut?
    case Works(_, r) => r.Some? && ByStop(r.value.end)
    case _ => false
  }

  predicate ReadyToWork(job: Job) {
    job.space.Owned? || (job.direct && job.space.Unclaimed?)
  }

  /** Where a claim of the namespace leaves its column. */
  function SpaceAfter(claim: Claim): Namespace {
    match claim
    case NotSent => Unclaimed
    case Cut => ClaimIntent
    case Replied(Torn) => ClaimIntent
    case _ =>
      var failure := ClaimFailure(claim);
      if failure.None? then Owned else if failure.value.uncertain then ClaimUnknown else Unclaimed
  }

  /** A refused claim is an error of the entry in progress, or of the job if there is none. */
  ghost predicate ClaimHandled(t: Trail, w: World, waiting: Option<EntryId>, err: Error) {
    var rejected := err.auth && (waiting.None? || t.before.job.retryEnabled || !err.denied);
    && (if waiting.Some? && (!rejected || Interrupted(err)) then
          && waiting.value < |t.before.entries| && Noted(t.from, t.mid, err)
          && Stands(t.from, waiting.value, FailedState(err), t.before.entries[waiting.value].attempt,
                    FailedPhase(PhaseOf(t.before, waiting.value), err))
        else t.mid == t.before)
    && if !rejected && waiting.None? then Env(SetJob(t.mid, AfterError(t.mid.job, NeedsAttention, None)), w)
       else Reacts(t.mid, w, err, rejected)
  }

  ghost predicate ClaimSettled(w: World, w': World, waiting: Option<EntryId>, claim: Claim, t: Trail) {
    && (claim.NotSent? ==> Env(w, w'))
    && (ClaimFailure(claim).Some? ==> ClaimHandled(t, w', waiting, ClaimFailure(claim).value))
  }

  // how a pass over an entry whose point retry was requested goes

  /** The phase that a pass finds, after what an older build may have left was put right. */
  function FoundPhase(p: Phase, legacy: bool): Phase {
    if legacy && p.WaitingMove? then UnknownMove else if legacy && p.WaitingTransfer? then UnknownTransfer else p
  }

  function FoundState(row: Entry, p: Phase, legacy: bool): EntryState {
    if row.attempt.Some? && UnknownPhase(FoundPhase(p, legacy)) then OutcomeUnknown else row.state
  }

  /** The pass starts the retry over rather than going on with it, and counts as an attempt. */
  predicate StartsOver(w: World, e: EntryId)
    requires e < |w.entries|
  {
    var row := w.entries[e];
    row.pointAttempts == 0 || row.state.OutcomeUnknown? || row.state.FailedEntry?
    || row.attempt.None? || PhaseOf(w, e).Failed?
  }

  predicate UsedUp(w: World, e: EntryId)
    requires e < |w.entries|
  {
    StartsOver(w, e) && w.entries[e].pointAttempts >= PointLimit(w.job)
  }

  datatype Route =
    | Pauses | Exhausted | NotYet | NoCredentials
    | Tried(end: Status, found: World, ev: Evidence, look: Look, trail: Trail)

  /** It is not time yet, or the credentials were rejected, only if that is given. */
  predicate RouteGiven(r: Route, later: bool, rejected: bool) {
    (r.NotYet? ==> later) && (r.NoCredentials? ==> rejected) && (r.Tried? ==> !later && !rejected)
  }

  /** The work was ended by a stop. */
  predicate Told(r: Route) {
    r.Tried? && ByStop(r.end)
  }

  predicate ByStop(s: Status) {
    s.Raise? && (s.exn.StopSeen? || s.exn.JobStopped?)
  }

  /** How the work of a point retry leaves the entry, from the world `found` behind it: confirmed when the planned content
    * was at the destination, as the evidence says, or with its error. The request is then over unless the entry is still
    * in work or unknown.
    */
  ghost predicate PointSettles(r: Route, w: World, e: EntryId)
    requires r.Tried?
  {
    && (r.end.Raise? && r.end.exn.Raised? ==> PointHandled(r.trail, w, e, r.end.exn.err))
    && (r.end.Pass? ==>
          && e < |r.found.entries|
          && var row := r.found.entries[e];
          && (if Matches(row, r.look) then row.state.AlreadyVerified? else PassOver(r.found, e) && Ends(r.found, e, r.ev))
          && if r.found.job.fullStop || Active(row.state) || row.state.OutcomeUnknown? then w == r.found
             else Env(With(r.found, FinishPointRetry(TablesOf(r.found), e)).(finished := Some(e)), w))
  }

  /** `seen` is what the pass finds, `begun` the world in which it begins its work. A paused job pauses, a retry with no
    * attempts left is over, and any other pass that starts over is counted once.
    */
  ghost predicate Routed(route: Route, seen: World, begun: World, w: World, e: EntryId) {
    && e < |seen.entries|
    && match route
       case Pauses => seen.job.pauseRequested && Env(SetJob(seen, AfterError(seen.job, Paused, None)), w)
       case Exhausted =>
         !seen.job.pauseRequested && UsedUp(seen, e)
         && if seen.job.fullStop then w == seen
            else Env(With(seen, FinishPointRetry(TablesOf(seen), e)).(finished := Some(e)), w)
       case NotYet => !seen.job.pauseRequested && !UsedUp(seen, e) && w == seen
       case NoCredentials =>
         !seen.job.pauseRequested && !UsedUp(seen, e) && CountedOnce(seen, begun, e)
         && Env(SetJob(begun, AfterError(begun.job, AwaitingCredentials, Some(begun.job.state))), w)
       case Tried(_, _, _, _, _) =>
         !seen.job.pauseRequested && !UsedUp(seen, e) && CountedOnce(seen, begun, e) && PointSettles(route, w, e)
  }

  ghost predicate CountedOnce(seen: World, begun: World, e: EntryId)
    requires e < |seen.entries|
  {
    var row := seen.entries[e];
    if StartsOver(seen, e) then Env(SetEntry(seen, e, row.(pointAttempts := row.pointAttempts + 1, retryAt := None)), begun)
    else begun == seen
  }

  lemma FinishPassed(w: World, e: EntryId)
    requires PassOver(w, e) || (e < |w.entries| && w.entries[e].state.AlreadyVerified?)
    ensures e < |w.entries|
  {
  }

  lemma PointStands(w: World, e: EntryId, err: Error, attempt: Option<AttemptId>, p: Phase)
    requires Stands(w, e, PointFailedState(attempt, err), attempt, PointFailedPhase(p, err))
    ensures PointEndedBy(w, e, err)
  {
  }

  /** How the claim of the namespace ended, as far as this pass knows. */
  datatype Claim = NotSent | Cut | Barred(err: Error) | Replied(answer: Answer)

  /** The error of a claim: an outage on record before it was sent, or what came back. */
  function ClaimFailure(claim: Claim): Option<Error> {
    match claim
    case NotSent => None
    case Cut => None
    case Barred(err) => Some(err)
    case Replied(answer) => ClaimError(answer)
  }

  /** The directory is the job's own exactly if it was made by this request. */
  function ClaimError(answer: Answer): Option<Error> {
    match answer
    case Unsent => Some(Error(DestinationOutage, false, false, false))
    case Torn => Some(Error(InternalError, false, false, false))
    case Lost => Some(Error(DestinationOutage, true, false, false))
    case Response(status, _) =>
      if status == 409 then Some(Error(NamespaceTaken, false, false, false))
      else if !HttpStatus(status) then Some(Error(DestinationOutage, true, false, false))
      else StatusError(status, {201}, true)
  }

  /** The namespace belongs to the job exactly after a 201, and is free again exactly if nothing was made for certain. */
  lemma ClaimsExactly(answer: Answer)
    ensures SpaceAfter(Replied(answer)).Owned? <==> answer.Response? && answer.status == 201
    ensures SpaceAfter(Replied(answer)).Unclaimed? <==>
              answer.Unsent? || (answer.Response? && 400 <= answer.status < 500)
    ensures SpaceAfter(Replied(answer)).ClaimIntent? <==> answer.Torn?
    ensures ClaimError(answer).Some? ==> !ClaimError(answer).value.code.DestinationConflict?
  {
  }

  /** No selected entry is in a state of this kind. */
  predicate Nowhere(t: Tables, p: EntryState -> bool) {
    forall e | 0 <= e < |t.entries| :: !(t.entries[e].selected && p(t.entries[e].state))
  }

  lemma ConfirmedThere(w: World, e: EntryId, w': World)
    requires HasEntry(TablesOf(w), e) && Linked(TablesOf(w), e) && ConfirmPointCopy(TablesOf(w), e).Committed?
    requires Env(With(w, ConfirmPointCopy(TablesOf(w), e).t).(finished := Some(e)), w')
    ensures e < |w'.entries| && w'.entries[e].state.AlreadyVerified? && w'.entries[e].attempt == w.entries[e].attempt
    ensures ConfirmedPhase(w.job.direct, PhaseOf(w, e), PhaseOf(w', e))
  {
    var mid := With(w, ConfirmPointCopy(TablesOf(w), e).t).(finished := Some(e));
    assert KeepsState(mid, w', e) && EnvEntry(mid.entries[e], w'.entries[e]);
  }

  /** What accepting the copy that is there makes of the phase of the attempt: it has succeeded if it uploads to the
    * destination itself, and is of no more use otherwise.
    */
  predicate ConfirmedPhase(direct: bool, p: Phase, p': Phase) {
    p' == if direct then Succeeded else if MovePhase(p) then AbandonedMove else AbandonedTransfer
  }

  /** Behind the cleanup the attempt has no copy left. */
  lemma TidiedThere(w: World, w': World, e: EntryId)
    requires Inv(w) && Tidied(w, w', true) && NoneLeft(w, w', |w.attempts|, true)
    requires e < |w.entries| && w.entries[e].state.AlreadyVerified?
    ensures e < |w'.entries| && w'.entries[e].state.AlreadyVerified? && w'.entries[e].attempt == w.entries[e].attempt
    ensures w.entries[e].attempt.Some? ==>
              var p := PhaseOf(w, e);
              && w.entries[e].attempt.value < |w'.attempts|
              && (!p.DownloadRetryWait? ==> PhaseOf(w', e) == p)
              && (p.Succeeded? || AbandonedPhase(p) ==> w'.attempts[w.entries[e].attempt.value].local.None?)
  {
    assert TidyEntry(w, w', e) && EntryInv(w, e);
    if w.entries[e].attempt.Some? {
      var a := w.entries[e].attempt.value;
      assert AttemptInv(w, a) && TidyAttempt(w, w', a, true);
    }
  }

  /** What `cancel_local_entries` leaves of the work. */
  lemma CancelledAll(w: World, w': World)
    requires CancelLocalEntries(TablesOf(w)).Committed? && Env(Cancelling(w, CancelLocalEntries(TablesOf(w)).t), w')
    ensures forall e: EntryId | e < |w'.entries| :: !InWork(w'.entries[e].state) && !w'.entries[e].state.OutcomeUnknown?
  {
    var mid := Cancelling(w, CancelLocalEntries(TablesOf(w)).t);
    forall e: EntryId | e < |w'.entries| ensures !InWork(w'.entries[e].state) && !w'.entries[e].state.OutcomeUnknown? {
      assert KeepsState(mid, w', e);
    }
  }

  /** No point retry was requested for any entry. */
  ghost predicate NobodyAsked(w: World) {
    forall e: EntryId :: NotRequested(w, e)
  }

  lemma NobodyAsksYet(w: World)
    requires NobodyAsked(w)
    ensures forall e: EntryId | e < |w.entries| :: !w.entries[e].pointRequested
  {
    forall e: EntryId | e < |w.entries| ensures !w.entries[e].pointRequested { assert NotRequested(w, e); }
  }

  lemma NobodyAsksMeanwhile(w: World, w': World)
    requires NobodyAsked(w) && Env(w, w')
    ensures NobodyAsked(w')
  {
    forall e: EntryId ensures NotRequested(w', e) {
      assert NotRequested(w, e) && (e < |w.entries| ==> EnvEntry(w.entries[e], w'.entries[e]));
    }
  }

  /** The entry that `step` takes up, and what is known of its attempt. */
  ghost predicate Chosen(w: World, e: EntryId) {
    && Work(w, e) && NotRequested(w, e)
    && (w.entries[e].attempt.Some? ==>
          var a := w.entries[e].attempt.value;
          && Mine(w, e, a)
          && (w.attempts[a].phase.Failed? || w.attempts[a].phase.DownloadRetryWait? || Held(w, e, a, false)))
  }

  lemma ActiveChosen(w: World, e: EntryId)
    requires Inv(w) && NobodyAsked(w) && e < |w.entries| && w.entries[e].kind.File?
    requires Active(w.entries[e].state) && e !in w.watched
    ensures Chosen(w, e)
  {
    assert EntryInv(w, e) && NotRequested(w, e);
    forall i: EntryId | i != e ensures Idle(w, i) {
      if i < |w.entries| { assert NotBoth(w.entries, e, i); }
    }
    if w.entries[e].attempt.Some? { assert AttemptInv(w, w.entries[e].attempt.value); }
  }

  lemma NobodyActive(w: World)
    requires Inv(w) && NobodyAsked(w)
    requires forall e: EntryId | e < |w.entries| :: !(w.entries[e].selected && Active(w.entries[e].state))
    ensures Rest(w)
  {
    forall e: EntryId ensures Idle(w, e) {
      if e < |w.entries| { assert EntryInv(w, e) && NotRequested(w, e); }
    }
  }

  lemma PlannedChosen(w: World, e: EntryId)
    requires Inv(w) && NobodyAsked(w) && Rest(w) && e < |w.entries| && w.entries[e].kind.File?
    requires w.entries[e].state.Planned? && w.entries[e].selected && e !in w.watched
    ensures Chosen(w, e)
  {
    assert EntryInv(w, e) && NotRequested(w, e);
    forall i: EntryId | i != e ensures Idle(w, i) { assert Idle(w, i); }
    if w.entries[e].attempt.Some? { assert AttemptInv(w, w.entries[e].attempt.value); }
  }

  lemma RestGoesOn(w: World, w': World)
    requires Rest(w) && Env(w, w')
    ensures Rest(w')
  {
    forall e: EntryId ensures Idle(w', e) {
      assert Idle(w, e);
      if e < |w.entries| { assert EnvEntry(w.entries[e], w'.entries[e]) && KeepsState(w, w', e); }
    }
  }

  lemma WaitingIsFile(w: World, e: EntryId)
    requires Inv(w) && e < |w.entries| && w.entries[e].attempt.Some?
    ensures w.entries[e].kind.File? && w.entries[e].attempt.value < |w.attempts|
  {
    assert EntryInv(w, e);
    assert AttemptInv(w, w.entries[e].attempt.value);
  }

  /** While the namespace of a job is claimed, the entry in progress stays as it is. */
  ghost predicate Claiming(w: World, waiting: Option<EntryId>) {
    !w.job.direct && (waiting.Some? ==>
      && Work(w, waiting.value)
      && (w.entries[waiting.value].attempt.Some? ==> Mine(w, waiting.value, w.entries[waiting.value].attempt.value)))
  }

  lemma ClaimBegins(w: World, waiting: Option<EntryId>)
    requires Inv(w) && NobodyAsked(w) && !w.job.direct && !w.job.space.Owned?
    requires waiting.Some? ==> waiting.value < |w.entries| && Active(w.entries[waiting.value].state)
    ensures Claiming(w, waiting)
  {
    if waiting.Some? {
      assert EntryInv(w, waiting.value);
      assert waiting.value !in w.watched;
      ActiveChosen(w, waiting.value);
    }
  }

  lemma ClaimGoesOn(w: World, w': World, waiting: Option<EntryId>)
    requires Claiming(w, waiting) && Env(w, w')
    ensures Claiming(w', waiting)
  {
    EnvStable(w, w');
    if waiting.Some? {
      assert Work(w', waiting.value) && EnvEntry(w.entries[waiting.value], w'.entries[waiting.value]);
      if w.entries[waiting.value].attempt.Some? { assert Mine(w', waiting.value, w.entries[waiting.value].attempt.value); }
    }
  }

  lemma ClaimJob(w: World, waiting: Option<EntryId>, space: Namespace)
    requires Claiming(w, waiting)
    ensures Claiming(SetJob(w, w.job.(space := space)), waiting)
  {
    JobStable(w, w.job.(space := space));
    if waiting.Some? {
      assert Work(SetJob(w, w.job.(space := space)), waiting.value);
    }
  }

  lemma NobodyBusy(w: World)
    requires forall e: EntryId | e < |w.entries| :: !Busy(w.entries[e])
    ensures Rest(w)
  {
  }

  lemma RestWork(w: World, e: EntryId)
    requires Inv(w) && Rest(w) && e < |w.entries| && w.entries[e].kind.File? && w.entries[e].selected
    requires w.entries[e].state.FailedEntry?
    ensures Work(w, e) && !w.entries[e].pointRequested
    ensures w.entries[e].attempt.Some? ==>
              w.entries[e].attempt.value < |w.attempts| && w.attempts[w.entries[e].attempt.value].entry == e
  {
    assert EntryInv(w, e) && Idle(w, e);
    forall i: EntryId | i != e ensures Idle(w, i) {}
  }

  lemma RestAgain(w: World, e: EntryId)
    requires OthersIdle(w, e) && e < |w.entries| && !Busy(w.entries[e])
    ensures Rest(w)
  {
    forall i: EntryId ensures Idle(w, i) { if i != e { assert Idle(w, i); } }
  }

  lemma RestSaved(w: World, a: AttemptId, row: Attempt, w': World)
    requires Rest(w) && a < |w.attempts| && Env(SetAttempt(w, a, row), w')
    ensures Rest(w')
  {
    var mid := SetAttempt(w, a, row);
    forall e: EntryId ensures Idle(mid, e) { assert Idle(w, e); }
    RestGoesOn(mid, w');
  }

  lemma FailedStays(w: World, w': World, e: EntryId)
    requires Env(w, w') && e < |w.entries| && w.entries[e].state.FailedEntry?
    ensures e < |w'.entries| && w'.entries[e].state.FailedEntry?
  {
    assert KeepsState(w, w', e);
  }

  lemma SameOwner(w: World, w': World, a: AttemptId)
    requires Env(w, w') && a < |w.attempts|
    ensures a < |w'.attempts| && w'.attempts[a].entry == w.attempts[a].entry
  {
    assert EnvAttempt(w.attempts[a], w'.attempts[a]);
  }

  // ---------------------------------------------------------------- what a retry does to the rows

  /** Entry `i` and its attempt are as they were, requests and late effects aside. */
  ghost predicate LeftAlone(w: World, w': World, i: EntryId)
    requires i < |w.entries| == |w'.entries|
  {
    EnvEntry(w.entries[i], w'.entries[i]) && KeepsState(w, w', i)
  }

  /** The copy of the attempt does not match the plan any more, and not because its download failed. */
  predicate CopyUnusable(w: World, e: EntryId)
    requires e < |w.entries|
  {
    var attempt := w.entries[e].attempt;
    && attempt.Some? && attempt.value < |w.attempts| && w.attempts[attempt.value].local.Some? && Reusable(w, e).None?
    && w.attempts[attempt.value].error != Some(SourceDownload)
  }

  ghost predicate Elsewhere(w: World, w': World, e: EntryId) {
    && |w'.entries| == |w.entries| && |w.attempts| <= |w'.attempts| && w'.staging == w.staging
    && w'.job.direct == w.job.direct
    && forall i: EntryId | i < |w.entries| && i != e :: LeftAlone(w, w', i)
  }

  /** The copy that a new attempt for `e` can take over: the one of the old attempt, if it still matches the plan. */
  function Reusable(w: World, e: EntryId): Option<Name>
    requires e < |w.entries|
  {
    var row := w.entries[e];
    if row.attempt.Some? && row.attempt.value < |w.attempts| then
      var local := w.attempts[row.attempt.value].local;
      if local.Some? && local.value in w.staging && row.planned == Some(w.staging[local.value]) then local else None
    else None
  }

  /** The current attempt of `e` is a new one, not submitted yet, that uses the copy `local` if there is one. */
  ghost predicate NewlyTried(w: World, e: EntryId, from: nat, local: Option<Name>) {
    && e < |w.entries| && w.entries[e].kind.File? && w.entries[e].attempt.Some?
    && var a := w.entries[e].attempt.value;
    && from <= a < |w.attempts|
    && w.attempts[a] == Attempt(e, w.attempts[a].remote, if local.Some? then Staged else Prepared, local, false, None)
  }

  /** Entry `e` is planned again, with a download budget and, if it is a file, an attempt of its own. */
  ghost predicate Renewed(w: World, e: EntryId, from: nat, local: Option<Name>) {
    && e < |w.entries| && w.entries[e].state.Planned? && w.entries[e].downloads == 0
    && if w.entries[e].kind.File? then NewlyTried(w, e, from, local) else w.entries[e].attempt.None?
  }

  /** What a retry does to entry `i`. */
  ghost predicate Retried(w: World, w': World, i: EntryId)
    requires i < |w.entries| == |w'.entries|
  {
    if w.entries[i].selected && w.entries[i].state.FailedEntry? then Renewed(w', i, |w.attempts|, Reusable(w, i))
    else LeftAlone(w, w', i)
         // a switch may fail a scheduled download before the retry comes to it
         || (PhaseOf(w, i).DownloadRetryWait? && Renewed(w', i, |w.attempts|, Reusable(w, i)))
  }

  lemma LeftAloneEnv(w: World, w': World)
    requires Env(w, w')
    ensures |w'.entries| == |w.entries| && |w'.attempts| == |w.attempts| && w'.staging == w.staging
    ensures w'.job.direct == w.job.direct
    ensures forall i: EntryId | i < |w.entries| :: LeftAlone(w, w', i)
  {
  }

  lemma LeftAloneTransitive(w: World, w1: World, w2: World, i: EntryId)
    requires i < |w.entries| == |w1.entries| == |w2.entries| && |w.attempts| <= |w1.attempts| <= |w2.attempts|
    requires Linked(TablesOf(w), i) && LeftAlone(w, w1, i) && LeftAlone(w1, w2, i)
    ensures LeftAlone(w, w2, i)
  {
  }

  lemma RenewedOn(w: World, w': World, i: EntryId, from: nat, local: Option<Name>)
    requires i < |w.entries| == |w'.entries|
    requires Renewed(w, i, from, local) && LeftAlone(w, w', i)
    ensures Renewed(w', i, from, local)
  {
  }

  lemma TriedOn(w: World, w': World, i: EntryId, from: nat, local: Option<Name>)
    requires i < |w.entries| == |w'.entries|
    requires NewlyTried(w, i, from, local) && LeftAlone(w, w', i)
    ensures NewlyTried(w', i, from, local) && w'.entries[i].state == w.entries[i].state
  {
  }

  /** What was known before is known after requests and late effects. */
  lemma ReusableOn(w: World, w': World, i: EntryId)
    requires i < |w.entries| == |w'.entries| && |w.attempts| <= |w'.attempts| && w'.staging == w.staging
    requires Linked(TablesOf(w), i) && LeftAlone(w, w', i)
    ensures Reusable(w', i) == Reusable(w, i)
  {
  }

  lemma RetriedOn(w: World, w1: World, w2: World, i: EntryId)
    requires i < |w.entries| == |w1.entries| == |w2.entries| && |w.attempts| <= |w1.attempts| <= |w2.attempts|
    requires Linked(TablesOf(w), i) && Retried(w, w1, i) && LeftAlone(w1, w2, i)
    ensures Retried(w, w2, i)
  {
    if LeftAlone(w, w1, i) { LeftAloneTransitive(w, w1, w2, i); }
    if Renewed(w1, i, |w.attempts|, Reusable(w, i)) { RenewedOn(w1, w2, i, |w.attempts|, Reusable(w, i)); }
  }

  lemma RetriedAfter(w: World, w1: World, w2: World, i: EntryId)
    requires i < |w.entries| == |w1.entries| == |w2.entries| && |w.attempts| == |w1.attempts| <= |w2.attempts|
    requires Linked(TablesOf(w), i) && w1.staging == w.staging && LeftAlone(w, w1, i) && Retried(w1, w2, i)
    ensures Retried(w, w2, i)
  {
    ReusableOn(w, w1, i);
    if LeftAlone(w1, w2, i) { LeftAloneTransitive(w, w1, w2, i); }
  }

  lemma ElsewhereTransitive(w: World, w1: World, w2: World, e: EntryId)
    requires AllLinked(TablesOf(w)) && Elsewhere(w, w1, e) && Elsewhere(w1, w2, e)
    ensures Elsewhere(w, w2, e)
  {
    forall i: EntryId | i < |w.entries| && i != e ensures LeftAlone(w, w2, i) {
      LeftAloneTransitive(w, w1, w2, i);
    }
  }

  /** Another row of an attempt of `e` is seen by no other entry. */
  lemma AttemptElsewhere(w: World, e: EntryId, a: AttemptId, row: Attempt, w': World)
    requires Inv(w) && a < |w.attempts| && w.attempts[a].entry == e && Env(SetAttempt(w, a, row), w')
    ensures Elsewhere(w, w', e)
  {
    var mid := SetAttempt(w, a, row);
    LeftAloneEnv(mid, w');
    forall i: EntryId | i < |w.entries| && i != e ensures LeftAlone(w, w', i) {
      assert EntryInv(w, i) && LeftAlone(mid, w', i);
    }
  }

  lemma EntryElsewhere(w: World, e: EntryId, row: Entry, w': World)
    requires e < |w.entries| && Env(SetEntry(w, e, row), w')
    ensures Elsewhere(w, w', e)
  {
    var mid := SetEntry(w, e, row);
    LeftAloneEnv(mid, w');
    forall i: EntryId | i < |w.entries| && i != e ensures LeftAlone(w, w', i) {
      assert LeftAlone(mid, w', i);
    }
  }

  lemma CreatedElsewhere(w: World, e: EntryId, w': World)
    requires Inv(w) && e < |w.entries| && w.entries[e].kind.File?
    requires Linked(TablesOf(w), e) && NewAttempt(TablesOf(w), e, false, false).Committed?
    requires Env(Created(w, NewAttempt(TablesOf(w), e, false, false).t, false), w')
    ensures Elsewhere(w, w', e) && NewlyTried(w', e, |w.attempts|, None)
  {
    var mid := Created(w, NewAttempt(TablesOf(w), e, false, false).t, false);
    LeftAloneEnv(mid, w');
    assert LeftAlone(mid, w', e);
    forall i: EntryId | i < |w.entries| && i != e ensures LeftAlone(w, w', i) {
      assert EntryInv(w, i) && LeftAlone(mid, w', i);
    }
  }

  lemma TakenOver(w: World, e: EntryId, a: AttemptId, row: Attempt, w1: World, prior: AttemptId, row1: Attempt, w2: World)
    requires Inv(w) && Inv(w1) && NewlyTried(w, e, a, None) && w.entries[e].attempt == Some(a)
    requires row == w.attempts[a].(phase := Staged, local := row.local) && row.local.Some?
    requires Env(SetAttempt(w, a, row), w1) && prior < a < |w1.attempts| && w1.attempts[prior].entry == e
    requires Env(SetAttempt(w1, prior, row1), w2)
    ensures Elsewhere(w, w2, e) && NewlyTried(w2, e, a, row.local)
  {
    AttemptElsewhere(w, e, a, row, w1);
    AttemptElsewhere(w1, e, prior, row1, w2);
    InvLinked(w);
    ElsewhereTransitive(w, w1, w2, e);
    LeftAloneEnv(SetAttempt(w, a, row), w1);
    LeftAloneEnv(SetAttempt(w1, prior, row1), w2);
    assert LeftAlone(SetAttempt(w, a, row), w1, e) && LeftAlone(SetAttempt(w1, prior, row1), w2, e);
  }

  lemma SameUnretryable(w: World, w': World)
    requires Inv(w) && Env(w, w')
    ensures forall e: EntryId :: Unretryable(TablesOf(w'), e) <==> Unretryable(TablesOf(w), e)
  {
    LeftAloneEnv(w, w');
    forall e: EntryId ensures Unretryable(TablesOf(w'), e) <==> Unretryable(TablesOf(w), e) {
      if e < |w.entries| { StillUnretryable(w, w', e); }
    }
  }

  lemma SameElsewhere(w: World, e: EntryId)
    ensures Elsewhere(w, w, e)
  {
  }

  lemma SameRetried(w: World, v: World, w': World)
    requires v == w.(finished := v.finished) && |w'.entries| == |w.entries|
    requires forall i: EntryId | i < |v.entries| :: Retried(v, w', i)
    ensures forall i: EntryId | i < |w.entries| :: Retried(w, w', i)
  {
    forall i: EntryId | i < |w.entries| ensures Retried(w, w', i) { assert Retried(v, w', i); }
  }

  /** The entries before `k` were retried, the others still are as they were. */
  ghost predicate RetriedTo(w: World, w': World, k: nat) {
    && |w'.entries| == |w.entries| && |w.attempts| <= |w'.attempts| && w'.staging == w.staging
    && w'.job.direct == w.job.direct
    && (forall i: EntryId | i < |w.entries| && i < k :: Retried(w, w', i))
    && (forall i: EntryId | k <= i < |w.entries| :: LeftAlone(w, w', i))
  }

  lemma RetriedNone(w: World)
    ensures RetriedTo(w, w, 0)
  {
  }

  lemma RetriedNext(w: World, w1: World, w2: World, k: nat)
    requires AllLinked(TablesOf(w)) && RetriedTo(w, w1, k) && k < |w.entries| && Elsewhere(w1, w2, k)
    requires if w1.entries[k].selected && w1.entries[k].state.FailedEntry?
             then Renewed(w2, k, |w1.attempts|, Reusable(w1, k)) else w2 == w1
    ensures RetriedTo(w, w2, k + 1)
  {
    assert Linked(TablesOf(w), k);
    ReusableOn(w, w1, k);
    forall i: EntryId | i < |w.entries| && i != k ensures if i < k then Retried(w, w2, i) else LeftAlone(w, w2, i) {
      assert Linked(TablesOf(w), i);
      if i < k { RetriedOn(w, w1, w2, i); } else { LeftAloneTransitive(w, w1, w2, i); }
    }
  }

  /** Which failed entries a retry is refused for does not change before it comes to them. */
  lemma StillUnretryable(w: World, w': World, e: EntryId)
    requires Inv(w) && e < |w.entries| == |w'.entries| && |w.attempts| <= |w'.attempts| && w'.job.direct == w.job.direct
    requires LeftAlone(w, w', e)
    ensures Unretryable(TablesOf(w'), e) <==> Unretryable(TablesOf(w), e)
  {
    assert EntryInv(w, e);
    if w.entries[e].attempt.Some? { assert AttemptInv(w, w.entries[e].attempt.value); }
  }

  lemma StillLeft(w: World, w': World, e: EntryId)
    requires Inv(w) && RetriedTo(w, w', e) && e < |w.entries|
    ensures e < |w'.entries| && (Unretryable(TablesOf(w'), e) <==> Unretryable(TablesOf(w), e))
  {
    StillUnretryable(w, w', e);
  }

  /** Requests and late effects before and after the entries are retried. */
  lemma RetriedAround(w: World, w1: World, w2: World, w3: World)
    requires AllLinked(TablesOf(w)) && Env(w, w1) && RetriedTo(w1, w2, |w.entries|) && RowsKept(w2, w3)
    ensures |w3.entries| == |w.entries| && forall i: EntryId | i < |w.entries| :: Retried(w, w3, i)
  {
    LeftAloneEnv(w, w1);
    forall i: EntryId | i < |w.entries| ensures Retried(w, w3, i) {
      assert Linked(TablesOf(w), i) && LeftAlone(w, w1, i);
      RetriedAfter(w, w1, w2, i);
      assert LeftAlone(w2, w3, i);
      RetriedOn(w, w2, w3, i);
    }
  }

  class Runner {
    const d: Session
    const transfer: FileTransfer
    const purger: Purger

    constructor (d: Session)
      ensures this.d == d && transfer.d == d && purger.d == d
      ensures d.Valid() ==> Ready()
    {
      this.d := d;
      transfer := new FileTransfer(d);
      purger := new Purger(d);
    }

    ghost predicate Ready()
      reads d, d.store, d.watch
    {
      transfer.d == d && purger.d == d && transfer.Ready()
    }

    // -------------------------------------------------------------- a point retry

    /** The current attempt is given up for a new one, unless the destination already holds the file. `legacy`
      * says that an older build left the operation of an unknown attempt being polled.
      */
    predicate RetryOld(e: EntryId, legacy: bool)
      requires e < |d.store.entries|
      requires d.store.entries[e].attempt.Some? ==> d.store.entries[e].attempt.value < |d.store.attempts|
      reads d, d.store, d.watch
    {
      d.store.entries[e].attempt.None? ||
      var p := d.store.attempts[d.store.entries[e].attempt.value].phase;
      UnknownPhase(p) || AbandonedPhase(p) || p.Failed? || (legacy && (p.WaitingTransfer? || p.WaitingMove?))
    }

    /** `_point_file`. */
    method PointFile(e: EntryId, legacy: bool) returns (s: Status, ghost ev: Evidence, ghost look: Look)
      requires Ready() && PointWork(d.W(), e)
      modifies d, d.store
      ensures Ready() && (s.Raise? ==> PointFault(d.W(), e, s.exn))
      ensures s.Pass? ==>
                if Matches(d.plan[e], look) then d.store.entries[e].state.AlreadyVerified?
                else PassOver(d.W(), e) && Ends(d.W(), e, ev)
      ensures s.Pass? ==> (look.Seen? <==> old(RetryOld(e, legacy)))
      ensures d.Justified(s)
    {
      hide Inv, Env, Stable, StableFor, OthersIdle, Unfinished, Steady, Trouble, Kept, Ends;
      ev, look := NO_EVIDENCE, Unseen;
      if RetryOld(e, legacy) {
        var done: bool;
        ghost var at: World;
        s, done, look, at := Replace(e);
        if s.Raise? || done { return; }
      } else {
        NotAbandoned(e, legacy);
      }
      s, ev := transfer.File(e, true);
    }

    lemma NotAbandoned(e: EntryId, legacy: bool)
      requires Ready() && PointWork(d.W(), e) && !RetryOld(e, legacy)
      ensures !AbandonedPhase(d.store.attempts[d.store.entries[e].attempt.value].phase)
    {
    }

    /** The attempt is replaced by a new one, unless the destination already holds the planned content. */
    method Replace(e: EntryId) returns (s: Status, done: bool, ghost look: Look, ghost at: World)
      requires Ready() && PointWork(d.W(), e)
      modifies d, d.store
      ensures Ready() && (s.Raise? ==> PointFault(d.W(), e, s.exn))
      ensures s.Pass? ==> look.Seen? && look.at == Dest(e) && done == Matches(d.plan[e], look)
      ensures s.Pass? && !done ==> Replaced(d.W(), e)
      ensures s.Pass? && done ==> e < |d.store.entries| && d.store.entries[e].state.AlreadyVerified?
      ensures look.Seen? ==> HasEntry(TablesOf(at), e)
      ensures look.Seen? && s == Raise(Raised(CONFLICT)) ==>
                !Matches(d.plan[e], look) && look.node.Some? && (look.node.value.Folder? || !Ours(TablesOf(at), e, None))
      ensures s.Pass? && !done ==>
                look.node.None? || (look.node.value.Bytes? && Ours(TablesOf(at), e, at.entries[e].attempt))
      ensures d.Justified(s)
    {
      hide Inv, Env, Stable, StableFor, OthersIdle, Unfinished, Steady, Trouble, Kept;
      done, look := true, Unseen;
      var node: Option<Node>, hashed: bool;
      ghost var answers: nat;
      s, node, hashed, look, answers := LookBeforeReplacing(e);
      at := d.W();
      if s.Raise? { return; }
      if hashed && Same(d.store.entries[e], node) {
        s := AlreadyThere(e);
        return;
      }
      var blocked := InTheWay(e, node);
      if blocked {
        PointTrouble(d.W(), e, Error(DestinationConflict, false, false, false));
        s := Raise(Raised(Error(DestinationConflict, false, false, false)));
        return;
      }
      s := MakePointAttempt(e);
      done := false;
    }

    /** What is at the destination may not be replaced: a directory, or a file that no upload of ours may have put there. */
    method InTheWay(e: EntryId, node: Option<Node>) returns (blocked: bool)
      requires Ready() && e < |d.store.entries|
      ensures blocked ==> node.Some? && (node.value.Folder? || !transfer.MayBeOurs(e, None))
      ensures !blocked ==> node.None? || (node.value.Bytes? && transfer.MayBeOurs(e, d.store.entries[e].attempt))
    {
      if node.None? { return false; }
      var overwrite := transfer.PointOverwrite(e);
      return !node.value.Bytes? || !overwrite;
    }

    /** The destination is reached and looked at, with a stop looked for in between. */
    method LookBeforeReplacing(e: EntryId)
      returns (s: Status, node: Option<Node>, hashed: bool, ghost look: Look, ghost answers: nat)
      requires Ready() && PointWork(d.W(), e)
      modifies d, d.store
      ensures Ready() && (s.Raise? ==> PointFault(d.W(), e, s.exn))
      ensures s.Pass? ==> PointWork(d.W(), e) && (Same(d.store.entries[e], node) ==> Delivered(d.W(), e))
      ensures s.Pass? ==> look == Seen(Dest(e), node, hashed) && (hashed ==> node.Some? && node.value.Bytes?)
      ensures (s.Raise? ==> look.Unseen?) && (s.Pass? ==> answers == 2)
      ensures d.Justified(s)
    {
      hide Inv, Env, Stable, StableFor, OthersIdle, Unfinished, Steady, Kept, Delivered;
      node, hashed, look := None, false, Unseen;
      ghost var w := d.W();
      s, answers := transfer.DestinationAvailable();
      PointGoesOn(w, d.W(), e);
      if s.Raise? { return; }
      ghost var w1 := d.W();
      s := d.Checkpoint();
      PointGoesOn(w1, d.W(), e);
      if s.Raise? { return; }
      ghost var w2 := d.W();
      s := d.Enter(false);
      PointGoesOn(w2, d.W(), e);
      if s.Raise? { return; }
      ghost var w3 := d.W();
      s, node, hashed, look := d.Stat(e, Dest(e));
      PointGoesOn(w3, d.W(), e);
    }

    /** The destination holds the file: nothing is submitted. */
    method AlreadyThere(e: EntryId) returns (s: Status)
      requires Ready() && PointWork(d.W(), e) && Delivered(d.W(), e)
      modifies d, d.store
      ensures Ready() && (s.Raise? ==> PointFault(d.W(), e, s.exn))
      ensures s.Pass? ==> e < |d.store.entries| && d.store.entries[e].state.AlreadyVerified?
      ensures s.Pass? && old(d.store.entries)[e].attempt.Some? ==>
                var a := old(d.store.entries)[e].attempt.value;
                && ConfirmedPhase(old(d.store.job.direct), old(d.store.attempts)[a].phase, PhaseOf(d.W(), e))
                && d.store.entries[e].attempt == Some(a) && a < |d.store.attempts| && d.store.attempts[a].local.None?
      ensures s.Raise? && s.exn.Raised? ==> s.exn.err.code.InternalError?
      ensures d.Justified(s)
    {
      hide Env, Stable, StableFor, OthersIdle, Steady, Kept, Delivered;
      if d.store.entries[e].attempt.Some? {
        var phase := d.store.attempts[d.store.entries[e].attempt.value].phase;
        ghost var w := d.W();
        s := d.ConfirmCopy(e);
        if s.Pass? { ConfirmedThere(w, e, d.W()); }
        if s.Raise? && s.exn.Refused? { s := Raise(Raised(Error(InternalError, UnknownPhase(phase), false, false))); }
      } else {
        s := d.SaveSuccess(e, d.store.entries[e].(state := AlreadyVerified));
      }
      if s.Pass? {
        ghost var w := d.W();
        s := transfer.Cleanup(true);
        if s.Pass? { TidiedThere(w, d.W(), e); }
      }
    }

    /** A new attempt takes over the copy of the old one if that still matches the plan; without one that does it starts
      * from nothing, unless the copy was lost for another reason than a failed download.
      */
    method MakePointAttempt(e: EntryId) returns (s: Status)
      requires Ready() && PointWork(d.W(), e)
      modifies d, d.store
      ensures Ready() && (s.Raise? ==> PointFault(d.W(), e, s.exn))
      ensures CopyUnusable(old(d.W()), e) <==> s == Raise(Raised(Error(StagingError, false, false, false)))
      ensures CopyUnusable(old(d.W()), e) ==> d.W() == old(d.W())
      ensures s.Raise? && s.exn.Raised? ==> s.exn.err.code.StagingError? || s.exn.err.code.InternalError?
      ensures s.Pass? ==> Replaced(d.W(), e) && NewlyTried(d.W(), e, |old(d.store.attempts)|, Reusable(old(d.W()), e))
      ensures d.Justified(s)
    {
      hide Inv, Env, Stable, StableFor, OthersIdle, Unfinished, Steady, Kept, NewAttempt;
      var reuse, phase := false, Prepared;
      if d.store.entries[e].attempt.Some? {
        var row := d.store.attempts[d.store.entries[e].attempt.value];
        reuse := transfer.stager.LocalMatches(row.local, e);
        phase := row.phase;
        if row.local.Some? && !reuse && row.error != Some(SourceDownload) {
          return Raise(Raised(Error(StagingError, false, false, false)));
        }
      }
      s := TryAnew(e, reuse, phase);
    }

    /** A new attempt of the point retry, which takes the copy over if it is to be used again. */
    method TryAnew(e: EntryId, reuse: bool, phase: Phase) returns (s: Status)
      requires Ready() && PointWork(d.W(), e)
      requires reuse ==>
                 var attempt := d.store.entries[e].attempt;
                 attempt.Some? && transfer.stager.LocalMatches(d.store.attempts[attempt.value].local, e)
      requires d.store.entries[e].attempt.Some? ==> phase == d.store.attempts[d.store.entries[e].attempt.value].phase
      modifies d, d.store
      ensures Ready() && (s.Raise? ==> PointFault(d.W(), e, s.exn))
      ensures s.Raise? && s.exn.Raised? ==> s.exn.err.code.InternalError?
      ensures s.Pass? ==>
                var old' := old(d.store.entries)[e].attempt;
                Replaced(d.W(), e)
                && NewlyTried(d.W(), e, |old(d.store.attempts)|, if reuse then old(d.store.attempts)[old'.value].local else None)
      ensures d.Justified(s)
    {
      hide Inv, Env, Stable, StableFor, OthersIdle, Unfinished, Steady, Kept, NewAttempt;
      ghost var w := d.W();
      s := d.Checkpoint();
      PointGoesOn(w, d.W(), e);
      if s.Raise? { return; }
      ghost var w1 := d.W();
      var a: AttemptId;
      s, a := d.CreateAttempt(e, true, reuse);
      if s.Raise? {
        if s.exn.Refused? { s := Raise(Raised(Error(InternalError, UnknownPhase(phase), false, false))); }
        return;
      }
      Settled(d.W(), a);
      PointTried(w1, e, reuse, d.W());
    }

    lemma PointTried(w: World, e: EntryId, reuse: bool, w': World)
      requires Inv(w) && e < |w.entries| && w.entries[e].kind.File? && Linked(TablesOf(w), e)
      requires NewAttempt(TablesOf(w), e, true, reuse).Committed?
      requires Env(Created(w, NewAttempt(TablesOf(w), e, true, reuse).t, true), w')
      ensures NewlyTried(w', e, |w.attempts|, if reuse then w.attempts[w.entries[e].attempt.value].local else None)
    {
      var mid := Created(w, NewAttempt(TablesOf(w), e, true, reuse).t, true);
      assert EnvEntry(mid.entries[e], w'.entries[e]) && EnvAttempt(mid.attempts[|w.attempts|], w'.attempts[|w.attempts|]);
    }

    /** What `step` does with an entry whose point retry was requested. `seen` is what it finds once the rows were put
      * right, and `begun` the world in which the work begins.
      */
    method PointPass(e: EntryId, later: bool, rejected: bool)
      returns (s: Status, ghost route: Route, ghost seen: World, ghost begun: World, ghost legacy: bool)
      requires Ready() && PointWork(d.W(), e)
      modifies d, d.store
      ensures Ready() && (s.Raise? ==> s.exn.Crashed?)
      ensures s.Pass? ==>
                var row, phase := old(d.store.entries)[e], PhaseOf(old(d.W()), e);
                Stands(seen, e, FoundState(row, phase, legacy), row.attempt, FoundPhase(phase, legacy))
                && seen.entries[e].pointAttempts == row.pointAttempts
      ensures s.Pass? ==> Routed(route, seen, begun, d.W(), e) && RouteGiven(route, later, rejected) && (Told(route) ==> d.Ending())
      ensures s.Pass? && route.Tried? && route.end.Pass? ==>
                e < |d.store.entries|
                && (d.store.entries[e].pointRequested && !d.store.job.fullStop ==>
                      Active(d.store.entries[e].state) || d.store.entries[e].state.OutcomeUnknown?)
      ensures s.Pass? && route.Tried? && route.end.Raise? && route.end.exn.Raised?
              && (!route.end.exn.err.auth || Interrupted(route.end.exn.err)) ==>
                PointEndedBy(d.W(), e, route.end.exn.err)
                && (d.store.entries[e].pointRequested && !d.store.job.fullStop ==>
                      PointRepeats(route.end.exn.err) && !Interrupted(route.end.exn.err))
    {
      var polled: bool := *;
      hide Inv, Env, Stable, StableFor, OthersIdle, Unfinished, Steady, Kept, Trouble, PointEndedBy, PassOver, Ends;
      hide Routed, PointWork, FoundState, FoundPhase;
      route, seen, begun, legacy := NotYet, d.W(), d.W(), polled;
      :- Normalise(e, polled);
      seen := d.W();
      s, route, begun := TakeRoute(e, polled, later, rejected);
    }

    method TakeRoute(e: EntryId, legacy: bool, later: bool, rejected: bool)
      returns (s: Status, ghost route: Route, ghost begun: World)
      requires Ready() && PointWork(d.W(), e)
      modifies d, d.store
      ensures Ready() && (s.Raise? ==> s.exn.Crashed?)
      ensures s.Pass? ==>
                Routed(route, old(d.W()), begun, d.W(), e) && RouteGiven(route, later, rejected) && (Told(route) ==> d.Ending())
      ensures s.Pass? && route.Tried? && route.end.Pass? ==>
                e < |d.store.entries|
                && (d.store.entries[e].pointRequested && !d.store.job.fullStop ==>
                      Active(d.store.entries[e].state) || d.store.entries[e].state.OutcomeUnknown?)
      ensures s.Pass? && route.Tried? && route.end.Raise? && route.end.exn.Raised?
              && (!route.end.exn.err.auth || Interrupted(route.end.exn.err)) ==>
                PointEndedBy(d.W(), e, route.end.exn.err)
                && (d.store.entries[e].pointRequested && !d.store.job.fullStop ==>
                      PointRepeats(route.end.exn.err) && !Interrupted(route.end.exn.err))
    {
      hide Inv, Env, Stable, StableFor, OthersIdle, Unfinished, Steady, Kept, Trouble, PointEndedBy, PassOver, Ends;
      route, begun := NotYet, d.W();
      ghost var seen := d.W();
      var row := d.store.entries[e];
      var failed := row.attempt.None? || d.store.attempts[row.attempt.value].phase.Failed?;
      var start := row.pointAttempts == 0 || row.state.OutcomeUnknown? || row.state.FailedEntry? || failed;
      if d.store.job.pauseRequested {
        route := Pauses;
        s := transfer.handler.JobError(Paused);
        return;
      }
      if start && row.pointAttempts >= PointLimit(d.store.job) {
        s, route := Pass, Exhausted;
        if !d.store.job.fullStop { s := d.FinishPoint(e); }
        return;
      }
      if later { s := Pass; return; }
      assert StartsOver(seen, e) == start && !UsedUp(seen, e);
      if start { :- CountPointAttempt(e); }
      begun := d.W();
      assert CountedOnce(seen, begun, e);
      hide StartsOver, UsedUp, CountedOnce, PhaseIn, PhaseOf, PointSettles;
      if rejected {
        route := NoCredentials;
        s := transfer.handler.JobError(AwaitingCredentials, Some(d.store.job.state));
        return;
      }
      s, route := TryPoint(e, legacy);
    }

    /** The work of the pass, and what becomes of the request behind it. */
    method TryPoint(e: EntryId, legacy: bool) returns (s: Status, ghost route: Route)
      requires Ready() && PointWork(d.W(), e)
      modifies d, d.store
      ensures Ready() && (s.Raise? ==> s.exn.Crashed?) && route.Tried?
      ensures s.Pass? ==> PointSettles(route, d.W(), e) && (Told(route) ==> d.Ending())
      ensures s.Pass? && route.Tried? && route.end.Pass? ==>
                e < |d.store.entries|
                && (d.store.entries[e].pointRequested && !d.store.job.fullStop ==>
                      Active(d.store.entries[e].state) || d.store.entries[e].state.OutcomeUnknown?)
      ensures s.Pass? && route.end.Raise? && route.end.exn.Raised?
              && (!route.end.exn.err.auth || Interrupted(route.end.exn.err)) ==>
                PointEndedBy(d.W(), e, route.end.exn.err)
                && (d.store.entries[e].pointRequested && !d.store.job.fullStop ==>
                      PointRepeats(route.end.exn.err) && !Interrupted(route.end.exn.err))
    {
      hide Inv, Env, Stable, StableFor, OthersIdle, Unfinished, Steady, Kept, Trouble, PointEndedBy, PassOver, Ends, PointHandled;
      ghost var ev: Evidence, look: Look;
      s, ev, look := PointFile(e, legacy);
      route := Tried(s, d.W(), ev, look, Trail(d.W(), d.W(), d.W(), d.W()));
      if s.Raise? {
        ghost var judged: Status, trail: Trail;
        s, judged, trail := PointCaught(e, s.exn);
        route := route.(end := judged, trail := trail);
      } else {
        FinishPassed(d.W(), e);
        s := FinishUnlessActive(e);
      }
    }

    /** The rows an older build or a crash may have left are put right. */
    method Normalise(e: EntryId, legacy: bool) returns (s: Status)
      requires Ready() && PointWork(d.W(), e)
      modifies d, d.store
      ensures Ready() && (s.Raise? ==> s.exn.Crashed?)
      ensures s.Pass? ==> PointWork(d.W(), e)
      ensures s.Pass? ==>
                var row, phase := old(d.store.entries)[e], PhaseOf(old(d.W()), e);
                Stands(d.W(), e, FoundState(row, phase, legacy), row.attempt, FoundPhase(phase, legacy))
                && d.store.entries[e].pointAttempts == row.pointAttempts
    {
      hide Inv, Env, Stable, StableFor, OthersIdle, Unfinished, Steady, Kept, Delivered, InFlight;
      if d.store.entries[e].attempt.None? { return Pass; }
      var a := d.store.entries[e].attempt.value;
      var p := d.store.attempts[a].phase;
      if legacy && (p.WaitingTransfer? || p.WaitingMove?) {
        :- transfer.Advance(e, a, if p.WaitingMove? then UnknownMove else UnknownTransfer, true);
      }
      if UnknownPhase(d.store.attempts[a].phase) && !d.store.entries[e].state.OutcomeUnknown? {
        ghost var w := d.W();
        var row := d.store.entries[e].(state := OutcomeUnknown);
        EntryRowGuard(w, e, a, row);
        :- d.SaveEntry(e, row);
        PointSaved(w, e, row, d.W());
      }
      s := Pass;
    }

    method CountPointAttempt(e: EntryId) returns (s: Status)
      requires Ready() && PointWork(d.W(), e)
      modifies d, d.store
      ensures Ready() && (s.Raise? ==> s.exn.Crashed?)
      ensures s.Pass? ==>
                PointWork(d.W(), e)
                && var row := old(d.store.entries)[e];
                   Env(SetEntry(old(d.W()), e, row.(pointAttempts := row.pointAttempts + 1, retryAt := None)), d.W())
    {
      ghost var w := d.W();
      var row := d.store.entries[e].(pointAttempts := d.store.entries[e].pointAttempts + 1, retryAt := None);
      EntryOf(w, e);
      hide Inv, Env, Stable, StableFor, OthersIdle, Unfinished, Steady, Kept;
      :- d.SaveEntry(e, row);
      PointSaved(w, e, row, d.W());
      s := Pass;
    }

    /** The handlers of `step` for an error in a point retry. */
    method PointCaught(e: EntryId, exn: Exn) returns (s: Status, ghost end: Status, ghost trail: Trail)
      requires Ready() && PointFault(d.W(), e, exn)
      modifies d, d.store
      ensures Ready() && (s.Raise? ==> s.exn.Crashed?)
      ensures end.Raise? && (end.exn.Raised? <==> exn.Raised?) && (exn.Crashed? ==> s.Raise?)
      ensures s.Pass? && !exn.Raised? ==> d.W() == old(d.W()) && d.Ending() == old(d.Ending())
      ensures exn.Raised? ==> e < |old(d.store.entries)| && end.exn.err == Judged(exn.err, PhaseIn(old(d.store.Rows()), e))
      ensures s.Pass? && end.exn.Raised? ==>
                trail.before == old(d.W()) && PointHandled(trail, d.W(), e, end.exn.err)
      ensures s.Pass? && end.exn.Raised? && (!end.exn.err.auth || Interrupted(end.exn.err)) ==>
                PointEndedBy(d.W(), e, end.exn.err)
                && (d.store.entries[e].pointRequested && !d.store.job.fullStop ==>
                      PointRepeats(end.exn.err) && !Interrupted(end.exn.err)
                      && old(d.store.entries)[e].pointAttempts < MAX_POINT_RETRY_ATTEMPTS)
    {
      end, trail := Raise(exn), Trail(d.W(), d.W(), d.W(), d.W());
      if exn.Crashed? { s := Raise(Crashed); return; }
      if !exn.Raised? { s := Pass; return; }
      var err := Judged(exn.err, PhaseIn(d.store.Rows(), e));
      JudgedTrouble(d.W(), e, exn.err, true);
      end := Raise(Raised(err));
      hide Inv, Env, RowsKept, PointEndedBy, Trouble, PointHandled;
      s, trail := PointErred(e, err);
    }

    method PointErred(e: EntryId, err: Error) returns (s: Status, ghost trail: Trail)
      requires Ready() && Trouble(d.W(), e, err, true)
      modifies d, d.store
      ensures Ready() && (s.Raise? ==> s.exn.Crashed?)
      ensures s.Pass? ==> trail.before == old(d.W()) && PointHandled(trail, d.W(), e, err)
      ensures s.Pass? && (!err.auth || Interrupted(err)) ==>
                PointEndedBy(d.W(), e, err)
                && (d.store.entries[e].pointRequested && !d.store.job.fullStop ==>
                      PointRepeats(err) && !Interrupted(err)
                      && old(d.store.entries)[e].pointAttempts < MAX_POINT_RETRY_ATTEMPTS)
    {
      assert e < |d.store.entries|;
      hide Inv, Env, RowsKept, PointEndedBy, Trouble, PointClosed, PointNoted, PointFailedState, PointFailedPhase;
      trail := Trail(d.W(), d.W(), d.W(), d.W());
      ghost var attempt, phase := d.store.entries[e].attempt, PhaseOf(d.W(), e);
      var rejected := err.auth && (d.store.job.retryEnabled || !err.denied);
      if !rejected || Interrupted(err) {
        ghost var from: World, closed: World;
        s, from, closed := transfer.handler.PointFailure(e, err);
        if s.Raise? { return; }
        trail := Trail(trail.before, from, closed, d.W());
        PointStands(d.W(), e, err, attempt, phase);
      }
      if rejected {
        ghost var w1 := d.W();
        :- Reject(err);
        if Interrupted(err) {
          assert !PointFailedPhase(phase, err).DownloadRetryWait? by { NoneWaits(phase, err); }
          StandsOn(w1, d.W(), e, PointFailedState(attempt, err), attempt, PointFailedPhase(phase, err));
          PointStands(d.W(), e, err, attempt, phase);
        }
      }
      s := Pass;
    }

    lemma NoneWaits(p: Phase, err: Error)
      ensures !PointFailedPhase(p, err).DownloadRetryWait?
    {
    }

    /** The credentials were rejected: the job waits for new ones. */
    method Reject(err: Error) returns (s: Status)
      requires Ready()
      modifies d, d.store
      ensures Ready() && (s.Raise? ==> s.exn.Crashed?) && d.store.job.space == old(d.store.job.space)
      ensures s.Pass? ==> RowsKept(old(d.W()), d.W())
      ensures s.Pass? ==>
                var job := AfterError(old(d.store.job), AwaitingCredentials, Some(if Interrupted(err) then NeedsAttention else Running));
                Env(SetJob(old(d.W()), job), d.W())
    {
      s := transfer.handler.JobError(AwaitingCredentials, Some(if Interrupted(err) then NeedsAttention else Running));
    }

    /** `_finish_point_retry` after a pass without an error. */
    method FinishUnlessActive(e: EntryId) returns (s: Status)
      requires Ready() && e < |d.store.entries|
      modifies d, d.store
      ensures Ready() && (s.Raise? ==> s.exn.Crashed?)
      ensures s.Pass? ==> RowsKept(old(d.W()), d.W())
      ensures s.Pass? ==>
                if old(d.store.job.fullStop || Active(d.store.entries[e].state) || d.store.entries[e].state.OutcomeUnknown?)
                then d.W() == old(d.W())
                else Env(With(old(d.W()), FinishPointRetry(old(d.store.Rows()), e)).(finished := Some(e)), d.W())
      ensures s.Pass? && d.store.entries[e].pointRequested && !d.store.job.fullStop ==>
                Active(d.store.entries[e].state) || d.store.entries[e].state.OutcomeUnknown?
    {
      hide Inv, Env;
      ghost var w := d.W();
      RowsKeptReflexive(w);
      if d.store.job.fullStop { return Pass; }
      if Active(d.store.entries[e].state) || d.store.entries[e].state.OutcomeUnknown? { return Pass; }
      s := d.FinishPoint(e);
      if s.Pass? { FinishRowsKept(w, e, d.W()); }
    }

    // -------------------------------------------------------------- one step

    /** `step`: one bounded piece of work on the job. It ends early only when the process dies. A job that does not run
      * or is being stopped is left alone, one that is to pause with nothing in progress pauses, and otherwise an entry
      * whose point retry was requested goes first.
      */
    method Step(later: bool, rejected: bool) returns (s: Status, ghost way: Way)
      requires Ready()
      modifies d, d.store, d.watch
      ensures Ready() && (s.Raise? ==> s.exn.Crashed?) && d.watch.all == old(d.watch.all)
      ensures s.Pass? ==> Went(old(d.W()).(finished := None), d.W(), way, d.below) && Given(way, later, rejected)
      ensures s.Pass? && CutShort(way) ==> d.Ending()
      ensures way.Works? ==> !old(d.closing || Halted(d.store.job))
    {
      d.BeginPass();
      way := OffDuty;
      ghost var w := d.W();
      if !d.store.job.state.Running? || d.store.job.stopRequested { return Pass, way; }
      var active := FirstActive();
      if d.store.job.pauseRequested && active.None? {
        way := HoldsJob;
        s := transfer.handler.JobError(Paused);
        return;
      }
      hide Leaves, Inv, Env, Given, CutShort, PointWork, AskedFor, Nowhere, NobodyAsked;
      var asked := FirstAsked();
      if asked.Some? {
        s, way := AskedPass(asked.value, later, rejected);
      } else {
        s, way := PlainPass(later, rejected);
      }
    }

    /** The first selected entry in progress. */
    method FirstActive() returns (active: Option<EntryId>)
      ensures active.None? <==> Nowhere(d.store.Rows(), Active)
      ensures active.Some? ==> active.value < |d.store.entries| && Active(d.store.entries[active.value].state)
    {
      active := d.store.FirstEntry((row: Entry) => row.selected && Active(row.state));
    }

    /** The entry whose point retry was requested. */
    method FirstAsked() returns (asked: Option<EntryId>)
      requires Ready() && d.W().finished.None? && d.store.job.state.Running?
      ensures asked.Some? ==> AskedFor(d.W(), asked.value) && PointWork(d.W(), asked.value)
      ensures asked.None? ==> NobodyAsked(d.W()) && forall e: EntryId :: !AskedFor(d.W(), e)
    {
      asked := d.store.FirstEntry((row: Entry) => row.selected && row.pointRequested);
      if asked.Some? {
        PointBegins(d.W(), asked.value);
        AskedIsNext(d.W(), asked.value);
      } else {
        NobodyAsks();
      }
    }

    method AskedPass(e: EntryId, later: bool, rejected: bool) returns (s: Status, ghost way: Way)
      requires Ready() && PointWork(d.W(), e) && AskedFor(d.W(), e)
      modifies d, d.store
      ensures Ready() && (s.Raise? ==> s.exn.Crashed?) && way.Retries?
      ensures s.Pass? ==> Leaves(old(d.W()), d.W(), way, d.below) && Given(way, later, rejected)
      ensures s.Pass? && CutShort(way) ==> d.Ending()
    {
      hide Inv, Env, Routed, RouteGiven, Told, FoundState, FoundPhase, PointWork, AskedFor;
      ghost var route: Route, seen: World, begun: World, legacy: bool;
      s, route, seen, begun, legacy := PointPass(e, later, rejected);
      way := Retries(e, route, seen, begun, legacy);
    }

    /** Only one entry is requested at a time. */
    lemma AskedIsNext(w: World, e: EntryId)
      requires Inv(w) && e < |w.entries| && w.entries[e].selected && w.entries[e].pointRequested
      ensures AskedFor(w, e)
    {
      forall i: EntryId | i < |w.entries| && w.entries[i].pointRequested ensures i == e { assert NotBoth(w.entries, i, e); }
    }

    /** A requested entry is a selected one. */
    lemma NobodyAsks()
      requires Ready() && forall e | 0 <= e < |d.store.entries| :: !(d.store.entries[e].selected && d.store.entries[e].pointRequested)
      ensures NobodyAsked(d.W())
    {
      forall e: EntryId ensures NotRequested(d.W(), e) {
        if e < |d.store.entries| { assert EntryInv(d.W(), e); }
      }
    }

    /** `step` without a point retry, up to the choice of the entry. */
    method PlainPass(later: bool, rejected: bool) returns (s: Status, ghost way: Way)
      requires Ready() && NobodyAsked(d.W()) && d.W().finished.None?
      requires d.store.job.state.Running? && !d.store.job.stopRequested
      requires d.store.job.pauseRequested ==> !Nowhere(d.store.Rows(), Active)
      modifies d, d.store, d.watch
      ensures Ready() && (s.Raise? ==> s.exn.Crashed?) && d.watch.all == old(d.watch.all)
      ensures s.Pass? ==> Went(old(d.W()), d.W(), way, d.below) && Given(way, later, rejected)
      ensures s.Pass? && CutShort(way) ==> d.Ending()
      ensures way.Works? ==> !old(d.closing || Halted(d.store.job))
    {
      NobodyAsksYet(d.W());
      ghost var w := d.W();
      var waiting := d.store.FirstEntry((row: Entry) => row.selected && Active(row.state));
      if waiting.Some? && !d.store.job.retryEnabled && AwaitsDownload(waiting.value) {
        way := DropsDownload(waiting.value);
        assert AwaitsOff(w, waiting.value);
        s := SkipDownload(waiting.value);
        return;
      }
      NoneToCancel(w, waiting);
      hide CancelsDownload, Leaves, Inv, Env, Given, CutShort;
      s, way := PassOn(waiting, later, rejected);
    }

    /** The rest of `step`, from the clients to the entry. */
    method PassOn(waiting: Option<EntryId>, later: bool, rejected: bool) returns (s: Status, ghost way: Way)
      requires Ready() && NobodyAsked(d.W())
      requires waiting.Some? ==> waiting.value < |d.store.entries| && Active(d.store.entries[waiting.value].state)
      modifies d, d.store, d.watch
      ensures Ready() && (s.Raise? ==> s.exn.Crashed?) && d.watch.all == old(d.watch.all)
      ensures !way.OffDuty? && !way.HoldsJob? && !way.Retries? && !way.DropsDownload?
      ensures s.Pass? ==> Leaves(old(d.W()), d.W(), way, d.below) && Given(way, later, rejected)
      ensures s.Pass? && CutShort(way) ==> d.Ending()
      ensures way.Works? ==> !old(d.closing || Halted(d.store.job))
    {
      hide Inv, Env, Taken, ClaimSettled, Routed, FoundState, FoundPhase, SpaceAfter;
      way := Rests;
      ghost var w := d.W();
      if later { return Pass, way; }
      if rejected {
        way := Rejects;
        s := transfer.handler.JobError(AwaitingCredentials, Some(d.store.job.state));
        return;
      }
      if d.store.job.space.ClaimIntent? || d.store.job.space.ClaimUnknown? {
        way := Doubts;
        s := transfer.handler.JobError(NeedsAttention);
        return;
      }
      if !d.store.job.direct && d.store.job.space.Unclaimed? {
        ghost var claim: Claim, trail: Trail;
        s, claim, trail := ClaimNamespace(waiting);
        way := Claims(waiting, claim, trail);
        return;
      }
      s := d.Checkpoint();
      NobodyAsksMeanwhile(w, d.W());
      way := Halts;
      if s.Raise? { return Pass, way; }
      ghost var mid, r := d.W(), None;
      s, r := TakeUp();
      way := Works(mid, r);
    }

    lemma NoneToCancel(w: World, waiting: Option<EntryId>)
      requires waiting.None? ==> forall e: EntryId | e < |w.entries| :: !(w.entries[e].selected && Active(w.entries[e].state))
      requires waiting.Some? ==> waiting.value < |w.entries| && w.entries[waiting.value].selected && Active(w.entries[waiting.value].state)
      requires waiting.Some? ==> forall e: EntryId | e < waiting.value :: !(w.entries[e].selected && Active(w.entries[e].state))
      requires waiting.Some? && !w.job.retryEnabled ==> !(w.entries[waiting.value].attempt.Some? && PhaseOf(w, waiting.value).DownloadRetryWait?)
      ensures !CancelsDownload(w)
    {
    }

    predicate AwaitsDownload(e: EntryId)
      requires e < |d.store.entries|
      reads d, d.store, d.watch
    {
      var attempt := d.store.entries[e].attempt;
      attempt.Some? && attempt.value < |d.store.attempts| && d.store.attempts[attempt.value].phase.DownloadRetryWait?
    }

    /** A scheduled download of a job whose retries are off fails. */
    method SkipDownload(e: EntryId) returns (s: Status)
      requires Ready() && NobodyAsked(d.W()) && e < |d.store.entries|
      requires Active(d.store.entries[e].state) && AwaitsDownload(e)
      modifies d, d.store
      ensures Ready() && (s.Raise? ==> s.exn.Crashed?)
      ensures s.Pass? ==> Stands(d.W(), e, FailedEntry, old(d.store.entries)[e].attempt, Failed)
    {
      WaitingIsFile(d.W(), e);
      ActiveChosen(d.W(), e);
      Settled(d.W(), d.store.entries[e].attempt.value);
      ghost var from: World;
      s, from := transfer.handler.FailFile(e, Error(SourceDownload, false, false, false));
    }

    /** The namespace is claimed once, behind an intent of its own. */
    method ClaimNamespace(waiting: Option<EntryId>) returns (s: Status, ghost claim: Claim, ghost trail: Trail)
      requires Ready() && NobodyAsked(d.W()) && !d.store.job.direct && d.store.job.space.Unclaimed?
      requires waiting.Some? ==> waiting.value < |d.store.entries| && Active(d.store.entries[waiting.value].state)
      modifies d, d.store
      ensures Ready() && (s.Raise? ==> s.exn.Crashed?)
      ensures s.Pass? ==> d.store.job.space == SpaceAfter(claim) && ClaimSettled(old(d.W()), d.W(), waiting, claim, trail)
      ensures d.store.job.space.Owned? ==> claim.Replied? && ClaimFailure(claim).None?
      ensures d.store.job.space.Unclaimed? ==>
                claim.NotSent? || (ClaimFailure(claim).Some? && !ClaimFailure(claim).value.uncertain)
      ensures s.Pass? && (claim.NotSent? || claim.Cut?) ==> d.Ending()
      ensures old(d.closing || Halted(d.store.job)) ==> claim.NotSent?
    {
      hide Stable, StableFor, OthersIdle, Steady, Kept, Inv, Claiming, ClaimHandled;
      claim, trail := NotSent, Trail(d.W(), d.W(), d.W(), d.W());
      ghost var w := d.W();
      ClaimBegins(w, waiting);
      s := d.Checkpoint();
      if s.Raise? { s := Pass; return; }
      ClaimGoesOn(w, d.W(), waiting);
      ghost var w1 := d.W();
      ClaimJob(w1, waiting, ClaimIntent);
      s := SetSpace(ClaimIntent);
      claim := Cut;
      if s.Raise? { if d.store.job.space.Unclaimed? { claim := NotSent; } return; }
      ClaimGoesOn(SetJob(w1, w1.job.(space := ClaimIntent)), d.W(), waiting);
      s, claim, trail := Claim(waiting);
    }

    /** The claim is sent behind its intent, and what came of it is saved. */
    method Claim(waiting: Option<EntryId>) returns (s: Status, ghost claim: Claim, ghost trail: Trail)
      requires Ready() && Claiming(d.W(), waiting) && d.store.job.space.ClaimIntent?
      modifies d, d.store
      ensures Ready() && (s.Raise? ==> s.exn.Crashed?) && !claim.NotSent?
      ensures s.Pass? ==> d.store.job.space == SpaceAfter(claim)
      ensures s.Pass? && ClaimFailure(claim).Some? ==> ClaimHandled(trail, d.W(), waiting, ClaimFailure(claim).value)
      ensures s.Pass? && claim.Cut? ==> d.Ending()
      ensures d.store.job.space.Owned? ==> claim.Replied? && ClaimFailure(claim).None?
      ensures d.store.job.space.Unclaimed? ==> ClaimFailure(claim).Some? && !ClaimFailure(claim).value.uncertain
    {
      hide Stable, StableFor, OthersIdle, Steady, Kept, Inv, Claiming, ClaimHandled, StatusError;
      claim, trail := Cut, Trail(d.W(), d.W(), d.W(), d.W());
      ghost var w2 := d.W();
      s := d.Enter(true);
      ClaimGoesOn(w2, d.W(), waiting);
      if s.Raise? && !s.exn.Raised? {
        if !s.exn.Crashed? { s := Pass; }
        return;
      }
      var failure: Option<Error> := None;
      if s.Raise? {
        claim, failure := Barred(s.exn.err), Some(s.exn.err);
      } else {
        var answer: Answer := *;
        w2 := d.W();
        s := d.Checkpoint();
        ClaimGoesOn(w2, d.W(), waiting);
        if s.Raise? { s := Pass; return; }
        ClaimsExactly(answer);
        claim, failure := Replied(answer), ClaimError(answer);
        if answer.Torn? {
          // an exception that nobody classified leaves the intent as it is
          s, trail := ClaimFailed(waiting, failure.value);
          return;
        }
      }
      ghost var w3 := d.W();
      var space := if failure.None? then Owned else if failure.value.uncertain then ClaimUnknown else Unclaimed;
      ClaimJob(w3, waiting, space);
      s := SetSpace(space);
      if s.Raise? { return; }
      ClaimGoesOn(SetJob(w3, w3.job.(space := space)), d.W(), waiting);
      hide Env;
      if failure.Some? { s, trail := ClaimFailed(waiting, failure.value); }
    }

    method ClaimFailed(waiting: Option<EntryId>, err: Error) returns (s: Status, ghost trail: Trail)
      requires Ready() && Claiming(d.W(), waiting) && (err.code.DestinationConflict? ==> !err.uncertain)
      modifies d, d.store
      ensures Ready() && (s.Raise? ==> s.exn.Crashed?) && d.store.job.space == old(d.store.job.space)
      ensures s.Pass? ==> trail.before == old(d.W()) && ClaimHandled(trail, d.W(), waiting, err)
    {
      hide Inv, Env, Noted;
      trail := Trail(d.W(), d.W(), d.W(), d.W());
      var rejected := err.auth && (waiting.None? || d.store.job.retryEnabled || !err.denied);
      if waiting.Some? && (!rejected || Interrupted(err)) {
        ghost var from: World;
        s, from := transfer.handler.FailFile(waiting.value, err);
        if s.Raise? { return; }
        trail := Trail(trail.before, from, from, d.W());
      }
      if rejected {
        s := Reject(err);
      } else {
        s := Pass;
        if waiting.None? { s := transfer.handler.JobError(NeedsAttention); }
      }
    }

    method SetSpace(space: Namespace) returns (s: Status)
      requires Ready() && (d.store.job.space.Owned? ==> space.Owned?)
      modifies d, d.store
      ensures Ready() && (s.Raise? ==> s.exn.Crashed?)
      ensures s.Pass? ==> Env(SetJob(old(d.W()), old(d.store.job).(space := space)), d.W()) && d.store.job.space == space
      ensures d.store.job.space == old(d.store.job.space) || d.store.job.space == space
    {
      s := d.SaveJob(d.store.job.(space := space));
    }

    /** The entry to work on is chosen: one in progress, or else the next planned one. */
    method TakeUp() returns (s: Status, ghost r: Option<Report>)
      requires Ready() && NobodyAsked(d.W())
      modifies d, d.store, d.watch
      ensures Ready() && (s.Raise? ==> s.exn.Crashed?) && d.watch.all == old(d.watch.all)
      ensures s.Pass? ==> Taken(old(d.W()), d.W(), r, d.below)
      ensures s.Pass? && r.Some? && ByStop(r.value.end) ==> d.Ending()
    {
      NobodyAsksYet(d.W());
      r := None;
      var active := d.store.FirstEntry((row: Entry) => row.selected && Active(row.state));
      if active.Some? {
        ghost var report: Report;
        s, report := WorkOn(active.value);
        r := Some(report);
        return;
      }
      if d.store.job.pauseRequested {
        s := transfer.handler.JobError(Paused);
        return;
      }
      NobodyActive(d.W());
      var next := d.store.FirstEntry((row: Entry) => row.selected && row.state.Planned?);
      if next.Some? {
        ghost var report: Report;
        s, report := WorkOn(next.value);
        r := Some(report);
      } else if !Halted(d.store.job) {
        s := Complete();
      } else {
        s := Pass;
      }
    }

    /** Nothing is left to do. The job is completed exactly when every selected entry succeeded. */
    method Complete() returns (s: Status)
      requires Ready() && !Halted(d.store.job)
      modifies d, d.store
      ensures Ready() && (s.Raise? ==> s.exn.Crashed?)
      ensures s.Pass? ==> Env(SetJob(old(d.W()), old(d.store.job).(state := FinalState(old(d.store.Rows())))), d.W())
    {
      hide Inv, Env;
      var unknown := d.store.FirstEntry((row: Entry) => row.selected && row.state.OutcomeUnknown?);
      var issue := d.store.FirstEntry((row: Entry) => row.selected && !Success(row.state));
      var state := if d.store.job.retryEnabled && unknown.Some? then NeedsAttention
                   else if issue.Some? then CompletedWithIssues else Completed;
      assert state == FinalState(d.store.Rows());
      s := d.SaveJob(d.store.job.(state := state));
    }

    /** The entry that is next is worked on. */
    method WorkOn(e: EntryId) returns (s: Status, ghost r: Report)
      requires Ready() && NobodyAsked(d.W()) && NextUp(d.store.Rows(), e)
      requires Active(d.store.entries[e].state) || Rest(d.W())
      modifies d, d.store, d.watch
      ensures Ready() && (s.Raise? ==> s.exn.Crashed?) && d.watch.all == old(d.watch.all)
      ensures r.e == e && (s.Pass? ==> Settles(old(d.W()), d.W(), r, d.below))
      ensures s.Pass? && ByStop(r.end) ==> d.Ending()
    {
      assert EntryInv(d.W(), e);
      NobodyAsksYet(d.W());
      if d.store.entries[e].kind.Dir? {
        s, r := MakeEntryDirectory(e);
        return;
      }
      // the watch looks away from the entry while it is worked on
      ghost var before, all, looking := d.W(), d.watch.all, e in d.W().watched;
      if looking { LookAway(e); }
      ghost var w := d.W();
      s, r := WorkOnChosen(e);
      if looking {
        ghost var w1 := d.W();
        LookBack(w, all, e);
        if s.Pass? { StillSettled(before, w, w1, d.W(), r, d.below); }
      }
    }

    /** Where the watch looks makes no difference to a stuck entry. */
    lemma StillSettled(w: World, v: World, v': World, w': World, r: Report, below: (EntryId, EntryId) -> bool)
      requires v == w.(watched := v.watched) && w' == v'.(watched := w'.watched)
      requires r.e < |w.entries| && LeftAbandoned(v, r.e) && Settles(v, v', r, below) && w.entries[r.e].kind.File?
      ensures Settles(w, w', r, below)
    {
      assert RowsKept(v, v');
      forall i: EntryId | i < |w.entries| ensures EnvEntry(w.entries[i], w'.entries[i]) && KeepsState(w, w', i) {
        assert EnvEntry(v.entries[i], v'.entries[i]) && KeepsState(v, v', i);
      }
    }

    /** A stuck entry is taken off the watch, so that it may be worked on. */
    ghost method LookAway(e: EntryId)
      requires Ready() && e in d.W().watched
      modifies d.watch
      ensures Ready() && d.watch.all == old(d.watch.all) - {e} && d.W() == old(d.W()).(watched := old(d.W()).watched - {e})
      ensures Stuck(d.store.Rows(), e) && e in old(d.watch.all) && old(d.watch.all)[e] == d.store.entries[e].state
      ensures (old(Rest(d.W())) ==> Rest(d.W())) && (old(NobodyAsked(d.W())) ==> NobodyAsked(d.W()))
    {
      var w := d.W();
      assert OnWatch(w, e) && TablesOf(w) == d.store.Rows();
      forall i | i in w.watched - {e} ensures OnWatch(w.(watched := w.watched - {e}), i) { assert OnWatch(w, i); }
      WatchedKeeps(w, w.watched - {e});
      d.watch.all := d.watch.all - {e};
      assert d.W().watched == w.watched - {e};
      assert d.W() == w.(watched := w.watched - {e});
      if Rest(w) { forall i: EntryId ensures Idle(d.W(), i) { assert Idle(w, i); } }
      if NobodyAsked(w) { forall i: EntryId ensures NotRequested(d.W(), i) { assert NotRequested(w, i); } }
    }

    /** Nothing happened to it, and the watch goes on. */
    ghost method LookBack(w: World, all: map<EntryId, EntryState>, e: EntryId)
      requires Ready() && Stuck(TablesOf(w), e) && Env(w, d.W()) && d.watch.all == all - {e}
      requires e in all && all[e] == w.entries[e].state
      modifies d.watch, d`skipped
      ensures Ready() && d.watch.all == all && d.W() == old(d.W()).(watched := d.W().watched)
    {
      var w1, skipped := d.W(), d.skipped - {e};
      EnvStuck(w, w1);
      assert KeepsState(w, w1, e);
      forall i | i in all - skipped ensures OnWatch(w1.(watched := all - skipped), i) {
        if i != e { assert i in w1.watched && OnWatch(w1, i); }
      }
      WatchedKeeps(w1, all - skipped);
      d.watch.all, d.skipped := all, skipped;
      assert d.W() == w1.(watched := all - skipped);
    }

    lemma LeftAloneRows(w: World, w': World)
      requires Env(w, w')
      ensures RowsKept(w, w')
    {
    }

    /** One pass over the file that was taken up. */
    method WorkOnChosen(e: EntryId) returns (s: Status, ghost r: Report)
      requires Ready() && NobodyAsked(d.W()) && NextUp(d.store.Rows(), e) && d.store.entries[e].kind.File?
      requires (Active(d.store.entries[e].state) || Rest(d.W())) && e !in d.W().watched
      modifies d, d.store
      ensures Ready() && (s.Raise? ==> s.exn.Crashed?) && r.e == e
      ensures s.Pass? ==> Settles(old(d.W()), d.W(), r, d.below)
      ensures s.Pass? && ByStop(r.end) ==> d.Ending()
      ensures Stuck(old(d.store.Rows()), e) ==> LeftAbandoned(old(d.W()), e) && Env(old(d.W()), d.W())
    {
      NobodyAsksYet(d.W());
      ghost var w := d.W();
      if Active(d.store.entries[e].state) { ActiveChosen(d.W(), e); } else { PlannedChosen(d.W(), e); }
      s, r := WorkOnFile(e);
      if LeftAbandoned(w, e) { LeftAloneRows(w, d.W()); }
    }

    /** One pass over a file, and what becomes of the entry when the pass ends with an error. */
    method WorkOnFile(e: EntryId) returns (s: Status, ghost r: Report)
      requires Ready() && Chosen(d.W(), e)
      modifies d, d.store
      ensures Ready() && (s.Raise? ==> s.exn.Crashed?) && r.e == e
      ensures s.Pass? ==>
                if LeftAbandoned(old(d.W()), e) then r.end.Pass? || r.end == Raise(StopSeen)
                else
                  && (r.end.Pass? ==> PassOver(d.W(), e) && Ends(d.W(), e, r.ev))
                  && (r.end.Raise? && r.end.exn.Raised? ==> FileHandled(r.trail, d.W(), e, r.end.exn.err))
      ensures s.Pass? && r.end.Raise? && r.end.exn.Raised? && (!r.end.exn.err.auth || Interrupted(r.end.exn.err)) ==>
                EndedBy(d.W(), e, r.end.exn.err)
      ensures LeftAbandoned(old(d.W()), e) ==> Env(old(d.W()), d.W())
      ensures s.Pass? && ByStop(r.end) ==> d.Ending()
    {
      hide Inv, Env, Stable, StableFor, OthersIdle, Unfinished, Steady, Kept, RowsKept, EndedBy, Ends, FileHandled;
      ghost var trail := Trail(d.W(), d.W(), d.W(), d.W());
      ghost var ev: Evidence;
      s, ev := transfer.File(e, false);
      r := Report(e, s, ev, trail);
      if s.Pass? || s.exn.Crashed? { return; }
      if !s.exn.Raised? { s := Pass; return; }
      ghost var end: Status;
      s, end, trail := FileCaught(e, s.exn.err);
      r := Report(e, end, ev, trail);
    }

    /** The handlers of `step` for an error in the pass over a file. */
    method FileCaught(e: EntryId, exn: Error) returns (s: Status, ghost end: Status, ghost trail: Trail)
      requires Ready() && Trouble(d.W(), e, exn, false) && NotRequested(d.W(), e)
      modifies d, d.store
      ensures Ready() && (s.Raise? ==> s.exn.Crashed?) && end.Raise? && end.exn.Raised?
      ensures end.exn.err == Judged(exn, PhaseIn(old(d.store.Rows()), e))
      ensures s.Pass? ==> trail.before == old(d.W()) && FileHandled(trail, d.W(), e, end.exn.err)
      ensures s.Pass? && (!end.exn.err.auth || Interrupted(end.exn.err)) ==> EndedBy(d.W(), e, end.exn.err)
    {
      hide Inv, Env, Stable, StableFor, OthersIdle, Unfinished, Steady, Kept, RowsKept, Noted;
      var err := Judged(exn, PhaseIn(d.store.Rows(), e));
      JudgedTrouble(d.W(), e, exn, false);
      end, trail := Raise(Raised(err)), Trail(d.W(), d.W(), d.W(), d.W());
      var rejected := err.auth && (d.store.job.retryEnabled || !err.denied);
      ghost var attempt, phase := d.store.entries[e].attempt, FailedPhase(PhaseOf(d.W(), e), err);
      if !rejected || Interrupted(err) {
        TroubleCanFail(d.W(), e, err);
        ghost var from: World;
        s, from := transfer.handler.FailFile(e, err);
        if s.Raise? { return; }
        trail := Trail(trail.before, from, from, d.W());
      }
      if rejected {
        ghost var w1 := d.W();
        :- Reject(err);
        if Interrupted(err) { StandsOn(w1, d.W(), e, FailedState(err), attempt, phase); }
      }
      s := Pass;
    }

    /** The directory of an entry is made, and the entry is done or takes the error. */
    method MakeEntryDirectory(e: EntryId) returns (s: Status, ghost r: Report)
      requires Ready() && e < |d.store.entries| && d.store.entries[e].kind.Dir? && !Success(d.store.entries[e].state)
      modifies d, d.store
      ensures Ready() && (s.Raise? ==> s.exn.Crashed?) && r.e == e
      ensures s.Pass? && r.end.Pass? ==>
                e < |d.store.entries| && d.store.entries[e].state.Done? && Delivered(d.W(), e)
      ensures s.Pass? && r.end.Raise? && r.end.exn.Raised? ==> DirectoryHandled(r.trail, d.W(), e, r.end.exn.err, d.below)
      ensures s.Pass? && r.end.Raise? && r.end.exn.Raised? && (!r.end.exn.err.auth || Interrupted(r.end.exn.err)) ==>
                Stands(d.W(), e, FailedState(r.end.exn.err), None, Failed)
      ensures s.Pass? && ByStop(r.end) ==> d.Ending()
    {
      ghost var w := d.W();
      DirectoryUntried(w, e);
      s := transfer.MakeDirectory(e, true);
      r := Report(e, s, NO_EVIDENCE, Trail(d.W(), d.W(), d.W(), d.W()));
      assert EnvEntry(w.entries[e], d.store.entries[e]) && KeepsState(w, d.W(), e);
      if s.Pass? {
        s := d.SaveSuccess(e, d.store.entries[e].(state := Done));
        return;
      }
      if s.exn.Crashed? { return; }
      if !s.exn.Raised? { s := Pass; return; }
      ghost var trail: Trail;
      s, trail := DirectoryCaught(e, s.exn.err);
      r := r.(trail := trail);
    }

    method DirectoryCaught(e: EntryId, err: Error) returns (s: Status, ghost trail: Trail)
      requires Ready() && e < |d.store.entries| && d.store.entries[e].kind.Dir? && !Success(d.store.entries[e].state)
      modifies d, d.store
      ensures Ready() && (s.Raise? ==> s.exn.Crashed?)
      ensures s.Pass? ==> trail.before == old(d.W()) && DirectoryHandled(trail, d.W(), e, err, d.below)
      ensures s.Pass? && (!err.auth || Interrupted(err)) ==> Stands(d.W(), e, FailedState(err), None, Failed)
    {
      hide Inv, Env, RowsKept, Noted, NotedBelow;
      trail := Trail(d.W(), d.W(), d.W(), d.W());
      var rejected := err.auth && (d.store.job.retryEnabled || !err.denied);
      if !rejected || Interrupted(err) {
        ghost var from: World;
        s, from := transfer.handler.FailDirectory(e, err);
        if s.Raise? { return; }
        trail := Trail(trail.before, from, from, d.W());
      }
      if rejected {
        ghost var w1 := d.W();
        :- Reject(err);
        if Interrupted(err) { StandsOn(w1, d.W(), e, FailedState(err), None, Failed); }
      }
      s := Pass;
    }

    // -------------------------------------------------------------- a retry of the job

    /** `retry`: every selected entry that failed is planned again with a download budget and, if it is a file,
      * an attempt of its own, which takes over a copy that still matches the plan. No other entry is touched.
      */
    method Retry(blocked: bool) returns (s: Status, ghost answers: nat, ghost retried: World)
      requires Ready()
      modifies d, d.store
      ensures Ready() && (s.Raise? ==> s.exn.Crashed? || s.exn.Refused? || s.exn.JobStopped? || LookError(s.exn))
      ensures s.Pass? ==> |d.store.entries| == |old(d.store.entries)|
                          && forall e: EntryId | e < |d.store.entries| :: Retried(old(d.W()), d.W(), e)
      ensures (s.Pass? || s.exn.Refused?) && Retryable(old(d.store.Rows())) ==>
                (s.Raise? <==> exists e: EntryId :: Unretryable(old(d.store.Rows()), e))
      ensures !Retryable(old(d.store.Rows())) ==> s == Raise(Refused) && d.W() == old(d.W()).(finished := None)
      ensures if s.Pass? && blocked then answers == 2 else !blocked ==> answers == 0
      ensures s.Pass? ==>
                Env(SetJob(retried, retried.job.(state := Running, resume := None, pauseRequested := false)), d.W())
      ensures d.Justified(s)
    {
      hide Inv, Env, Retried, RowsKept, Rest, Unretryable;
      ghost var w := d.W();
      InvLinked(w);
      d.BeginPass();
      assert TablesOf(w) == TablesOf(d.W()) == d.store.Rows();
      var retryable := MayRetry();
      answers, retried := 0, d.W();
      if !retryable { s := Raise(Refused); return; }
      NobodyBusy(d.W());
      EnvReflexive(d.W());
      if blocked {
        ghost var w0 := d.W();
        s, answers := transfer.DestinationAvailable();
        RestGoesOn(w0, d.W());
        if s.Raise? { return; }
      }
      ghost var w1 := d.W();
      EnvSizes(w.(finished := None), w1);
      SameUnretryable(w.(finished := None), w1);
      assert TablesOf(w1) == d.store.Rows();
      s := RetryEntries();
      if s.Raise? {
        if s.exn.Refused? {
          ghost var e: EntryId :| Unretryable(TablesOf(w1), e);
          assert Unretryable(TablesOf(w.(finished := None)), e);
        }
        return;
      }
      ghost var w2 := d.W();
      retried := w2;
      var row := d.store.job.(state := Running, resume := None, pauseRequested := false);
      s := d.SaveJob(row);
      if s.Pass? {
        JobRowsKept(w2, row, d.W());
        RetriedAround(w.(finished := None), w1, w2, d.W());
        SameRetried(w, w.(finished := None), d.W());
      }
    }

    method MayRetry() returns (retryable: bool)
      requires Ready()
      ensures retryable == Retryable(d.store.Rows())
    {
      var busy := d.store.FirstEntry((row: Entry) => Busy(row) || row.state.OutcomeUnknown?);
      var state := if d.store.job.state.AwaitingCredentials? then d.store.job.resume else Some(d.store.job.state);
      if state !in {Some(CompletedWithIssues), Some(NeedsAttention), Some(Paused)} { return false; }
      if busy.Some? { return false; }
      return !exists e | 0 <= e < |d.store.entries| :: NeedsPointRetry(d.store.Rows(), e);
    }

    method RetryEntries() returns (s: Status)
      requires Ready() && Rest(d.W())
      modifies d, d.store
      ensures Ready() && (s.Raise? ==> s.exn.Crashed? || s.exn.Refused? || s.exn.JobStopped?)
      ensures s.Pass? || s.exn.Refused? ==> (s.Raise? <==> exists e: EntryId :: Unretryable(old(d.store.Rows()), e))
      ensures s.Pass? ==> RetriedTo(old(d.W()), d.W(), |old(d.store.entries)|)
      ensures d.Justified(s)
    {
      hide Inv, Env, Rest, RetriedTo, Unretryable;
      var e: EntryId, count := 0, |d.store.entries|;
      s := Pass;
      ghost var w := d.W();
      assert TablesOf(w) == d.store.Rows();
      InvLinked(w);
      RetriedNone(w);
      while e < count
        invariant Ready() && s.Pass? && Rest(d.W()) && e <= count == |d.store.entries|
        invariant RetriedTo(w, d.W(), e) && forall i: EntryId | i < e :: !Unretryable(TablesOf(w), i)
        decreases count - e
      {
        ghost var w1 := d.W();
        SameElsewhere(w1, e);
        StillLeft(w, w1, e);
        RetryableOnly(TablesOf(w1), e);
        assert TablesOf(w1) == d.store.Rows();
        if d.store.entries[e].selected && d.store.entries[e].state.FailedEntry? {
          s := RetryEntry(e);
          if s.Raise? {
            assert s.exn.Refused? ==> Unretryable(TablesOf(w), e);
            return;
          }
        }
        RetriedNext(w, w1, d.W(), e);
        e := e + 1;
      }
      RetryableOnly(TablesOf(w), |w.entries|);
    }

    lemma RetryableOnly(t: Tables, e: EntryId)
      ensures e >= |t.entries| || !t.entries[e].selected || !t.entries[e].state.FailedEntry? ==> !Unretryable(t, e)
      ensures forall i: EntryId | i >= |t.entries| :: !Unretryable(t, i)
    {
    }

    method RetryEntry(e: EntryId) returns (s: Status)
      requires Ready() && Rest(d.W()) && e < |d.store.entries|
      requires d.store.entries[e].selected && d.store.entries[e].state.FailedEntry?
      modifies d, d.store
      ensures Ready() && (s.Raise? ==> s.exn.Crashed? || s.exn.Refused? || s.exn.JobStopped?)
      ensures s.Pass? || s.exn.Refused? ==> (s.Raise? <==> Unretryable(old(d.store.Rows()), e))
      ensures s.Pass? ==> Rest(d.W()) && Elsewhere(old(d.W()), d.W(), e)
                          && Renewed(d.W(), e, |old(d.store.attempts)|, Reusable(old(d.W()), e))
      ensures d.Justified(s)
    {
      hide Inv, Env, Rest;
      ghost var w := d.W();
      SameElsewhere(w, e);
      InvLinked(w);
      if d.store.entries[e].kind.File? { :- RetryFile(e); } else { DirectoryUntried(w, e); }
      ghost var w1 := d.W();
      s := Replan(e, |w.attempts|, Reusable(w, e));
      if s.Pass? { ElsewhereTransitive(w, w1, d.W(), e); }
    }

    /** A new attempt, which takes over the copy of the old one when that still matches the plan. */
    method RetryFile(e: EntryId) returns (s: Status)
      requires Ready() && Rest(d.W()) && e < |d.store.entries|
      requires var row := d.store.entries[e]; row.selected && row.state.FailedEntry? && row.kind.File?
      modifies d, d.store
      ensures Ready() && (s.Raise? ==> s.exn.Crashed? || s.exn.Refused? || s.exn.JobStopped?)
      ensures s.Pass? || s.exn.Refused? ==> (s.Raise? <==> Unretryable(old(d.store.Rows()), e))
      ensures s.Pass? ==> Rest(d.W()) && Elsewhere(old(d.W()), d.W(), e) && d.store.entries[e].state.FailedEntry?
                          && NewlyTried(d.W(), e, |old(d.store.attempts)|, Reusable(old(d.W()), e))
      ensures d.Justified(s)
    {
      hide Env, Stable, StableFor, Steady, Kept, Inv, Elsewhere;
      ghost var w := d.W();
      RestWork(w, e);
      InvLinked(w);
      var prior := d.store.entries[e].attempt;
      var local := if prior.Some? then d.store.attempts[prior.value].local else None;
      var a: AttemptId;
      s, a := d.CreateAttempt(e, false, false);
      if s.Raise? { return; }
      CreatedElsewhere(w, e, d.W());
      RestAgain(d.W(), e);
      if transfer.stager.LocalMatches(local, e) {
        ghost var w1 := d.W();
        s := TakeOver(e, a, prior.value, local);
        if s.Pass? { ElsewhereTransitive(w, w1, d.W(), e); }
      }
    }

    method TakeOver(e: EntryId, a: AttemptId, prior: AttemptId, local: Option<Name>) returns (s: Status)
      requires Ready() && Rest(d.W()) && Mine(d.W(), e, a) && a !in d.purged && prior < a
      requires NewlyTried(d.W(), e, a, None) && d.store.entries[e].state.FailedEntry?
      requires d.store.attempts[prior].entry == e
      requires transfer.stager.LocalMatches(local, e)
      modifies d, d.store
      ensures Ready() && (s.Raise? ==> s.exn.Crashed?)
      ensures s.Pass? ==> Rest(d.W()) && Elsewhere(old(d.W()), d.W(), e) && d.store.entries[e].state.FailedEntry?
                          && NewlyTried(d.W(), e, a, local)
    {
      ghost var w := d.W();
      var row := d.store.attempts[a].(phase := Staged, local := local);
      AttemptOf(w, a);
      hide Env, Stable, StableFor, OthersIdle, Steady, Kept, Inv, AttemptGuard;
      TakeOverGuard(w, e, a, row);
      :- d.SaveAttempt(a, row);
      AttemptSaved(w, a, row, d.W(), e);
      RestSaved(w, a, row, d.W());
      ghost var w1 := d.W();
      SameOwner(SetAttempt(w, a, row), w1, prior);
      ForgetGuard(w1, e, prior);
      var forgotten := d.store.attempts[prior].(local := None);
      :- d.SaveAttempt(prior, forgotten);
      RestSaved(w1, prior, forgotten, d.W());
      FailedStays(SetAttempt(w1, prior, forgotten), d.W(), e);
      TakenOver(w, e, a, row, w1, prior, forgotten, d.W());
      s := Pass;
    }

    /** The entry is planned once more, with a download budget of its own. */
    method Replan(e: EntryId, ghost from: nat, ghost local: Option<Name>) returns (s: Status)
      requires Ready() && Rest(d.W()) && e < |d.store.entries| && d.store.entries[e].state.FailedEntry?
      requires if d.store.entries[e].kind.File? then NewlyTried(d.W(), e, from, local) else d.store.entries[e].attempt.None?
      modifies d, d.store
      ensures Ready() && (s.Raise? ==> s.exn.Crashed?)
      ensures s.Pass? ==> Rest(d.W()) && Elsewhere(old(d.W()), d.W(), e) && Renewed(d.W(), e, from, local)
    {
      ghost var w := d.W();
      var row := d.store.entries[e].(state := Planned, downloads := 0, retryAt := None);
      ReplanGuard(w, e, row);
      hide Inv, Env, Rest;
      :- d.SaveEntry(e, row);
      RestGoesOn(SetEntry(w, e, row), d.W());
      EntryElsewhere(w, e, row, d.W());
      LeftAloneEnv(SetEntry(w, e, row), d.W());
      RenewedOn(SetEntry(w, e, row), d.W(), e, from, local);
      s := Pass;
    }

    // -------------------------------------------------------------- stopping, resuming and everything together

    /** `stop_job`. */
    method StopJob() returns (s: Status)
      requires Ready()
      modifies d, d.store, d.watch
      ensures Ready() && (s.Raise? ==> s.exn.Crashed?)
      ensures s.Pass? ==> d.store.job.state.Stopped?
      ensures s.Pass? && old(d.store.job).fullStop ==>
                forall e | 0 <= e < |d.store.entries| ::
                  !InWork(d.store.entries[e].state) && !d.store.entries[e].state.OutcomeUnknown?
    {
      d.BeginPass();
      :- d.SaveJob(d.store.job.(state := Stopped, resume := None, pauseRequested := false));
      s := Pass;
      if d.store.job.fullStop {
        ghost var w := d.W();
        s := d.CancelLocal();
        if s.Pass? { CancelledAll(w, d.W()); }
      }
    }

    /** The `resume` request. */
    method ResumeJob() returns (s: Status)
      requires Ready()
      modifies d, d.store
      ensures Ready()
      ensures s.Pass? ==>
                var job := old(d.store.job).(state := ResumedState(old(d.store.Rows())), resume := None, pauseRequested := false);
                Resumable(old(d.store.Rows())) && Env(SetJob(old(d.W()).(finished := None), job), d.W())
      ensures s.Raise? ==> s.exn.Crashed? || d.W() == old(d.W()).(finished := None)
      ensures s.Raise? && s.exn.Refused? <==> !Resumable(old(d.store.Rows()))
      ensures d.Justified(s)
    {
      hide Inv, Env, Resumable, Halted, ResumedState;
      d.BeginPass();
      var resumable := MayResume();
      if !resumable { return Raise(Refused); }
      var state := TargetState();
      s := d.SaveJob(d.store.job.(state := state, resume := None, pauseRequested := false));
    }

    method TargetState() returns (state: JobState)
      requires Ready()
      ensures state == ResumedState(d.store.Rows()) && !state.Completed? && !state.Stopped?
    {
      var asked := d.store.FirstEntry((row: Entry) => row.pointRequested);
      if asked.Some? { return Running; }
      if d.store.job.resume == Some(Queued) || d.store.job.resume == Some(Planning) { return Queued; }
      if d.store.job.resume == Some(JobState.Ready) { return JobState.Ready; }
      return if d.store.entries == [] then Queued else Running;
    }

    method MayResume() returns (resumable: bool)
      requires Ready()
      ensures resumable == Resumable(d.store.Rows())
    {
      var job := d.store.job;
      if !(job.state.Paused? || job.state.AwaitingCredentials? || job.state.NeedsAttention?) { return false; }
      if job.space.ClaimIntent? || job.space.ClaimUnknown? { return false; }
      var asked := d.store.FirstEntry((row: Entry) => row.pointRequested);
      var work := d.store.FirstEntry((row: Entry) => InWork(row.state));
      var unknown := d.store.FirstEntry((row: Entry) => row.state.OutcomeUnknown?);
      return asked.Some? || work.Some? || unknown.None?;
    }

    /** Any number of operations on the job in any order, each of which may be cut short by a crash. Without stops
      * an entry that is stuck remains so, unless it is a planned one that is given up with a directory above it.
      */
    method Run(rounds: nat, stops: bool := true)
      requires Ready()
      modifies d, d.store, d.watch
      ensures Ready()
      ensures !stops ==> StaysStuck(old(d.store.Rows()), d.store.Rows(), d.below)
    {
      var i := 0;
      ghost var t := d.store.Rows();
      hide *;
      StaysReflexive(t, d.below);
      while i < rounds
        invariant Ready() && (!stops ==> StaysStuck(t, d.store.Rows(), d.below))
      {
        ghost var t1 := d.store.Rows();
        Operate(stops);
        if !stops { StaysTransitive(t, t1, d.store.Rows(), d.below); }
        i := i + 1;
      }
    }

    /** One operation, and a restart if the process died in it. */
    method Operate(stops: bool)
      requires Ready()
      modifies d, d.store, d.watch
      ensures Ready()
      ensures !stops ==> StaysStuck(old(d.store.Rows()), d.store.Rows(), d.below)
    {
      hide Inv, Env, Stuck, Halted;
      var operation: int, e: EntryId, attempt: Option<AttemptId> := *, *, *;
      var s: Status := Pass;
      ghost var t := d.store.Rows();
      d.WatchStuck();
      ghost var all := d.watch.all;
      match operation {
      case 0 =>
        ghost var way: Way;
        var later: bool, rejected: bool := *, *;
        s, way := Step(later, rejected);
      case 1 =>
        var blocked: bool := *;
        ghost var answers: nat, retried: World;
        s, answers, retried := Retry(blocked);
      case 2 => if e < |d.store.entries| { s := d.QueuePoint(e, attempt); }
      case 3 => if stops { s := StopJob(); }
      case 4 => s := ResumeJob();
      case 5 => s := transfer.Cleanup(false);
      case 6 => s := purger.CleanupCache();
      case 7 => if stops { s := d.CancelLocal(); }
      case _ => d.Interfere();
      }
      if s.Raise? && s.exn.Crashed? { d.Recover(); }
      if !stops { Watched(t, all); }
    }

    /** What was on watch all along is still stuck, unless it was given up with a directory. */
    lemma Watched(t: Tables, all: map<EntryId, EntryState>)
      requires Ready() && d.watch.all == all
      requires forall e :: e in all <==> Stuck(t, e)
      requires forall e | e in all :: e < |t.entries| && all[e] == t.entries[e].state
      ensures StaysStuck(t, d.store.Rows(), d.below)
    {
      assert TablesOf(d.W()) == d.store.Rows();
      forall e: EntryId | Stuck(t, e)
        ensures StaysOrSkipped(t, d.store.Rows(), e, d.below)
      {
        if e in d.skipped { assert d.MayBeSkipped(e); } else { assert e in d.W().watched && OnWatch(d.W(), e); }
      }
    }
  }
}
