/** The running process around the store: the staging directory, the remote disk it talks to, and
  * everything that may happen between two of its steps.
  *
  * Each method is one step. It keeps `Valid`, it may be cut short by a crash before or after its
  * effect, and after it stop, pause and retry-switch requests may arrive and requests already sent may
  * land, in any number and order.
  */
module Session {
  import opened Rows
  import opened Transactions
  import opened World
  import opened Effects
  import opened Landing
  import opened Store
  import opened Destination

  /** A file whose hash the service reported and that has the planned content. */
  predicate Same(row: Entry, found: Option<Node>) {
    row.kind.File? && found.Some? && found.value.Bytes? && row.planned == Some(found.value.content)
  }

  /** The errors of a GET: an outage, a refusal, a 409 reported as a conflict, or a malformed answer. */
  predicate ReadError(exn: Exn) {
    && exn.Raised? && !exn.err.uncertain
    && (Interrupted(exn.err) || exn.err.code.DestinationConflict? || Malformed(exn.err))
  }

  /** The errors of `ensure_dir`. */
  predicate DirectoryError(exn: Exn) {
    exn.Raised? && (Interrupted(exn.err) || (exn.err.code.DestinationConflict? && !exn.err.uncertain)
                    || Malformed(exn.err))
  }

  /** The errors of a PUT or POST: they are uncertain, or an outage or refusal, or a conflict. */
  predicate MutationError(exn: Exn) {
    exn.Raised? && (Interrupted(exn.err)
                    || ((exn.err.code.InvalidReference? || exn.err.code.InternalError?) && exn.err.uncertain)
                    || (exn.err.code.DestinationConflict? && !exn.err.uncertain))
  }

  datatype Progress = InProgress | Succeeds | Fails

  /** What came back of a PUT or POST: it did not leave the process, the process could not read the answer, there was
    * none, or it has a status, with or without the link of an operation.
    */
  datatype Answer = Unsent | Torn | Lost | Response(status: int, reference: bool)

  /** The error that an answer stands for, if it does not report a success. */
  function AnswerError(answer: Answer): Option<Error> {
    match answer
    case Unsent => Some(Error(DestinationOutage, false, false, false))
    case Torn => Some(Error(InternalError, true, false, false))
    case Lost => Some(Error(DestinationOutage, true, false, false))
    case Response(status, reference) =>
      if !HttpStatus(status) then Some(Error(DestinationOutage, true, false, false))
      else if status == 202 && !reference then Some(Error(InvalidReference, true, false, false))
      else StatusError(status, {201, 202}, true)
  }

  /** How a submission ends, unless the process dies: with success exactly for a 201, and for a 202 that can be polled. */
  predicate AnswerEnds(answer: Answer, s: Status, accepted: bool) {
    if AnswerError(answer).Some? then s == Raise(Raised(AnswerError(answer).value))
    else s.Pass? && answer.Response? && answer.status == if accepted then 202 else 201
  }

  /** What an upload that was answered, or was not, ends with. */
  lemma AnswersExactly(answer: Answer)
    ensures AnswerError(answer).None? <==>
              answer.Response? && (answer.status == 201 || (answer.status == 202 && answer.reference))
    ensures AnswerError(answer).Some? && !AnswerError(answer).value.uncertain <==>
              answer.Unsent? || (answer.Response? && 400 <= answer.status < 500)
  {
  }

  /** Entry `e` has not succeeded, or its success may still be taken back. */
  ghost predicate Unfinished(w: World, e: EntryId)
    requires e < |w.entries|
  {
    !Success(w.entries[e].state) || Reopened(w, e)
  }

  /** Entry `e` is a selected, unfinished file that is not on watch, and nothing else is being worked on. */
  ghost predicate Work(w: World, e: EntryId) {
    && e < |w.entries| && w.entries[e].kind.File? && w.entries[e].selected && Unfinished(w, e) && OthersIdle(w, e)
    && e !in w.watched
  }

  /** ... and `a` is its current attempt. */
  ghost predicate Mine(w: World, e: EntryId, a: AttemptId) {
    && Work(w, e) && w.entries[e].attempt == Some(a)
    && a < |w.attempts| && w.attempts[a].entry == e
  }

  /** The planned file cannot be transferred. */
  predicate GivenUp(s: EntryState) {
    s.SourceChanged? || s.VerificationUnavailable?
  }

  /** How a pass over a file leaves it when no error ends it: delivered, waiting for the server or for another
    * download, or given up with a settled attempt. Never in progress with nothing left to happen.
    */
  ghost predicate PassOver(w: World, e: EntryId) {
    && e < |w.entries|
    && var row := w.entries[e];
    if row.attempt.None? then GivenUp(row.state) || (Success(row.state) && Delivered(w, e))
    else
      && row.attempt.value < |w.attempts|
      && match w.attempts[row.attempt.value].phase
         case WaitingTransfer => true
         case WaitingMove => true
         case DownloadRetryWait => row.state.Fetching?
         case Failed => !InWork(row.state) && !Success(row.state)
         case Succeeded => Success(row.state) && Delivered(w, e)
         case _ => false
  }

  /** The download of the entry waits for its time, unless a switch has cancelled it since. */
  predicate Scheduled(w: World, e: EntryId) {
    && e < |w.entries| && w.entries[e].attempt.Some? && w.entries[e].attempt.value < |w.attempts|
    && var state, phase := w.entries[e].state, w.attempts[w.entries[e].attempt.value].phase;
       (state.Fetching? && phase.DownloadRetryWait?) || (state.FailedEntry? && phase.Failed?)
  }

  lemma ScheduledOver(w: World, w': World, e: EntryId, retryAt: int, code: Code)
    requires HasEntry(TablesOf(w), e) && Linked(TablesOf(w), e) && w.entries[e].attempt.Some?
    requires var o := ScheduleDownloadRetry(TablesOf(w), e, retryAt, code); o.Some? && Env(With(w, o.value), w')
    ensures PassOver(w', e) && Scheduled(w', e) && w'.entries[e].downloads == w.entries[e].downloads
  {
    var mid := With(w, ScheduleDownloadRetry(TablesOf(w), e, retryAt, code).value);
    assert EnvEntry(mid.entries[e], w'.entries[e]) && KeepsState(mid, w', e);
  }

  predicate NotRequested(w: World, e: EntryId) {
    e < |w.entries| ==> !w.entries[e].pointRequested
  }

  /** The entry does not become a success by this update. */
  predicate StillOpen(was: Entry, row: Entry) {
    !Success(row.state) || (row.state == was.state && row.pointRequested == was.pointRequested)
  }

  ghost predicate Stable(w: World, w': World) {
    && (forall e: EntryId {:trigger NotRequested(w', e)} :: NotRequested(w, e) ==> NotRequested(w', e))
    && (forall e: EntryId {:trigger Work(w', e)} :: Work(w, e) ==> Work(w', e))
    && (forall e: EntryId, a: AttemptId {:trigger Mine(w', e, a)} :: Mine(w, e, a) ==> Mine(w', e, a))
    && |w'.entries| == |w.entries| && |w'.attempts| == |w.attempts|
    && (forall e: EntryId {:trigger Delivered(w', e)} | e < |w.entries| :: Delivered(w, e) ==> Delivered(w', e))
  }

  lemma EnvStable(w: World, w': World)
    requires Env(w, w')
    ensures Stable(w, w')
  {
    forall e: EntryId | Work(w, e) ensures Work(w', e) {
      assert EnvEntry(w.entries[e], w'.entries[e]) && KeepsState(w, w', e) && KeepsRoom(w, w', e);
      forall i: EntryId | i != e ensures Idle(w', i) {
        assert Idle(w, i);
        assert i < |w.entries| ==> EnvEntry(w.entries[i], w'.entries[i]) && KeepsState(w, w', i);
      }
    }
    forall e: EntryId | e < |w.entries| && Delivered(w, e) ensures Delivered(w', e) {
      assert KeepsDelivery(w, w', e);
    }
    forall e: EntryId, a: AttemptId | Mine(w, e, a) ensures Mine(w', e, a) {
      assert EnvEntry(w.entries[e], w'.entries[e]) && EnvAttempt(w.attempts[a], w'.attempts[a]);
      assert Work(w', e);
    }
  }

  const MAX_DOWNLOAD_ATTEMPTS := 5

  function DownloadLimit(job: Job): nat {
    if job.retryEnabled then MAX_DOWNLOAD_ATTEMPTS else 1
  }

  /** The attempts and the requests are as they were, but for what others may change. */
  ghost predicate Steady(w: World, w': World) {
    && w'.job.direct == w.job.direct && w'.job.space == w.job.space
    && |w'.entries| == |w.entries| && |w'.attempts| == |w.attempts|
    && (forall a: AttemptId | a < |w.attempts| :: EnvAttempt(w.attempts[a], w'.attempts[a]))
    && w'.puts == w.puts && w'.moves == w.moves && w'.uploads.Keys <= w.uploads.Keys
  }

  /** `e` stays unfinished work, with the same current attempt. */
  ghost predicate StableFor(w: World, w': World, e: EntryId) {
    && (Work(w, e) ==> Work(w', e)) && (NotRequested(w, e) ==> NotRequested(w', e))
    && (forall a: AttemptId {:trigger Mine(w', e, a)} :: Mine(w, e, a) ==> Mine(w', e, a))
    && |w'.entries| == |w.entries| && |w'.attempts| == |w.attempts|
    && (e < |w.entries| ==> SamePlan(w.entries[e], w'.entries[e]))
    && (e < |w.entries| && w.job.direct && Room(w, e) ==> Room(w', e))
    && w'.job.direct == w.job.direct
    && (e < |w.entries| && Delivered(w, e) ==> Delivered(w', e))
  }

  /** The work on `e` can go on: nothing it relies on was changed by the steps in between. */
  ghost predicate Kept(w: World, w': World, e: EntryId) {
    StableFor(w, w', e) && Steady(w, w')
  }

  lemma KeptParts(w: World, w': World, e: EntryId, a: AttemptId)
    requires Kept(w, w', e) && Mine(w, e, a)
    ensures Mine(w', e, a) && EnvAttempt(w.attempts[a], w'.attempts[a]) && StableFor(w, w', e)
    ensures SamePlan(w.entries[e], w'.entries[e]) && (NotRequested(w, e) ==> NotRequested(w', e))
    ensures w'.puts == w.puts && w'.moves == w.moves && w'.uploads.Keys <= w.uploads.Keys
    ensures w'.job.direct == w.job.direct && w'.job.space == w.job.space
    ensures Carries(w, w', e) && (InFlight(w', a) ==> InFlight(w, a))
  {
  }

  lemma StableTransitive(a: World, b: World, c: World, e: EntryId)
    requires StableFor(a, b, e) && StableFor(b, c, e)
    ensures StableFor(a, c, e)
  {
    forall i: AttemptId | Mine(a, e, i) ensures Mine(c, e, i) { assert Mine(b, e, i); }
    assert e < |a.entries| && Delivered(a, e) ==> Delivered(b, e);
  }

  lemma StableParts(w: World, w': World, e: EntryId, a: AttemptId)
    requires StableFor(w, w', e) && Mine(w, e, a)
    ensures Mine(w', e, a) && SamePlan(w.entries[e], w'.entries[e]) && Carries(w, w', e)
  {
  }

  /** An attempt may take any phase past its submission, as long as no upload of it is still awaited. */
  lemma LaterGuard(w: World, e: EntryId, a: AttemptId, row: Attempt)
    requires Inv(w) && Mine(w, e, a) && row.entry == e && row.remote == w.attempts[a].remote
    requires !PreSubmit(row.phase) && (PreMove(row.phase) ==> w.moves[a] == 0)
    requires InFlight(w, a) ==> MayHold(w, row, a, w.entries[e])
    ensures AttemptGuard(w, a, row)
  {
    assert AttemptInv(w, a);
  }

  /** Before its submission an attempt may take another copy that matches the plan, or none. */
  lemma LocalGuard(w: World, e: EntryId, a: AttemptId, row: Attempt)
    requires Inv(w) && Mine(w, e, a) && row.entry == e && row.remote == w.attempts[a].remote
    requires PreSubmit(w.attempts[a].phase) && PreSubmit(row.phase) && !row.phase.DownloadRetryWait?
    requires row.phase.Staged? && row.local.Some? && row.local.value in w.staging ==>
               w.entries[e].planned == Some(w.staging[row.local.value])
    requires a in w.purged && Downloadable(w.entries[e].state) ==> w.entries[e].downloads == 0
    ensures AttemptGuard(w, a, row)
  {
    assert AttemptInv(w, a);
  }

  /** The row of the working entry may change in any way that leaves it unfinished and unrequested. */
  lemma EntryRowGuard(w: World, e: EntryId, a: AttemptId, row: Entry)
    requires Inv(w) && Mine(w, e, a) && SamePlan(w.entries[e], row) && row.attempt == Some(a)
    requires StillOpen(w.entries[e], row) && (row.pointRequested ==> w.entries[e].pointRequested)
    requires InFlight(w, a) ==> !w.attempts[a].phase.Failed? || Sealed(row) || a in w.loose
    requires a in w.purged && PreSubmit(w.attempts[a].phase) && Downloadable(row.state) ==>
               row.downloads == 0 || (row.downloads == w.entries[e].downloads && Downloadable(w.entries[e].state))
    requires !w.attempts[a].phase.DownloadRetryWait?
    ensures EntryGuard(w, e, row)
  {
    assert EntryInv(w, e) && AttemptInv(w, a);
  }

  lemma EnvSizes(w: World, w': World)
    requires Env(w, w')
    ensures |w'.entries| == |w.entries| && |w'.attempts| == |w.attempts| && w'.job.direct == w.job.direct
    ensures forall e: EntryId | e < |w.entries| :: SamePlan(w.entries[e], w'.entries[e])
  {
    forall e: EntryId | e < |w.entries| ensures SamePlan(w.entries[e], w'.entries[e]) {
      assert EnvEntry(w.entries[e], w'.entries[e]);
    }
  }

  lemma AttemptOf(w: World, a: AttemptId)
    requires Inv(w) && a < |w.attempts|
    ensures AttemptInv(w, a)
  {
  }

  lemma EnvKept(w: World, w': World, e: EntryId)
    requires Env(w, w')
    ensures Kept(w, w', e)
  {
    EnvStable(w, w');
    assert NotRequested(w, e) ==> NotRequested(w', e);
    assert Work(w, e) ==> Work(w', e);
    assert e < |w.entries| && Delivered(w, e) ==> Delivered(w', e);
    assert e < |w.entries| ==> KeepsRoom(w, w', e) && EnvEntry(w.entries[e], w'.entries[e]);
  }

  lemma SteadyTransitive(a: World, b: World, c: World)
    requires Steady(a, b) && Steady(b, c)
    ensures Steady(a, c)
  {
    forall i: AttemptId | i < |a.attempts| ensures EnvAttempt(a.attempts[i], c.attempts[i]) {
      assert EnvAttempt(a.attempts[i], b.attempts[i]) && EnvAttempt(b.attempts[i], c.attempts[i]);
    }
  }

  lemma KeptTransitive(a: World, b: World, c: World, e: EntryId)
    requires Kept(a, b, e) && Kept(b, c, e)
    ensures Kept(a, c, e)
  {
    SteadyTransitive(a, b, c);
    forall i: AttemptId | Mine(a, e, i) ensures Mine(c, e, i) { assert Mine(b, e, i); }
    assert e < |a.entries| && Delivered(a, e) ==> Delivered(b, e);
  }

  predicate StaysUnasked(w: World, w': World, e: EntryId) {
    NotRequested(w, e) ==> NotRequested(w', e)
  }

  /** No point retry of `e` was requested, and room to submit it was not lost. */
  ghost predicate Carries(w: World, w': World, e: EntryId) {
    && StaysUnasked(w, w', e) && w'.job.direct == w.job.direct
    && (Clear(w, e) ==> Clear(w', e))
  }

  /** An upload of the current attempt of `e` would not be one too many. */
  ghost predicate Clear(w: World, e: EntryId) {
    e < |w.entries| && w.job.direct ==> Room(w, e)
  }

  /** What a step that only looks leaves in place for the work on attempt `a` of entry `e`. */
  ghost predicate Undisturbed(w: World, w': World, e: EntryId, a: AttemptId) {
    && Kept(w, w', e) && Mine(w', e, a) && a < |w.attempts| && e < |w.entries|
    && w'.attempts[a] == w.attempts[a]
    && EnvEntry(w.entries[e], w'.entries[e]) && w'.entries[e].state == w.entries[e].state
    && w'.staging == w.staging && w'.purged == w.purged && w'.loose == w.loose
    && w'.puts == w.puts && w'.moves == w.moves
    && w'.uploads.Keys <= w.uploads.Keys && w'.job.direct == w.job.direct && w'.job.space == w.job.space
    && (InFlight(w', a) ==> InFlight(w, a)) && Carries(w, w', e)
  }

  lemma GoOn(w: World, w': World, e: EntryId, a: AttemptId)
    requires Env(w, w') && Mine(w, e, a) && !w.attempts[a].phase.DownloadRetryWait?
    ensures Undisturbed(w, w', e, a)
  {
    EnvKept(w, w', e);
    assert EnvEntry(w.entries[e], w'.entries[e]) && EnvAttempt(w.attempts[a], w'.attempts[a]);
    assert KeepsState(w, w', e);
  }

  lemma AttemptStable(w: World, a: AttemptId, row: Attempt)
    requires a < |w.attempts| && row.entry == w.attempts[a].entry
    ensures Stable(w, SetAttempt(w, a, row))
  {
    var w' := SetAttempt(w, a, row);
    forall e: EntryId | Work(w, e) ensures Work(w', e) {
      forall i: EntryId | i != e ensures Idle(w', i) { assert Idle(w, i); }
    }
  }

  lemma AttemptSaved(w: World, a: AttemptId, row: Attempt, w': World, e: EntryId)
    requires Mine(w, e, a) && row.entry == e && !row.phase.DownloadRetryWait? && Env(SetAttempt(w, a, row), w')
    ensures Undisturbed(SetAttempt(w, a, row), w', e, a) && StableFor(w, w', e) && Carries(w, w', e)
    ensures InFlight(w', a) ==> InFlight(w, a)
  {
    var mid := SetAttempt(w, a, row);
    AttemptStable(w, a, row);
    assert Mine(mid, e, a);
    GoOn(mid, w', e, a);
    forall i: AttemptId | Mine(w, e, i) ensures Mine(w', e, i) { assert i == a; }
    assert NotRequested(w, e) ==> NotRequested(mid, e);
    assert e < |w.entries| && Delivered(w, e) ==> Delivered(mid, e);
    CountedSame(w, mid, e);
  }

  lemma EntrySaved(w: World, e: EntryId, row: Entry, w': World, a: AttemptId)
    requires Mine(w, e, a) && !w.attempts[a].phase.DownloadRetryWait? && Env(SetEntry(w, e, row), w')
    requires SamePlan(w.entries[e], row) && row.attempt == w.entries[e].attempt
    requires StillOpen(w.entries[e], row) && (row.pointRequested ==> w.entries[e].pointRequested)
    ensures Undisturbed(SetEntry(w, e, row), w', e, a) && Kept(w, w', e) && Carries(w, w', e)
    ensures InFlight(w', a) ==> InFlight(w, a)
  {
    var mid := SetEntry(w, e, row);
    EntryStable(w, e, row);
    assert Mine(mid, e, a);
    GoOn(mid, w', e, a);
    assert Steady(w, mid);
    KeptTransitive(w, mid, w', e);
  }

  lemma EntryStable(w: World, e: EntryId, row: Entry)
    requires e < |w.entries| && SamePlan(w.entries[e], row) && row.attempt == w.entries[e].attempt
    requires row.pointRequested ==> w.entries[e].pointRequested
    ensures StillOpen(w.entries[e], row) ==> StableFor(w, SetEntry(w, e, row), e)
  {
    var w' := SetEntry(w, e, row);
    CountedSame(w, w', e);
    if Work(w, e) && StillOpen(w.entries[e], row) {
      forall i: EntryId | i != e ensures Idle(w', i) { assert Idle(w, i); }
    }
  }

  lemma {:induction false} Unused(names: set<Name>) returns (bound: Name)
    ensures forall n | n in names :: n < bound
    ensures bound !in names
    decreases names
  {
    if names == {} { return 0; }
    var n :| n in names;
    bound := Unused(names - {n});
    if bound <= n { bound := n + 1; }
    forall m | m in names ensures m < bound { assert m == n || m in names - {n}; }
  }

  lemma SendStable(w: World, w': World)
    requires w'.entries == w.entries && w'.attempts == w.attempts && w'.disk == w.disk
    requires w'.job == w.job && w'.finished == w.finished && w'.watched == w.watched
    ensures Stable(w, w')
  {
    forall e: EntryId | Work(w, e) ensures Work(w', e) {
      forall i: EntryId | i != e ensures Idle(w', i) { assert Idle(w, i); }
    }
  }

  lemma StableOn(a: World, b: World, c: World)
    requires Stable(a, b) && Stable(b, c)
    ensures Stable(a, c)
  {
  }

  lemma SendKept(w: World, e: EntryId, a: AttemptId, content: Content)
    requires Inv(w) && Mine(w, e, a) && w.attempts[a].phase.TransferIntent?
    requires w.puts[a] == 0 && w.entries[e].planned == Some(content) && Cleared(w.marks) && (w.job.direct ==> Room(w, e))
    ensures Inv(SendUpload(w, a, content)) && Stable(w, SendUpload(w, a, content))
  {
    SendUploadKeeps(w, a, content);
    SendStable(w, SendUpload(w, a, content));
  }

  lemma SameKept(w: World, w': World, e: EntryId)
    requires w'.job == w.job && w'.entries == w.entries && w'.attempts == w.attempts && w'.disk == w.disk
    requires w'.pointMade == w.pointMade && w'.loose == w.loose && w'.finished == w.finished && w'.watched == w.watched
    requires w'.puts == w.puts && w'.moves == w.moves && w'.uploads == w.uploads
    ensures Kept(w, w', e)
    ensures forall a: AttemptId {:trigger Mine(w', e, a)} :: Mine(w, e, a) ==> Mine(w', e, a)
  {
    if e < |w.entries| { CountedSame(w, w', e); }
    if Work(w, e) {
      forall i: EntryId | i != e ensures Idle(w', i) { assert Idle(w, i); }
    }
  }

  lemma JobStable(w: World, job: Job)
    requires job.stopRequested == w.job.stopRequested && (job.state.Completed? ==> w.job.state.Completed?)
    ensures Stable(w, SetJob(w, job))
  {
    var w' := SetJob(w, job);
    forall e: EntryId | Work(w, e) ensures Work(w', e) {
      forall i: EntryId | i != e ensures Idle(w', i) { assert Idle(w, i); }
    }
  }

  lemma CreatedMine(w: World, w': World, e: EntryId, a: AttemptId)
    requires Work(w, e) && |w'.entries| == |w.entries|
    requires w'.entries == w.entries[e := w'.entries[e]] && SamePlan(w.entries[e], w'.entries[e])
    requires w'.job == w.job && w'.finished == w.finished && w'.watched == w.watched
    requires StillOpen(w.entries[e], w'.entries[e]) && w'.entries[e].attempt == Some(a)
    requires a < |w'.attempts| && w'.attempts[a].entry == e
    ensures Mine(w', e, a)
  {
    forall i: EntryId | i != e ensures Idle(w', i) { assert Idle(w, i); }
  }

  /** No attempt was made, nothing is being worked on, and the technical directory does not exist yet. A job without
    * one owns its namespace from the start.
    */
  ghost predicate Fresh(job: Job, entries: seq<Entry>, disk: map<Place, Node>) {
    var w := NewWorld(job, entries, disk);
    && !job.stopRequested && !job.state.Completed? && (job.direct ==> job.space.Owned?)
    && (forall e: EntryId | e < |entries| ::
          && entries[e].attempt.None? && !Busy(entries[e])
          && (entries[e].state.Done? || entries[e].state.AlreadyVerified? ==> Delivered(w, e)))
    && (forall p | p in disk :: !p.Temp?)
  }

  lemma FreshKeeps(job: Job, entries: seq<Entry>, disk: map<Place, Node>)
    requires Fresh(job, entries, disk)
    ensures Inv(NewWorld(job, entries, disk))
  {
    var w := NewWorld(job, entries, disk);
    forall e: EntryId | e < |entries| ensures EntryInv(w, e) {
      assert Superseded(w, e) == {};
    }
    forall p | p in disk ensures TempInv(w, p) { assert !p.Temp?; }
  }

  /** What the running process remembers is no part of what is kept. */
  lemma FinishedKeeps(w: World, finished: Option<EntryId>)
    requires Inv(w)
    ensures Inv(w.(finished := finished))
  {
    var w' := w.(finished := finished);
    forall a: AttemptId | a < |w.attempts| ensures AttemptInv(w', a) { assert AttemptInv(w, a); }
    forall e: EntryId | e < |w.entries| ensures EntryInv(w', e) {
      assert EntryInv(w, e);
      CountedSame(w, w', e);
    }
    RemoteKeeps(w, w');
  }

  /** Other rows may be watched for being stuck. */
  lemma WatchedKeeps(w: World, watched: map<EntryId, EntryState>)
    requires Inv(w) && Watches(w.(watched := watched))
    ensures Inv(w.(watched := watched))
  {
    var w' := w.(watched := watched);
    hide Watches;
    forall a: AttemptId | a < |w.attempts| ensures AttemptInv(w', a) { assert AttemptInv(w, a); }
    forall e: EntryId | e < |w.entries| ensures EntryInv(w', e) {
      assert EntryInv(w, e);
      CountedSame(w, w', e);
    }
    forall p | p in w'.disk ensures TempInv(w', p) { assert TempInv(w, p); }
    forall i | i in w'.puts || i in w'.moves || i in w'.uploads || i in w'.renames
               || i in w'.pointMade || i in w'.purged || i in w'.loose ensures Known(w', i) {
      assert Known(w, i);
    }
  }

  function Unwatched(w: World, i: EntryId): World {
    w.(watched := w.watched - {i})
  }

  lemma UnwatchedKeeps(w: World, i: EntryId)
    requires Inv(w)
    ensures Inv(Unwatched(w, i))
  {
    forall e | e in w.watched - {i} ensures OnWatch(Unwatched(w, i), e) { assert OnWatch(w, e); }
    WatchedKeeps(w, w.watched - {i});
  }

  /** The entries that were stuck when the watch began, and their states then. Who works on the job cannot change it. */
  class Watch {
    ghost var all: map<EntryId, EntryState>

    constructor ()
      ensures all == map[]
    {
      all := map[];
    }
  }

  /** Every directory of the plan above `e` is there. */
  ghost predicate Housed(w: World, e: EntryId, below: (EntryId, EntryId) -> bool) {
    forall k: EntryId | k < |w.entries| && below(k, e) && w.entries[k].kind.Dir? :: Delivered(w, k)
  }

  /** ... as far as they are among the first `i` entries. */
  ghost predicate HousedTo(w: World, e: EntryId, below: (EntryId, EntryId) -> bool, i: nat) {
    forall k: EntryId | k < |w.entries| && k < i && below(k, e) && w.entries[k].kind.Dir? :: Delivered(w, k)
  }

  lemma NoneHoused(w: World, e: EntryId, below: (EntryId, EntryId) -> bool)
    ensures HousedTo(w, e, below, 0)
  {
  }

  lemma HousedNext(w: World, e: EntryId, below: (EntryId, EntryId) -> bool, i: EntryId)
    requires i < |w.entries| && HousedTo(w, e, below, i) && (below(i, e) && w.entries[i].kind.Dir? ==> Delivered(w, i))
    ensures HousedTo(w, e, below, i + 1)
  {
  }

  lemma AllHoused(w: World, e: EntryId, below: (EntryId, EntryId) -> bool)
    requires HousedTo(w, e, below, |w.entries|)
    ensures Housed(w, e, below)
  {
  }

  lemma HousedOn(w: World, w': World, e: EntryId, below: (EntryId, EntryId) -> bool, i: nat)
    requires Env(w, w') && HousedTo(w, e, below, i)
    ensures HousedTo(w', e, below, i) && |w'.entries| == |w.entries|
  {
    forall k: EntryId | k < |w.entries| && k < i && below(k, e) && w'.entries[k].kind.Dir? ensures Delivered(w', k) {
      assert EnvEntry(w.entries[k], w'.entries[k]) && KeepsDelivery(w, w', k);
    }
  }

  /** What was seen at a remote path, if the service answered: the node there, and whether its hash is known. */
  datatype Look = Unseen | Seen(at: Place, node: Option<Node>, hashed: bool)

  class Session {
    const store: MigrationStore
    const watch: Watch
    const below: (EntryId, EntryId) -> bool      // the second entry lies below the first in the source
    const guarded: bool
    ghost const plan: seq<Entry>                 // the rows as they were frozen
    var closing: bool                            // the process is shutting down
    var staging: map<Name, Content>
    var disk: map<Place, Node>
    var uploads: map<AttemptId, Content>
    var renames: set<AttemptId>
    ghost var puts: multiset<AttemptId>
    ghost var moves: multiset<AttemptId>
    ghost var pointMade: set<AttemptId>
    ghost var purged: set<AttemptId>
    ghost var loose: set<AttemptId>
    ghost var marks: seq<Mark>
    ghost var halt: Option<Halt>
    var finished: Option<EntryId>
    ghost var skipped: set<EntryId>              // the entries given up with a directory since the watch began

    ghost function W(): World
      reads this, store, watch
    {
      World(store.job, store.entries, store.attempts, staging, disk, uploads, renames,
            puts, moves, pointMade, purged, loose, marks, halt, finished, watch.all - skipped)
    }

    /** `guarded` holds for a run that keeps two rules: no answer read while an upload is awaited is malformed, and
      * no entry whose attempt has failed is given up with the directory above it. Part of `Inv` is that what is on
      * watch is still stuck, so that every method that keeps `Valid` and leaves `watch` alone keeps that, too.
      */
    ghost predicate Valid()
      reads this, store, watch
    {
      && Inv(W()) && (guarded ==> loose == {}) && FollowsPlan()
      && forall e | e in skipped :: MayBeSkipped(e)
    }

    /** Nothing changes what was planned. */
    ghost predicate FollowsPlan()
      reads store
    {
      |store.entries| == |plan| && forall e | 0 <= e < |plan| :: SamePlan(plan[e], store.entries[e])
    }

    /** Only a planned entry with a directory above it is given up with one. */
    ghost predicate MayBeSkipped(e: EntryId)
      reads watch
    {
      (exists d: EntryId :: below(d, e)) && (e in watch.all ==> watch.all[e].Planned?)
    }

    /** The watch begins. */
    ghost method WatchStuck()
      requires Valid()
      modifies this`skipped, watch
      ensures Valid() && skipped == {} && forall e :: e in watch.all <==> Stuck(store.Rows(), e)
      ensures forall e | e in watch.all :: e < |store.entries| && watch.all[e] == store.entries[e].state
      ensures W() == old(W()).(watched := watch.all)
    {
      var watched := map e | 0 <= e < |store.entries| && Stuck(store.Rows(), e) :: store.entries[e].state;
      var w := W();
      assert TablesOf(w) == store.Rows();
      forall e | e in watched ensures OnWatch(w.(watched := watched), e) {}
      WatchedKeeps(w, watched);
      watch.all, skipped := watched, {};
      assert W() == w.(watched := watched);
    }

    /** A job whose plan was reviewed and frozen, before its first attempt. */
    constructor (job: Job, entries: seq<Entry>, disk: map<Place, Node>, below: (EntryId, EntryId) -> bool, guarded: bool)
      requires Fresh(job, entries, disk)
      ensures Valid() && fresh(store) && fresh(watch) && this.guarded == guarded && this.below == below && plan == entries
      ensures store.Rows() == Tables(job, entries, []) && this.disk == disk
      ensures puts == multiset{} && moves == multiset{} && marks == []
    {
      store := new MigrationStore(job, entries, []);
      this.below, this.guarded, plan := below, guarded, entries;
      this.disk, staging, uploads, renames := disk, map[], map[], {};
      puts, moves, pointMade, purged, loose, marks, halt := multiset{}, multiset{}, {}, {}, {}, [], None;
      finished, skipped, closing := None, {}, false;
      watch := new Watch();
      new;
      FreshKeeps(job, entries, disk);
    }

    // -------------------------------------------------------------- interference

    method StopArrives(full: bool)
      requires Valid()
      modifies this`marks, this`halt, store
      ensures Valid() && Env(old(W()), W())
    {
      var o := if full then RequestFullStop(store.Rows()) else RequestStop(store.Rows());
      if o.Committed? {
        StopKeeps(W(), o.t);
        hide Inv, Env, RequestStop, RequestFullStop;
        ghost var w := Stopping(W(), o.t);
        var _ := store.Commit(o);
        marks, halt := w.marks, w.halt;
        assert W() == w;
      }
    }

    method PauseArrives(pause: bool)
      requires Valid()
      modifies store
      ensures Valid() && Env(old(W()), W())
    {
      hide Inv, Env;
      FlagKeeps(W(), store.job.(pauseRequested := pause));
      store.job := store.job.(pauseRequested := pause);
      assert W() == old(W()).(job := store.job);
    }

    method RetrySwitchArrives(enabled: bool)
      requires Valid()
      modifies store
      ensures Valid() && Env(old(W()), W())
    {
      InvLinked(W());
      SetRetryEnabledKeeps(W(), enabled);
      var _ := store.Commit(Committed(SetRetryEnabled(store.Rows(), enabled)));
      assert W() == With(old(W()), SetRetryEnabled(TablesOf(old(W())), enabled));
    }

    /** A switch cancels the point retries that wait for their time. A file that succeeded waits for nothing,
      * unless it succeeded, in this process, after the switch had looked.
      */
    predicate Cancellable(e: EntryId)
      requires e < |store.entries|
      reads this, store
    {
      !Success(store.entries[e].state) || finished == Some(e)
    }

    method PointRetryCancelled(e: EntryId)
      requires Valid() && e < |store.entries| && Announced(W(), e)
      modifies store
      ensures Valid() && Env(old(W()), W())
    {
      FinishPointRetryKeeps(W(), e);
      var _ := store.Commit(Committed(FinishPointRetry(store.Rows(), e)));
      assert W() == With(old(W()), FinishPointRetry(TablesOf(old(W())), e));
    }

    method UploadLands(a: AttemptId, replace: bool)
      requires Valid() && a in uploads
      modifies this`uploads, this`disk
      ensures Valid() && Env(old(W()), W()) && W() == LandUpload(old(W()), a, replace)
    {
      assert Known(W(), a);
      LandUploadKeeps(W(), a, replace);
      disk := Arrive(disk, store.attempts[a].remote, uploads[a], replace);
      uploads := uploads - {a};
      assert W() == LandUpload(old(W()), a, replace);
    }

    method UploadIsLost(a: AttemptId)
      requires Valid()
      modifies this`uploads
      ensures Valid() && Env(old(W()), W()) && uploads == old(uploads) - {a}
    {
      LoseUploadKeeps(W(), a);
      uploads := uploads - {a};
      assert W() == LoseUpload(old(W()), a);
    }

    method MoveLands(a: AttemptId, replace: bool)
      requires Valid() && a in renames
      modifies this`renames, this`disk
      ensures Valid() && Env(old(W()), W()) && W() == LandMove(old(W()), a, replace)
    {
      assert Known(W(), a);
      LandMoveKeeps(W(), a, replace);
      var src, dst := store.attempts[a].remote, Dest(store.attempts[a].entry);
      if src in disk && disk[src].Bytes? && src != dst {
        disk := Arrive(disk - {src}, dst, disk[src].content, replace);
      }
      renames := renames - {a};
      assert W() == LandMove(old(W()), a, replace);
    }

    method MoveIsLost(a: AttemptId)
      requires Valid()
      modifies this`renames
      ensures Valid() && Env(old(W()), W()) && renames == old(renames) - {a}
    {
      LoseMoveKeeps(W(), a);
      renames := renames - {a};
      assert W() == LoseMove(old(W()), a);
    }

    /** Any number of requests of other threads and of late effects, in any order. */
    method Interfere()
      requires Valid()
      modifies this, store
      ensures Valid() && Env(old(W()), W()) && Stable(old(W()), W())
    {
      EnvReflexive(W());
      hide Inv, Env, Stable;
      var rounds: nat := *;
      while rounds > 0
        invariant Valid() && Env(old(W()), W())
        decreases rounds
      {
        ghost var w := W();
        var kind: int, a: AttemptId, e: EntryId, flag: bool := *, *, *, *;
        match kind {
        case 0 => StopArrives(flag);
        case 1 => PauseArrives(flag);
        case 2 => RetrySwitchArrives(flag);
        case 3 => if e < |store.entries| && Cancellable(e) { PointRetryCancelled(e); }
        case 4 => if a in uploads { UploadLands(a, flag); }
        case 5 => UploadIsLost(a);
        case 6 => if a in renames { MoveLands(a, flag); }
        case 7 => closing := true;
        case _ => MoveIsLost(a);
        }
        if w != W() { EnvTransitive(old(W()), w, W()); }
        rounds := rounds - 1;
      }
      EnvStable(old(W()), W());
    }

    // -------------------------------------------------------------- steps that only look

    /** What ends the work on a job before it is done. */
    predicate Ending()
      reads this, store
    {
      closing || Halted(store.job) || store.job.fullStop
    }

    /** Nothing ends because of a stop unless there is one. */
    predicate Justified(s: Status)
      reads this, store
    {
      s.Raise? && (s.exn.StopSeen? || s.exn.JobStopped?) ==> Ending()
    }

    /** `_checkpoint`: passes unless a stop was requested or the process is shutting down. */
    method Checkpoint() returns (s: Status)
      requires Valid()
      modifies this, store
      ensures Valid() && Env(old(W()), W()) && Stable(old(W()), W())
      ensures s.Raise? <==> old(closing || Halted(store.job))
      ensures s.Pass? ==> Cleared(W().marks)
      ensures s.Raise? ==> s.exn.StopSeen? && W() == old(W())
      ensures Justified(s)
    {
      EnvReflexive(W());
      EnvStable(W(), W());
      if closing || Halted(store.job) { return Raise(StopSeen); }
      PassCheckKeeps(W());
      ghost var w := PassCheck(W());
      marks := marks + [Check];
      assert W() == w;
      Interfere();
      EnvTransitive(old(W()), w, W());
      EnvStable(old(W()), W());
      return Pass;
    }

    /** What `_logged` does before an action: a full stop ends it, and before a mutation a checkpoint
      * must pass and no outage of the destination may be on record.
      */
    method Enter(mutation: bool) returns (s: Status)
      requires Valid()
      modifies this, store
      ensures Valid() && Env(old(W()), W()) && Stable(old(W()), W())
      ensures s.Pass? && mutation ==> Cleared(W().marks) && !old(Halted(store.job))
      ensures s.Raise? ==> s.exn.StopSeen? || s.exn.Crashed? || (s.exn.Raised? && Interrupted(s.exn.err) && !s.exn.err.uncertain)
      ensures s.Raise? && s.exn.Raised? ==> mutation
      ensures old(store.job.fullStop) ==> s == Raise(StopSeen)
      ensures Justified(s)
    {
      EnvReflexive(W());
      EnvStable(W(), W());
      if store.job.fullStop { return Raise(StopSeen); }
      var dies: bool := *;
      if dies { return Raise(Crashed); }
      if mutation {
        :- Checkpoint();
        var outage: Option<Error> := *;
        if outage.Some? && Interrupted(outage.value) {
          return Raise(Raised(outage.value.(uncertain := false)));
        }
      }
      return Pass;
    }

    /** One GET: the response is allowed, or it is classified, or the connection fails. With `sound` an allowed
      * response also has the form that the client expects.
      */
    method Read(allowed: set<int>, sound: bool := false) returns (s: Status, ghost answered: bool)
      ensures answered <==> s.Pass?
      ensures s.Raise? ==> s.exn.Crashed? || ReadError(s.exn)
      ensures sound && s.Raise? && s.exn.Raised? ==> !Malformed(s.exn.err)
    {
      answered := false;
      var dies: bool, lost: bool, status: int, odd: Option<Error> := *, *, *, *;
      if dies { s := Raise(Crashed); return; }
      if odd.Some? && Malformed(odd.value) && !sound { s := Raise(Raised(odd.value)); return; }
      if lost || !HttpStatus(status) { s := Raise(Raised(Error(DestinationOutage, false, false, false))); return; }
      match StatusError(status, allowed, false) {
        case Some(err) => s := Raise(Raised(err));
        case None => s, answered := Pass, true;
      }
    }

    /** `destination.stat`: what is there when the request is answered, and whether its hash is known, which that of a
      * directory never is.
      */
    method Stat(e: EntryId, p: Place)
      returns (s: Status, found: Option<Node>, hashed: bool, ghost look: Look)
      requires Valid() && e < |store.entries|
      modifies this, store
      ensures Valid() && Env(old(W()), W()) && Stable(old(W()), W())
      ensures s.Raise? ==> s.exn.Crashed? || ReadError(s.exn)
      ensures s.Pass? ==> found == if p in old(disk) then Some(old(disk)[p]) else None
      ensures look == if s.Pass? then Seen(p, found, hashed) else Unseen
      ensures hashed ==> s.Pass? && found.Some? && found.value.Bytes?
      ensures s.Pass? && p == Dest(e) && found.None? ==> Clear(W(), e)
      ensures s.Pass? && p == Dest(e) && Same(store.entries[e], found) ==> Delivered(W(), e)
      ensures s.Pass? && p == Dest(e) && store.entries[e].kind.Dir? && found == Some(Folder) ==> Delivered(W(), e)
    {
      found, hashed, look := None, false, Unseen;
      ghost var answered: bool;
      s, answered := Read({200, 404});
      if s.Pass? {
        found := if p in disk then Some(disk[p]) else None;
        var known: bool := *;
        hashed := known && found.Some? && found.value.Bytes?;
        look := Seen(p, found, hashed);
      }
      ghost var w := W();
      Interfere();
      assert EnvEntry(w.entries[e], store.entries[e]) && KeepsDelivery(w, W(), e) && KeepsRoom(w, W(), e);
    }

    /** The planned entry `e` is about to be given up with the directory `k`. */
    ghost method Skip(e: EntryId, k: EntryId)
      requires Valid() && e < |store.entries| && store.entries[e].state.Planned? && below(k, e)
      modifies this`skipped
      ensures Valid() && W() == old(W()).(watched := old(W()).watched - {e})
    {
      var w := W();
      UnwatchedKeeps(w, e);
      MaySkip(e, k);
      hide Inv, OnWatch, MayBeSkipped, FollowsPlan;
      skipped := skipped + {e};
      assert W().watched == w.watched - {e};
      assert W() == Unwatched(w, e);
    }

    lemma MaySkip(e: EntryId, k: EntryId)
      requires Valid() && e < |store.entries| && store.entries[e].state.Planned? && below(k, e)
      ensures MayBeSkipped(e)
    {
      if e in W().watched { assert OnWatch(W(), e); }
      assert e in watch.all && e !in skipped ==> e in W().watched;
    }

    /** A malformed answer ends the wait for the upload of `a`. */
    ghost method LetGo(a: AttemptId)
      requires Valid() && a < |store.attempts| && !guarded
      modifies this`loose
      ensures Valid() && W() == Loosen(old(W()), a)
    {
      LoosenKeeps(W(), a);
      loose := loose + {a};
      assert W() == Loosen(old(W()), a);
    }

    // -------------------------------------------------------------- steps that write rows

    method SaveAttempt(a: AttemptId, row: Attempt) returns (s: Status)
      requires Valid() && a < |store.attempts| && AttemptGuard(W(), a, row)
      modifies this, store
      ensures Valid() && Stable(old(W()), W())
      ensures s.Pass? ==> Env(SetAttempt(old(W()), a, row), W())
      ensures s.Pass? ==> EnvAttempt(row, store.attempts[a]) && (old(store.job.fullStop) ==> store.job.fullStop)
      ensures s.Raise? ==> s.exn.Crashed? && (W() == old(W()) || W() == SetAttempt(old(W()), a, row))
      ensures store.job.space == old(store.job.space)
    {
      ghost var w := SetAttempt(W(), a, row);
      SetAttemptKeeps(W(), a, row);
      AttemptStable(W(), a, row);
      var early: bool, late: bool := *, *;
      if early { EnvReflexive(W()); EnvStable(W(), W()); return Raise(Crashed); }
      store.UpdateAttempt(a, row);
      assert W() == w;
      if late { return Raise(Crashed); }
      Interfere();
      return Pass;
    }

    method SaveEntry(e: EntryId, row: Entry) returns (s: Status)
      requires Valid() && e < |store.entries| && EntryGuard(W(), e, row)
      requires row.pointRequested ==> store.entries[e].pointRequested
      modifies this, store
      ensures Valid()
      ensures s.Pass? ==> Env(SetEntry(old(W()), e, row), W())
      ensures s.Pass? ==> EnvEntry(row, store.entries[e]) && (old(store.job.fullStop) ==> store.job.fullStop)
      ensures s.Pass? ==> Steady(old(W()), W())
      ensures s.Pass? && StillOpen(old(store.entries)[e], row) ==> StableFor(old(W()), W(), e)
      ensures s.Raise? ==> s.exn.Crashed?
      ensures store.job.space == old(store.job.space)
    {
      ghost var w := SetEntry(W(), e, row);
      SetEntryKeeps(W(), e, row);
      EntryStable(W(), e, row);
      hide Inv, EntryGuard;
      var early: bool, late: bool := *, *;
      if early { return Raise(Crashed); }
      store.UpdateEntry(e, row);
      assert W() == w;
      if late { return Raise(Crashed); }
      Interfere();
      EnvKept(w, W(), e);
      if StillOpen(old(store.entries)[e], row) { StableTransitive(old(W()), w, W(), e); }
      return Pass;
    }

    /** The attempt being worked on takes a phase past its submission. */
    method KeepLater(e: EntryId, a: AttemptId, row: Attempt) returns (s: Status)
      requires Valid() && Mine(W(), e, a) && row.entry == e && row.remote == store.attempts[a].remote
      requires !PreSubmit(row.phase) && (PreMove(row.phase) ==> moves[a] == 0)
      requires InFlight(W(), a) ==> MayHold(W(), row, a, store.entries[e])
      modifies this, store
      ensures Valid() && (s.Raise? ==> s.exn.Crashed?)
      ensures s.Pass? ==> Undisturbed(SetAttempt(old(W()), a, row), W(), e, a)
      ensures s.Pass? ==> StableFor(old(W()), W(), e) && Carries(old(W()), W(), e)
      ensures s.Pass? ==> (InFlight(W(), a) ==> InFlight(old(W()), a))
    {
      hide Inv, Env, Stable, AttemptGuard, Undisturbed, StableFor;
      ghost var w := W();
      LaterGuard(w, e, a, row);
      s := SaveAttempt(a, row);
      if s.Pass? { AttemptSaved(w, a, row, W(), e); }
    }

    /** The attempt being worked on changes its copy. */
    method KeepLocal(e: EntryId, a: AttemptId, row: Attempt) returns (s: Status)
      requires Valid() && Mine(W(), e, a) && row.entry == e && row.remote == store.attempts[a].remote
      requires PreSubmit(store.attempts[a].phase) && PreSubmit(row.phase) && !row.phase.DownloadRetryWait?
      requires row.phase.Staged? && row.local.Some? && row.local.value in staging ==>
                 store.entries[e].planned == Some(staging[row.local.value])
      requires a in purged && Downloadable(store.entries[e].state) ==> store.entries[e].downloads == 0
      modifies this, store
      ensures Valid() && (s.Raise? ==> s.exn.Crashed?)
      ensures s.Pass? ==> Undisturbed(SetAttempt(old(W()), a, row), W(), e, a)
      ensures s.Pass? ==> StableFor(old(W()), W(), e) && Carries(old(W()), W(), e)
    {
      hide Inv, Env, Stable, AttemptGuard, Undisturbed, StableFor;
      ghost var w := W();
      LocalGuard(w, e, a, row);
      s := SaveAttempt(a, row);
      if s.Pass? { AttemptSaved(w, a, row, W(), e); }
    }

    /** The entry being worked on changes its row, and stays what is being worked on. */
    method KeepEntry(e: EntryId, a: AttemptId, row: Entry) returns (s: Status)
      requires Valid() && Mine(W(), e, a) && !store.attempts[a].phase.DownloadRetryWait?
      requires SamePlan(store.entries[e], row) && row.attempt == Some(a) && StillOpen(store.entries[e], row)
      requires row.pointRequested ==> store.entries[e].pointRequested
      requires InFlight(W(), a) ==> !store.attempts[a].phase.Failed? || Sealed(row) || a in loose
      requires a in purged && PreSubmit(store.attempts[a].phase) && Downloadable(row.state) ==>
                 row.downloads == 0 || (row.downloads == store.entries[e].downloads && Downloadable(store.entries[e].state))
      modifies this, store
      ensures Valid() && (s.Raise? ==> s.exn.Crashed?) && store.job.space == old(store.job.space)
      ensures s.Pass? ==> Undisturbed(SetEntry(old(W()), e, row), W(), e, a)
      ensures s.Pass? ==> Kept(old(W()), W(), e) && Carries(old(W()), W(), e)
      ensures s.Pass? ==> (InFlight(W(), a) ==> InFlight(old(W()), a)) && (old(store.job.fullStop) ==> store.job.fullStop)
    {
      hide Inv, Env, Stable, EntryGuard, Undisturbed, StableFor, Kept;
      ghost var w := W();
      EntryRowGuard(w, e, a, row);
      s := SaveEntry(e, row);
      if s.Pass? { EntrySaved(w, e, row, W(), a); }
    }

    /** An entry succeeds. */
    method SaveSuccess(e: EntryId, row: Entry) returns (s: Status)
      requires Valid() && e < |store.entries| && EntryGuard(W(), e, row) && Success(row.state)
      modifies this, store
      ensures Valid() && (s.Raise? ==> s.exn.Crashed?)
      ensures s.Pass? ==> |store.entries| == |old(store.entries)| && store.entries[e].state == row.state
                          && store.entries[e].attempt == row.attempt && SamePlan(old(store.entries)[e], store.entries[e])
      ensures s.Pass? ==> |store.attempts| == |old(store.attempts)|
                          && forall a | 0 <= a < |store.attempts| :: EnvAttempt(old(store.attempts)[a], store.attempts[a])
      ensures s.Pass? && Delivered(old(W()), e) ==> Delivered(W(), e)
    {
      ghost var w := SetEntry(W(), e, row);
      SetEntryKeeps(W(), e, row);
      assert Delivered(W(), e) ==> Delivered(w.(finished := Some(e)), e);
      hide Inv, Env, Delivered;
      var early: bool, late: bool := *, *;
      if early { return Raise(Crashed); }
      store.UpdateEntry(e, row);
      assert W() == w;
      FinishedKeeps(W(), Some(e));
      finished := Some(e);
      assert W() == w.(finished := Some(e));
      if late { return Raise(Crashed); }
      Interfere();
      SuccessKept(w.(finished := Some(e)), W(), e);
      return Pass;
    }

    lemma SuccessKept(w: World, w': World, e: EntryId)
      requires Env(w, w') && e < |w.entries| && Success(w.entries[e].state)
      ensures |w'.entries| == |w.entries| && w'.entries[e].state == w.entries[e].state
      ensures EnvEntry(w.entries[e], w'.entries[e]) && (Delivered(w, e) ==> Delivered(w', e))
      ensures |w'.attempts| == |w.attempts| && forall a | 0 <= a < |w.attempts| :: EnvAttempt(w.attempts[a], w'.attempts[a])
    {
      assert KeepsState(w, w', e) && KeepsDelivery(w, w', e) && EnvEntry(w.entries[e], w'.entries[e]);
    }

    /** `update_job`; the store refuses to take a stopped job out of its state. */
    method SaveJob(row: Job) returns (s: Status)
      requires Valid() && row.stopRequested == store.job.stopRequested && row.direct == store.job.direct
      requires row.retryEnabled == store.job.retryEnabled && (store.job.space.Owned? ==> row.space.Owned?)
      requires row.state.Completed? && !store.job.state.Completed? ==>
                 forall e | 0 <= e < |store.entries| && store.entries[e].selected :: Success(store.entries[e].state)
      modifies this, store
      ensures Valid() && |store.entries| == |old(store.entries)|
      ensures s.Pass? ==> Env(SetJob(old(W()), row), W())
                          && (Halted(old(store.job)) ==> row.state == old(store.job).state || row.state.Stopped?)
      ensures s.Raise? ==> s.exn.Crashed? || (s.exn.JobStopped? && W() == old(W()) && Halted(old(store.job))
                                               && row.state != old(store.job).state && !row.state.Stopped?)
      ensures store.job.space == old(store.job).space || store.job.space == row.space
      ensures Justified(s)
    {
      var early: bool, late: bool := *, *;
      if early { return Raise(Crashed); }
      ghost var w := SetJob(W(), row);
      JobWritten(W(), row);
      s := store.UpdateJob(row);
      if s.Raise? { return; }
      halt := w.halt;
      assert W() == w;
      hide Inv, Env, SetJob;
      Interfere();
      if late { s := Raise(Crashed); }
    }

    lemma JobWritten(w: World, row: Job)
      requires Inv(w) && row.stopRequested == w.job.stopRequested && row.direct == w.job.direct
      requires row.retryEnabled == w.job.retryEnabled && (w.job.space.Owned? ==> row.space.Owned?)
      requires row.state.Completed? && !w.job.state.Completed? ==>
                 forall e: EntryId | e < |w.entries| && w.entries[e].selected :: Success(w.entries[e].state)
      ensures !Halted(w.job) || row.state == w.job.state || row.state.Stopped? ==> Inv(SetJob(w, row))
    {
      if !Halted(w.job) || row.state == w.job.state || row.state.Stopped? { SetJobKeeps(w, row); }
    }

    /** `new_attempt`. */
    method CreateAttempt(e: EntryId, point: bool, reuse: bool) returns (s: Status, a: AttemptId)
      requires Valid() && Work(W(), e) && (reuse ==> point)
      requires !point ==> !store.entries[e].pointRequested
      requires !point && store.entries[e].attempt.Some? ==> store.entries[e].state.FailedEntry?
      requires reuse ==>
        store.entries[e].attempt.Some? && store.entries[e].attempt.value < |store.attempts|
        && var local := store.attempts[store.entries[e].attempt.value].local;
           local.Some? && (local.value in staging ==> store.entries[e].planned == Some(staging[local.value]))
      modifies this, store
      ensures Valid() && Linked(old(store.Rows()), e)
      ensures s.Pass? ==> var o := NewAttempt(old(store.Rows()), e, point, reuse);
                          o.Committed? && Env(Created(old(W()), o.t, point), W())
      ensures s.Pass? ==> Mine(W(), e, a) && a == |old(store.attempts)| && |store.attempts| == a + 1
      ensures s.Pass? ==> store.attempts[a].phase == (if reuse then Staged else Prepared)
      ensures s.Pass? ==> store.attempts[a].local.Some? == reuse && a !in purged
      ensures s.Pass? ==> forall i: AttemptId | i < a ::
                EnvAttempt(old(store.attempts)[i], store.attempts[i]) || point
      ensures s.Pass? && !point ==> EnvEntry(old(store.entries)[e].(attempt := Some(a)), store.entries[e])
      ensures s.Pass? && !point ==>
                store.entries[e].state == old(store.entries)[e].state || store.entries[e].state.FailedEntry?
      ensures s.Raise? ==> s.exn.Crashed? || ((s.exn.JobStopped? || s.exn.Refused?) && W() == old(W()))
      ensures s.Raise? && s.exn.Refused? ==> NewAttempt(old(store.Rows()), e, point, reuse) == Rejected(Refused)
      ensures s.Raise? && old(store.entries)[e].attempt.None? && !point ==> !s.exn.Refused?
      ensures Justified(s)
    {
      assert EntryInv(W(), e);
      hide Inv, NewAttempt, Created;
      a := |store.attempts|;
      var early: bool, late: bool := *, *;
      s := Raise(Crashed);
      if early { return; }
      s := CommitAttempt(e, point, reuse);
      if s.Raise? { return; }
      ghost var w := W();
      CreatedRows(old(W()), w, e, point, reuse);
      CreatedMine(old(W()), w, e, a);
      Interfere();
      CreatedOn(w, W(), e, a);
      hide Env, Stable;
      if late { s := Raise(Crashed); }
    }

    lemma CreatedOn(w: World, w': World, e: EntryId, a: AttemptId)
      requires Env(w, w') && Mine(w, e, a) && PreSubmit(w.attempts[a].phase) && !w.attempts[a].phase.DownloadRetryWait?
      ensures Mine(w', e, a) && |w'.attempts| == |w.attempts| && w'.purged == w.purged && w'.attempts[a] == w.attempts[a]
      ensures forall i: AttemptId | i < |w.attempts| :: EnvAttempt(w.attempts[i], w'.attempts[i])
      ensures EnvEntry(w.entries[e], w'.entries[e])
      ensures w'.entries[e].state == w.entries[e].state
    {
      EnvStable(w, w');
      assert EnvAttempt(w.attempts[a], w'.attempts[a]) && EnvEntry(w.entries[e], w'.entries[e]) && KeepsState(w, w', e);
    }

    /** What a new attempt is made of. */
    lemma CreatedRows(w: World, w': World, e: EntryId, point: bool, reuse: bool)
      requires e < |w.entries| && Linked(TablesOf(w), e) && (reuse ==> point)
      requires NewAttempt(TablesOf(w), e, point, reuse).Committed?
      requires w' == Created(w, NewAttempt(TablesOf(w), e, point, reuse).t, point)
      ensures var a := |w.attempts|;
              && |w'.attempts| == a + 1 && w'.attempts[a].entry == e
              && w'.attempts[a].phase == (if reuse then Staged else Prepared)
              && w'.attempts[a].local.Some? == reuse
              && (!point ==> forall i: AttemptId | i < a :: w'.attempts[i] == w.attempts[i])
              && w'.entries == w.entries[e := w'.entries[e]] && w'.purged == w.purged
              && SamePlan(w.entries[e], w'.entries[e]) && StillOpen(w.entries[e], w'.entries[e])
              && w'.entries[e].attempt == Some(a) && w'.job == w.job && w'.finished == w.finished && w'.watched == w.watched
              && (!point ==> w'.entries[e] == w.entries[e].(attempt := Some(a)))
    {
    }

    method CommitAttempt(e: EntryId, point: bool, reuse: bool) returns (s: Status)
      requires Valid() && Work(W(), e) && (reuse ==> point)
      requires !point ==> !store.entries[e].pointRequested
      requires !point && store.entries[e].attempt.Some? ==> store.entries[e].state.FailedEntry?
      requires reuse ==>
        store.entries[e].attempt.Some? && store.entries[e].attempt.value < |store.attempts|
        && var local := store.attempts[store.entries[e].attempt.value].local;
           local.Some? && (local.value in staging ==> store.entries[e].planned == Some(staging[local.value]))
      modifies this`pointMade, store
      ensures Valid() && Linked(old(store.Rows()), e)
      ensures s.Pass? ==> NewAttempt(old(store.Rows()), e, point, reuse).Committed?
                          && W() == Created(old(W()), NewAttempt(old(store.Rows()), e, point, reuse).t, point)
                          && |old(store.attempts)| !in purged
      ensures s.Raise? ==> (s.exn.JobStopped? || s.exn.Refused?) && W() == old(W())
      ensures s.Raise? ==> NewAttempt(old(store.Rows()), e, point, reuse) == Rejected(s.exn)
      ensures s.Raise? && old(store.entries)[e].attempt.None? && !point ==> s.exn.JobStopped?
      ensures Justified(s)
    {
      assert EntryInv(W(), e) && !Known(W(), |store.attempts|);
      var o := NewAttempt(store.Rows(), e, point, reuse);
      if o.Committed? { NewAttemptKeeps(W(), e, point, reuse); }
      ghost var w := if o.Committed? then Created(W(), o.t, point) else W();
      s := store.Commit(o);
      pointMade := w.pointMade;
      assert W() == w;
    }

    /** `confirm_point_copy`. */
    method ConfirmCopy(e: EntryId) returns (s: Status)
      requires Valid() && e < |store.entries| && Delivered(W(), e)
      modifies this, store
      ensures Valid() && Linked(old(store.Rows()), e)
      ensures s.Raise? ==> s.exn.Crashed? || ((s.exn.JobStopped? || s.exn.Refused?) && W() == old(W()))
      ensures s.Pass? ==> var o := ConfirmPointCopy(old(store.Rows()), e);
                          o.Committed? && Env(With(old(W()), o.t).(finished := Some(e)), W())
      ensures Justified(s)
    {
      assert EntryInv(W(), e);
      var early: bool, late: bool := *, *;
      if early { return Raise(Crashed); }
      var o := ConfirmPointCopy(store.Rows(), e);
      ghost var w := W();
      if o.Committed? {
        ConfirmPointCopyKeeps(W(), e);
        w := With(W(), o.t);
      }
      s := store.Commit(o);
      assert W() == w;
      if s.Raise? { return; }
      FinishedKeeps(w, Some(e));
      finished := Some(e);
      assert W() == w.(finished := Some(e));
      if late { return Raise(Crashed); }
      Interfere();
    }

    /** `finish_point_retry`, when the runner is done with the entry. */
    method FinishPoint(e: EntryId) returns (s: Status)
      requires Valid() && e < |store.entries|
      modifies this, store
      ensures Valid() && (s.Raise? ==> s.exn.Crashed?)
      ensures s.Pass? ==> Env(With(old(W()), FinishPointRetry(old(store.Rows()), e)).(finished := Some(e)), W())
    {
      var early: bool := *;
      if early { return Raise(Crashed); }
      FinishedKeeps(W(), Some(e));
      finished := Some(e);
      assert W() == old(W()).(finished := Some(e));
      FinishPointRetryKeeps(W(), e);
      var _ := store.Commit(Committed(FinishPointRetry(store.Rows(), e)));
      assert W() == With(old(W()), FinishPointRetry(old(store.Rows()), e)).(finished := Some(e));
      hide FinishPointRetry, Inv;
      Interfere();
      var late: bool := *;
      return if late then Raise(Crashed) else Pass;
    }

    /** A pass of the runner begins. */
    method BeginPass()
      requires Valid()
      modifies this`finished
      ensures Valid() && W() == old(W()).(finished := None)
    {
      FinishedKeeps(W(), None);
      finished := None;
      assert W() == old(W()).(finished := None);
    }

    /** `schedule_download_retry`. */
    method ScheduleRetry(e: EntryId, a: AttemptId, retryAt: int, code: Code) returns (s: Status, scheduled: bool)
      requires Valid() && Mine(W(), e, a) && PreSubmit(store.attempts[a].phase) && a !in purged
      modifies this, store
      ensures Valid() && Linked(old(store.Rows()), e)
      ensures s.Raise? ==> s.exn.Crashed?
      ensures s.Pass? ==> var o := Transactions.ScheduleDownloadRetry(old(store.Rows()), e, retryAt, code);
                          scheduled == o.Some? && (scheduled ==> Env(With(old(W()), o.value), W()))
      ensures s.Pass? && !scheduled ==> Env(old(W()), W()) && Stable(old(W()), W())
    {
      scheduled := false;
      var early: bool, late: bool := *, *;
      if early { s := Raise(Crashed); return; }
      ghost var w := W();
      if Transactions.ScheduleDownloadRetry(store.Rows(), e, retryAt, code).Some? {
        ScheduleDownloadRetryKeeps(W(), e, retryAt, code);
        w := With(w, Transactions.ScheduleDownloadRetry(store.Rows(), e, retryAt, code).value);
      }
      scheduled := store.ScheduleDownloadRetry(e, retryAt, code);
      assert W() == w;
      if late { s := Raise(Crashed); return; }
      Interfere();
      s := Pass;
    }

    /** `queue_point_retry`. */
    method QueuePoint(e: EntryId, attempt: Option<AttemptId>) returns (s: Status)
      requires Valid() && e < |store.entries|
      modifies this, store
      ensures Valid() && Linked(old(store.Rows()), e)
      ensures s.Raise? ==> s.exn.Crashed? || W() == old(W())
      ensures s.Pass? ==> var o := QueuePointRetry(old(store.Rows()), e, attempt);
                          o.Committed? && Env(With(old(W()), o.t), W())
      ensures Justified(s)
    {
      assert EntryInv(W(), e);
      var o := QueuePointRetry(store.Rows(), e, attempt);
      if o.Committed? { QueuePointRetryKeeps(W(), e, attempt); }
      s := Transact(o, if o.Committed? then With(W(), o.t) else W());
    }

    /** `cancel_local_entries`. */
    method CancelLocal() returns (s: Status)
      requires Valid()
      modifies this, store, watch
      ensures Valid() && (s.Raise? ==> s.exn.Crashed? || W() == old(W()))
      ensures s.Raise? ==> s.exn.Crashed? || !(old(store.job).state.Stopped? && old(store.job).fullStop)
      ensures s.Pass? ==> var o := CancelLocalEntries(old(store.Rows()));
                          o.Committed? && Env(Cancelling(old(W()), o.t), W())
      ensures Justified(s)
    {
      var o := CancelLocalEntries(store.Rows());
      if o.Committed? {
        ghost var w := W();
        WatchedKeeps(w, map[]);
        watch.all, skipped := map[], {};
        assert W() == w.(watched := map[]);
        CancelLocalEntriesKeeps(W());
      }
      s := Transact(o, if o.Committed? then With(W(), o.t) else W());
    }

    /** One transaction, with the crashes and requests around it. */
    method Transact(o: Outcome, ghost w: World) returns (s: Status)
      requires Valid() && Inv(w) && w == if o.Committed? then With(W(), o.t) else W()
      requires |w.entries| == |store.entries| && forall e | 0 <= e < |w.entries| :: SamePlan(store.entries[e], w.entries[e])
      modifies this, store
      ensures Valid() && (s.Raise? ==> s.exn.Crashed? || (W() == old(W()) && o.Rejected?))
      ensures o.Rejected? ==> W() == old(W())
      ensures s.Pass? ==> o.Committed? && Env(w, W())
      ensures s.Raise? && !s.exn.Crashed? ==> o.Rejected? && s.exn == o.exn
    {
      hide Inv;
      var early: bool, late: bool := *, *;
      if early { return Raise(Crashed); }
      s := store.Commit(o);
      assert W() == w;
      if s.Raise? { return; }
      if late { return Raise(Crashed); }
      Interfere();
    }

    /** The process starts: what it remembered is gone, and `recover` puts an interrupted job on hold. */
    method Recover()
      requires Valid()
      modifies this`finished, this`closing, store
      ensures !closing
      ensures Valid() && W() == SetJob(old(W()).(finished := None), Transactions.Recover(old(store.Rows())).job)
    {
      BeginPass();
      closing := false;
      var t := Transactions.Recover(store.Rows());
      SetJobKeeps(W(), t.job);
      ghost var w := SetJob(W(), t.job);
      var _ := store.Commit(Committed(t));
      assert W() == w;
    }

    // -------------------------------------------------------------- steps that change the remote disk

    /** One level of `ensure_dir`. A level that is no entry of the plan has no effect on the model. */
    method EnsureLevel(level: Option<EntryId>) returns (s: Status)
      requires Valid()
      modifies this, store
      ensures Valid() && Env(old(W()), W()) && Stable(old(W()), W())
      ensures s.Raise? ==> s.exn.Crashed? || DirectoryError(s.exn)
      ensures s.Pass? && level.Some? ==> Dest(level.value) in disk && disk[Dest(level.value)].Folder?
      ensures Justified(s)
    {
      hide Inv, Env, Stable;
      EnvReflexive(W());
      EnvStable(W(), W());
      ghost var answered: bool;
      s, answered := Read({200, 404});
      if s.Raise? { return; }
      if level.Some? && Dest(level.value) in disk {
        return if disk[Dest(level.value)].Folder? then Pass
               else Raise(Raised(Error(DestinationConflict, false, false, false)));
      }
      var lost: bool, done: bool, status: int := *, *, *;
      if done && level.Some? {
        MakeFolderKeeps(W(), level.value);
        EnvStable(W(), MakeFolder(W(), level.value));
        disk := disk[Dest(level.value) := Folder];
        assert W() == MakeFolder(old(W()), level.value);
      }
      if lost || !HttpStatus(status) { return Raise(Raised(Error(DestinationOutage, !lost, false, false))); }
      match StatusError(status, {201, 409}, true) {
        case Some(err) => s := Raise(Raised(err));
        case None =>
          s := if done || level.None? then Pass else Raise(Raised(Error(DestinationConflict, false, false, false)));
      }
    }

    /** One level, and what others do until the next one. */
    method EnsureNext(level: Option<EntryId>) returns (s: Status)
      requires Valid() && (level.Some? ==> level.value < |store.entries|)
      modifies this, store
      ensures Valid() && Env(old(W()), W()) && Stable(old(W()), W())
      ensures s.Raise? ==> s.exn.Crashed? || DirectoryError(s.exn)
      ensures s.Pass? && level.Some? && store.entries[level.value].kind.Dir? ==> Delivered(W(), level.value)
    {
      hide Inv;
      s := EnsureLevel(level);
      ghost var w := W();
      if s.Pass? { Interfere(); }
      EnvTransitive(old(W()), w, W());
      EnvStable(old(W()), W());
      if s.Pass? && level.Some? {
        assert EnvEntry(w.entries[level.value], store.entries[level.value]) && KeepsDelivery(w, W(), level.value);
      }
    }

    /** `ensure_dir`, level by level from the root: up to the directory entry `e` or to the parent of the file entry `e`, or,
      * unless `final`, to the directory of a temporary path. Levels above the plan and in the technical namespace are no
      * entries.
      */
    method EnsureDir(e: EntryId, final: bool) returns (s: Status)
      requires Valid() && e < |store.entries|
      modifies this, store
      ensures Valid() && Env(old(W()), W()) && Stable(old(W()), W())
      ensures s.Raise? ==> s.exn.Crashed? || DirectoryError(s.exn)
      ensures s.Pass? && final ==> Housed(W(), e, below) && (store.entries[e].kind.Dir? ==> Delivered(W(), e))
    {
      hide Inv, Env, Stable, HousedTo, Delivered;
      EnvReflexive(W());
      EnvStable(W(), W());
      var depth: nat := *;
      while depth > 0
        invariant Valid() && Env(old(W()), W()) && Stable(old(W()), W())
        decreases depth
      {
        ghost var w := W();
        s := EnsureNext(None);
        EnvTransitive(old(W()), w, W());
        EnvStable(old(W()), W());
        if s.Raise? { return; }
        depth := depth - 1;
      }
      s := Pass;
      ghost var w := W();
      assert Env(old(W()), w);
      if final {
        s := EnsureEntries(e);
        EnvTransitive(old(W()), w, W());
        EnvStable(old(W()), W());
      }
    }

    /** The levels that are entries of the plan. */
    method EnsureEntries(e: EntryId) returns (s: Status)
      requires Valid() && e < |store.entries|
      modifies this, store
      ensures Valid() && Env(old(W()), W()) && Stable(old(W()), W())
      ensures s.Raise? ==> s.exn.Crashed? || DirectoryError(s.exn)
      ensures s.Pass? ==> Housed(W(), e, below) && (store.entries[e].kind.Dir? ==> Delivered(W(), e))
    {
      hide Inv, Env, Stable, HousedTo, Delivered;
      EnvReflexive(W());
      EnvStable(W(), W());
      NoneHoused(W(), e, below);
      var i: EntryId := 0;
      while i < |store.entries|
        invariant Valid() && Env(old(W()), W()) && Stable(old(W()), W())
        invariant i <= |store.entries| && e < |store.entries| && HousedTo(W(), e, below, i)
        decreases |store.entries| - i
      {
        ghost var w := W();
        if below(i, e) {
          s := EnsureNext(Some(i));
          EnvTransitive(old(W()), w, W());
          EnvStable(old(W()), W());
          HousedOn(w, W(), e, below, i);
          if s.Raise? { return; }
        }
        HousedNext(W(), e, below, i);
        i := i + 1;
      }
      AllHoused(W(), e, below);
      ghost var w := W();
      s := Pass;
      assert Env(old(W()), W());
      if store.entries[e].kind.Dir? {
        s := EnsureNext(Some(e));
        EnvTransitive(old(W()), w, W());
        EnvStable(old(W()), W());
        HousedOn(w, W(), e, below, i);
        AllHoused(W(), e, below);
      }
    }

    /** The request of an upload leaves the process. */
    method SendPut(e: EntryId, a: AttemptId, content: Content)
      requires Valid() && Mine(W(), e, a) && store.attempts[a].phase.TransferIntent?
      requires puts[a] == 0 && store.entries[e].planned == Some(content) && Cleared(marks)
      requires store.job.direct ==> Room(W(), e)
      modifies this, store
      ensures Valid() && Stable(old(W()), W())
      ensures Env(SendUpload(old(W()), a, content), W())
    {
      ghost var w := SendUpload(W(), a, content);
      SendKept(W(), e, a, content);
      hide Inv, Stable, Mine, Room, Cleared, Env;
      uploads, puts, marks := uploads[a := content], puts + multiset{a}, marks + [Send];
      assert W() == w;
      Interfere();
      StableOn(old(W()), w, W());
    }

    /** The PUT of a file to its upload link. It is sent at most once, after the intent was saved and a
      * checkpoint passed; `reference` says whether the link came with an operation to poll.
      */
    method PutFile(e: EntryId, a: AttemptId, content: Content, reference: bool)
      returns (s: Status, accepted: bool, ghost answer: Answer)
      requires Valid() && Mine(W(), e, a) && store.attempts[a].phase.TransferIntent?
      requires puts[a] == 0 && store.entries[e].planned == Some(content) && Cleared(marks)
      requires store.job.direct ==> Room(W(), e)
      modifies this, store
      ensures Valid() && Stable(old(W()), W())
      ensures |store.attempts| == |old(store.attempts)| && EnvAttempt(old(store.attempts)[a], store.attempts[a])
      ensures |store.entries| == |old(store.entries)| && EnvEntry(old(store.entries)[e], store.entries[e])
      ensures puts == old(puts) + (if s.Pass? || puts != old(puts) then multiset{a} else multiset{})
      ensures puts == old(puts) <==> answer.Unsent?
      ensures AnswerEnds(answer, s, accepted) || s == Raise(Crashed)
      ensures s.Pass? && !accepted ==> a !in uploads
      ensures s.Raise? ==> s.exn.Crashed? || MutationError(s.exn)
      ensures s.Raise? && s.exn.Raised? && !s.exn.err.uncertain ==> a !in uploads
      ensures Justified(s)
    {
      accepted, answer := false, Unsent;
      var early: bool, unsent: bool, lost: bool, status: int := *, *, *, *;
      assert a !in uploads by { assert AttemptInv(W(), a); }
      if early { s := Raise(Crashed); return; }
      if unsent { s := Raise(Raised(Error(DestinationOutage, false, false, false))); return; }
      SendPut(e, a, content);
      answer := Torn;
      var torn: bool := *;
      if torn { s := Raise(Raised(Error(InternalError, true, false, false))); return; }
      answer := if lost then Lost else Response(status, reference);
      s, accepted := UploadResponse(a, lost, status, reference);
    }

    /** What the response of the PUT says, and what it says about the request behind it. */
    method UploadResponse(a: AttemptId, lost: bool, status: int, reference: bool)
      returns (s: Status, accepted: bool)
      requires Valid()
      modifies this`uploads, this`disk
      ensures Valid() && Env(old(W()), W()) && Stable(old(W()), W())
      ensures AnswerEnds(if lost then Lost else Response(status, reference), s, accepted)
      ensures s.Pass? && !accepted ==> a !in uploads
      ensures s.Raise? ==> MutationError(s.exn)
      ensures s.Raise? && !s.exn.err.uncertain ==> a !in uploads
      ensures Justified(s)
    {
      EnvReflexive(W());
      EnvStable(W(), W());
      accepted := false;
      if lost || !HttpStatus(status) {
        s := Raise(Raised(Error(DestinationOutage, true, false, false)));
        return;
      }
      match StatusError(status, {201, 202}, true) {
        case Some(err) =>
          s := Raise(Raised(err));
          if !err.uncertain {
            UploadIsLost(a);
            EnvStable(old(W()), W());
          }
        case None =>
          if status == 202 {
            s := if reference then Pass else Raise(Raised(Error(InvalidReference, true, false, false)));
            accepted := reference;
          } else {
            s := Pass;
            var replace: bool := *;
            if a in uploads { UploadLands(a, replace); }
            EnvStable(old(W()), W());
          }
      }
    }

    /** The request of a move leaves the process. */
    method SendPost(e: EntryId, a: AttemptId)
      requires Valid() && Mine(W(), e, a) && store.attempts[a].phase.MoveIntent?
      requires moves[a] == 0 && !store.job.direct && Cleared(marks)
      modifies this, store
      ensures Valid() && Stable(old(W()), W()) && Mine(W(), e, a)
      ensures Env(SendMove(old(W()), a), W())
    {
      ghost var w := SendMove(W(), a);
      SendMoveKeeps(W(), a);
      SendStable(W(), w);
      hide Inv, Env;
      renames, moves, marks := renames + {a}, moves + multiset{a}, marks + [Send];
      assert W() == w;
      Interfere();
      StableOn(old(W()), w, W());
    }

    /** The POST of a move. */
    method PostMove(e: EntryId, a: AttemptId) returns (s: Status, accepted: bool, ghost answer: Answer)
      requires Valid() && Mine(W(), e, a) && store.attempts[a].phase.MoveIntent?
      requires moves[a] == 0 && !store.job.direct && Cleared(marks)
      modifies this, store
      ensures Valid() && Mine(W(), e, a) && StaysUnasked(old(W()), W(), e)
      ensures |store.attempts| == |old(store.attempts)| && EnvAttempt(old(store.attempts)[a], store.attempts[a])
      ensures !store.job.direct
      ensures moves == old(moves) + (if s.Pass? || moves != old(moves) then multiset{a} else multiset{})
      ensures moves == old(moves) <==> answer.Unsent?
      ensures AnswerEnds(answer, s, accepted) || s == Raise(Crashed)
      ensures s.Raise? ==> s.exn.Crashed? || MutationError(s.exn)
      ensures Justified(s)
    {
      hide Inv, Stable;
      accepted, answer := false, Unsent;
      var early: bool, unsent: bool, lost: bool, reference: bool, status: int := *, *, *, *, *;
      if early { s := Raise(Crashed); return; }
      if unsent { s := Raise(Raised(Error(DestinationOutage, false, false, false))); return; }
      ghost var w := SendMove(W(), a);
      SendPost(e, a);
      assert EnvAttempt(w.attempts[a], store.attempts[a]) && EnvEntry(w.entries[e], store.entries[e]);
      answer := Torn;
      var torn: bool := *;
      if torn { s := Raise(Raised(Error(InternalError, true, false, false))); return; }
      answer := if lost then Lost else Response(status, reference);
      if lost || !HttpStatus(status) {
        s := Raise(Raised(Error(DestinationOutage, true, false, false)));
        return;
      }
      match StatusError(status, {201, 202}, true) {
        case Some(err) => s := Raise(Raised(err));
        case None =>
          accepted := status == 202 && reference;
          s := if status == 202 && !reference then Raise(Raised(Error(InvalidReference, true, false, false))) else Pass;
      }
    }

    /** `poll`: a finished or failed upload is settled. */
    method Poll(a: AttemptId) returns (s: Status, result: Progress, ghost answer: Option<Progress>)
      requires Valid()
      modifies this, store
      ensures Valid() && Env(old(W()), W()) && Stable(old(W()), W())
      ensures s.Raise? ==> s.exn.Crashed? || (ReadError(s.exn) && !Malformed(s.exn.err))
      ensures s.Pass? <==> answer.Some?
      ensures s.Pass? ==> answer == Some(result)
      ensures s.Pass? && !result.InProgress? ==> a !in uploads
      ensures Justified(s)
    {
      answer := None;
      EnvReflexive(W());
      EnvStable(W(), W());
      result := InProgress;
      ghost var answered: bool;
      s, answered := Read({200}, true);
      if s.Raise? { return; }
      var reported: Option<Progress>, replace: bool := *, *;
      answer := reported;
      match reported {
        case None =>
          s := Raise(Raised(Error(DestinationOutage, false, false, false)));
          return;
        case Some(p) =>
          result := p;
      }
      if result.Succeeds? && a in uploads { UploadLands(a, replace); }
      if result.Fails? { UploadIsLost(a); }
      ghost var w := W();
      Interfere();
      EnvTransitive(old(W()), w, W());
      EnvStable(old(W()), W());
    }

    // -------------------------------------------------------------- steps on the staging directory

    function UsedNames(): set<Name>
      reads this, store
    {
      staging.Keys + set a | 0 <= a < |store.attempts| && store.attempts[a].local.Some? :: store.attempts[a].local.value
    }

    /** A random name; no file and no row has it. */
    method FreshName() returns (n: Name)
      ensures n !in UsedNames()
    {
      ghost var bound := Unused(UsedNames());
      n :| n !in UsedNames();
    }

    /** `_begin_download`. An attempt whose verified copy was purged has no download counted at this point. */
    method CountDownload(e: EntryId, a: AttemptId) returns (s: Status)
      requires Valid() && Mine(W(), e, a) && PreSubmit(store.attempts[a].phase)
      requires !store.attempts[a].phase.DownloadRetryWait?
      requires a in purged && Downloadable(store.entries[e].state) ==> store.entries[e].downloads == 0
      modifies this, store
      ensures Valid()
      ensures s.Pass? || s.exn.Raised? ==> a !in purged && Kept(old(W()), W(), e) && staging == old(staging)
      ensures s.Pass? ==> EnvEntry(old(store.entries)[e].(downloads := store.entries[e].downloads), store.entries[e])
      ensures s.Pass? ==> store.entries[e].downloads == old(store.entries)[e].downloads + 1
      ensures s.Raise? ==> s.exn.Crashed? || s.exn.StopSeen? || (s.exn.Raised? && !s.exn.err.uncertain && !s.exn.err.auth)
      ensures s.Raise? && s.exn.Raised? <==> old(store.entries[e].downloads >= DownloadLimit(store.job))
      ensures s.Raise? && s.exn.Raised? ==> store.entries == old(store.entries)
      ensures Justified(s)
    {
      hide Inv, Steady, StableFor, Stable, Env;
      BeginDownloadKeeps(W(), a);
      ghost var w := BeginDownload(W(), a);
      SameKept(W(), w, e);
      purged := purged - {a};
      assert W() == w;
      if store.entries[e].downloads >= DownloadLimit(store.job) {
        var code: Code := *;
        return Raise(Raised(Error(code, false, false, false)));
      }
      :- Checkpoint();
      GoOn(w, W(), e, a);
      KeptTransitive(old(W()), w, W(), e);
      ghost var w' := W();
      s := CountOne(e, a);
      if s.Pass? { KeptTransitive(old(W()), w', W(), e); }
    }

    method CountOne(e: EntryId, a: AttemptId) returns (s: Status)
      requires Valid() && Mine(W(), e, a) && a !in purged && !store.attempts[a].phase.DownloadRetryWait?
      requires PreSubmit(store.attempts[a].phase)
      modifies this, store
      ensures Valid() && (s.Raise? ==> s.exn.Crashed?)
      ensures s.Pass? ==> a !in purged && Kept(old(W()), W(), e) && staging == old(staging)
      ensures s.Pass? ==> EnvEntry(old(store.entries)[e].(downloads := store.entries[e].downloads), store.entries[e])
      ensures s.Pass? ==> store.entries[e].downloads == old(store.entries)[e].downloads + 1
    {
      assert EntryInv(W(), e) && AttemptInv(W(), a);
      s := SaveEntry(e, store.entries[e].(downloads := store.entries[e].downloads + 1, retryAt := None));
    }

    /** A file of the staging directory is created or extended. */
    method WriteFile(n: Name, content: Content) returns (s: Status)
      requires Valid()
      requires forall a | 0 <= a < |store.attempts| :: store.attempts[a].local == Some(n) ==> !store.attempts[a].phase.Staged?
      modifies this`staging
      ensures Valid() && Stable(old(W()), W())
      ensures staging == old(staging) || staging == old(staging)[n := content]
      ensures s.Pass? ==> staging == old(staging)[n := content]
      ensures s.Raise? ==> s.exn.Crashed?
    {
      var early: bool, late: bool := *, *;
      EnvStable(W(), W()) by { EnvReflexive(W()); }
      if early { return Raise(Crashed); }
      WriteCopyKeeps(W(), n, content);
      ghost var w := WriteCopy(W(), n, content);
      SendStable(W(), w);
      staging := staging[n := content];
      assert W() == w;
      return if late then Raise(Crashed) else Pass;
    }

    /** A local copy is unlinked by the transfer itself. */
    method RemoveFile(n: Name) returns (s: Status)
      requires Valid()
      modifies this`staging
      ensures Valid() && Stable(old(W()), W())
      ensures s.Pass? ==> W() == RemoveCopy(old(W()), n)
      ensures s.Raise? ==> s.exn.Crashed?
    {
      var early: bool, late: bool := *, *;
      EnvStable(W(), W()) by { EnvReflexive(W()); }
      if early { return Raise(Crashed); }
      RemoveCopyKeeps(W(), n);
      ghost var w := RemoveCopy(W(), n);
      SendStable(W(), w);
      staging := staging - {n};
      assert W() == w;
      return if late then Raise(Crashed) else Pass;
    }

    /** A local copy is unlinked by a purge of the cache. */
    method PurgeFile(n: Name) returns (s: Status)
      requires Valid()
      modifies this`staging, this`purged
      ensures Valid()
      ensures s.Pass? ==> W() == PurgeCopy(old(W()), n)
      ensures s.Raise? ==> s.exn.Crashed? && (W() == old(W()) || W() == PurgeCopy(old(W()), n))
    {
      var early: bool, late: bool := *, *;
      if early { return Raise(Crashed); }
      PurgeCopyKeeps(W(), n);
      ghost var w := PurgeCopy(W(), n);
      staging, purged := staging - {n}, w.purged;
      assert W() == w;
      return if late then Raise(Crashed) else Pass;
    }

    /** `clear_cache_references`. */
    method Forget(names: set<Name>) returns (s: Status)
      requires Valid()
      modifies store
      ensures Valid() && AllLinked(old(store.Rows()))
      ensures s.Pass? ==> store.Rows() == ClearCacheReferences(old(store.Rows()), names)
      ensures s.Raise? ==> s.exn.Crashed?
      ensures store.Rows() == old(store.Rows()) || store.Rows() == ClearCacheReferences(old(store.Rows()), names)
    {
      var early: bool, late: bool := *, *;
      InvLinked(W());
      if early { return Raise(Crashed); }
      ClearCacheReferencesKeeps(W(), names);
      ghost var w := With(W(), ClearCacheReferences(store.Rows(), names));
      s := store.Commit(Committed(ClearCacheReferences(store.Rows(), names)));
      assert W() == w;
      return if late then Raise(Crashed) else Pass;
    }
  }
}
