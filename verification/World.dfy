/** Everything one job can leave behind at an instant: its rows, the staging files, the remote disk,
  * the requests that may still land, and a record of the requests that were sent.
  *
  * `Inv` is what every cut of every run keeps. The functions are the single persistent or remote
  * effects of the protocol; each has a lemma that says when it keeps `Inv`.
  */
module World {
  import opened Rows
  import Transactions

  datatype Node = Folder | Bytes(content: Content)

  /** A stop request, a checkpoint that was passed, and an upload or move that was sent. */
  datatype Mark = Stop | Check | Send

  /** The number of attempts and the job state at an instant, and whether the job has been stopped since. */
  datatype Halt = Halt(attempts: nat, state: JobState, stopped: bool)

  datatype World = World(
    job: Job, entries: seq<Entry>, attempts: seq<Attempt>,
    staging: map<Name, Content>,           // local copies
    disk: map<Place, Node>,                // the remote disk
    uploads: map<AttemptId, Content>,      // uploads that may still land, at the attempt's remote path
    renames: set<AttemptId>,               // moves that may still land
    puts: multiset<AttemptId>,             // uploads sent so far
    moves: multiset<AttemptId>,            // moves sent so far
    pointMade: set<AttemptId>,             // attempts created by point retries
    purged: set<AttemptId>,                // verified copies purged and not yet downloaded again
    loose: set<AttemptId>,                 // attempts given up, and open to a retry, while an upload may still land
    marks: seq<Mark>,
    halt: Option<Halt>,                    // the job when its stop was first requested
    finished: Option<EntryId>,             // the entry the running process has just finished
    watched: map<EntryId, EntryState>)     // entries that were seen to be stuck, and their states then

  /** The world in which a job begins. */
  function NewWorld(job: Job, entries: seq<Entry>, disk: map<Place, Node>): World {
    World(job, entries, [], map[], disk, map[], {}, multiset{}, multiset{}, {}, {}, {}, [], None, None, map[])
  }

  // ---------------------------------------------------------------- the invariant

  function RemotePath(direct: bool, e: EntryId, a: AttemptId): Place {
    if direct then Dest(e) else Temp(e, a)
  }

  /** While an upload of attempt `a` may still land and the file is not there yet, the attempt is in no phase
    * from which another one starts. The phase `Failed` is the exception: an error of a read brought the attempt
    * there while the upload was awaited. Either that was a conflict, and the entry stays out of every retry, or
    * the attempt is on record as loose.
    */
  predicate MayHold(w: World, r: Attempt, a: AttemptId, e: Entry) {
    && !r.phase.Verifying? && !r.phase.VerifyingFinal? && !r.phase.Succeeded?
    && (r.phase.Failed? ==>
          a in w.loose || (e.attempt == Some(a) && r.error == Some(DestinationConflict) && Sealed(e)))
  }

  /** Neither `retry` nor a point retry takes the entry up. */
  predicate Sealed(e: Entry) {
    !e.pointRequested && !e.state.FailedEntry? && !e.state.OutcomeUnknown?
  }

  predicate CopyLost(w: World, r: Attempt) {
    r.phase.Staged? && !r.operation && r.local.Some? && r.local.value !in w.staging
  }

  /** An upload to the destination itself may still land, and the planned content is not there yet. */
  ghost predicate InFlight(w: World, a: AttemptId) {
    && a in w.uploads && w.job.direct
    && (a < |w.attempts| && w.attempts[a].entry < |w.entries| ==> !Delivered(w, w.attempts[a].entry))
  }

  ghost predicate AttemptInv(w: World, a: AttemptId)
    requires a < |w.attempts|
  {
    var r := w.attempts[a];
    && r.entry < |w.entries|
    && var e := w.entries[r.entry];
    && e.kind.File?
    && r.remote == RemotePath(w.job.direct, r.entry, a)
    && w.puts[a] <= 1 && w.moves[a] <= 1
    && (PreSubmit(r.phase) ==> w.puts[a] == 0)
    && (PreMove(r.phase) ==> w.moves[a] == 0)
    && (a in w.uploads ==> w.puts[a] == 1 && e.planned == Some(w.uploads[a]))
    && (InFlight(w, a) ==> MayHold(w, r, a, e))
    && (a in w.renames ==> w.moves[a] == 1 && !w.job.direct)
    && (r.phase.Staged? && r.local.Some? && r.local.value in w.staging ==>
          e.planned == Some(w.staging[r.local.value]))
    && (r.phase.DownloadRetryWait? && e.attempt == Some(a) ==>
          w.job.retryEnabled && !e.pointRequested && (e.state.Fetching? || e.state.Cancelled?))
    && (a in w.purged && e.attempt == Some(a) && PreSubmit(r.phase) && Downloadable(e.state) ==>
          e.downloads == 0 || CopyLost(w, r))
  }

  /** The attempts of an entry whose upload may still land. */
  ghost function Flying(w: World, e: EntryId): set<AttemptId> {
    set a | 0 <= a < |w.attempts| && w.attempts[a].entry == e && a in w.uploads
  }

  /** Those of them that a later attempt replaced. */
  ghost function Superseded(w: World, e: EntryId): set<AttemptId>
    requires e < |w.entries|
  {
    set a | a in Flying(w, e) && w.entries[e].attempt != Some(a)
  }

  ghost function PointMade(w: World, e: EntryId): set<AttemptId> {
    set a | 0 <= a < |w.attempts| && w.attempts[a].entry == e && a in w.pointMade
  }

  ghost function Loose(w: World, e: EntryId): set<AttemptId> {
    set a | 0 <= a < |w.attempts| && w.attempts[a].entry == e && a in w.loose
  }

  /** How many uploads of `e` may be in the air besides the current one. */
  ghost function Paid(w: World, e: EntryId): nat {
    |PointMade(w, e)| + |Loose(w, e)|
  }

  /** The destination of a finished entry holds what was planned. */
  ghost predicate Delivered(w: World, e: EntryId)
    requires e < |w.entries|
  {
    var row := w.entries[e];
    && Dest(e) in w.disk
    && match row.kind
       case File => row.planned.Some? && w.disk[Dest(e)] == Bytes(row.planned.value)
       case Dir => w.disk[Dest(e)].Folder?
  }

  ghost predicate EntryInv(w: World, e: EntryId)
    requires e < |w.entries|
  {
    var row := w.entries[e];
    && (row.attempt.Some? ==>
          row.attempt.value < |w.attempts| && w.attempts[row.attempt.value].entry == e)
    && (Busy(row) ==> row.selected && row.kind.File?)
    && (row.state.Done? || row.state.AlreadyVerified? ==> Delivered(w, e))
    && (w.job.state.Completed? && row.selected ==> Success(row.state))
    && (row.pointRequested && row.attempt.Some? && PreSubmit(w.attempts[row.attempt.value].phase) ==>
          row.attempt.value in w.pointMade)
    && (w.job.direct ==> Counted(w, e))
  }

  /** The uploads of an entry that may still land are paid for by its point retries and loose attempts: those
    * of replaced attempts always, and all of them once the file is there.
    */
  ghost predicate Counted(w: World, e: EntryId)
    requires e < |w.entries|
  {
    && |Superseded(w, e)| <= Paid(w, e)
    && (Delivered(w, e) ==> |Flying(w, e)| <= Paid(w, e))
    && (w.entries[e].attempt.Some? && w.entries[e].attempt.value in w.loose ==> |Superseded(w, e)| < Paid(w, e))
    && (w.entries[e].attempt.Some? && w.entries[e].attempt.value in w.pointMade ==> Room(w, e))
  }

  /** The current attempt of `e`, if it was not submitted yet, may be. */
  ghost predicate Room(w: World, e: EntryId)
    requires e < |w.entries|
  {
    w.entries[e].attempt.Some? && w.puts[w.entries[e].attempt.value] == 0 && Delivered(w, e) ==>
      |Superseded(w, e)| < Paid(w, e)
  }

  /** A success of entry `e` may be taken back: the job is not completed, and will not be before the runner
    * is done with `e`.
    */
  ghost predicate Reopened(w: World, e: EntryId) {
    e < |w.entries| && !w.job.state.Completed?
    && (w.job.stopRequested
        || (w.entries[e].pointRequested && Success(w.entries[e].state) && w.finished != Some(e)))
  }

  ghost predicate NotBoth(entries: seq<Entry>, i: nat, j: nat)
    requires i < |entries| && j < |entries|
  {
    i != j ==> !(Busy(entries[i]) && Busy(entries[j]))
  }

  /** At most one entry is being worked on or waits for a point retry. */
  ghost predicate OneBusy(entries: seq<Entry>) {
    forall i: nat, j: nat | i < |entries| && j < |entries| :: NotBoth(entries, i, j)
  }

  /** Every temporary file holds the planned content of its entry: nothing else writes there. */
  ghost predicate TempInv(w: World, p: Place)
    requires p in w.disk
  {
    p.Temp? ==> p.e < |w.entries| && w.entries[p.e].planned.Some?
                && w.disk[p] == Bytes(w.entries[p.e].planned.value)
  }

  /** The last thing recorded, stop requests aside, is a passed checkpoint. */
  ghost predicate Cleared(marks: seq<Mark>) {
    marks != [] && var last := marks[|marks| - 1];
    last.Check? || (last.Stop? && Cleared(marks[..|marks| - 1]))
  }

  /** Every request was sent right after a checkpoint, and no checkpoint passes after a stop request. */
  ghost predicate MarksOk(marks: seq<Mark>) {
    marks != [] ==>
      var before, last := marks[..|marks| - 1], marks[|marks| - 1];
      && MarksOk(before)
      && (last.Send? ==> Cleared(before))
      && (last.Check? ==> Stop !in before)
  }

  /** Since the stop request no attempt was added, and the job kept its state until it was stopped for good. */
  predicate HaltOk(w: World) {
    && (w.halt.Some? <==> w.job.stopRequested)
    && (w.halt.Some? ==>
          && |w.attempts| == w.halt.value.attempts
          && (w.job.state == w.halt.value.state || w.halt.value.stopped)
          && (w.job.state.Stopped? <==> w.halt.value.stopped))
  }

  /** A write of the job row; that the job was stopped stays on record. */
  function SetJob(w: World, job: Job): World {
    w.(job := job, halt := if w.halt.Some? && job.state.Stopped? then Some(w.halt.value.(stopped := true)) else w.halt)
  }

  ghost predicate Known(w: World, a: AttemptId) {
    a < |w.attempts|
  }

  /** An entry that was seen to be stuck still is, in the same state. */
  predicate OnWatch(w: World, e: EntryId)
    requires e in w.watched
  {
    Transactions.Stuck(Transactions.Tables(w.job, w.entries, w.attempts), e) && w.entries[e].state == w.watched[e]
  }

  predicate Watches(w: World) {
    forall e | e in w.watched :: OnWatch(w, e)
  }

  ghost predicate Inv(w: World) {
    && (forall a: AttemptId | a < |w.attempts| :: AttemptInv(w, a))
    && (forall e: EntryId | e < |w.entries| :: EntryInv(w, e))
    && (forall p | p in w.disk :: TempInv(w, p))
    && (forall a | a in w.puts || a in w.moves || a in w.uploads || a in w.renames
                   || a in w.pointMade || a in w.purged || a in w.loose :: Known(w, a))
    && OneBusy(w.entries)
    && MarksOk(w.marks)
    && (Stop in w.marks <==> w.job.stopRequested)
    && HaltOk(w)
    && Watches(w)
  }

  // ---------------------------------------------------------------- what others may change

  /** The part of the rows that never changes. */
  predicate SamePlan(e: Entry, e': Entry) {
    e'.kind == e.kind && e'.planned == e.planned && e'.selected == e.selected
  }

  /** What the requests and late responses of others may do to a row between two steps of the runner. */
  predicate EnvEntry(e: Entry, e': Entry) {
    && SamePlan(e, e')
    && e'.attempt == e.attempt && e'.downloads == e.downloads && e'.pointAttempts == e.pointAttempts
    && (e'.pointRequested ==> e.pointRequested)
  }

  /** A stop that was requested or took place is not taken back. */
  predicate EnvJob(job: Job, job': Job) {
    && job'.direct == job.direct && job'.space == job.space
    && (job.stopRequested ==> job'.stopRequested) && (job.fullStop ==> job'.fullStop)
    && (job.state.Stopped? ==> job'.state.Stopped?)
  }

  predicate EnvAttempt(r: Attempt, r': Attempt) {
    r' == r || (r.phase.DownloadRetryWait? && r' == r.(phase := Failed))
  }

  /** Only the cancellation of a scheduled download changes the state of an entry, together with its attempt. */
  ghost predicate KeepsState(w: World, w': World, e: EntryId)
    requires e < |w.entries| && |w'.entries| == |w.entries|
  {
    var row := w.entries[e];
    || (w'.entries[e].state == row.state && SameAttempt(w, w', row.attempt))
    || (&& !Success(row.state) && w'.entries[e].state.FailedEntry?
        && row.attempt.Some? && row.attempt.value < |w.attempts| <= |w'.attempts|
        && w.attempts[row.attempt.value].phase.DownloadRetryWait?
        && w'.attempts[row.attempt.value] == w.attempts[row.attempt.value].(phase := Failed))
  }

  predicate SameAttempt(w: World, w': World, attempt: Option<AttemptId>) {
    attempt.Some? && attempt.value < |w.attempts| ==>
      attempt.value < |w'.attempts| && w'.attempts[attempt.value] == w.attempts[attempt.value]
  }

  predicate NoneAsked(entries: seq<Entry>) {
    forall e | 0 <= e < |entries| :: !entries[e].pointRequested
  }

  /** Others change the state of the job only when they end a point retry. */
  predicate KeepsJob(w: World, w': World) {
    NoneAsked(w.entries) ==> w'.job.state == w.job.state && w'.job.resume == w.job.resume
  }

  lemma KeepsJobTransitive(a: World, b: World, c: World)
    requires KeepsJob(a, b) && KeepsJob(b, c) && |b.entries| == |a.entries|
    requires forall e: EntryId | e < |a.entries| :: EnvEntry(a.entries[e], b.entries[e])
    ensures KeepsJob(a, c)
  {
    if NoneAsked(a.entries) {
      forall e | 0 <= e < |b.entries| ensures !b.entries[e].pointRequested { assert EnvEntry(a.entries[e], b.entries[e]); }
    }
  }

  /** Stop, pause and retry-switch requests arrive, and requests already sent land or get lost. */
  ghost predicate Env(w: World, w': World) {
    && EnvJob(w.job, w'.job) && KeepsJob(w, w')
    && |w'.entries| == |w.entries| && |w'.attempts| == |w.attempts|
    && (forall e: EntryId | e < |w.entries| :: EnvEntry(w.entries[e], w'.entries[e]))
    && (forall a: AttemptId | a < |w.attempts| :: EnvAttempt(w.attempts[a], w'.attempts[a]))
    && w'.staging == w.staging && w'.puts == w.puts && w'.moves == w.moves
    && w'.pointMade == w.pointMade && w'.purged == w.purged && w'.loose == w.loose
    && w'.uploads.Keys <= w.uploads.Keys && w'.renames <= w.renames
    && (Cleared(w.marks) ==> Cleared(w'.marks))
    && w'.finished == w.finished && w'.watched == w.watched
    && (forall e: EntryId | e < |w.entries| ::
          KeepsDelivery(w, w', e) && KeepsState(w, w', e) && KeepsRoom(w, w', e))
  }

  /** Room to submit is not taken away, and a success that may be taken back stays one. */
  ghost predicate KeepsRoom(w: World, w': World, e: EntryId)
    requires e < |w.entries| && |w'.entries| == |w.entries|
  {
    && (w.job.direct && Room(w, e) ==> Room(w', e))
    && (Reopened(w, e) ==> Reopened(w', e))
  }

  ghost predicate KeepsDelivery(w: World, w': World, e: EntryId)
    requires e < |w.entries| && |w'.entries| == |w.entries|
  {
    Delivered(w, e) ==> Delivered(w', e)
  }

  lemma EnvReflexive(w: World)
    ensures Env(w, w)
  {
  }

  lemma EnvTransitive(a: World, b: World, c: World)
    requires Env(a, b) && Env(b, c)
    ensures Env(a, c)
  {
    KeepsJobTransitive(a, b, c);
    hide KeepsJob;
    forall e: EntryId | e < |a.entries| ensures EnvEntry(a.entries[e], c.entries[e]) {
      assert EnvEntry(a.entries[e], b.entries[e]) && EnvEntry(b.entries[e], c.entries[e]);
    }
    forall i: AttemptId | i < |a.attempts| ensures EnvAttempt(a.attempts[i], c.attempts[i]) {
      assert EnvAttempt(a.attempts[i], b.attempts[i]) && EnvAttempt(b.attempts[i], c.attempts[i]);
    }
    forall e: EntryId | e < |a.entries| ensures KeepsDelivery(a, c, e) && KeepsState(a, c, e) && KeepsRoom(a, c, e) {
      assert KeepsDelivery(a, b, e) && KeepsDelivery(b, c, e) && KeepsRoom(a, b, e) && KeepsRoom(b, c, e);
      assert KeepsState(a, b, e) && KeepsState(b, c, e) && EnvEntry(a.entries[e], b.entries[e]);
      var at := a.entries[e].attempt;
      assert at.Some? && at.value < |a.attempts| ==> EnvAttempt(a.attempts[at.value], b.attempts[at.value]);
    }
  }
}
