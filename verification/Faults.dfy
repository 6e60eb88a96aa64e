/** How an error ends the work on an entry: `_failure` and `_point_failure`.
  *
  * Every call of the runner may end early. `Fault` says what is then left: after an error the entry is
  * still the only one being worked on, and an error that would settle the attempt (rather than leave it
  * unknown or abandoned) only reaches an attempt whose upload can no longer land, conflicts aside.
  */
module Faults {
  import opened Rows
  import opened Transactions
  import opened World
  import opened Effects
  import opened Landing
  import opened Session
  import opened Staging

  predicate Open(s: EntryState) {
    !s.FailedEntry? && !s.OutcomeUnknown?
  }

  /** `a` is the current attempt of the one entry being worked on, in mode `point`. */
  ghost predicate Held(w: World, e: EntryId, a: AttemptId, point: bool) {
    && Mine(w, e, a) && !w.attempts[a].phase.DownloadRetryWait?
    && (InFlight(w, a) ==>
          if point then w.attempts[a].phase.Failed? ==> a in w.loose
          else !w.attempts[a].phase.Failed? && Open(w.entries[e].state))
  }

  /** The error leaves the entry to the failure handling of mode `point`. */
  ghost predicate Trouble(w: World, e: EntryId, err: Error, point: bool) {
    && Work(w, e) && (err.code.DestinationConflict? ==> !err.uncertain)
    && (w.entries[e].attempt.Some? ==>
          var a := w.entries[e].attempt.value;
          && Mine(w, e, a) && !w.attempts[a].phase.DownloadRetryWait?
          && (InFlight(w, a) ==>
                if point then w.attempts[a].phase.Failed? ==> a in w.loose
                else
                  && !w.attempts[a].phase.Failed?
                  && (Definite(err) ==> err.code.DestinationConflict? || a in w.loose)
                  && (err.code.DestinationConflict? ==> Open(w.entries[e].state))))
  }

  ghost predicate Fault(w: World, w': World, e: EntryId, exn: Exn, point: bool) {
    || exn.Crashed? || exn.StopSeen? || exn.JobStopped?
    || (exn.Raised? && Trouble(w', e, exn.err, point) && StaysUnasked(w, w', e))
  }

  /** What a GET or a look at the stop request may raise. */
  predicate LookError(exn: Exn) {
    exn.Crashed? || exn.StopSeen? || ReadError(exn)
  }

  /** An error that settles an attempt in flight only when it is a conflict. */
  predicate Harmless(err: Error) {
    && (err.code.DestinationConflict? ==> !err.uncertain)
    && (Definite(err) ==> err.code.DestinationConflict?)
  }

  lemma HeldTrouble(w: World, e: EntryId, a: AttemptId, err: Error, point: bool)
    requires Held(w, e, a, point) && (err.code.DestinationConflict? ==> !err.uncertain)
    requires InFlight(w, a) && !point ==> Harmless(err) || a in w.loose
    ensures Trouble(w, e, err, point)
  {
  }

  lemma HeldOn(w: World, w': World, e: EntryId, a: AttemptId, point: bool)
    requires Held(w, e, a, point) && Undisturbed(w, w', e, a)
    ensures Held(w', e, a, point) && Carries(w, w', e)
  {
  }

  /** After a step that only looks. */
  lemma Looked(w: World, w': World, e: EntryId, a: AttemptId, exn: Exn, point: bool)
    requires Held(w, e, a, point) && Env(w, w')
    ensures Held(w', e, a, point) && Carries(w, w', e) && Undisturbed(w, w', e, a)
    ensures LookError(exn) && !(exn.Raised? && Malformed(exn.err)) ==> Fault(w, w', e, exn, point)
    ensures LookError(exn) && (point || !InFlight(w, a)) ==> Fault(w, w', e, exn, point)
    ensures exn.Raised? && Harmless(exn.err) ==> Fault(w, w', e, exn, point)
  {
    GoOn(w, w', e, a);
    HeldOn(w, w', e, a, point);
  }

  /** The wait for an upload ends with a malformed answer. */
  lemma LetGoHeld(w: World, w1: World, e: EntryId, a: AttemptId, err: Error)
    requires Held(w1, e, a, false) && Inv(w1) && StaysUnasked(w, w1, e) && Malformed(err)
    ensures Fault(w, Loosen(w1, a), e, Raised(err), false)
  {
    var w2 := Loosen(w1, a);
    forall i: EntryId | i != e ensures Idle(w2, i) { assert Idle(w1, i); }
  }

  lemma FaultTransitive(w: World, w1: World, w2: World, e: EntryId, exn: Exn, point: bool)
    requires StaysUnasked(w, w1, e) && Fault(w1, w2, e, exn, point)
    ensures Fault(w, w2, e, exn, point)
  {
  }

  lemma EntryGoesOn(w: World, w': World, e: EntryId)
    requires Env(w, w') && Work(w, e)
    requires w.entries[e].attempt.Some? ==>
      w.entries[e].attempt.value < |w.attempts| && !w.attempts[w.entries[e].attempt.value].phase.DownloadRetryWait?
    ensures Work(w', e) && Carries(w, w', e) && EnvEntry(w.entries[e], w'.entries[e])
    ensures w'.entries[e].state == w.entries[e].state
  {
    EnvStable(w, w');
    assert EnvEntry(w.entries[e], w'.entries[e]) && KeepsState(w, w', e);
  }

  /** Where an earlier upload may have put the file, one more is paid for by the point retry itself. */
  lemma RoomOfPoint(w: World, e: EntryId)
    requires Inv(w) && e < |w.entries| && w.entries[e].pointRequested && w.entries[e].attempt.Some?
    requires w.entries[e].attempt.value < |w.attempts| && PreSubmit(w.attempts[w.entries[e].attempt.value].phase)
    ensures Clear(w, e)
  {
    assert EntryInv(w, e);
  }

  /** Without an attempt nothing can be in flight. */
  lemma NewTrouble(w: World, w': World, e: EntryId, err: Error, point: bool)
    requires Env(w, w') && Work(w, e) && w.entries[e].attempt.None? && !err.uncertain
    ensures Trouble(w', e, err, point) && Carries(w, w', e)
  {
    EntryGoesOn(w, w', e);
  }

  lemma Settled(w: World, a: AttemptId)
    requires Inv(w) && a < |w.attempts|
    ensures PreSubmit(w.attempts[a].phase) ==> a !in w.uploads && w.puts[a] == 0 && w.moves[a] == 0
    ensures w.attempts[a].phase.Verifying? || w.attempts[a].phase.VerifyingFinal? ==> !InFlight(w, a)
    ensures w.attempts[a].phase.Verifying? || w.attempts[a].phase.TransferIntent? ==> w.moves[a] == 0
  {
    assert AttemptInv(w, a);
  }

  /** A submission was tried, or an error came before it. */
  ghost predicate Submitted(w: World, w': World, e: EntryId, a: AttemptId) {
    && Mine(w', e, a) && StaysUnasked(w, w', e)
    && (w'.attempts[a].phase.TransferIntent? || (w'.attempts[a].phase.Staged? && a !in w'.uploads))
  }

  lemma SubmitTrouble(w: World, w': World, e: EntryId, a: AttemptId, err: Error, point: bool)
    requires Submitted(w, w', e, a) && (err.uncertain || a !in w'.uploads)
    requires err.code.DestinationConflict? ==> !err.uncertain
    ensures Trouble(w', e, err, point) && StaysUnasked(w, w', e)
  {
  }

  lemma MarkedTrouble(w: World, w': World, e: EntryId, a: AttemptId, err: Error, point: bool)
    requires Mine(w, e, a) && a !in w.uploads && !err.uncertain
    requires Undisturbed(SetAttempt(w, a, w.attempts[a].(phase := Failed, error := Some(err.code))), w', e, a)
    ensures Trouble(w', e, err, point)
  {
  }

  lemma WaitingUnmoved(w: World, a: AttemptId)
    requires Inv(w) && a < |w.attempts| && w.attempts[a].phase.WaitingTransfer?
    ensures w.moves[a] == 0
  {
    assert AttemptInv(w, a);
  }

  lemma SucceededSettled(w: World, e: EntryId, a: AttemptId)
    requires Inv(w) && Mine(w, e, a) && w.attempts[a].phase.Succeeded?
    ensures !InFlight(w, a)
  {
    assert AttemptInv(w, a);
  }

  lemma DeliveredOn(w: World, w': World, e: EntryId, a: AttemptId)
    requires Undisturbed(w, w', e, a) && Delivered(w, e)
    ensures Delivered(w', e)
  {
  }

  /** The error may be recorded against the entry by `_failure`. */
  ghost predicate CanFail(w: World, e: EntryId, err: Error) {
    && Work(w, e) && (err.code.DestinationConflict? ==> !err.uncertain)
    && (w.entries[e].attempt.Some? ==>
          var a := w.entries[e].attempt.value;
          && Mine(w, e, a)
          && (InFlight(w, a) ==>
                a in w.loose
                || (&& (w.attempts[a].phase.Failed? || Definite(err) ==> err.code.DestinationConflict?)
                    && (err.code.DestinationConflict? ==> Sealed(w.entries[e])))))
  }

  lemma TroubleCanFail(w: World, e: EntryId, err: Error)
    requires Trouble(w, e, err, false) && NotRequested(w, e)
    ensures CanFail(w, e, err)
  {
  }

  /** A failed attempt is reported once more with the error it failed with. */
  lemma FailedAgain(w: World, e: EntryId, a: AttemptId, code: Code)
    requires Inv(w) && Mine(w, e, a) && w.attempts[a].phase.Failed?
    requires w.attempts[a].error == Some(code) || w.attempts[a].error.None?
    ensures CanFail(w, e, Error(code, false, false, false))
  {
    assert AttemptInv(w, a);
  }

  /** The phase `_failure` leaves the attempt in. */
  function FailedPhase(p: Phase, err: Error): Phase {
    if Interrupted(err) then
      if SideEffectPhase(p) || AbandonedPhase(p) then if MovePhase(p) then AbandonedMove else AbandonedTransfer
      else Failed
    else if err.uncertain then if MovePhase(p) then UnknownMove else UnknownTransfer
    else Failed
  }

  function FailedState(err: Error): EntryState {
    if err.code.DestinationConflict? then Conflict
    else if err.uncertain && !Interrupted(err) then OutcomeUnknown
    else FailedEntry
  }

  /** The phase `_point_failure` leaves the attempt in. */
  function PointFailedPhase(p: Phase, err: Error): Phase {
    if Interrupted(err) then FailedPhase(p, err)
    else if err.uncertain then if MovePhase(p) then UnknownMove else UnknownTransfer
    else if SideEffectPhase(p) || AbandonedPhase(p) then if MovePhase(p) then AbandonedMove else AbandonedTransfer
    else Failed
  }

  function PointFailedState(attempt: Option<AttemptId>, err: Error): EntryState {
    if attempt.None? || Interrupted(err) then FailedEntry
    else if err.uncertain then OutcomeUnknown else if err.code.DestinationConflict? then Conflict else FailedEntry
  }

  /** The phases an upload of a direct job can be in flight in, while its entry is unfinished. */
  lemma FlightPhases(w: World, e: EntryId, a: AttemptId)
    requires Inv(w) && Mine(w, e, a) && InFlight(w, a)
    ensures var p := w.attempts[a].phase; SideEffectPhase(p) || AbandonedPhase(p) || p.Failed?
  {
    assert AttemptInv(w, a);
  }

  lemma FailureGuard(w: World, e: EntryId, a: AttemptId, err: Error)
    requires Inv(w) && CanFail(w, e, err) && w.entries[e].attempt == Some(a)
    ensures AttemptGuard(w, a, w.attempts[a].(phase := FailedPhase(w.attempts[a].phase, err), error := Some(err.code)))
    ensures InFlight(w, a) && FailedPhase(w.attempts[a].phase, err).Failed? ==>
              a in w.loose || (err.code.DestinationConflict? && Sealed(w.entries[e]))
  {
    assert AttemptInv(w, a);
    if InFlight(w, a) { FlightPhases(w, e, a); }
  }

  lemma PointFailureGuard(w: World, e: EntryId, a: AttemptId, err: Error)
    requires Inv(w) && Trouble(w, e, err, true) && w.entries[e].attempt == Some(a) && !Interrupted(err)
    ensures AttemptGuard(w, a, w.attempts[a].(phase := PointFailedPhase(w.attempts[a].phase, err), error := Some(err.code)))
    ensures InFlight(w, a) && PointFailedPhase(w.attempts[a].phase, err).Failed? ==> a in w.loose
  {
    assert AttemptInv(w, a);
    if InFlight(w, a) { FlightPhases(w, e, a); }
  }

  const MAX_POINT_RETRY_ATTEMPTS := 3

  function PointLimit(job: Job): nat {
    if job.retryEnabled then MAX_POINT_RETRY_ATTEMPTS else 1
  }

  /** The job row that `_job_error` leaves: a stopped job keeps its state. */
  function AfterError(job: Job, state: JobState, resume: Option<JobState>): Job {
    if Halted(job) && state != job.state && !state.Stopped? then job
    else job.(state := state, resume := if resume.Some? then resume else job.resume)
  }

  lemma SameJob(w: World)
    requires Inv(w)
    ensures Env(SetJob(w, w.job), w)
  {
    assert SetJob(w, w.job) == w;
    EnvReflexive(w);
  }

  /** Nothing happened to the rows but what requests and late effects may do. */
  ghost predicate RowsKept(w: World, w': World) {
    && |w'.entries| == |w.entries| && |w'.attempts| == |w.attempts| && (w.job.fullStop ==> w'.job.fullStop)
    && (forall e: EntryId | e < |w.entries| :: EnvEntry(w.entries[e], w'.entries[e]) && KeepsState(w, w', e))
    && (forall a: AttemptId | a < |w.attempts| :: EnvAttempt(w.attempts[a], w'.attempts[a]))
  }

  /** `_skip_dependants` gives up entry `i` with the directory `e`. */
  predicate Dependant(row: Entry, e: EntryId, i: EntryId, below: (EntryId, EntryId) -> bool) {
    row.selected && row.state.Planned? && below(e, i)
  }

  /** ... when it has come to the first `k` entries. */
  predicate Reaches(row: Entry, e: EntryId, i: EntryId, k: nat, below: (EntryId, EntryId) -> bool) {
    i < k && Dependant(row, e, i, below)
  }

  /** Entry `i` was given up, or is as it was, requests and late effects aside. */
  ghost predicate SkippedEntry(w: World, w': World, i: EntryId, skipped: bool)
    requires i < |w.entries| == |w'.entries|
  {
    && EnvEntry(w.entries[i], w'.entries[i])
    && if skipped then w'.entries[i].state.FailedEntry? && SameAttempt(w, w', w.entries[i].attempt)
       else KeepsState(w, w', i)
  }

  /** Of the first `k` entries exactly the dependants of `e` were given up, and none of the others. */
  ghost predicate SkippedTo(w: World, w': World, e: EntryId, k: nat, below: (EntryId, EntryId) -> bool) {
    && |w'.entries| == |w.entries| && |w'.attempts| == |w.attempts|
    && forall i: EntryId | i < |w.entries| ::
         SkippedEntry(w, w', i, Reaches(w.entries[i], e, i, k, below))
  }

  /** The entry is given up with a directory. Should its attempt have failed before, with the upload still in the
    * air, the attempt is let go. Should it be on watch for being stuck, it is no longer.
    */
  ghost function GivenUpWith(w: World, i: EntryId): World
    requires i < |w.entries|
  {
    var w0, attempt := Unwatched(w, i), w.entries[i].attempt;
    var w1 := if HalfFailed(TablesOf(w), i) && InFlight(w0, attempt.value) then Loosen(w0, attempt.value) else w0;
    SetEntry(w1, i, w.entries[i].(state := FailedEntry, retryAt := None))
  }

  lemma GivenUpRows(w: World, i: EntryId)
    requires i < |w.entries|
    ensures var w' := GivenUpWith(w, i);
            && w'.entries == w.entries[i := w.entries[i].(state := FailedEntry, retryAt := None)]
            && w'.attempts == w.attempts && w'.job == w.job
  {
    hide InFlight;
  }

  lemma SkipGuard(w: World, i: EntryId)
    requires Inv(w) && i < |w.entries| && w.entries[i].state.Planned? && i !in w.watched
    ensures var attempt, row := w.entries[i].attempt, w.entries[i].(state := FailedEntry, retryAt := None);
            if HalfFailed(TablesOf(w), i) && InFlight(w, attempt.value)
            then EntryGuard(Loosen(w, attempt.value), i, row) else EntryGuard(w, i, row)
  {
    assert EntryInv(w, i);
    if w.entries[i].attempt.Some? { assert AttemptInv(w, w.entries[i].attempt.value); }
  }

  lemma SkippedNone(w: World, e: EntryId, below: (EntryId, EntryId) -> bool)
    ensures SkippedTo(w, w, e, 0, below)
  {
    forall i: EntryId | i < |w.entries| ensures SkippedEntry(w, w, i, false) {}
  }

  /** One more entry is looked at. */
  lemma SkippedNext(w: World, w1: World, w2: World, e: EntryId, k: EntryId, below: (EntryId, EntryId) -> bool)
    requires Inv(w) && SkippedTo(w, w1, e, k, below) && k < |w.entries|
    requires if Dependant(w1.entries[k], e, k, below) then Env(GivenUpWith(w1, k), w2) else w2 == w1
    ensures SkippedTo(w, w2, e, k + 1, below)
  {
    SameDependant(w, w1, e, k, below);
    if Dependant(w1.entries[k], e, k, below) {
      forall i: EntryId | i < |w.entries|
        ensures SkippedEntry(w, w2, i, Reaches(w.entries[i], e, i, k + 1, below))
      {
        SkippedOn(w, w1, w2, e, k, i, below);
      }
    } else {
      hide Inv, SkippedEntry, Dependant;
      forall i: EntryId | i < |w.entries|
        ensures SkippedEntry(w, w2, i, Reaches(w.entries[i], e, i, k + 1, below))
      {
        assert SkippedEntry(w, w1, i, Reaches(w.entries[i], e, i, k, below));
      }
    }
  }

  lemma SameDependant(w: World, w1: World, e: EntryId, k: EntryId, below: (EntryId, EntryId) -> bool)
    requires SkippedTo(w, w1, e, k, below) && k < |w.entries|
    requires Inv(w)
    ensures Dependant(w1.entries[k], e, k, below) == Dependant(w.entries[k], e, k, below)
  {
    assert SkippedEntry(w, w1, k, false);
    PlannedStays(w, w1, k);
  }

  /** A planned entry waits for no download, so that no switch changes its state. */
  lemma PlannedStays(w: World, w1: World, i: EntryId)
    requires Inv(w) && i < |w.entries| == |w1.entries| && KeepsState(w, w1, i)
    ensures w1.entries[i].state.Planned? <==> w.entries[i].state.Planned?
  {
    assert EntryInv(w, i);
    if w.entries[i].attempt.Some? { assert AttemptInv(w, w.entries[i].attempt.value); }
  }

  lemma SkippedOn(w: World, w1: World, w2: World, e: EntryId, k: EntryId, i: EntryId, below: (EntryId, EntryId) -> bool)
    requires Inv(w) && SkippedTo(w, w1, e, k, below) && k < |w.entries| && i < |w.entries|
    requires Dependant(w.entries[k], e, k, below) && Env(GivenUpWith(w1, k), w2)
    ensures |w2.entries| == |w.entries| && |w2.attempts| == |w.attempts|
    ensures SkippedEntry(w, w2, i, Reaches(w.entries[i], e, i, k + 1, below))
  {
    var mid := GivenUpWith(w1, k);
    GivenUpRows(w1, k);
    hide GivenUpWith;
    assert EntryInv(w, i) && SkippedEntry(w, w1, i, Reaches(w.entries[i], e, i, k, below));
    if w.entries[i].attempt.Some? { assert AttemptInv(w, w.entries[i].attempt.value); }
    assert EnvEntry(mid.entries[i], w2.entries[i]) && KeepsState(mid, w2, i);
    hide Inv, Env, SkippedTo, EntryInv;
  }

  lemma RowsKeptReflexive(w: World)
    ensures RowsKept(w, w)
  {
  }

  lemma JobRowsKept(w: World, job: Job, w': World)
    requires job.fullStop == w.job.fullStop && Env(SetJob(w, job), w')
    ensures RowsKept(w, w')
  {
    var mid := SetJob(w, job);
    forall e: EntryId | e < |w.entries| ensures EnvEntry(w.entries[e], w'.entries[e]) && KeepsState(w, w', e) {
      assert KeepsState(mid, w', e) && EnvEntry(mid.entries[e], w'.entries[e]);
    }
    forall a: AttemptId | a < |w.attempts| ensures EnvAttempt(w.attempts[a], w'.attempts[a]) {
      assert EnvAttempt(mid.attempts[a], w'.attempts[a]);
    }
  }

  /** How the row of entry `e` and its current attempt stand. */
  ghost predicate Stands(w: World, e: EntryId, state: EntryState, attempt: Option<AttemptId>, phase: Phase) {
    && e < |w.entries| && w.entries[e].state == state && w.entries[e].attempt == attempt
    && (attempt.Some? ==> attempt.value < |w.attempts| && w.attempts[attempt.value].phase == phase)
  }

  lemma StandsOn(w: World, w': World, e: EntryId, state: EntryState, attempt: Option<AttemptId>, phase: Phase)
    requires Stands(w, e, state, attempt, phase) && RowsKept(w, w') && !phase.DownloadRetryWait?
    ensures Stands(w', e, state, attempt, phase) && w'.entries[e].pointAttempts == w.entries[e].pointAttempts
    ensures w.job.fullStop ==> w'.job.fullStop
    ensures (w.entries[e].pointRequested ==> w.job.fullStop) ==> w'.entries[e].pointRequested ==> w'.job.fullStop
  {
    assert EnvEntry(w.entries[e], w'.entries[e]) && KeepsState(w, w', e);
    if attempt.Some? { assert EnvAttempt(w.attempts[attempt.value], w'.attempts[attempt.value]); }
  }

  lemma FinishRowsKept(w: World, e: EntryId, w': World)
    requires e < |w.entries| && Env(With(w, FinishPointRetry(TablesOf(w), e)).(finished := Some(e)), w')
    ensures RowsKept(w, w') && !w'.entries[e].pointRequested
  {
    var mid := With(w, FinishPointRetry(TablesOf(w), e)).(finished := Some(e));
    forall i: EntryId | i < |w.entries| ensures EnvEntry(w.entries[i], w'.entries[i]) && KeepsState(w, w', i) {
      assert KeepsState(mid, w', i) && EnvEntry(mid.entries[i], w'.entries[i]);
    }
    forall a: AttemptId | a < |w.attempts| ensures EnvAttempt(w.attempts[a], w'.attempts[a]) {
      assert EnvAttempt(mid.attempts[a], w'.attempts[a]);
    }
    assert EnvEntry(mid.entries[e], w'.entries[e]);
  }

  /** The phase of the current attempt of `e`; without an attempt it does not matter. */
  function PhaseOf(w: World, e: EntryId): Phase
    requires e < |w.entries|
  {
    PhaseIn(TablesOf(w), e)
  }

  function PhaseIn(t: Tables, e: EntryId): Phase
    requires HasEntry(t, e)
  {
    var attempt := t.entries[e].attempt;
    if attempt.Some? && attempt.value < |t.attempts| then t.attempts[attempt.value].phase else Prepared
  }

  /** What `step` makes of an exception that nobody classified: it is uncertain behind an intent. */
  function Judged(err: Error, p: Phase): Error {
    if err.code.InternalError? then err.(uncertain := err.uncertain || UnknownPhase(p)) else err
  }

  lemma JudgedTrouble(w: World, e: EntryId, err: Error, point: bool)
    requires Trouble(w, e, err, point)
    ensures Trouble(w, e, Judged(err, PhaseOf(w, e)), point)
  {
  }

  /** The row of an entry may always be saved again. */
  lemma EntryOf(w: World, e: EntryId)
    requires Inv(w) && e < |w.entries|
    ensures forall t: Option<int> :: EntryGuard(w, e, w.entries[e].(retryAt := t))
  {
    assert EntryInv(w, e);
    if w.entries[e].attempt.Some? { assert AttemptInv(w, w.entries[e].attempt.value); }
  }

  lemma TakeOverGuard(w: World, e: EntryId, a: AttemptId, row: Attempt)
    requires Inv(w) && Mine(w, e, a) && a !in w.purged && w.attempts[a].phase.Prepared?
    requires row.local.Some? && row.local.value in w.staging && w.entries[e].planned == Some(w.staging[row.local.value])
    requires row == w.attempts[a].(phase := Staged, local := row.local)
    ensures AttemptGuard(w, a, row)
  {
    assert AttemptInv(w, a);
  }

  lemma ForgetGuard(w: World, e: EntryId, prior: AttemptId)
    requires Inv(w) && prior < |w.attempts|
    requires w.attempts[prior].entry == e && e < |w.entries| && w.entries[e].attempt != Some(prior)
    ensures AttemptGuard(w, prior, w.attempts[prior].(local := None))
  {
    assert AttemptInv(w, prior);
  }

  lemma ReplanGuard(w: World, e: EntryId, row: Entry)
    requires Inv(w) && Rest(w) && e < |w.entries| && w.entries[e].state.FailedEntry?
    requires row == w.entries[e].(state := Planned, downloads := 0, retryAt := None)
    ensures EntryGuard(w, e, row) && Rest(SetEntry(w, e, row)) && !w.entries[e].pointRequested
  {
    assert EntryInv(w, e) && Idle(w, e);
    if w.entries[e].attempt.Some? { assert AttemptInv(w, w.entries[e].attempt.value); }
    forall i: EntryId ensures Idle(SetEntry(w, e, row), i) { assert Idle(w, i); }
  }

  /** The error leaves the outcome of a request open, or the destination is out of reach. */
  predicate Unsettling(err: Error) {
    err.uncertain || Interrupted(err)
  }

  /** How `_failure` ends once the rows in `from` are written: with retries on, an unsettling error stops the job. */
  ghost predicate Noted(from: World, w: World, err: Error) {
    if from.job.retryEnabled && Unsettling(err)
    then Env(SetJob(from, AfterError(from.job, NeedsAttention, None)), w) else w == from
  }

  /** Unless it was being stopped, the job then needs attention, as long as nobody had asked for a point retry. */
  lemma NotedState(from: World, w: World, err: Error)
    requires Noted(from, w, err) && from.job.retryEnabled && Unsettling(err) && NoneAsked(from.entries)
    ensures w.job.state == if Halted(from.job) then from.job.state else NeedsAttention
  {
  }

  /** ... and for a directory: with retries off, what is planned below it is given up, unless the credentials as such
    * were rejected.
    */
  ghost predicate NotedBelow(from: World, w: World, e: EntryId, err: Error, below: (EntryId, EntryId) -> bool) {
    if !from.job.retryEnabled && (!err.auth || err.denied) then SkippedTo(from, w, e, |from.entries|, below)
    else Noted(from, w, err)
  }

  /** The point retry stays requested after the error, for a later attempt. */
  predicate RepeatsLater(from: World, e: EntryId, err: Error)
    requires e < |from.entries|
  {
    && from.entries[e].attempt.Some? && PointRepeats(err) && !Interrupted(err)
    && from.entries[e].pointAttempts < PointLimit(from.job)
  }

  /** How `_point_failure` ends once the rows in `from` are written: under a full stop nothing more happens, a retry
    * that is to be repeated waits, and any other one is over.
    */
  ghost predicate PointClosed(from: World, w: World, e: EntryId, err: Error) {
    && e < |from.entries|
    && if from.job.fullStop then w == from
       else if RepeatsLater(from, e, err)
       then exists retryAt :: Env(SetEntry(from, e, from.entries[e].(retryAt := Some(retryAt))), w)
       else Env(With(from, FinishPointRetry(TablesOf(from), e)).(finished := Some(e)), w)
  }

  /** ... and how an outage of the destination stops the job behind it. */
  ghost predicate PointNoted(closed: World, w: World, err: Error) {
    if Interrupted(err) && closed.job.retryEnabled
    then Env(SetJob(closed, AfterError(closed.job, NeedsAttention, None)), w) else w == closed
  }

  class Handler {
    const d: Session

    constructor (d: Session)
      ensures this.d == d
    {
      this.d := d;
    }

    /** `_job_error`: a job that was stopped meanwhile keeps its state. */
    method JobError(state: JobState, resume: Option<JobState> := None) returns (s: Status)
      requires d.Valid() && !state.Completed?
      modifies d, d.store
      ensures d.Valid() && (s.Raise? ==> s.exn.Crashed?)
      ensures s.Pass? ==> Env(SetJob(old(d.W()), AfterError(old(d.store.job), state, resume)), d.W())
                          && RowsKept(old(d.W()), d.W())
      ensures d.store.job.space == old(d.store.job.space)
    {
      hide Inv, Env, RowsKept;
      ghost var w := d.W();
      var row := d.store.job.(state := state, resume := if resume.Some? then resume else d.store.job.resume);
      s := d.SaveJob(row);
      if s.Raise? && s.exn.JobStopped? {
        SameJob(w);
        JobRowsKept(w, w.job, w);
        return Pass;
      }
      if s.Pass? { JobRowsKept(w, row, d.W()); }
    }

    /** `_failure` for a file. */
    method FailFile(e: EntryId, err: Error) returns (s: Status, ghost from: World)
      requires d.Valid() && CanFail(d.W(), e, err)
      modifies d, d.store
      ensures d.Valid() && (s.Raise? ==> s.exn.Crashed?) && d.store.job.space == old(d.store.job.space)
      ensures s.Pass? && old(d.store.job.fullStop) ==> d.store.job.fullStop
      ensures s.Pass? ==> Stands(d.W(), e, FailedState(err), old(d.store.entries)[e].attempt,
                                 FailedPhase(PhaseOf(old(d.W()), e), err))
      ensures s.Pass? ==> Noted(from, d.W(), err) && d.store.entries[e].pointAttempts == old(d.store.entries)[e].pointAttempts
                          && Stands(from, e, FailedState(err), old(d.store.entries)[e].attempt,
                                    FailedPhase(PhaseOf(old(d.W()), e), err))
    {
      hide Inv, Env, Stable, StableFor, OthersIdle, Steady, Kept, RowsKept;
      ghost var w := d.W();
      from := w;
      var attempt := d.store.entries[e].attempt;
      if attempt.Some? {
        :- FailAttempt(e, attempt.value, err);
      } else {
        :- FailUntried(e, FailedState(err));
      }
      from := d.W();
      ghost var phase := FailedPhase(PhaseOf(w, e), err);
      assert Stands(from, e, FailedState(err), attempt, phase);
      if d.store.job.retryEnabled && (err.uncertain || Interrupted(err)) {
        :- JobError(NeedsAttention);
        StandsOn(from, d.W(), e, FailedState(err), attempt, phase);
      }
      s := Pass;
    }

    method FailAttempt(e: EntryId, a: AttemptId, err: Error) returns (s: Status)
      requires d.Valid() && CanFail(d.W(), e, err) && d.store.entries[e].attempt == Some(a)
      modifies d, d.store
      ensures d.Valid() && (s.Raise? ==> s.exn.Crashed?) && d.store.job.space == old(d.store.job.space)
      ensures s.Pass? && old(d.store.job.fullStop) ==> d.store.job.fullStop
      ensures s.Pass? ==>
                Stands(d.W(), e, FailedState(err), Some(a), FailedPhase(old(d.store.attempts)[a].phase, err))
                && d.store.entries[e].pointAttempts == old(d.store.entries)[e].pointAttempts
    {
      FailureGuard(d.W(), e, a, err);
      assert Mine(d.W(), e, a);
      hide Inv, InFlight, AttemptGuard, Mine, CanFail;
      s := Record(e, a, FailedPhase(d.store.attempts[a].phase, err), err.code, FailedState(err));
    }

    /** The phase of the attempt is saved, and then the state of the entry. */
    method Record(e: EntryId, a: AttemptId, phase: Phase, code: Code, state: EntryState) returns (s: Status)
      requires d.Valid() && Mine(d.W(), e, a)
      requires AttemptGuard(d.W(), a, d.store.attempts[a].(phase := phase, error := Some(code)))
      requires !PreSubmit(phase) && !Success(state)
      requires InFlight(d.W(), a) && phase.Failed? ==> Sealed(d.store.entries[e].(state := state)) || a in d.loose
      modifies d, d.store
      ensures d.Valid() && (s.Raise? ==> s.exn.Crashed?) && d.store.job.space == old(d.store.job.space)
      ensures s.Pass? && old(d.store.job.fullStop) ==> d.store.job.fullStop
      ensures s.Pass? ==> Stands(d.W(), e, state, Some(a), phase)
                          && d.store.entries[e].pointAttempts == old(d.store.entries)[e].pointAttempts
    {
      hide Inv, Env, Stable, StableFor, OthersIdle, Unfinished, Steady, Kept, AttemptGuard, InFlight, Room;
      ghost var w := d.W();
      var row := d.store.attempts[a].(phase := phase, error := Some(code));
      :- d.SaveAttempt(a, row);
      AttemptSaved(w, a, row, d.W(), e);
      s := d.KeepEntry(e, a, d.store.entries[e].(state := state, retryAt := None));
    }

    /** An entry without an attempt fails. */
    method FailUntried(e: EntryId, state: EntryState) returns (s: Status)
      requires d.Valid() && e < |d.store.entries| && d.store.entries[e].attempt.None?
      requires (Success(d.store.entries[e].state) ==> !d.store.job.state.Completed?) && !Active(state) && !Success(state)
      modifies d, d.store
      ensures d.Valid() && (s.Raise? ==> s.exn.Crashed?) && d.store.job.space == old(d.store.job.space)
      ensures s.Pass? ==> |d.store.entries| == |old(d.store.entries)|
                          && d.store.entries[e].state == state && d.store.entries[e].attempt.None?
                          && (old(d.store.job.fullStop) ==> d.store.job.fullStop)
                          && d.store.entries[e].pointAttempts == old(d.store.entries)[e].pointAttempts
    {
      ghost var w := SetEntry(d.W(), e, d.store.entries[e].(state := state, retryAt := None));
      s := d.SaveEntry(e, d.store.entries[e].(state := state, retryAt := None));
      assert s.Pass? ==> KeepsState(w, d.W(), e);
    }

    /** `_failure` for a directory; with retries disabled its planned descendants are given up with it. */
    method FailDirectory(e: EntryId, err: Error) returns (s: Status, ghost from: World)
      requires d.Valid() && e < |d.store.entries| && d.store.entries[e].kind.Dir?
      requires Success(d.store.entries[e].state) ==> !d.store.job.state.Completed?
      modifies d, d.store
      ensures d.Valid() && (s.Raise? ==> s.exn.Crashed?)
      ensures s.Pass? ==> Stands(d.W(), e, FailedState(err), None, Failed)
      ensures s.Pass? ==> Stands(from, e, FailedState(err), None, Failed) && NotedBelow(from, d.W(), e, err, d.below)
    {
      from := d.W();
      DirectoryUntried(d.W(), e);
      hide Inv, Env, RowsKept, SkippedTo;
      :- FailUntried(e, FailedState(err));
      from := d.W();
      if d.store.job.retryEnabled {
        if err.uncertain || Interrupted(err) {
          :- JobError(NeedsAttention);
          StandsOn(from, d.W(), e, FailedState(err), None, Failed);
        }
      } else if !err.auth || err.denied {
        :- SkipDependants(e);
        StandsSkipped(from, d.W(), e, FailedState(err), d.below);
      }
      s := Pass;
    }

    lemma StandsSkipped(w: World, w': World, e: EntryId, state: EntryState, below: (EntryId, EntryId) -> bool)
      requires Stands(w, e, state, None, Failed) && SkippedTo(w, w', e, |w.entries|, below) && !state.Planned?
      ensures Stands(w', e, state, None, Failed)
    {
      assert SkippedEntry(w, w', e, Dependant(w.entries[e], e, e, below));
    }

    /** `_skip_dependants`: exactly the planned selected entries below the directory are given up. */
    method SkipDependants(e: EntryId) returns (s: Status)
      requires d.Valid()
      modifies d, d.store
      ensures d.Valid() && (s.Raise? ==> s.exn.Crashed?)
      ensures s.Pass? ==> SkippedTo(old(d.W()), d.W(), e, |old(d.store.entries)|, d.below)
    {
      s := Pass;
      var i, count := 0, |d.store.entries|;
      ghost var w := d.W();
      assert Inv(w);
      SkippedNone(w, e, d.below);
      hide Inv, Env, SkippedTo, GivenUpWith;
      while i < count
        invariant d.Valid() && s.Pass? && i <= count == |d.store.entries| && SkippedTo(w, d.W(), e, i, d.below)
        decreases count - i
      {
        ghost var w1 := d.W();
        if Dependant(d.store.entries[i], e, i, d.below) { :- SkipEntry(i, e); }
        SkippedNext(w, w1, d.W(), e, i, d.below);
        SkippedSizes(w, d.W(), e, i + 1, d.below);
        i := i + 1;
      }
    }

    lemma SkippedSizes(w: World, w': World, e: EntryId, k: nat, below: (EntryId, EntryId) -> bool)
      requires SkippedTo(w, w', e, k, below)
      ensures |w'.entries| == |w.entries|
    {
    }

    method SkipEntry(i: EntryId, ghost e: EntryId) returns (s: Status)
      requires d.Valid() && i < |d.store.entries| && d.store.entries[i].state.Planned? && d.below(e, i)
      modifies d, d.store
      ensures d.Valid() && (s.Raise? ==> s.exn.Crashed?)
      ensures s.Pass? ==> Env(GivenUpWith(old(d.W()), i), d.W())
    {
      if HalfFailed(d.store.Rows(), i) && d.guarded { return Raise(Crashed); }
      d.Skip(i, e);
      SkipGuard(d.W(), i);
      if HalfFailed(d.store.Rows(), i) && InFlight(d.W(), d.store.entries[i].attempt.value) { d.LetGo(d.store.entries[i].attempt.value); }
      hide Inv, Env, EntryGuard;
      s := d.SaveEntry(i, d.store.entries[i].(state := FailedEntry, retryAt := None));
    }

    /** `_point_failure`. The rows are written in `from`; in `closed` the point retry is over, or is to be repeated. */
    method PointFailure(e: EntryId, err: Error) returns (s: Status, ghost from: World, ghost closed: World)
      requires d.Valid() && Trouble(d.W(), e, err, true)
      modifies d, d.store
      ensures d.Valid() && (s.Raise? ==> s.exn.Crashed?)
      ensures s.Pass? ==> Stands(d.W(), e, PointFailedState(old(d.store.entries)[e].attempt, err),
                                 old(d.store.entries)[e].attempt, PointFailedPhase(PhaseOf(old(d.W()), e), err))
      ensures s.Pass? ==>
                PointClosed(from, closed, e, err)
                && from.entries[e].pointAttempts == old(d.store.entries)[e].pointAttempts
                && PointNoted(closed, d.W(), err)
                && Stands(from, e, PointFailedState(old(d.store.entries)[e].attempt, err), old(d.store.entries)[e].attempt,
                          PointFailedPhase(PhaseOf(old(d.W()), e), err))
      ensures s.Pass? && d.store.entries[e].pointRequested && !d.store.job.fullStop ==>
                PointRepeats(err) && !Interrupted(err)
                && old(d.store.entries)[e].pointAttempts < MAX_POINT_RETRY_ATTEMPTS
    {
      ghost var w := d.W();
      from, closed := w, w;
      ghost var attempt, phase := d.store.entries[e].attempt, PointFailedPhase(PhaseOf(w, e), err);
      assert !phase.DownloadRetryWait?;
      hide Inv, Env, Stable, StableFor, OthersIdle, Steady, Kept, RowsKept, PointFailedPhase, FailedPhase;
      if Interrupted(err) {
        s, from, closed := PointInterrupted(e, err);
        return;
      }
      if d.store.entries[e].attempt.None? {
        s, from, closed := PointUntried(e, err);
        return;
      }
      :- PointFailAttempt(e, d.store.entries[e].attempt.value, err);
      from, closed := d.W(), d.W();
      if d.store.job.fullStop { return Pass, from, closed; }
      if PointRepeats(err) && d.store.entries[e].pointAttempts < PointLimit(d.store.job) {
        s := RepeatLater(e, PointFailedState(attempt, err), attempt, phase);
      } else {
        s := Finish(e, PointFailedState(attempt, err), attempt, phase);
      }
      closed := d.W();
    }

    /** An outage ends the point retry at once, and the job needs attention while retries are on. */
    method PointInterrupted(e: EntryId, err: Error) returns (s: Status, ghost from: World, ghost closed: World)
      requires d.Valid() && Trouble(d.W(), e, err, true) && Interrupted(err)
      modifies d, d.store
      ensures d.Valid() && (s.Raise? ==> s.exn.Crashed?)
      ensures s.Pass? ==> Stands(d.W(), e, PointFailedState(old(d.store.entries)[e].attempt, err),
                                 old(d.store.entries)[e].attempt, PointFailedPhase(PhaseOf(old(d.W()), e), err))
      ensures s.Pass? ==>
                PointClosed(from, closed, e, err)
                && from.entries[e].pointAttempts == old(d.store.entries)[e].pointAttempts
                && PointNoted(closed, d.W(), err)
                && Stands(from, e, PointFailedState(old(d.store.entries)[e].attempt, err), old(d.store.entries)[e].attempt,
                          PointFailedPhase(PhaseOf(old(d.W()), e), err))
      ensures s.Pass? && d.store.entries[e].pointRequested ==> d.store.job.fullStop
    {
      ghost var w := d.W();
      from, closed := w, w;
      ghost var attempt, phase := d.store.entries[e].attempt, PointFailedPhase(PhaseOf(w, e), err);
      assert !phase.DownloadRetryWait?;
      hide Inv, Env, Stable, StableFor, OthersIdle, Steady, Kept, RowsKept, PointFailedPhase, FailedPhase;
      s, from := FailFile(e, err);
      if s.Raise? { return; }
      from := d.W();
      :- Finish(e, PointFailedState(attempt, err), attempt, phase);
      closed := d.W();
      if d.store.job.retryEnabled {
        :- JobError(NeedsAttention);
        StandsOn(closed, d.W(), e, PointFailedState(attempt, err), attempt, phase);
      }
      return Pass, from, closed;
    }

    /** A file that never had an attempt is given up. */
    method PointUntried(e: EntryId, err: Error) returns (s: Status, ghost from: World, ghost closed: World)
      requires d.Valid() && Trouble(d.W(), e, err, true) && !Interrupted(err)
      requires d.store.entries[e].attempt.None?
      modifies d, d.store
      ensures d.Valid() && (s.Raise? ==> s.exn.Crashed?)
      ensures s.Pass? ==> Stands(d.W(), e, PointFailedState(old(d.store.entries)[e].attempt, err),
                                 old(d.store.entries)[e].attempt, PointFailedPhase(PhaseOf(old(d.W()), e), err))
      ensures s.Pass? ==>
                PointClosed(from, closed, e, err)
                && from.entries[e].pointAttempts == old(d.store.entries)[e].pointAttempts
                && PointNoted(closed, d.W(), err)
                && Stands(from, e, PointFailedState(old(d.store.entries)[e].attempt, err), old(d.store.entries)[e].attempt,
                          PointFailedPhase(PhaseOf(old(d.W()), e), err))
      ensures s.Pass? && d.store.entries[e].pointRequested ==> d.store.job.fullStop
    {
      ghost var w := d.W();
      from, closed := w, w;
      ghost var phase := PointFailedPhase(PhaseOf(w, e), err);
      assert !phase.DownloadRetryWait?;
      hide Inv, Env, Stable, StableFor, OthersIdle, Steady, Kept, RowsKept, FailedPhase;
      :- FailUntried(e, FailedEntry);
      from := d.W();
      s := Finish(e, FailedEntry, None, phase);
      closed := d.W();
    }

    /** `_finish_point_retry` with the retry exhausted. */
    method Finish(e: EntryId, ghost state: EntryState, ghost attempt: Option<AttemptId>, ghost phase: Phase)
      returns (s: Status)
      requires d.Valid() && Stands(d.W(), e, state, attempt, phase) && !phase.DownloadRetryWait?
      modifies d, d.store
      ensures d.Valid() && (s.Raise? ==> s.exn.Crashed?)
      ensures s.Pass? ==> Stands(d.W(), e, state, attempt, phase)
      ensures s.Pass? ==> d.store.entries[e].pointRequested ==> d.store.job.fullStop
      ensures s.Pass? ==>
                if old(d.store.job.fullStop) then d.W() == old(d.W())
                else Env(With(old(d.W()), FinishPointRetry(old(d.store.Rows()), e)).(finished := Some(e)), d.W())
    {
      ghost var w := d.W();
      if d.store.job.fullStop { return Pass; }
      s := d.FinishPoint(e);
      if s.Pass? {
        FinishRowsKept(w, e, d.W());
        StandsOn(w, d.W(), e, state, attempt, phase);
      }
    }

    method PointFailAttempt(e: EntryId, a: AttemptId, err: Error) returns (s: Status)
      requires d.Valid() && Trouble(d.W(), e, err, true) && d.store.entries[e].attempt == Some(a) && !Interrupted(err)
      modifies d, d.store
      ensures d.Valid() && (s.Raise? ==> s.exn.Crashed?)
      ensures s.Pass? ==>
                Stands(d.W(), e, PointFailedState(Some(a), err), Some(a), PointFailedPhase(old(d.store.attempts)[a].phase, err))
                && d.store.entries[e].pointAttempts == old(d.store.entries)[e].pointAttempts
    {
      PointFailureGuard(d.W(), e, a, err);
      assert Mine(d.W(), e, a);
      hide Inv, InFlight, AttemptGuard, Mine, Trouble;
      s := Record(e, a, PointFailedPhase(d.store.attempts[a].phase, err), err.code, PointFailedState(Some(a), err));
    }

    method RepeatLater(e: EntryId, ghost state: EntryState, ghost attempt: Option<AttemptId>, ghost phase: Phase)
      returns (s: Status)
      requires d.Valid() && Stands(d.W(), e, state, attempt, phase) && !phase.DownloadRetryWait?
      modifies d, d.store
      ensures d.Valid() && (s.Raise? ==> s.exn.Crashed?)
      ensures s.Pass? ==> Stands(d.W(), e, state, attempt, phase)
      ensures s.Pass? ==>
                exists t :: Env(SetEntry(old(d.W()), e, old(d.store.entries)[e].(retryAt := Some(t))), d.W())
    {
      EntryOf(d.W(), e);
      var retryAt: int := *;
      ghost var w := SetEntry(d.W(), e, d.store.entries[e].(retryAt := Some(retryAt)));
      hide Inv;
      s := d.SaveEntry(e, d.store.entries[e].(retryAt := Some(retryAt)));
      if s.Pass? {
        assert RowsKept(w, d.W());
        StandsOn(w, d.W(), e, state, attempt, phase);
      }
    }
  }
}
