/** What the transactions mean for the rows: when they are refused, what they leave alone, and what happens when one is
  * repeated or undone.
  */
module Rules {
  import opened Rows
  import opened Transactions

  // ---------------------------------------------------------------- the state of the job

  predicate Working(t: Tables) {
    exists e | 0 <= e < |t.entries| :: InWork(t.entries[e].state)
  }

  predicate Unsure(t: Tables) {
    exists e | 0 <= e < |t.entries| :: t.entries[e].state.OutcomeUnknown?
  }

  predicate AllDone(t: Tables) {
    forall e | 0 <= e < |t.entries| :: Success(t.entries[e].state)
  }

  /** The state that the end of a point retry leaves, case by case: a stop counts first, then a pause, then work that is
    * left, then an entry that is unknown.
    */
  lemma PointStateExactly(t: Tables)
    ensures var s := StateAfterPoint(t);
            && (Halted(t.job) ==> s == t.job.state)
            && (!Halted(t.job) ==>
                  && (s.Paused? <==> t.job.pauseRequested)
                  && (s.Running? <==> !t.job.pauseRequested && Working(t))
                  && (s.NeedsAttention? <==> !t.job.pauseRequested && !Working(t) && Unsure(t))
                  && (s.Completed? <==> !t.job.pauseRequested && AllDone(t))
                  && (s.CompletedWithIssues? <==> !t.job.pauseRequested && !Working(t) && !Unsure(t) && !AllDone(t)))
  {
  }

  /** With nothing left to do and retries on, the end of a point retry and a step leave the job in the same state. */
  lemma PointEndsLikeStep(t: Tables)
    requires !Halted(t.job) && !t.job.pauseRequested && t.job.retryEnabled && !Working(t)
    requires forall e | 0 <= e < |t.entries| :: t.entries[e].selected
    ensures StateAfterPoint(t) == FinalState(t)
  {
    PointStateExactly(t);
    if Unsure(t) {
      var e :| 0 <= e < |t.entries| && t.entries[e].state.OutcomeUnknown?;
      assert t.entries[e].selected && t.entries[e].state.OutcomeUnknown?;
    }
  }

  /** The end of a point retry touches one flag and the job, at most once. A job that waits for credentials goes on
    * waiting, and takes the new state when it resumes.
    */
  lemma FinishPointRows(t: Tables, e: EntryId)
    requires HasEntry(t, e)
    ensures var t' := FinishPointRetry(t, e);
            && t'.attempts == t.attempts && |t'.entries| == |t.entries| && !t'.entries[e].pointRequested
            && (forall i | 0 <= i < |t.entries| && i != e :: t'.entries[i] == t.entries[i])
            && t'.entries[e].state == t.entries[e].state && t'.entries[e].attempt == t.entries[e].attempt
            && t'.entries[e].pointAttempts == t.entries[e].pointAttempts
            && FinishPointRetry(t', e) == t'
            && (t.entries[e].pointRequested ==>
                  if t.job.state.AwaitingCredentials? && !t.job.stopRequested
                  then t'.job.state.AwaitingCredentials? && t'.job.resume == Some(StateAfterPoint(t))
                  else t'.job.state == StateAfterPoint(t) && t'.job.resume == t.job.resume)
            && (!t.entries[e].pointRequested ==> t' == t)
  {
  }

  // ---------------------------------------------------------------- attempts

  /** The copy an attempt has, if any. */
  function CopyOf(t: Tables, attempt: Option<AttemptId>): Option<Name> {
    if attempt.Some? && attempt.value < |t.attempts| then t.attempts[attempt.value].local else None
  }

  /** When a new attempt is refused. */
  predicate MayTry(t: Tables, e: EntryId, point: bool, reuse: bool)
    requires HasEntry(t, e) && Linked(t, e)
  {
    var row, prior := t.entries[e], Current(t, e);
    if point then
      && row.pointRequested
      && if prior.None? then row.state.FailedEntry? && !reuse
         else PointRetryPhase(prior.value.phase) && (reuse ==> prior.value.local.Some?)
    else t.job.direct && prior.Some? ==> prior.value.phase.Failed?
  }

  /** A new attempt is one more row, and the current one of its entry. A plain one leaves every other row alone. One of a
    * point retry gives the old attempt up, unless that has failed, and starts the entry over; a copy is then handed on
    * or stays where it is, and no other row changes.
    */
  lemma NewAttemptRows(t: Tables, e: EntryId, point: bool, reuse: bool)
    requires HasEntry(t, e) && Linked(t, e) && (reuse ==> point)
    ensures NewAttempt(t, e, point, reuse).Committed? <==> !Halted(t.job) && MayTry(t, e, point, reuse)
    ensures Halted(t.job) ==> NewAttempt(t, e, point, reuse) == Rejected(JobStopped)
    ensures !Halted(t.job) && !MayTry(t, e, point, reuse) ==> NewAttempt(t, e, point, reuse) == Rejected(Refused)
    ensures NewAttempt(t, e, point, reuse).Committed? ==>
              var t', a, old' := NewAttempt(t, e, point, reuse).t, |t.attempts|, t.entries[e].attempt;
              && |t'.attempts| == a + 1 && t'.job == t.job && t'.entries[e].attempt == Some(a)
              && (forall i | 0 <= i < |t.entries| && i != e :: t'.entries[i] == t.entries[i])
              && (forall i | 0 <= i < a && (!point || old' != Some(i)) :: t'.attempts[i] == t.attempts[i])
              && t'.attempts[a].entry == e && !t'.attempts[a].operation && t'.attempts[a].error.None?
              && t'.attempts[a].phase == (if t'.attempts[a].local.Some? then Staged else Prepared)
              && (t'.attempts[a].remote.Dest? <==> t.job.direct)
              && (forall i | 0 <= i < a :: !t.job.direct && t.attempts[i].remote == RemoteOf(t, e, i) ==>
                    t'.attempts[a].remote != t.attempts[i].remote)
              && (!point ==> t'.attempts[a].local.None? && t'.entries[e] == t.entries[e].(attempt := Some(a)))
              && (point ==>
                    && t'.entries[e].state.Transferring? && t'.entries[e].downloads == 0
                    && t'.entries[e].pointRequested && t'.entries[e].pointAttempts == t.entries[e].pointAttempts)
              && (point && old'.Some? ==>
                    var before, after := t.attempts[old'.value], t'.attempts[old'.value];
                    && (after.phase.Failed? <==> before.phase.Failed?)
                    && (!before.phase.Failed? ==> AbandonedPhase(after.phase) && (after.phase.AbandonedMove? <==> MovePhase(before.phase)))
                    && (if reuse then t'.attempts[a].local == before.local && after.local.None?
                        else t'.attempts[a].local.None? && after.local == before.local))
  {
  }

  function RemoteOf(t: Tables, e: EntryId, a: AttemptId): Place {
    if t.job.direct then Dest(e) else Temp(e, a)
  }

  /** Accepting a copy that is there already settles the entry. The attempt has succeeded if it uploads to the destination
    * itself, and is given up otherwise, because its temporary file is of no more use.
    */
  lemma ConfirmRows(t: Tables, e: EntryId)
    requires HasEntry(t, e) && Linked(t, e)
    ensures ConfirmPointCopy(t, e).Committed? <==>
              !Halted(t.job) && t.entries[e].pointRequested && t.entries[e].kind.File? && Current(t, e).Some?
              && PointRetryPhase(Current(t, e).value.phase)
    ensures ConfirmPointCopy(t, e).Committed? ==>
              var t', a := ConfirmPointCopy(t, e).t, t.entries[e].attempt.value;
              && t'.job == t.job && t'.entries == t.entries[e := t.entries[e].(state := AlreadyVerified)]
              && |t'.attempts| == |t.attempts| && (forall i | 0 <= i < |t.attempts| && i != a :: t'.attempts[i] == t.attempts[i])
              && t'.attempts[a].local == t.attempts[a].local && t'.attempts[a].remote == t.attempts[a].remote
              && (t.job.direct <==> t'.attempts[a].phase.Succeeded?)
              && (!t.job.direct ==> if MovePhase(t.attempts[a].phase) then t'.attempts[a].phase.AbandonedMove?
                                    else t'.attempts[a].phase.AbandonedTransfer?)
  {
  }

  /** A scheduled download waits in its own state until its time, and is scheduled exactly while retries are on, no stop
    * was requested and nobody asked for a point retry.
    */
  lemma ScheduleRows(t: Tables, e: EntryId, retryAt: int, code: Code)
    requires HasEntry(t, e) && Linked(t, e) && t.entries[e].attempt.Some?
    ensures ScheduleDownloadRetry(t, e, retryAt, code).Some? <==>
              t.job.retryEnabled && !t.job.stopRequested && !t.job.fullStop && !t.entries[e].pointRequested
    ensures ScheduleDownloadRetry(t, e, retryAt, code).Some? ==>
              var t', a := ScheduleDownloadRetry(t, e, retryAt, code).value, t.entries[e].attempt.value;
              && t'.job == t.job && WaitsForDownload(t', e) && t'.entries[e].state.Fetching?
              && t'.entries[e].retryAt == Some(retryAt) && t'.attempts[a].error == Some(code)
              && t'.entries[e].downloads == t.entries[e].downloads && t'.attempts[a].local == t.attempts[a].local
              && (forall i | 0 <= i < |t.entries| && i != e :: t'.entries[i] == t.entries[i])
              && (forall i | 0 <= i < |t.attempts| && i != a :: t'.attempts[i] == t.attempts[i])
  {
  }

  // ---------------------------------------------------------------- the switch, stops and restarts

  /** Turning the retries off fails exactly the downloads that wait for their time; turning them on again does not bring
    * them back. Turning the switch where it is changes nothing.
    */
  lemma SwitchRows(t: Tables)
    requires AllLinked(t) && t.job.retryEnabled
    ensures SetRetryEnabled(t, true) == t
    ensures var t' := SetRetryEnabled(t, false);
            && !t'.job.retryEnabled && t'.job == t.job.(retryEnabled := false)
            && |t'.entries| == |t.entries| && |t'.attempts| == |t.attempts|
            && (forall e | 0 <= e < |t.entries| ::
                  t'.entries[e].retryAt.None?
                  && t'.entries[e] == t.entries[e].(retryAt := None,
                                                   state := if WaitsForDownload(t, e) then FailedEntry else t.entries[e].state))
            && (forall a | 0 <= a < |t.attempts| ::
                  var e := t.attempts[a].entry;
                  t'.attempts[a] == if t.entries[e].attempt == Some(a) && WaitsForDownload(t, e)
                                    then t.attempts[a].(phase := Failed) else t.attempts[a])
            && (AllLinked(t') ==> SetRetryEnabled(t', false) == t' && SetRetryEnabled(t', true) == t'.(job := t.job))
  {
  }

  /** A stop is requested once. A full one counts as a stop, withdraws every point retry, and touches nothing else. */
  lemma StopRows(t: Tables)
    ensures RequestStop(t).Committed? <==> Halted(t.job) || Stoppable(t.job.state)
    ensures RequestStop(t).Committed? && !Halted(t.job) ==> RequestStop(t).t == t.(job := t.job.(stopRequested := true))
    ensures RequestStop(t).Committed? ==> RequestStop(RequestStop(t).t) == RequestStop(t)
    ensures RequestFullStop(t).Committed? <==> t.job.fullStop || !t.job.state.Completed?
    ensures RequestFullStop(t).Committed? && !t.job.fullStop ==>
              var t' := RequestFullStop(t).t;
              && t'.attempts == t.attempts && t'.job == t.job.(stopRequested := true, fullStop := true)
              && |t'.entries| == |t.entries|
              && (forall e | 0 <= e < |t.entries| ::
                    t'.entries[e] == t.entries[e].(pointRequested := false, retryAt := None))
    ensures RequestFullStop(t).Committed? ==> RequestFullStop(RequestFullStop(t).t) == RequestFullStop(t)
  {
  }

  /** Cancelling ends exactly what is in work or unknown, once. */
  lemma CancelRows(t: Tables)
    ensures CancelLocalEntries(t).Committed? <==> t.job.state.Stopped? && t.job.fullStop
    ensures CancelLocalEntries(t).Committed? ==>
              var t' := CancelLocalEntries(t).t;
              && t'.job == t.job && t'.attempts == t.attempts && |t'.entries| == |t.entries|
              && (forall e | 0 <= e < |t.entries| ::
                    if InWork(t.entries[e].state) || t.entries[e].state.OutcomeUnknown?
                    then t'.entries[e] == t.entries[e].(state := Cancelled, pointRequested := false, retryAt := None)
                    else t'.entries[e] == t.entries[e])
              && CancelLocalEntries(t') == Committed(t')
  {
    if CancelLocalEntries(t).Committed? {
      var t' := CancelLocalEntries(t).t;
      assert CancelLocalEntries(t').t.entries == t'.entries;
    }
  }

  /** A point retry is queued for a selected file that failed or is unknown, of a job at rest with a namespace, while
    * nothing else is in work, and only if the caller knows its current attempt. The job then runs.
    */
  lemma QueueRows(t: Tables, e: EntryId, attempt: Option<AttemptId>)
    requires HasEntry(t, e) && Linked(t, e)
    ensures QueuePointRetry(t, e, attempt).Committed? <==>
              && !Halted(t.job) && t.job.space.Owned? && (forall i | 0 <= i < |t.entries| :: !Busy(t.entries[i]))
              && (if t.job.state.AwaitingCredentials? then t.job.resume else Some(t.job.state))
                 in {Some(NeedsAttention), Some(Paused), Some(CompletedWithIssues)}
              && var row := t.entries[e];
              && row.selected && row.kind.File? && row.attempt == attempt
              && (row.state.FailedEntry? || (row.state.OutcomeUnknown? && attempt.Some?))
              && (attempt.Some? ==> PointRetryPhase(t.attempts[attempt.value].phase))
    ensures QueuePointRetry(t, e, attempt).Committed? ==>
              var t' := QueuePointRetry(t, e, attempt).t;
              && t'.attempts == t.attempts
              && t'.entries == t.entries[e := t.entries[e].(pointRequested := true, pointAttempts := 0, retryAt := None)]
              && t'.job == t.job.(state := Running, resume := None, pauseRequested := false)
    ensures QueuePointRetry(t, e, attempt).Rejected? ==>
              QueuePointRetry(t, e, attempt).exn == if Halted(t.job) then JobStopped else Refused
  {
  }

  /** A restart takes exactly the live jobs out of their state, and a second one changes nothing. */
  lemma RecoverRows(t: Tables)
    ensures var t' := Recover(t);
            && t'.entries == t.entries && t'.attempts == t.attempts && Recover(t') == t'
            && (t' != t <==>
                  && !t.job.stopRequested
                  && t.job.state in {JobState.Queued, Planning, JobState.Ready, Running, Paused, NeedsAttention})
            && (t' != t ==> t'.job.state.AwaitingCredentials?)
  {
  }

  /** A job that was at work resumes where the restart found it: before its plan, at its plan, or at work. */
  lemma RestartAndResume(t: Tables)
    requires Recover(t) != t && t.entries != []
    requires forall e | 0 <= e < |t.entries| :: !t.entries[e].pointRequested
    ensures ResumedState(Recover(t)) ==
            match t.job.state
            case Queued => JobState.Queued
            case Planning => JobState.Queued
            case Ready => JobState.Ready
            case _ => JobState.Running
  {
  }

  /** Retry, resume and a point retry agree on what is at rest: none of them starts while an entry is in work. */
  lemma AtRestOnly(t: Tables, e: EntryId, attempt: Option<AttemptId>)
    requires HasEntry(t, e) && Linked(t, e)
    ensures Retryable(t) || QueuePointRetry(t, e, attempt).Committed? ==>
              forall i | 0 <= i < |t.entries| :: !Active(t.entries[i].state) && !t.entries[i].pointRequested
  {
    if QueuePointRetry(t, e, attempt).Committed? { QueueRows(t, e, attempt); }
    if Retryable(t) || QueuePointRetry(t, e, attempt).Committed? {
      forall i | 0 <= i < |t.entries| ensures !Active(t.entries[i].state) && !t.entries[i].pointRequested {
        assert !Busy(t.entries[i]);
      }
    }
  }

  // ---------------------------------------------------------------- purged copies

  /** Forgetting copies changes no phase, no state and no job. A row keeps its copy exactly if it is not among them. */
  lemma ClearRows(t: Tables, names: set<Name>)
    requires AllLinked(t)
    ensures var t' := ClearCacheReferences(t, names);
            && t'.job == t.job && |t'.entries| == |t.entries| && |t'.attempts| == |t.attempts| && AllLinked(t')
            && (forall a | 0 <= a < |t.attempts| ::
                  t'.attempts[a] == t.attempts[a].(local := if Refers(t.attempts[a], names) then None else t.attempts[a].local))
            && (forall e | 0 <= e < |t.entries| ::
                  t'.entries[e] == t.entries[e].(downloads := t'.entries[e].downloads)
                  && t'.entries[e].downloads == if Resets(t, e, names) then 0 else t.entries[e].downloads)
  {
    var t' := ClearCacheReferences(t, names);
    forall e: EntryId | HasEntry(t', e) ensures Linked(t', e) { assert Linked(t, e) && HasEntry(t, e); }
    forall a: AttemptId | a < |t'.attempts| ensures HasEntry(t', t'.attempts[a].entry) {
      assert HasEntry(t, t.attempts[a].entry);
    }
  }

  /** The verified copy of the entry is among the names. */
  predicate Resets(t: Tables, e: EntryId, names: set<Name>)
    requires AllLinked(t) && HasEntry(t, e)
  {
    var attempt := t.entries[e].attempt;
    && attempt.Some? && Linked(t, e) && t.attempts[attempt.value].entry == e
    && Refers(t.attempts[attempt.value], names)
    && t.attempts[attempt.value].phase.Staged? && !t.attempts[attempt.value].operation
    && Downloadable(t.entries[e].state)
  }

  /** Forgetting copies in two steps is forgetting them at once. */
  lemma ClearTwice(t: Tables, some: set<Name>, more: set<Name>)
    requires AllLinked(t)
    ensures AllLinked(ClearCacheReferences(t, some))
    ensures ClearCacheReferences(ClearCacheReferences(t, some), more) == ClearCacheReferences(t, some + more)
  {
    ClearRows(t, some);
    var t1 := ClearCacheReferences(t, some);
    ClearRows(t1, more);
    ClearRows(t, some + more);
    var t2, t3 := ClearCacheReferences(t1, more), ClearCacheReferences(t, some + more);
    hide ClearCacheReferences;
    forall a | 0 <= a < |t.attempts| ensures t2.attempts[a] == t3.attempts[a] {}
    forall e | 0 <= e < |t.entries| ensures t2.entries[e] == t3.entries[e] {
      assert HasEntry(t, e) && HasEntry(t1, e) && Linked(t, e);
      assert Resets(t, e, some + more) <==> Resets(t, e, some) || Resets(t1, e, more);
    }
    assert t2.attempts == t3.attempts && t2.entries == t3.entries;
  }
}
