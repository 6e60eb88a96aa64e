/** The single persistent and remote effects of the protocol, each with the
  * condition under which it keeps the invariant of `World`.
  */
module Effects {
  import opened Rows
  import opened Transactions
  import opened World
  import opened Counting

  function TablesOf(w: World): Tables {
    Tables(w.job, w.entries, w.attempts)
  }

  function With(w: World, t: Tables): World {
    w.(job := t.job, entries := t.entries, attempts := t.attempts)
  }

  // ---------------------------------------------------------------- rows

  function SetEntry(w: World, e: EntryId, row: Entry): World
    requires e < |w.entries|
  {
    w.(entries := w.entries[e := row])
  }

  function SetAttempt(w: World, a: AttemptId, row: Attempt): World
    requires a < |w.attempts|
  {
    w.(attempts := w.attempts[a := row])
  }

  ghost predicate Idle(w: World, e: EntryId) {
    e < |w.entries| ==> !Busy(w.entries[e])
  }

  /** No entry but `e` is being worked on. */
  ghost predicate OthersIdle(w: World, e: EntryId) {
    forall i: EntryId | i != e :: Idle(w, i)
  }

  /** Nothing is being worked on. */
  ghost predicate Rest(w: World) {
    forall e: EntryId :: Idle(w, e)
  }

  /** The one update of an entry that keeps the invariant: a finished file holds what was planned, no
    * second entry becomes busy, success is not taken back, and no download budget is lost.
    */
  ghost predicate EntryGuard(w: World, e: EntryId, row: Entry)
    requires e < |w.entries|
  {
    var was := w.entries[e];
    && SamePlan(was, row) && row.attempt == was.attempt
    && (row.state.Done? || row.state.AlreadyVerified? ==> Delivered(w, e))
    && (Success(was.state) && !Success(row.state) ==> !w.job.state.Completed?)
    && (row.pointRequested ==> was.pointRequested)
    && (e in w.watched ==> row.state == was.state)
    && (Busy(row) && !Busy(was) ==> row.selected && row.kind.File? && OthersIdle(w, e))
    && (was.attempt.Some? ==>
          var a := was.attempt.value;
          && a < |w.attempts|
          && (w.attempts[a].phase.DownloadRetryWait? ==> row.state.Fetching? || row.state.Cancelled?)
          && (InFlight(w, a) && w.attempts[a].phase.Failed? ==> Sealed(row) || a in w.loose)
          && (a in w.purged && PreSubmit(w.attempts[a].phase) && Downloadable(row.state) ==>
                row.downloads == 0 || (row.downloads == was.downloads && Downloadable(was.state))))
  }

  lemma OneBusyUpdate(entries: seq<Entry>, e: EntryId, row: Entry)
    requires e < |entries| && OneBusy(entries)
    requires Busy(row) && !Busy(entries[e]) ==> forall i: nat | i < |entries| && i != e :: !Busy(entries[i])
    ensures OneBusy(entries[e := row])
  {
    var updated := entries[e := row];
    forall i: nat, j: nat | i < |updated| && j < |updated| ensures NotBoth(updated, i, j) {
      assert NotBoth(entries, i, j);
    }
  }

  /** The uploads of an entry are settled one by one, and nothing else about it changes. */
  ghost predicate Settling(w: World, w': World, e: EntryId) {
    && e < |w.entries| && |w'.entries| == |w.entries| && |w'.attempts| == |w.attempts|
    && (forall a: AttemptId | a < |w.attempts| :: w'.attempts[a].entry == w.attempts[a].entry)
    && SamePlan(w.entries[e], w'.entries[e]) && w'.entries[e].attempt == w.entries[e].attempt
    && w'.uploads.Keys <= w.uploads.Keys && w'.pointMade == w.pointMade && w'.puts == w.puts
    && w'.loose == w.loose
  }

  lemma FlyingShrinks(w: World, w': World, e: EntryId)
    requires Settling(w, w', e)
    ensures Superseded(w', e) <= Superseded(w, e) && |Superseded(w', e)| <= |Superseded(w, e)|
    ensures Flying(w', e) <= Flying(w, e) && |Flying(w', e)| <= |Flying(w, e)|
    ensures PointMade(w', e) == PointMade(w, e) && Loose(w', e) == Loose(w, e)
  {
    SubsetSize(Superseded(w', e), Superseded(w, e));
    SubsetSize(Flying(w', e), Flying(w, e));
  }

  lemma CountedSame(w: World, w': World, e: EntryId)
    requires Settling(w, w', e) && w'.disk == w.disk
    ensures Delivered(w', e) == Delivered(w, e)
    ensures Room(w, e) ==> Room(w', e)
    ensures Counted(w, e) ==> Counted(w', e)
  {
    FlyingShrinks(w, w', e);
  }

  /** The remote disk and the records of requests are untouched or have shrunk. */
  lemma RemoteKeeps(w: World, w': World)
    requires Inv(w)
    requires w'.disk == w.disk && |w.entries| == |w'.entries| && |w.attempts| <= |w'.attempts|
    requires forall e: EntryId | e < |w.entries| :: SamePlan(w.entries[e], w'.entries[e])
    requires w'.puts == w.puts && w'.moves == w.moves
    requires w'.uploads.Keys <= w.uploads.Keys && w'.renames <= w.renames
    requires w'.pointMade <= w.pointMade + {|w.attempts|} && (|w.attempts| in w'.pointMade ==> |w.attempts| < |w'.attempts|)
    requires w'.purged <= w.purged && w'.loose == w.loose
    ensures forall p | p in w'.disk :: TempInv(w', p)
    ensures forall a | a in w'.puts || a in w'.moves || a in w'.uploads || a in w'.renames
                       || a in w'.pointMade || a in w'.purged || a in w'.loose :: Known(w', a)
  {
    forall p | p in w'.disk ensures TempInv(w', p) {
      assert TempInv(w, p);
      assert p.Temp? ==> SamePlan(w.entries[p.e], w'.entries[p.e]);
    }
    forall a | a in w'.puts || a in w'.moves || a in w'.uploads || a in w'.renames
               || a in w'.pointMade || a in w'.purged || a in w'.loose ensures Known(w', a) {
      assert a != |w.attempts| || a !in w'.pointMade ==> Known(w, a);
    }
  }

  lemma SetEntryWatches(w: World, e: EntryId, row: Entry)
    requires Watches(w) && e < |w.entries| && EntryGuard(w, e, row)
    ensures Watches(SetEntry(w, e, row))
  {
    hide InFlight, Delivered;
    forall i | i in w.watched ensures OnWatch(SetEntry(w, e, row), i) { assert OnWatch(w, i); }
  }

  lemma SetEntryKeeps(w: World, e: EntryId, row: Entry)
    requires Inv(w) && e < |w.entries| && EntryGuard(w, e, row)
    ensures Inv(SetEntry(w, e, row))
  {
    hide Counted, Room, MarksOk, Cleared, Watches;
    var w' := SetEntry(w, e, row);
    if Busy(row) && !Busy(w.entries[e]) {
      forall i: nat | i < |w.entries| && i != e ensures !Busy(w.entries[i]) { assert Idle(w, i); }
    }
    OneBusyUpdate(w.entries, e, row);
    forall a: AttemptId | a < |w'.attempts| ensures AttemptInv(w', a) {
      assert AttemptInv(w, a);
    }
    forall i: EntryId | i < |w'.entries| ensures EntryInv(w', i) {
      assert EntryInv(w, i);
      CountedSame(w, w', i);
    }
    RemoteKeeps(w, w');
    SetEntryWatches(w, e, row);
  }

  /** The updates of an attempt that keep the invariant. */
  ghost predicate AttemptGuard(w: World, a: AttemptId, row: Attempt)
    requires a < |w.attempts|
  {
    var was := w.attempts[a];
    && row.entry == was.entry && row.remote == was.remote
    && row.entry < |w.entries|
    && (row.entry in w.watched && w.entries[row.entry].attempt == Some(a) ==> AbandonedPhase(row.phase))
    && (PreSubmit(row.phase) ==> w.puts[a] == 0)
    && (PreMove(row.phase) ==> w.moves[a] == 0)
    && (InFlight(w, a) ==> MayHold(w, row, a, w.entries[row.entry]))
    && (PreSubmit(row.phase) && !PreSubmit(was.phase) ==> !w.entries[row.entry].pointRequested)
    && (row.phase.DownloadRetryWait? ==> was.phase.DownloadRetryWait?)
    && (row.phase.Staged? && row.local.Some? && row.local.value in w.staging ==>
          w.entries[row.entry].planned == Some(w.staging[row.local.value]))
    && (a in w.purged && PreSubmit(row.phase) && w.entries[row.entry].attempt == Some(a)
        && Downloadable(w.entries[row.entry].state) ==>
          w.entries[row.entry].downloads == 0 || CopyLost(w, row))
  }

  lemma SetAttemptKeeps(w: World, a: AttemptId, row: Attempt)
    requires Inv(w) && a < |w.attempts| && AttemptGuard(w, a, row)
    ensures Inv(SetAttempt(w, a, row))
  {
    hide Counted, Room, MarksOk, Cleared;
    var w' := SetAttempt(w, a, row);
    forall i: AttemptId | i < |w'.attempts| ensures AttemptInv(w', i) {
      assert AttemptInv(w, i);
    }
    forall e: EntryId | e < |w'.entries| ensures EntryInv(w', e) {
      assert EntryInv(w, e);
      CountedSame(w, w', e);
    }
    RemoteKeeps(w, w');
    forall e | e in w.watched ensures OnWatch(w', e) { assert OnWatch(w, e) && EntryInv(w, e); }
  }

  /** The job row changes no flag the rest depends on, and is completed only when all is. */
  ghost predicate JobGuard(w: World, job: Job) {
    && job.direct == w.job.direct && job.stopRequested == w.job.stopRequested
    && (w.job.space.Owned? ==> job.space.Owned?)
    && (job.stopRequested ==> job.state == w.job.state || job.state.Stopped?)
    && (job.retryEnabled == w.job.retryEnabled || job.retryEnabled)
    && (job.state.Completed? && !w.job.state.Completed? ==>
          forall e: EntryId | e < |w.entries| && w.entries[e].selected :: Success(w.entries[e].state))
  }

  lemma SetJobKeeps(w: World, job: Job)
    requires Inv(w) && JobGuard(w, job)
    ensures Inv(SetJob(w, job))
  {
    hide Counted, Room, MarksOk, Cleared;
    var w' := SetJob(w, job);
    forall a: AttemptId | a < |w'.attempts| ensures AttemptInv(w', a) { assert AttemptInv(w, a); }
    forall e: EntryId | e < |w'.entries| ensures EntryInv(w', e) {
      assert EntryInv(w, e);
      CountedSame(w, w', e);
    }
    RemoteKeeps(w, w');
    forall e | e in w.watched ensures OnWatch(w', e) { assert OnWatch(w, e); }
  }

  /** A request that leaves the state of the job as it is. */
  lemma FlagKeeps(w: World, job: Job)
    requires Inv(w) && JobGuard(w, job) && EnvJob(w.job, job) && job.state == w.job.state && job.resume == w.job.resume
    ensures Inv(w.(job := job)) && Env(w, w.(job := job))
  {
    var w' := w.(job := job);
    SetJobKeeps(w, job);
    assert w' == SetJob(w, job);
    hide Inv;
    forall e: EntryId | e < |w.entries| ensures KeepsRoom(w, w', e) && KeepsDelivery(w, w', e) {
      CountedSame(w, w', e);
    }
  }

  /** Requests and late effects do not help an entry that is stuck. */
  lemma EnvStuck(w: World, w': World)
    requires Env(w, w')
    ensures KeepsStuck(TablesOf(w), TablesOf(w'))
  {
    forall e: EntryId | Stuck(TablesOf(w), e) ensures Stuck(TablesOf(w'), e) {
      assert EnvEntry(w.entries[e], w'.entries[e]) && KeepsState(w, w', e);
    }
  }

  /** While a stuck entry is in progress nothing else is, so that at most one of them is. */
  lemma OneStuck(w: World, e: EntryId)
    requires Inv(w) && Stuck(TablesOf(w), e)
    ensures w.entries[e].kind.File?
    ensures Active(w.entries[e].state) ==> forall i: EntryId | i < |w.entries| && i != e :: !Busy(w.entries[i])
  {
    assert EntryInv(w, e) && AttemptInv(w, w.entries[e].attempt.value);
    forall i: EntryId | i < |w.entries| && i != e ensures Active(w.entries[e].state) ==> !Busy(w.entries[i]) {
      assert NotBoth(w.entries, e, i);
    }
  }

  /** Attempt `a` is let go: a malformed answer was read while its upload was awaited, or its entry, which is still
    * planned, is given up with the directory above it.
    */
  function Loosen(w: World, a: AttemptId): World {
    w.(loose := w.loose + {a})
  }

  lemma LoosenKeeps(w: World, a: AttemptId)
    requires Inv(w) && a < |w.attempts|
    ensures Inv(Loosen(w, a))
    ensures forall e: EntryId | e < |w.entries| && Room(w, e) :: Room(Loosen(w, a), e)
  {
    var w' := Loosen(w, a);
    forall i: AttemptId | i < |w.attempts| ensures AttemptInv(w', i) { assert AttemptInv(w, i); }
    forall e: EntryId | e < |w.entries| ensures EntryInv(w', e) && (Room(w, e) ==> Room(w', e)) {
      assert EntryInv(w, e);
      LoosenPays(w, a, e);
    }
    forall p | p in w'.disk ensures TempInv(w', p) { assert TempInv(w, p); }
    forall i | i in w'.puts || i in w'.moves || i in w'.uploads || i in w'.renames
               || i in w'.pointMade || i in w'.purged || i in w'.loose ensures Known(w', i) {
      assert i != a ==> Known(w, i);
    }
    forall e | e in w.watched ensures OnWatch(w', e) { assert OnWatch(w, e); }
  }

  lemma LoosenSame(w: World, a: AttemptId, e: EntryId)
    requires a < |w.attempts| && e < |w.entries|
    ensures Flying(Loosen(w, a), e) == Flying(w, e) && Superseded(Loosen(w, a), e) == Superseded(w, e)
    ensures PointMade(Loosen(w, a), e) == PointMade(w, e)
  {
  }

  lemma LoosenPays(w: World, a: AttemptId, e: EntryId)
    requires a < |w.attempts| && e < |w.entries|
    ensures Paid(Loosen(w, a), e) >= Paid(w, e) && Flying(Loosen(w, a), e) == Flying(w, e)
    ensures Superseded(Loosen(w, a), e) == Superseded(w, e)
    ensures w.attempts[a].entry == e && a !in w.loose ==> Paid(Loosen(w, a), e) == Paid(w, e) + 1
  {
    var w' := Loosen(w, a);
    LoosenSame(w, a, e);
    hide PointMade, Flying, Superseded;
    if w.attempts[a].entry == e {
      assert Loose(w', e) == Loose(w, e) + {a};
      SubsetSize(Loose(w, e), Loose(w', e));
    } else {
      assert Loose(w', e) == Loose(w, e);
    }
  }

  // ---------------------------------------------------------------- transactions

  function Created(w: World, t: Tables, point: bool): World {
    With(w, t).(pointMade := if point then w.pointMade + {|w.attempts|} else w.pointMade)
  }

  lemma AllOwned(w: World)
    requires Inv(w)
    ensures forall i: EntryId | i < |w.entries| && w.entries[i].attempt.Some? ::
              w.entries[i].attempt.value < |w.attempts| && w.attempts[w.entries[i].attempt.value].entry == i
  {
    forall i: EntryId | i < |w.entries| && w.entries[i].attempt.Some?
      ensures w.entries[i].attempt.value < |w.attempts| && w.attempts[w.entries[i].attempt.value].entry == i
    {
      assert EntryInv(w, i);
    }
  }

  /** No stuck entry gets a new attempt. */
  lemma NewAttemptWatches(w: World, e: EntryId, point: bool, reuse: bool)
    requires Watches(w) && e < |w.entries| && Linked(TablesOf(w), e) && (reuse ==> point)
    requires NewAttempt(TablesOf(w), e, point, reuse).Committed?
    requires !point && w.entries[e].attempt.Some? ==> w.entries[e].state.FailedEntry?
    requires forall i: EntryId | i < |w.entries| && w.entries[i].attempt.Some? ::
               w.entries[i].attempt.value < |w.attempts| && w.attempts[w.entries[i].attempt.value].entry == i
    ensures Watches(Created(w, NewAttempt(TablesOf(w), e, point, reuse).t, point))
  {
    var w' := Created(w, NewAttempt(TablesOf(w), e, point, reuse).t, point);
    forall i | i in w'.watched ensures OnWatch(w', i) { assert OnWatch(w, i); }
  }

  lemma NewAttemptKeeps(w: World, e: EntryId, point: bool, reuse: bool)
    requires Inv(w) && e < |w.entries| && Linked(TablesOf(w), e) && (reuse ==> point)
    requires NewAttempt(TablesOf(w), e, point, reuse).Committed?
    requires w.entries[e].kind.File? && (Success(w.entries[e].state) ==> !w.job.state.Completed?)
    requires !point ==> !w.entries[e].pointRequested
    requires !point && w.entries[e].attempt.Some? ==> w.entries[e].state.FailedEntry?
    requires reuse ==>
      var local := w.attempts[w.entries[e].attempt.value].local;
      local.Some? && (local.value in w.staging ==> w.entries[e].planned == Some(w.staging[local.value]))
    ensures Inv(Created(w, NewAttempt(TablesOf(w), e, point, reuse).t, point))
  {
    hide Counted, Room, MarksOk, Cleared, Watches;
    var t := NewAttempt(TablesOf(w), e, point, reuse).t;
    var w' := Created(w, t, point);
    OneBusyUpdate(w.entries, e, w'.entries[e]);
    forall a: AttemptId | a < |w'.attempts| ensures AttemptInv(w', a) {
      NewAttemptRow(w, e, point, reuse, a);
    }
    forall i: EntryId | i < |w'.entries| ensures EntryInv(w', i) {
      NewAttemptEntry(w, e, point, reuse, i);
    }
    RemoteKeeps(w, w');
    AllOwned(w);
    NewAttemptWatches(w, e, point, reuse);
  }

  lemma NewAttemptRow(w: World, e: EntryId, point: bool, reuse: bool, a: AttemptId)
    requires Inv(w) && e < |w.entries| && Linked(TablesOf(w), e) && (reuse ==> point)
    requires NewAttempt(TablesOf(w), e, point, reuse).Committed?
    requires w.entries[e].kind.File? && (Success(w.entries[e].state) ==> !w.job.state.Completed?)
    requires !point ==> !w.entries[e].pointRequested
    requires !point && w.entries[e].attempt.Some? ==> w.entries[e].state.FailedEntry?
    requires reuse ==>
      var local := w.attempts[w.entries[e].attempt.value].local;
      local.Some? && (local.value in w.staging ==> w.entries[e].planned == Some(w.staging[local.value]))
    requires a <= |w.attempts|
    ensures AttemptInv(Created(w, NewAttempt(TablesOf(w), e, point, reuse).t, point), a)
  {
    hide Counted, Room, MarksOk, Cleared;
    if a < |w.attempts| { assert AttemptInv(w, a); } else { assert !Known(w, a); }
  }

  lemma NewAttemptEntry(w: World, e: EntryId, point: bool, reuse: bool, i: EntryId)
    requires Inv(w) && e < |w.entries| && Linked(TablesOf(w), e) && (reuse ==> point)
    requires NewAttempt(TablesOf(w), e, point, reuse).Committed?
    requires (Success(w.entries[e].state) ==> !w.job.state.Completed?) && i < |w.entries|
    requires !point ==> !w.entries[e].pointRequested
    requires !point && w.entries[e].attempt.Some? ==> w.entries[e].state.FailedEntry?
    ensures EntryInv(Created(w, NewAttempt(TablesOf(w), e, point, reuse).t, point), i)
  {
    hide Counted, Room, MarksOk, Cleared;
    var t := NewAttempt(TablesOf(w), e, point, reuse).t;
    var w' := Created(w, t, point);
    assert EntryInv(w, i);
    assert !Known(w, |w.attempts|);
    if i != e { CountOther(w, w', e, i); }
    else if point { CountPoint(w, w', e); }
    else if w.job.direct { CountPlain(w, w', e); }
  }

  ghost predicate Grown(w: World, w': World, e: EntryId) {
    && e < |w.entries| && |w'.entries| == |w.entries| && |w'.attempts| == |w.attempts| + 1
    && (forall a: AttemptId | a < |w.attempts| :: w'.attempts[a].entry == w.attempts[a].entry)
    && w'.attempts[|w.attempts|].entry == e && w'.entries[e].attempt == Some(|w.attempts|)
    && SamePlan(w.entries[e], w'.entries[e]) && w'.disk == w.disk && w'.puts == w.puts
    && w'.uploads == w.uploads && |w.attempts| !in w.uploads && |w.attempts| !in w.pointMade
    && w'.loose == w.loose && |w.attempts| !in w.loose
  }

  lemma CountOther(w: World, w': World, e: EntryId, i: EntryId)
    requires Grown(w, w', e) && i < |w.entries| && i != e
    requires w'.entries[i] == w.entries[i]
    requires w'.pointMade == w.pointMade || w'.pointMade == w.pointMade + {|w.attempts|}
    requires w.entries[i].attempt.Some? ==> w.entries[i].attempt.value < |w.attempts|
    ensures Counted(w, i) ==> Counted(w', i)
  {
    assert Superseded(w', i) == Superseded(w, i) && Flying(w', i) == Flying(w, i);
    assert PointMade(w', i) == PointMade(w, i) && Loose(w', i) == Loose(w, i);
  }

  /** The current attempt is the only one in the air that was not replaced. */
  lemma FlyingBound(w: World, e: EntryId)
    requires e < |w.entries|
    ensures |Flying(w, e)| <= |Superseded(w, e)| + 1
  {
    var rest := match w.entries[e].attempt case None => Superseded(w, e) case Some(o) => Superseded(w, e) + {o};
    SubsetSize(Flying(w, e), rest);
  }

  /** A point retry may leave one more upload behind, and is itself counted. */
  lemma CountPoint(w: World, w': World, e: EntryId)
    requires Grown(w, w', e) && w'.pointMade == w.pointMade + {|w.attempts|}
    requires w.job.direct ==> Counted(w, e)
    ensures w.job.direct ==> Counted(w', e)
  {
    FlyingBound(w, e);
    assert PointMade(w', e) == PointMade(w, e) + {|w.attempts|} && |w.attempts| !in PointMade(w, e);
    assert Loose(w', e) == Loose(w, e);
    assert Flying(w', e) == Flying(w, e);
    SubsetSize(Superseded(w', e), Flying(w, e));
  }

  /** Any other new attempt finds the upload of the previous one settled, or the file already there, or follows
    * a loose attempt.
    */
  lemma CountPlain(w: World, w': World, e: EntryId)
    requires Inv(w) && w.job.direct && Grown(w, w', e) && w'.pointMade == w.pointMade
    requires w.entries[e].attempt.Some? ==>
      w.entries[e].attempt.value < |w.attempts| && w.attempts[w.entries[e].attempt.value].phase.Failed?
      && w.entries[e].state.FailedEntry? && w.attempts[w.entries[e].attempt.value].entry == e
    ensures Counted(w', e)
  {
    assert EntryInv(w, e);
    assert PointMade(w', e) == PointMade(w, e) && Loose(w', e) == Loose(w, e) && Flying(w', e) == Flying(w, e);
    FlyingBound(w, e);
    SubsetSize(Superseded(w', e), Flying(w, e));
    if w.entries[e].attempt.Some? {
      var o := w.entries[e].attempt.value;
      assert AttemptInv(w, o);
      if o !in w.uploads { assert Superseded(w', e) == Superseded(w, e); }
    } else {
      assert Superseded(w', e) == Superseded(w, e);
    }
  }

  lemma ConfirmWatches(w: World, e: EntryId)
    requires Watches(w) && e < |w.entries| && Linked(TablesOf(w), e) && ConfirmPointCopy(TablesOf(w), e).Committed?
    requires forall i: EntryId | i < |w.entries| && w.entries[i].attempt.Some? ::
               w.entries[i].attempt.value < |w.attempts| && w.attempts[w.entries[i].attempt.value].entry == i
    ensures Watches(With(w, ConfirmPointCopy(TablesOf(w), e).t))
  {
    var w' := With(w, ConfirmPointCopy(TablesOf(w), e).t);
    forall i | i in w'.watched ensures OnWatch(w', i) { assert OnWatch(w, i); }
  }

  lemma ConfirmPointCopyKeeps(w: World, e: EntryId)
    requires Inv(w) && e < |w.entries| && Linked(TablesOf(w), e)
    requires ConfirmPointCopy(TablesOf(w), e).Committed? && Delivered(w, e)
    ensures Inv(With(w, ConfirmPointCopy(TablesOf(w), e).t))
  {
    hide Counted, Room, MarksOk, Cleared, Watches;
    var w' := With(w, ConfirmPointCopy(TablesOf(w), e).t);
    OneBusyUpdate(w.entries, e, w'.entries[e]);
    assert EntryInv(w, e);
    forall a: AttemptId | a < |w'.attempts| ensures AttemptInv(w', a) { assert AttemptInv(w, a); }
    forall i: EntryId | i < |w'.entries| ensures EntryInv(w', i) {
      assert EntryInv(w, i);
      CountedSame(w, w', i);
    }
    RemoteKeeps(w, w');
    AllOwned(w);
    ConfirmWatches(w, e);
  }

  /** No success of `e` that may still be taken back is announced by the end of its point retry. */
  ghost predicate Announced(w: World, e: EntryId)
    requires e < |w.entries|
  {
    w.entries[e].pointRequested && Success(w.entries[e].state) ==> w.finished == Some(e)
  }

  lemma FinishPointRetryKeeps(w: World, e: EntryId)
    requires Inv(w) && e < |w.entries| && Announced(w, e)
    ensures Inv(With(w, FinishPointRetry(TablesOf(w), e)))
    ensures Env(w, With(w, FinishPointRetry(TablesOf(w), e)))
  {
    hide Env, Inv, StateAfterPoint;
    if w.entries[e].pointRequested {
      JobAfterPoint(w);
      FinishKeeps(w, e, if w.job.state.AwaitingCredentials? && !w.job.stopRequested
                        then w.job.(resume := Some(StateAfterPoint(TablesOf(w))))
                        else w.job.(state := StateAfterPoint(TablesOf(w))));
    } else {
      EnvReflexive(w);
    }
  }

  lemma JobAfterPoint(w: World)
    ensures var state := StateAfterPoint(TablesOf(w));
            && JobGuard(w, w.job.(resume := Some(state))) && JobGuard(w, w.job.(state := state))
            && EnvJob(w.job, w.job.(state := state)) && (w.job.stopRequested ==> state == w.job.state)
  {
    StateAfterHalt(TablesOf(w));
    hide StateAfterPoint;
    var state := StateAfterPoint(TablesOf(w));
    if state.Completed? && !w.job.state.Completed? { CompletedAfterPoint(TablesOf(w)); }
  }

  lemma StateAfterHalt(t: Tables)
    ensures Halted(t.job) ==> StateAfterPoint(t) == t.job.state
  {
  }

  lemma CompletedAfterPoint(t: Tables)
    requires StateAfterPoint(t).Completed? && !t.job.state.Completed?
    ensures forall e: EntryId | e < |t.entries| :: Success(t.entries[e].state)
  {
  }

  lemma FinishKeeps(w: World, e: EntryId, job: Job)
    requires Inv(w) && e < |w.entries| && JobGuard(w, job)
    requires w.entries[e].pointRequested && Announced(w, e)
    requires EnvJob(w.job, job) && (w.job.stopRequested ==> job.state == w.job.state)
    ensures var w' := SetEntry(w, e, Unflagged(w.entries[e])).(job := job); Inv(w') && Env(w, w')
  {
    hide Counted, Room, MarksOk, Cleared;
    UnflagKeeps(w, e);
    var w1 := SetEntry(w, e, Unflagged(w.entries[e]));
    SetJobKeeps(w1, job);
    var w' := w1.(job := job);
    assert w' == SetJob(w1, job);
    forall a: AttemptId | a < |w.attempts| ensures EnvAttempt(w.attempts[a], w'.attempts[a]) {}
    forall i: EntryId | i < |w.entries| ensures EnvEntry(w.entries[i], w'.entries[i]) {}
    forall i: EntryId | i < |w.entries|
      ensures KeepsDelivery(w, w', i) && KeepsState(w, w', i) && KeepsRoom(w, w', i)
    {
      CountedSame(w, w', i);
      assert NotBoth(w.entries, e, i);
    }
  }

  function Unflagged(row: Entry): Entry {
    row.(pointRequested := false, retryAt := None)
  }

  lemma UnflagKeeps(w: World, e: EntryId)
    requires Inv(w) && e < |w.entries|
    ensures Inv(SetEntry(w, e, Unflagged(w.entries[e])))
    ensures forall i: EntryId | i < |w.entries| ::
              w.entries[e := Unflagged(w.entries[e])][i].state == w.entries[i].state
  {
    var row := Unflagged(w.entries[e]);
    assert EntryInv(w, e);
    if row.attempt.Some? { assert AttemptInv(w, row.attempt.value); }
    SetEntryKeeps(w, e, row);
  }

  lemma ScheduleWatches(w: World, e: EntryId, retryAt: int, code: Code)
    requires Watches(w) && e < |w.entries| && Linked(TablesOf(w), e) && w.entries[e].attempt.Some?
    requires PreSubmit(w.attempts[w.entries[e].attempt.value].phase)
    requires ScheduleDownloadRetry(TablesOf(w), e, retryAt, code).Some?
    requires forall i: EntryId | i < |w.entries| && w.entries[i].attempt.Some? ::
               w.entries[i].attempt.value < |w.attempts| && w.attempts[w.entries[i].attempt.value].entry == i
    ensures Watches(With(w, ScheduleDownloadRetry(TablesOf(w), e, retryAt, code).value))
  {
    var w' := With(w, ScheduleDownloadRetry(TablesOf(w), e, retryAt, code).value);
    forall i | i in w.watched ensures OnWatch(w', i) { assert OnWatch(w, i); }
  }

  lemma ScheduleDownloadRetryKeeps(w: World, e: EntryId, retryAt: int, code: Code)
    requires Inv(w) && e < |w.entries| && Linked(TablesOf(w), e) && w.entries[e].attempt.Some?
    requires var a := w.entries[e].attempt.value;
             PreSubmit(w.attempts[a].phase) && a !in w.purged
    requires !Success(w.entries[e].state) && w.entries[e].selected && OthersIdle(w, e)
    requires ScheduleDownloadRetry(TablesOf(w), e, retryAt, code).Some?
    ensures Inv(With(w, ScheduleDownloadRetry(TablesOf(w), e, retryAt, code).value))
  {
    hide Counted, Room, MarksOk, Cleared, Watches;
    assert EntryInv(w, e) && AttemptInv(w, w.entries[e].attempt.value);
    var w' := With(w, ScheduleDownloadRetry(TablesOf(w), e, retryAt, code).value);
    forall i: nat | i < |w.entries| && i != e ensures !Busy(w.entries[i]) { assert Idle(w, i); }
    OneBusyUpdate(w.entries, e, w'.entries[e]);
    assert EntryInv(w, e);
    forall a: AttemptId | a < |w'.attempts| ensures AttemptInv(w', a) { assert AttemptInv(w, a); }
    forall i: EntryId | i < |w'.entries| ensures EntryInv(w', i) {
      assert EntryInv(w, i);
      CountedSame(w, w', i);
    }
    RemoteKeeps(w, w');
    AllOwned(w);
    ScheduleWatches(w, e, retryAt, code);
  }

  lemma InvLinked(w: World)
    requires Inv(w)
    ensures AllLinked(TablesOf(w))
  {
    forall e: EntryId | HasEntry(TablesOf(w), e) ensures Linked(TablesOf(w), e) { assert EntryInv(w, e); }
    forall a: AttemptId | a < |w.attempts| ensures HasEntry(TablesOf(w), w.attempts[a].entry) {
      assert AttemptInv(w, a);
    }
  }

  lemma LessBusy(entries: seq<Entry>, entries': seq<Entry>)
    requires OneBusy(entries) && |entries'| == |entries|
    requires forall i: nat | i < |entries| :: Busy(entries'[i]) ==> Busy(entries[i])
    ensures OneBusy(entries')
  {
    forall i: nat, j: nat | i < |entries'| && j < |entries'| ensures NotBoth(entries', i, j) {
      assert NotBoth(entries, i, j);
    }
  }

  lemma SetRetryEnabledKeeps(w: World, enabled: bool)
    requires Inv(w) && AllLinked(TablesOf(w))
    ensures Inv(With(w, SetRetryEnabled(TablesOf(w), enabled)))
    ensures Env(w, With(w, SetRetryEnabled(TablesOf(w), enabled)))
  {
    hide Inv, Env, AllLinked;
    if enabled || !w.job.retryEnabled {
      FlagKeeps(w, w.job.(retryEnabled := enabled));
      assert With(w, SetRetryEnabled(TablesOf(w), enabled)) == w.(job := w.job.(retryEnabled := enabled));
    } else {
      RetryOffKeeps(w, With(w, SetRetryEnabled(TablesOf(w), false)));
      RetryOffEnv(w, With(w, SetRetryEnabled(TablesOf(w), false)));
    }
  }

  lemma RetryOffWatches(w: World, w': World)
    requires Inv(w) && AllLinked(TablesOf(w)) && w.job.retryEnabled
    requires w' == With(w, SetRetryEnabled(TablesOf(w), false))
    ensures Watches(w')
  {
    RetryOffRest(w, w');
    hide SetRetryEnabled;
    forall i | i in w'.watched ensures OnWatch(w', i) {
      assert OnWatch(w, i) && EntryInv(w, i);
      RetryOffEntries(TablesOf(w), i);
      hide Inv, EntryInv;
      SwitchedOffWatched(w, SetRetryEnabled(TablesOf(w), false), i);
    }
  }

  lemma SwitchedOffWatched(w: World, t: Tables, i: EntryId)
    requires i in w.watched && OnWatch(w, i) && EntrySwitchedOff(TablesOf(w), t, i)
    requires w.attempts[w.entries[i].attempt.value].entry == i
    ensures OnWatch(With(w, t), i)
  {
  }

  lemma RetryOffKeeps(w: World, w': World)
    requires Inv(w) && AllLinked(TablesOf(w)) && w.job.retryEnabled
    requires w' == With(w, SetRetryEnabled(TablesOf(w), false))
    ensures Inv(w')
  {
    hide Counted, Room, MarksOk, Cleared, Watches;
    assert |w'.entries| == |w.entries| && |w'.attempts| == |w.attempts|;
    forall i: EntryId | i < |w.entries| ensures EntryInv(w', i) && EnvEntry(w.entries[i], w'.entries[i]) {
      RetryOffEntry(w, i);
    }
    forall a: AttemptId | a < |w.attempts| ensures AttemptInv(w', a) {
      RetryOffRow(w, a);
    }
    LessBusy(w.entries, w'.entries);
    RemoteKeeps(w, w');
    RetryOffWatches(w, w');
  }

  lemma RetryOffRest(w: World, w': World)
    requires AllLinked(TablesOf(w)) && w.job.retryEnabled
    requires w' == With(w, SetRetryEnabled(TablesOf(w), false))
    ensures |w'.entries| == |w.entries| && |w'.attempts| == |w.attempts|
    ensures w' == w.(job := w.job.(retryEnabled := false), entries := w'.entries, attempts := w'.attempts)
  {
  }

  lemma RetryOffEnv(w: World, w': World)
    requires Inv(w) && AllLinked(TablesOf(w)) && w.job.retryEnabled
    requires w' == With(w, SetRetryEnabled(TablesOf(w), false))
    ensures Env(w, w')
  {
    RetryOffRest(w, w');
    hide SetRetryEnabled, Counted, Room, Delivered;
    forall i: EntryId | i < |w.entries|
      ensures EnvEntry(w.entries[i], w'.entries[i]) && KeepsDelivery(w, w', i) && KeepsState(w, w', i) && KeepsRoom(w, w', i)
    {
      RetryOffEntry(w, i);
    }
    forall a: AttemptId | a < |w.attempts| ensures EnvAttempt(w.attempts[a], w'.attempts[a]) {
      RetryOffRow(w, a);
    }
    hide KeepsDelivery, KeepsState, KeepsRoom, EnvEntry, EnvAttempt, Inv;
  }

  /** What switching the retries off does to one attempt and its entry. */
  ghost predicate SwitchedOff(t: Tables, t': Tables, a: AttemptId)
    requires a < |t.attempts| && |t'.attempts| == |t.attempts| && |t'.entries| == |t.entries|
    requires t.attempts[a].entry < |t.entries| && Linked(t, t.attempts[a].entry)
  {
    var e := t.attempts[a].entry;
    && EnvAttempt(t.attempts[a], t'.attempts[a])
    && (t'.attempts[a].phase.Failed? && !t.attempts[a].phase.Failed? ==> t.attempts[a].phase.DownloadRetryWait?)
    && (t.entries[e].attempt == Some(a) && !t.entries[e].pointRequested ==> !t'.attempts[a].phase.DownloadRetryWait?)
    && t'.entries[e].attempt == t.entries[e].attempt && t'.entries[e].downloads == t.entries[e].downloads
    && t'.entries[e].pointRequested == t.entries[e].pointRequested
    && t'.entries[e].planned == t.entries[e].planned && t'.entries[e].kind == t.entries[e].kind
    && (t'.entries[e].state == t.entries[e].state
        || (t'.entries[e].state.FailedEntry? && WaitsForDownload(t, e)))
  }

  lemma RetryOffRows(t: Tables, a: AttemptId)
    requires AllLinked(t) && t.job.retryEnabled && a < |t.attempts|
    ensures HasEntry(t, t.attempts[a].entry) && Linked(t, t.attempts[a].entry)
    ensures SwitchedOff(t, SetRetryEnabled(t, false), a)
  {
    assert HasEntry(t, t.attempts[a].entry) && Linked(t, t.attempts[a].entry);
  }

  lemma RetryOffRow(w: World, a: AttemptId)
    requires Inv(w) && AllLinked(TablesOf(w)) && w.job.retryEnabled && a < |w.attempts|
    ensures var w' := With(w, SetRetryEnabled(TablesOf(w), false));
            AttemptInv(w', a) && EnvAttempt(w.attempts[a], w'.attempts[a])
  {
    hide Counted, Room, MarksOk, Cleared;
    RetryOffRows(TablesOf(w), a);
    RowSwitchedOff(w, SetRetryEnabled(TablesOf(w), false), a);
  }

  lemma RowSwitchedOff(w: World, t: Tables, a: AttemptId)
    requires Inv(w) && a < |w.attempts|
    requires |t.attempts| == |w.attempts| && |t.entries| == |w.entries|
    requires t.job == w.job.(retryEnabled := false)
    requires HasEntry(TablesOf(w), w.attempts[a].entry) && Linked(TablesOf(w), w.attempts[a].entry)
    requires SwitchedOff(TablesOf(w), t, a)
    ensures AttemptInv(With(w, t), a)
  {
    hide Counted, Room, MarksOk, Cleared, OneBusy, TempInv, HaltOk, Watches;
    assert AttemptInv(w, a) && EntryInv(w, w.attempts[a].entry);
    var cur := w.entries[w.attempts[a].entry].attempt;
    assert cur.Some? ==> AttemptInv(w, cur.value);
  }

  /** What switching the retries off does to one entry. */
  ghost predicate EntrySwitchedOff(t: Tables, t': Tables, i: EntryId)
    requires i < |t.entries| && Linked(t, i)
  {
    && |t'.entries| == |t.entries| && |t'.attempts| == |t.attempts|
    && t'.job == t.job.(retryEnabled := false)
    && (t'.entries[i] == t.entries[i].(retryAt := None)
        || (t'.entries[i] == t.entries[i].(retryAt := None, state := FailedEntry) && WaitsForDownload(t, i)))
    && (t.entries[i].attempt.Some? && t.attempts[t.entries[i].attempt.value].entry == i ==>
          var a := t.entries[i].attempt.value;
          if WaitsForDownload(t, i)
          then t'.entries[i].state.FailedEntry? && t'.attempts[a] == t.attempts[a].(phase := Failed)
          else t'.entries[i].state == t.entries[i].state && t'.attempts[a] == t.attempts[a])
    && (forall a: AttemptId | a < |t.attempts| :: t'.attempts[a].entry == t.attempts[a].entry)
    && (forall a: AttemptId | a < |t.attempts| ::
          PreSubmit(t'.attempts[a].phase) ==> PreSubmit(t.attempts[a].phase))
  }

  lemma RetryOffEntries(t: Tables, i: EntryId)
    requires AllLinked(t) && t.job.retryEnabled && i < |t.entries| && Linked(t, i)
    ensures EntrySwitchedOff(t, SetRetryEnabled(t, false), i)
  {
    var t' := SetRetryEnabled(t, false);
    forall a: AttemptId | a < |t.attempts|
      ensures t'.attempts[a].entry == t.attempts[a].entry
      ensures PreSubmit(t'.attempts[a].phase) ==> PreSubmit(t.attempts[a].phase)
    {
      RetryOffRows(t, a);
    }
  }

  lemma RetryOffEntry(w: World, i: EntryId)
    requires Inv(w) && AllLinked(TablesOf(w)) && w.job.retryEnabled && i < |w.entries|
    ensures var w' := With(w, SetRetryEnabled(TablesOf(w), false));
            EntryInv(w', i) && EnvEntry(w.entries[i], w'.entries[i]) && KeepsState(w, w', i)
            && KeepsDelivery(w, w', i) && KeepsRoom(w, w', i)
  {
    assert Linked(TablesOf(w), i);
    RetryOffEntries(TablesOf(w), i);
    SwitchedOffEntry(w, SetRetryEnabled(TablesOf(w), false), i);
  }

  lemma SwitchedOffEntry(w: World, t: Tables, i: EntryId)
    requires Inv(w) && i < |w.entries| && Linked(TablesOf(w), i) && EntrySwitchedOff(TablesOf(w), t, i)
    ensures var w' := With(w, t);
            EntryInv(w', i) && EnvEntry(w.entries[i], w'.entries[i]) && KeepsState(w, w', i)
            && KeepsDelivery(w, w', i) && KeepsRoom(w, w', i)
  {
    hide Counted, Room, MarksOk, Cleared;
    var w' := With(w, t);
    assert EntryInv(w, i);
    assert w.entries[i].attempt.Some? ==> AttemptInv(w, w.entries[i].attempt.value);
    CountedSame(w, w', i);
  }

  /** A transaction of a stop request, recorded when it is the first one. */
  function Stopping(w: World, t: Tables): World {
    if t.job.stopRequested && !w.job.stopRequested
    then With(w, t).(marks := w.marks + [Stop], halt := Some(Halt(|w.attempts|, w.job.state, w.job.state.Stopped?)))
    else With(w, t)
  }

  lemma StopKeeps(w: World, t: Tables)
    requires Inv(w)
    requires RequestStop(TablesOf(w)) == Committed(t) || RequestFullStop(TablesOf(w)) == Committed(t)
    ensures Inv(Stopping(w, t)) && Env(w, Stopping(w, t))
  {
    if t == TablesOf(w) {
      EnvReflexive(w);
    } else {
      StopTables(TablesOf(w), t);
      StopMarks(w, t);
      StopRows(w, t);
      StopEnv(w, t);
    }
  }

  /** A stop request flags the job, and a full one also withdraws the point retries. */
  ghost predicate Flagged(t: Tables, t': Tables) {
    && t'.attempts == t.attempts && |t'.entries| == |t.entries|
    && (forall e: EntryId | e < |t.entries| ::
          t'.entries[e] == t.entries[e] || t'.entries[e] == Unflagged(t.entries[e]))
    && t'.job == t.job.(stopRequested := true, fullStop := t'.job.fullStop) && (t.job.fullStop ==> t'.job.fullStop)
  }

  lemma StopTables(t: Tables, t': Tables)
    requires t' != t && (RequestStop(t) == Committed(t') || RequestFullStop(t) == Committed(t'))
    ensures Flagged(t, t')
  {
  }

  lemma StopEnv(w: World, t: Tables)
    requires Flagged(TablesOf(w), t) && (Cleared(w.marks) ==> Cleared(Stopping(w, t).marks))
    ensures Env(w, Stopping(w, t))
  {
    hide Counted, Room, MarksOk, Cleared;
    var w' := Stopping(w, t);
    forall e: EntryId | e < |w.entries|
      ensures EnvEntry(w.entries[e], w'.entries[e])
      ensures KeepsDelivery(w, w', e) && KeepsState(w, w', e) && KeepsRoom(w, w', e)
    {
      StopEntryEnv(w, t, e);
    }
    hide KeepsDelivery, KeepsState, KeepsRoom, EnvEntry;
    forall a: AttemptId | a < |w.attempts| ensures EnvAttempt(w.attempts[a], w'.attempts[a]) {
    }
  }

  lemma StopEntryEnv(w: World, t: Tables, e: EntryId)
    requires Flagged(TablesOf(w), t) && e < |w.entries|
    ensures var w' := Stopping(w, t);
            && |w'.entries| == |w.entries| && EnvEntry(w.entries[e], w'.entries[e])
            && KeepsDelivery(w, w', e) && KeepsState(w, w', e) && KeepsRoom(w, w', e)
  {
    hide Counted, Room, MarksOk, Cleared;
    assert t.entries[e] == w.entries[e] || t.entries[e] == Unflagged(w.entries[e]);
    CountedSame(w, Stopping(w, t), e);
  }

  lemma StopMarks(w: World, t: Tables)
    requires Inv(w)
    ensures var w' := Stopping(w, t); MarksOk(w'.marks) && (Cleared(w.marks) ==> Cleared(w'.marks))
  {
    var w' := Stopping(w, t);
    if w'.marks != w.marks { assert w'.marks[..|w'.marks| - 1] == w.marks; }
  }

  lemma StopRows(w: World, t: Tables)
    requires Inv(w) && MarksOk(Stopping(w, t).marks) && Flagged(TablesOf(w), t)
    ensures Inv(Stopping(w, t))
  {
    hide AttemptInv, EntryInv, TempInv, MarksOk, Watches;
    var w' := Stopping(w, t);
    forall i: EntryId | i < |w.entries| ensures SamePlan(w.entries[i], w'.entries[i]) {
      assert t.entries[i] == w.entries[i] || t.entries[i] == Unflagged(w.entries[i]);
    }
    LessBusy(w.entries, w'.entries);
    forall a: AttemptId | a < |w'.attempts| ensures AttemptInv(w', a) { StopRow(w, t, a); }
    forall i: EntryId | i < |w'.entries| ensures EntryInv(w', i) { StopEntry(w, t, i); }
    RemoteKeeps(w, w');
    StopWatches(w, t);
  }

  lemma StopWatches(w: World, t: Tables)
    requires Watches(w) && Flagged(TablesOf(w), t)
    ensures Watches(Stopping(w, t))
  {
    var w' := Stopping(w, t);
    forall e | e in w.watched ensures OnWatch(w', e) {
      assert OnWatch(w, e) && (t.entries[e] == w.entries[e] || t.entries[e] == Unflagged(w.entries[e]));
    }
  }

  lemma StopRow(w: World, t: Tables, a: AttemptId)
    requires Inv(w) && Flagged(TablesOf(w), t) && a < |w.attempts|
    ensures AttemptInv(Stopping(w, t), a)
  {
    hide Counted, Room, MarksOk, Cleared, Watches;
    assert AttemptInv(w, a);
    var e := w.attempts[a].entry;
    assert t.entries[e] == w.entries[e] || t.entries[e] == Unflagged(w.entries[e]);
  }

  lemma StopEntry(w: World, t: Tables, e: EntryId)
    requires Inv(w) && Flagged(TablesOf(w), t) && e < |w.entries|
    ensures EntryInv(Stopping(w, t), e)
  {
    hide Counted, Room, MarksOk, Cleared, Watches;
    assert EntryInv(w, e);
    assert t.entries[e] == w.entries[e] || t.entries[e] == Unflagged(w.entries[e]);
    CountedSame(w, Stopping(w, t), e);
  }

  /** The local work of a stopped job is cancelled, and nothing is on watch any more. */
  function Cancelling(w: World, t: Tables): World {
    With(w, t).(watched := map[])
  }

  lemma CancelLocalEntriesKeeps(w: World)
    requires Inv(w) && CancelLocalEntries(TablesOf(w)).Committed?
    ensures Inv(Cancelling(w, CancelLocalEntries(TablesOf(w)).t))
  {
    hide Counted, Room, MarksOk, Cleared;
    var w' := Cancelling(w, CancelLocalEntries(TablesOf(w)).t);
    LessBusy(w.entries, w'.entries);
    forall a: AttemptId | a < |w'.attempts| ensures AttemptInv(w', a) { assert AttemptInv(w, a); }
    forall i: EntryId | i < |w'.entries| ensures EntryInv(w', i) {
      assert EntryInv(w, i);
      CountedSame(w, w', i);
    }
    RemoteKeeps(w, w');
  }

  lemma QueuePointRetryKeeps(w: World, e: EntryId, attempt: Option<AttemptId>)
    requires Inv(w) && e < |w.entries| && Linked(TablesOf(w), e)
    requires QueuePointRetry(TablesOf(w), e, attempt).Committed?
    ensures Inv(With(w, QueuePointRetry(TablesOf(w), e, attempt).t))
  {
    hide Counted, Room, MarksOk, Cleared;
    var w' := With(w, QueuePointRetry(TablesOf(w), e, attempt).t);
    OneBusyUpdate(w.entries, e, w'.entries[e]);
    forall a: AttemptId | a < |w'.attempts| ensures AttemptInv(w', a) { assert AttemptInv(w, a); }
    forall i: EntryId | i < |w'.entries| ensures EntryInv(w', i) {
      assert EntryInv(w, i);
      CountedSame(w, w', i);
    }
    RemoteKeeps(w, w');
    forall e | e in w.watched ensures OnWatch(w', e) { assert OnWatch(w, e); }
  }
}
