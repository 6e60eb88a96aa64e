/** The runs that reach a bad state, each written out action by action.
  *
  * They are runs of a direct job with one directory and one file below it. Every lemma whose name begins with `On` is one
  * action, with what the rows have to show for it and what it leaves.
  */
module Scenarios {
  import opened Rows
  import opened Transactions
  import opened World
  import opened Effects
  import opened Landing
  import opened Session
  import opened Destination
  import opened Faults
  import opened Runs

  const PLANNED: Content := [7]
  const COPY: Name := 0
  const OUTAGE := Error(DestinationOutage, false, false, false)

  /** The row of the directory 0. */
  function Folder0(state: EntryState): Entry {
    Entry(Dir, None, true, state, None, 0, None, false, 0)
  }

  /** The row of the file 1 below it, and that of an attempt of the file. */
  function File1(state: EntryState, attempt: Option<AttemptId>, downloads: nat): Entry {
    Entry(File, Some(PLANNED), true, state, attempt, downloads, None, false, 0)
  }

  function Try(phase: Phase, local: Option<Name>, operation: bool, error: Option<Code>): Attempt {
    Attempt(1, Dest(1), phase, local, operation, error)
  }

  /** The disk once the directory is there. */
  function WithFolder(disk: map<Place, Node>): map<Place, Node> {
    if Dest(0) in disk then disk else disk[Dest(0) := Folder]
  }

  predicate NoFile(disk: map<Place, Node>) {
    Dest(0) in disk ==> disk[Dest(0)].Folder?
  }

  /** A direct job with these rows, which nobody stopped or asked a point retry of. The file is not delivered. */
  ghost predicate Ours(s: State, dir: EntryState, file: Entry) {
    && s.w.entries == [Folder0(dir), file] && file == File1(file.state, file.attempt, file.downloads)
    && s.w.job.direct && !Halted(s.w.job) && s.w.job.space.Owned? && s.below(0, 1)
    && Dest(1) !in s.w.disk && s.w.purged == {} && s.w.pointMade == {} && s.w.finished.None?
    && s.w.watched == map[]
  }

  /** ... which is running and takes no pause. */
  ghost predicate OursRuns(s: State, dir: EntryState, file: Entry) {
    Ours(s, dir, file) && s.w.job.state.Running? && s.w.job.resume.None? && !s.w.job.pauseRequested
  }

  predicate SameWorld(w: World, w': World) {
    && w.job == w'.job && w.entries == w'.entries && w.attempts == w'.attempts && w.staging == w'.staging
    && w.disk == w'.disk && w.uploads == w'.uploads && w.renames == w'.renames && w.puts == w'.puts
    && w.moves == w'.moves && w.pointMade == w'.pointMade && w.purged == w'.purged && w.loose == w'.loose
    && w.marks == w'.marks && w.halt == w'.halt && w.finished == w'.finished && w.watched == w'.watched
  }

  // ---------------------------------------------------------------- runs of a first attempt

  /** The job before its first attempt, running, with the retries on. */
  ghost function Start(): State {
    State(NewWorld(Job(true, Running, None, false, false, false, true, Owned),
                   [Folder0(Planned), File1(Planned, None, 0)], map[]),
          Nobody, (d: EntryId, e: EntryId) => d == 0 && e == 1)
  }

  lemma Starts(rules: Rules)
    ensures Reached(Start(), rules) && OursRuns(Start(), Planned, File1(Planned, None, 0))
  {
    assert Begins(Start()) && Possible(Start(), [], rules) && After(Start(), [], rules) == Start();
  }

  /** The directory is made, and the file downloaded. */
  lemma FirstCopy(rules: Rules) returns (s: State)
    ensures Reached(s, rules)
    ensures AtFile(s, Done, File1(Cached, Some(0), 1), [], Try(Staged, Some(COPY), false, None)) && CopyThere(s)
    ensures s.w.uploads == map[] && s.w.puts == multiset{}
  {
    Starts(rules);
    s := MakesFolder(Start(), File1(Planned, None, 0), rules);
    s := Downloads(s, Done, rules);
  }

  /** The first upload was accepted and is awaited. */
  ghost predicate Awaiting(s: State) {
    && AtFile(s, Done, File1(WaitingOperation, Some(0), 1), [], Try(WaitingTransfer, Some(COPY), true, None))
    && s.w.uploads == map[0 := PLANNED] && s.w.puts == multiset{0} && CopyThere(s)
  }

  lemma FirstWait(rules: Rules) returns (s: State)
    ensures Reached(s, rules) && Awaiting(s)
  {
    hide Reached, May;
    s := FirstCopy(rules);
    s := Uploads(s, Done, File1(Cached, Some(0), 1), [], rules);
    s := OnTake(s, Done, File1(Cached, Some(0), 1), [], Try(WaitingTransfer, Some(COPY), true, None), WaitingOperation, rules);
  }

  /** The run on which a read answered with 409 leaves a failed attempt with its upload in the air. */
  lemma ConflictRun(rules: Rules) returns (s: State)
    ensures Reached(s, rules) && |s.w.attempts| == 1 && |s.w.entries| == 2
    ensures s.w.attempts[0].phase.Failed? && s.w.attempts[0].error == Some(DestinationConflict)
    ensures InFlight(s.w, 0) && s.w.entries[1].state.Conflict?
  {
    hide Reached, May;
    s := FirstWait(rules);
    s := OnFail(s, Done, File1(WaitingOperation, Some(0), 1), [], Try(WaitingTransfer, Some(COPY), true, None),
                StatusError(409, {200}, false).value, false, rules);
  }

  /** The run on which the process dies between the two writes of `_failure`, and the entry is stuck. */
  lemma CutFailure(rules: Rules) returns (s: State)
    ensures Reached(s, rules) && Stuck(TablesOf(s.w), 1)
  {
    hide Reached, May;
    s := FirstWait(rules);
    s := OnFail(s, Done, File1(WaitingOperation, Some(0), 1), [], Try(WaitingTransfer, Some(COPY), true, None),
                OUTAGE, true, rules);
    s := ComesBack(s, Done, File1(WaitingOperation, Some(0), 1), Running, rules);
  }

  const CHANGED := Error(SourceError, false, false, false)

  /** The first attempt of the file fails before anything is sent, and the job comes to its end. */
  lemma FirstFailure(rules: Rules) returns (s: State)
    ensures Reached(s, rules) && s.at.Nobody? && s.w.job.state.CompletedWithIssues?
    ensures Ours(s, Done, File1(FailedEntry, Some(0), 1))
    ensures s.w.attempts == [Try(Failed, Some(COPY), false, Some(SourceError))]
    ensures CopyThere(s) && s.w.puts == multiset{} && s.w.uploads == map[]
  {
    hide Reached, May;
    s := FirstCopy(rules);
    s := OnFail(s, Done, File1(Cached, Some(0), 1), [], Try(Staged, Some(COPY), false, None), CHANGED, false, rules);
    s := OnOver(s, rules);
    s := OnSettle(s, Done, File1(FailedEntry, Some(0), 1), rules);
  }

  /** The run on which the process dies in `retry`, between the new attempt and the new state of its entry: the next
    * retry is refused.
    */
  lemma CutRetry(rules: Rules) returns (s: State)
    ensures Reached(s, rules) && Retryable(TablesOf(s.w)) && Unretryable(TablesOf(s.w), 1)
  {
    hide Reached, May;
    s := FirstFailure(rules);
    s := OnAgain(s, Done, File1(FailedEntry, Some(0), 1), rules);
    s := OnCreateAgain(s, Done, File1(FailedEntry, Some(0), 1), [], Try(Failed, Some(COPY), false, Some(SourceError)), rules);
    s := DiesAtRest(s, rules);
  }

  /** The run on which a retried upload is cut off by an outage and the process dies between the two writes of
    * `_failure`: the file is still planned, its attempt is abandoned, every step takes the file up, and nothing but a
    * stop frees it.
    */
  lemma CutRetriedUpload(rules: Rules) returns (s: State)
    ensures Reached(s, rules) && s.at.Nobody? && s.w.job.state.Running? && |s.w.entries| == 2 && s.w.entries[1].state.Planned?
    ensures NextUp(TablesOf(s.w), 1) && Stuck(TablesOf(s.w), 1)
    ensures forall act | Enabled(s.w, act, FREE) && !act.Cancel? :: Unmoved(s.w, Do(s.w, act, FREE), 1)
  {
    hide Reached, May, Enabled, Do, Unmoved;
    s := FirstFailure(rules);
    s := Retries(s, Done, File1(FailedEntry, Some(0), 1), [], Try(Failed, Some(COPY), false, Some(SourceError)), rules);
    var file := File1(Planned, Some(1), 0);
    s := OnBegin(s, 1, Done, file, rules);
    s := Sends(s, Done, file, [FAILED], rules);
    s := OnFail(s, Done, file, [FAILED], Try(TransferIntent, Some(COPY), true, None), LOST, true, rules);
    s := ComesBack(s, Done, file, Running, rules);
    ReachedKeeps(s, rules);
    forall act | Enabled(s.w, act, FREE) && !act.Cancel? ensures Unmoved(s.w, Do(s.w, act, FREE), 1) {
      NoSkip(s.w, act);
      StuckUnmoved(s.w, act, 1);
    }
  }

  /** The connection broke behind the upload. */
  const LOST := Error(DestinationOutage, true, false, false)

  /** With the directory done nothing is given up. */
  lemma NoSkip(w: World, act: Act)
    requires |w.entries| == 2 && w.entries[0] == Folder0(Done) && w.entries[1].kind.File? && Enabled(w, act, FREE)
    ensures !act.Skip?
  {
    hide OutsideEnabled, OutsideDone, JobEnabled, JobDone, CopyEnabled, CopyDone, UploadEnabled, UploadDone,
         FailureEnabled, FailureDone;
  }

  lemma DiesAtRest(s: State, rules: Rules) returns (s': State)
    requires Reached(s, rules) && s.w.job.state.CompletedWithIssues? && s.w.finished.None?
    ensures Reached(s', rules) && s' == s.(at := Nobody)
  {
    hide Reached;
    s' := DoesJob(s, Restart, s.w, rules);
  }

  /** Two uploads of the file are in the air, and nobody asked for a point retry. */
  ghost predicate Twice(w: World) {
    && w.job.direct && |w.entries| > 1 && w.pointMade == {}
    && exists a: AttemptId, b: AttemptId | a < b < |w.attempts| :: InTheAir(w, a) && InTheAir(w, b)
  }

  ghost predicate InTheAir(w: World, a: AttemptId) {
    a < |w.attempts| && w.attempts[a].entry == 1 && a in w.uploads
  }

  /** The run on which a malformed answer ends the wait for an upload, and a plain retry sends another one. */
  lemma MalformedTwice(rules: Rules) returns (s: State)
    requires !rules.sound
    ensures Reached(s, rules) && Twice(s.w)
  {
    hide Reached, May;
    s := FirstWait(rules);
    s := OnMalformed(s, Done, File1(WaitingOperation, Some(0), 1), [], Try(WaitingTransfer, Some(COPY), true, None),
                     Error(ImpossiblePath, false, false, false), rules);
    s := OnOver(s, rules);
    s := OnSettle(s, Done, File1(FailedEntry, Some(0), 1), rules);
    var last := Try(Failed, Some(COPY), true, Some(ImpossiblePath));
    s := Retries(s, Done, File1(FailedEntry, Some(0), 1), [], last, rules);
    s := SendsAgain(s, 0, [last.(local := None)], rules);
  }

  /** The new attempt of a retry is sent while the upload of attempt `a` is in the air. */
  lemma SendsAgain(s: State, a: AttemptId, before: seq<Attempt>, rules: Rules) returns (s': State)
    requires Reached(s, rules) && s.at.Nobody? && OursRuns(s, Done, File1(Planned, Some(|before|), 0)) && CopyThere(s)
    requires s.w.attempts == before + [Try(Staged, Some(COPY), false, None)] && |before| !in s.w.puts
    requires a < |before| && InTheAir(s.w, a)
    ensures Reached(s', rules) && Twice(s'.w)
  {
    hide Reached, May;
    s' := OnBegin(s, 1, Done, File1(Planned, Some(|before|), 0), rules);
    s' := Uploads(s', Done, File1(Planned, Some(|before|), 0), before, rules);
    assert s'.w.attempts[a] == before[a] == s.w.attempts[a];
    assert InTheAir(s'.w, a) && InTheAir(s'.w, |before|);
  }

  // ---------------------------------------------------------------- the run with a half-written failure

  const SENT := Try(WaitingTransfer, Some(COPY), true, None)
  const FAILED := Try(Failed, None, false, Some(SourceError))
  const CONFLICTING := Try(Failed, Some(COPY), true, Some(DestinationConflict))

  /** What the file has to show once its second upload was sent. */
  ghost predicate SecondSent(s: State, dir: EntryState, state: EntryState, last: Attempt) {
    && Ours(s, dir, File1(state, Some(1), 0)) && CopyThere(s) && s.w.disk == map[Dest(0) := Folder]
    && s.w.attempts == [FAILED] + [last] && s.w.uploads == map[1 := PLANNED] && s.w.puts == multiset{1}
  }

  /** The directory fails; the file is downloaded and fails as well. */
  lemma BothFailed(rules: Rules) returns (s: State)
    ensures Reached(s, rules) && s.at.Nobody? && Ours(s, FailedEntry, File1(FailedEntry, Some(0), 1)) && s.w.job.retryEnabled
    ensures s.w.job.state.CompletedWithIssues? && s.w.attempts == [Try(Failed, Some(COPY), false, Some(SourceError))]
    ensures CopyThere(s) && s.w.disk == map[Dest(0) := Folder] && s.w.uploads == map[] && s.w.puts == multiset{}
  {
    hide Reached, May;
    Starts(rules);
    s := FailsFolder(Start(), File1(Planned, None, 0), rules);
    s := Downloads(s, FailedEntry, rules);
    s := OnFail(s, FailedEntry, File1(Cached, Some(0), 1), [], Try(Staged, Some(COPY), false, None), CHANGED, false, rules);
    s := OnOver(s, rules);
    s := OnSettle(s, FailedEntry, File1(FailedEntry, Some(0), 1), rules);
  }

  /** A retry plans both again, and the new attempt of the file takes over the copy. */
  lemma BothPlanned(rules: Rules) returns (s: State)
    ensures Reached(s, rules) && s.at.Nobody? && OursRuns(s, Planned, File1(Planned, Some(1), 0)) && s.w.job.retryEnabled
    ensures s.w.attempts == [FAILED] + [Try(Staged, Some(COPY), false, None)] && CopyThere(s)
    ensures s.w.disk == map[Dest(0) := Folder] && s.w.uploads == map[] && s.w.puts == multiset{}
  {
    hide Reached, May;
    s := BothFailed(rules);
    s := Retries(s, FailedEntry, File1(FailedEntry, Some(0), 1), [], Try(Failed, Some(COPY), false, Some(SourceError)), rules);
  }

  /** The directory fails again. The upload of the file is accepted, and the process dies before the row of the entry
    * is written.
    */
  lemma HalfSent(rules: Rules) returns (s: State)
    ensures Reached(s, rules) && s.at.Nobody? && OursRuns(s, FailedEntry, File1(Planned, Some(1), 0)) && s.w.job.retryEnabled
    ensures SecondSent(s, FailedEntry, Planned, SENT)
  {
    hide Reached, May;
    s := BothPlanned(rules);
    var file := File1(Planned, Some(1), 0);
    s := FailsFolder(s, file, rules);
    s := OnBegin(s, 1, FailedEntry, file, rules);
    s := Uploads(s, FailedEntry, file, [FAILED], rules);
    s := ComesBack(s, FailedEntry, file, Running, rules);
  }

  /** A read is answered with 409, and the process dies between the two writes of the failure. */
  lemma HalfFails(rules: Rules) returns (s: State)
    ensures Reached(s, rules) && s.at.Nobody? && OursRuns(s, FailedEntry, File1(Planned, Some(1), 0)) && s.w.job.retryEnabled
    ensures SecondSent(s, FailedEntry, Planned, CONFLICTING)
  {
    hide Reached, May;
    s := HalfSent(rules);
    var file := File1(Planned, Some(1), 0);
    s := OnBegin(s, 1, FailedEntry, file, rules);
    s := OnFail(s, FailedEntry, file, [FAILED], SENT, StatusError(409, {200}, false).value, true, rules);
    s := ComesBack(s, FailedEntry, file, Running, rules);
  }

  /** The job is paused and retried: only the directory is planned again. */
  lemma FolderPlanned(rules: Rules) returns (s: State)
    ensures Reached(s, rules) && s.at.Nobody? && OursRuns(s, Planned, File1(Planned, Some(1), 0)) && s.w.job.retryEnabled
    ensures SecondSent(s, Planned, Planned, CONFLICTING)
  {
    hide Reached, May;
    s := HalfFails(rules);
    var file := File1(Planned, Some(1), 0);
    s := Pauses(s, rules);
    s := OnSettle(s, FailedEntry, file, rules);
    s := RetryBegins(s, FailedEntry, file, rules);
    s := OnGoOn(s, Planned, file, rules);
  }

  lemma Pauses(s: State, rules: Rules) returns (s': State)
    requires Reached(s, rules) && s.at.Nobody?
    ensures Reached(s', rules) && s' == s.(w := s.w.(job := s.w.job.(pauseRequested := true)))
  {
    hide Reached;
    s' := DoesOutside(s, Pause(true), s.w.(job := s.w.job.(pauseRequested := true)), rules);
  }

  /** Nothing waits for a download, so that the switch changes no row. */
  lemma NothingWaits(t: Tables, file: Entry)
    requires t.entries == [Folder0(Planned), file] && file == File1(Planned, Some(1), 0)
    requires t.attempts == [FAILED] + [CONFLICTING] && t.job.retryEnabled
    ensures AllLinked(t) && SetRetryEnabled(t, false) == t.(job := t.job.(retryEnabled := false))
  {
    var t' := SetRetryEnabled(t, false);
    assert t'.entries == t.entries && t'.attempts == t.attempts;
  }

  lemma SwitchesOff(s: State, rules: Rules) returns (s': State)
    requires Reached(s, rules) && s.at.Nobody? && SecondSent(s, Planned, Planned, CONFLICTING) && s.w.job.retryEnabled
    ensures Reached(s', rules) && s' == s.(w := s.w.(job := s.w.job.(retryEnabled := false)))
  {
    hide Reached;
    NothingWaits(TablesOf(s.w), File1(Planned, Some(1), 0));
    hide SetRetryEnabled, AllLinked;
    s' := DoesOutside(s, Switch(false), s.w.(job := s.w.job.(retryEnabled := false)), rules);
  }

  lemma GivesUp(w: World)
    requires w.entries == [Folder0(FailedEntry), File1(Planned, Some(1), 0)] && w.attempts == [FAILED] + [CONFLICTING]
    requires 1 in w.uploads && w.job.direct && Dest(1) !in w.disk && w.watched == map[]
    ensures HalfFailed(TablesOf(w), 1)
    ensures SameWorld(GivenUpWith(w, 1), w.(loose := w.loose + {1},
                                            entries := [Folder0(FailedEntry), File1(FailedEntry, Some(1), 0)]))
  {
  }

  /** The directory failed with the retries off, and the file below it is given up. */
  lemma Skips(s: State, rules: Rules) returns (s': State)
    requires Reached(s, rules) && s.at == Step(0) && SecondSent(s, FailedEntry, Planned, CONFLICTING)
    requires !s.w.job.retryEnabled && !rules.whole
    ensures Reached(s', rules)
    ensures s' == s.(w := s.w.(loose := s.w.loose + {1}, entries := [Folder0(FailedEntry), File1(FailedEntry, Some(1), 0)]))
  {
    GivesUp(s.w);
    hide GivenUpWith, HalfFailed, InFlight, NewAttempt;
    s' := DoesPlan(s, Skip(0, 1), s.w.(loose := s.w.loose + {1},
                                   entries := [Folder0(FailedEntry), File1(FailedEntry, Some(1), 0)]), rules);
  }

  /** Retries are switched off and the directory fails once more: the file is given up with it. */
  lemma GivenUpBelow(rules: Rules) returns (s: State)
    requires !rules.whole
    ensures Reached(s, rules) && s.at.Nobody? && s.w.job.state.CompletedWithIssues?
    ensures SecondSent(s, FailedEntry, FailedEntry, CONFLICTING)
  {
    hide Reached, May;
    s := FolderPlanned(rules);
    var file := File1(Planned, Some(1), 0);
    s := SwitchesOff(s, rules);
    s := OnBegin(s, 0, Planned, file, rules);
    s := OnFailFolder(s, file, rules);
    s := Skips(s, rules);
    s := OnOver(s, rules);
    s := OnSettle(s, FailedEntry, File1(FailedEntry, Some(1), 0), rules);
  }

  /** The run on which the process dies between the two writes of a conflict, and the file is then given up with the
    * directory above it: a plain retry sends another upload.
    */
  lemma SkippedTwice(rules: Rules) returns (s: State)
    requires !rules.whole
    ensures Reached(s, rules) && Twice(s.w)
  {
    hide Reached, May;
    s := GivenUpBelow(rules);
    s := Retries(s, FailedEntry, File1(FailedEntry, Some(1), 0), [FAILED], CONFLICTING, rules);
    s := MakesFolder(s, File1(Planned, Some(2), 0), rules);
    s := SendsAgain(s, 1, [FAILED, CONFLICTING.(local := None)], rules);
  }

  // ---------------------------------------------------------------- stretches of a run

  lemma MakesFolder(s: State, file: Entry, rules: Rules) returns (s': State)
    requires Reached(s, rules) && OursRuns(s, Planned, file) && s.at.Nobody? && !Active(file.state) && NoFile(s.w.disk)
    ensures Reached(s', rules)
    ensures s' == s.(w := s.w.(entries := [Folder0(Done), file], disk := WithFolder(s.w.disk)))
  {
    hide Reached, May;
    s' := OnBegin(s, 0, Planned, file, rules);
    s' := OnMake(s', Planned, file, rules);
    s' := OnMade(s', file, rules);
    s' := OnOver(s', rules);
  }

  /** The service cannot be reached for the directory. With the retries on the job is put on hold; the process is
    * started anew, and the job resumed.
    */
  lemma FailsFolder(s: State, file: Entry, rules: Rules) returns (s': State)
    requires Reached(s, rules) && OursRuns(s, Planned, file) && s.at.Nobody? && file.state.Planned? && s.w.job.retryEnabled
    ensures Reached(s', rules) && s' == s.(w := s.w.(entries := [Folder0(FailedEntry), file]))
  {
    hide Reached, May;
    s' := OnBegin(s, 0, Planned, file, rules);
    s' := OnFailFolder(s', file, rules);
    s' := OnHold(s', FailedEntry, file, rules);
    s' := OnOver(s', rules);
    s' := ComesBack(s', FailedEntry, file, NeedsAttention, rules);
  }

  /** The process is started anew, and the job resumed. */
  lemma ComesBack(s: State, dir: EntryState, file: Entry, state: JobState, rules: Rules) returns (s': State)
    requires Reached(s, rules) && Ours(s, dir, file) && InWork(file.state)
    requires s.w.job.state == state && (state.Running? || state.NeedsAttention?)
    ensures Reached(s', rules)
    ensures s' == State(s.w.(job := s.w.job.(state := Running, resume := None, pauseRequested := false)), Nobody, s.below)
  {
    hide Reached, May;
    s' := OnRestart(s, dir, file, state, rules);
    s' := OnResume(s', dir, file, rules);
  }

  /** The first attempt of the file downloads it. */
  lemma Downloads(s: State, dir: EntryState, rules: Rules) returns (s': State)
    requires Reached(s, rules) && OursRuns(s, dir, File1(Planned, None, 0)) && s.at.Nobody? && !InWork(dir)
    requires s.w.attempts == [] && COPY !in s.w.staging
    ensures Reached(s', rules)
    ensures s' == State(s.w.(entries := [Folder0(dir), File1(Cached, Some(0), 1)],
                             attempts := [Try(Staged, Some(COPY), false, None)],
                             staging := s.w.staging[COPY := PLANNED], disk := WithFolder(s.w.disk)), Step(1), s.below)
  {
    hide Reached, May;
    s' := Tries(s, dir, rules);
    s' := OnBind(s', dir, File1(Transferring, Some(0), 1), rules);
    s' := OnTake(s', dir, File1(Transferring, Some(0), 1), [], Try(Downloading, Some(COPY), false, None), Fetching, rules);
    s' := OnFill(s', dir, File1(Fetching, Some(0), 1), rules);
    s' := OnKeep(s', dir, File1(Fetching, Some(0), 1), rules);
    s' := OnTake(s', dir, File1(Fetching, Some(0), 1), [], Try(Staged, Some(COPY), false, None), Cached, rules);
  }

  lemma Tries(s: State, dir: EntryState, rules: Rules) returns (s': State)
    requires Reached(s, rules) && OursRuns(s, dir, File1(Planned, None, 0)) && s.at.Nobody? && !InWork(dir)
    requires s.w.attempts == []
    ensures Reached(s', rules)
    ensures s' == State(s.w.(entries := [Folder0(dir), File1(Transferring, Some(0), 1)],
                             attempts := [Try(Prepared, None, false, None)],
                             disk := WithFolder(s.w.disk)), Step(1), s.below)
  {
    hide Reached, May;
    s' := OnBegin(s, 1, dir, File1(Planned, None, 0), rules);
    s' := OnCreate(s', dir, rules);
    s' := OnTake(s', dir, File1(Planned, Some(0), 0), [], Try(Prepared, None, false, None), Transferring, rules);
    s' := OnMake(s', dir, File1(Transferring, Some(0), 0), rules);
    s' := OnCount(s', dir, File1(Transferring, Some(0), 0), [], Try(Prepared, None, false, None), rules);
  }

  /** The verified copy is sent. */
  lemma Sends(s: State, dir: EntryState, file: Entry, before: seq<Attempt>, rules: Rules) returns (s': State)
    requires Reached(s, rules) && AtFile(s, dir, file, before, Try(Staged, Some(COPY), false, None)) && CopyThere(s)
    requires |before| !in s.w.puts
    ensures Reached(s', rules)
    ensures s' == s.(w := s.w.(attempts := before + [Try(TransferIntent, Some(COPY), true, None)],
                               uploads := s.w.uploads[|before| := PLANNED], puts := s.w.puts + multiset{|before|},
                               marks := s.w.marks + [Mark.Check] + [Mark.Send]))
  {
    hide Reached, May;
    s' := OnPlan(s, dir, file, before, rules);
    s' := OnCheck(s', dir, file, rules);
    s' := OnPut(s', dir, file, before, rules);
  }

  /** ... and the service accepts it. */
  lemma Uploads(s: State, dir: EntryState, file: Entry, before: seq<Attempt>, rules: Rules) returns (s': State)
    requires Reached(s, rules) && AtFile(s, dir, file, before, Try(Staged, Some(COPY), false, None)) && CopyThere(s)
    requires |before| !in s.w.puts
    ensures Reached(s', rules)
    ensures s' == s.(w := s.w.(attempts := before + [Try(WaitingTransfer, Some(COPY), true, None)],
                               uploads := s.w.uploads[|before| := PLANNED], puts := s.w.puts + multiset{|before|},
                               marks := s.w.marks + [Mark.Check] + [Mark.Send]))
  {
    hide Reached, May;
    s' := Sends(s, dir, file, before, rules);
    s' := OnAnswer(s', dir, file, before, rules);
  }

  lemma RetryBegins(s: State, dir: EntryState, file: Entry, rules: Rules) returns (s': State)
    requires Reached(s, rules) && s.at.Nobody? && (s.w.job.state.CompletedWithIssues? || s.w.job.state.Paused?)
    requires Ours(s, dir, file) && (dir.Done? || dir.FailedEntry?) && (file.state.Planned? || file.state.FailedEntry?)
    requires file.attempt == Some(|s.w.attempts| - 1) && s.w.attempts[|s.w.attempts| - 1].phase.Failed?
    ensures Reached(s', rules)
    ensures s' == State(s.w.(entries := [Folder0(if dir.Done? then Done else Planned), file]), Retrying, s.below)
  {
    hide Reached, May;
    s' := OnAgain(s, dir, file, rules);
    if dir.FailedEntry? { s' := OnReplanFolder(s', file, rules); }
  }

  /** A retry of the job plans the file again, with a new attempt that takes over its copy, and the directory, too, if
    * it has failed.
    */
  lemma Retries(s: State, dir: EntryState, file: Entry, before: seq<Attempt>, last: Attempt, rules: Rules)
    returns (s': State)
    requires Reached(s, rules) && s.at.Nobody? && s.w.job.state.CompletedWithIssues?
    requires Ours(s, dir, file) && (dir.Done? || dir.FailedEntry?) && file.state.FailedEntry? && file.attempt == Some(|before|)
    requires s.w.attempts == before + [last] && last.entry == 1 && last.phase.Failed? && last.local == Some(COPY)
    requires CopyThere(s)
    ensures Reached(s', rules)
    ensures s' == s.(w := s.w.(job := s.w.job.(state := Running, resume := None, pauseRequested := false),
                               entries := [Folder0(if dir.Done? then Done else Planned), File1(Planned, Some(|before| + 1), 0)],
                               attempts := before + [last.(local := None), Try(Staged, Some(COPY), false, None)]))
  {
    hide Reached, May;
    s' := RetryBegins(s, dir, file, rules);
    var dir1, file1 := if dir.Done? then Done else Planned, file.(attempt := Some(|before| + 1));
    s' := OnCreateAgain(s', dir1, file, before, last, rules);
    s' := OnTakeOver(s', dir1, file1, before, last, rules);
    s' := OnDrop(s', dir1, file1, before, last, rules);
    s' := OnReplan(s', dir1, file1, before, last.(local := None), rules);
    s' := OnGoOn(s', dir1, File1(Planned, Some(|before| + 1), 0), rules);
  }

  // ---------------------------------------------------------------- single actions of such a job

  /** The file is being worked on, by the step that stands at it; its attempt is the last row. */
  ghost predicate AtFile(s: State, dir: EntryState, file: Entry, before: seq<Attempt>, row: Attempt) {
    && OursRuns(s, dir, file) && s.at == Step(1) && !Active(dir) && !Success(file.state)
    && file.attempt == Some(|before|) && s.w.attempts == before + [row] && row.entry == 1
  }

  lemma AtFileHas(s: State, dir: EntryState, file: Entry, before: seq<Attempt>, row: Attempt)
    requires AtFile(s, dir, file, before, row)
    ensures Has(s.w, 1) && At(s.w, 1) == |before| && Row(s.w, 1) == row && Room(s.w, 1)
  {
    hide Reached;
  }

  lemma OnBegin(s: State, e: EntryId, dir: EntryState, file: Entry, rules: Rules) returns (s': State)
    requires Reached(s, rules) && OursRuns(s, dir, file) && s.at.Nobody? && !Active(dir) && !Active(file.state)
    requires (e == 0 && dir.Planned?) || (e == 1 && !dir.Planned? && file.state.Planned?)
    ensures Reached(s', rules) && s' == s.(at := Step(e))
  {
    hide Reached;
    s' := DoesJob(s, Begin(e), s.w, rules);
  }

  lemma OnOver(s: State, rules: Rules) returns (s': State)
    requires Reached(s, rules) && s.at.Step?
    ensures Reached(s', rules) && s' == s.(at := Nobody)
  {
    hide Reached;
    s' := DoesJob(s, Over, s.w, rules);
  }

  /** The directory is made, for itself or for the file below it. */
  lemma OnMake(s: State, dir: EntryState, file: Entry, rules: Rules) returns (s': State)
    requires Reached(s, rules) && OursRuns(s, dir, file) && (s.at == Step(0) || s.at == Step(1))
    ensures Reached(s', rules) && s' == s.(w := s.w.(disk := WithFolder(s.w.disk)))
  {
    hide Reached;
    s' := DoesPlan(s, Make(0), s.w.(disk := WithFolder(s.w.disk)), rules);
  }

  lemma OnMade(s: State, file: Entry, rules: Rules) returns (s': State)
    requires Reached(s, rules) && OursRuns(s, Planned, file) && s.at == Step(0)
    requires Dest(0) in s.w.disk && s.w.disk[Dest(0)].Folder?
    ensures Reached(s', rules) && s' == s.(w := s.w.(entries := [Folder0(Done), file]))
  {
    hide Reached;
    s' := DoesPlan(s, Made(0), s.w.(entries := [Folder0(Done), file]), rules);
  }

  lemma OnFailFolder(s: State, file: Entry, rules: Rules) returns (s': State)
    requires Reached(s, rules) && OursRuns(s, Planned, file) && s.at == Step(0)
    ensures Reached(s', rules) && s' == s.(w := s.w.(entries := [Folder0(FailedEntry), file]))
  {
    hide Reached;
    s' := DoesPlan(s, FailDirectory(0, OUTAGE), s.w.(entries := [Folder0(FailedEntry), file]), rules);
  }

  lemma OnHold(s: State, dir: EntryState, file: Entry, rules: Rules) returns (s': State)
    requires Reached(s, rules) && OursRuns(s, dir, file) && s.at.Step? && s.w.job.retryEnabled
    ensures Reached(s', rules) && s' == s.(w := s.w.(job := s.w.job.(state := NeedsAttention)))
  {
    hide Reached;
    s' := DoesJob(s, Hold, s.w.(job := s.w.job.(state := NeedsAttention)), rules);
  }

  lemma OnRestart(s: State, dir: EntryState, file: Entry, state: JobState, rules: Rules) returns (s': State)
    requires Reached(s, rules) && Ours(s, dir, file)
    requires s.w.job.state == state && (state.Running? || state.NeedsAttention?)
    ensures Reached(s', rules)
    ensures s' == State(s.w.(job := s.w.job.(state := AwaitingCredentials, resume := Some(state))), Nobody, s.below)
  {
    hide Reached;
    s' := DoesJob(s, Restart, s.w.(job := s.w.job.(state := AwaitingCredentials, resume := Some(state))), rules);
  }

  lemma OnResume(s: State, dir: EntryState, file: Entry, rules: Rules) returns (s': State)
    requires Reached(s, rules) && Ours(s, dir, file) && s.at.Nobody? && InWork(file.state)
    requires s.w.job.state.AwaitingCredentials? && s.w.job.resume in {Some(Running), Some(NeedsAttention)}
    ensures Reached(s', rules)
    ensures s' == s.(w := s.w.(job := s.w.job.(state := Running, resume := None, pauseRequested := false)))
  {
    assert InWork(s.w.entries[1].state);
    s' := DoesJob(s, Resume, s.w.(job := s.w.job.(state := Running, resume := None, pauseRequested := false)), rules);
  }

  lemma OnCreate(s: State, dir: EntryState, rules: Rules) returns (s': State)
    requires Reached(s, rules) && OursRuns(s, dir, File1(Planned, None, 0)) && s.at == Step(1) && !Active(dir)
    requires s.w.attempts == []
    ensures Reached(s', rules)
    ensures s' == s.(w := s.w.(entries := [Folder0(dir), File1(Planned, Some(0), 0)],
                               attempts := [Try(Prepared, None, false, None)]))
  {
    hide Reached;
    s' := DoesPlan(s, Create(1, false), s.w.(entries := [Folder0(dir), File1(Planned, Some(0), 0)],
                                         attempts := [Try(Prepared, None, false, None)]), rules);
  }

  lemma OnTake(s: State, dir: EntryState, file: Entry, before: seq<Attempt>, row: Attempt, state: EntryState, rules: Rules)
    returns (s': State)
    requires Reached(s, rules) && AtFile(s, dir, file, before, row) && Active(state)
    requires !row.phase.DownloadRetryWait? && !row.phase.Failed? && !AbandonedPhase(row.phase)
    ensures Reached(s', rules) && s' == s.(w := s.w.(entries := [Folder0(dir), file.(state := state)]))
  {
    hide Reached;
    AtFileHas(s, dir, file, before, row);
    hide Work;
    s' := DoesCopy(s, Take(1, state), s.w.(entries := [Folder0(dir), file.(state := state)]), rules);
  }

  lemma OnCount(s: State, dir: EntryState, file: Entry, before: seq<Attempt>, row: Attempt, rules: Rules) returns (s': State)
    requires Reached(s, rules) && AtFile(s, dir, file, before, row) && row.phase.Prepared?
    ensures Reached(s', rules)
    ensures s' == s.(w := s.w.(entries := [Folder0(dir), file.(downloads := file.downloads + 1)]))
  {
    hide Reached;
    AtFileHas(s, dir, file, before, row);
    hide Work;
    s' := DoesCopy(s, Count(1), s.w.(entries := [Folder0(dir), file.(downloads := file.downloads + 1)]), rules);
  }

  lemma OnBind(s: State, dir: EntryState, file: Entry, rules: Rules) returns (s': State)
    requires Reached(s, rules) && AtFile(s, dir, file, [], Try(Prepared, None, false, None)) && COPY !in s.w.staging
    ensures Reached(s', rules) && s' == s.(w := s.w.(attempts := [Try(Downloading, Some(COPY), false, None)]))
  {
    hide Reached;
    AtFileHas(s, dir, file, [], Try(Prepared, None, false, None));
    hide Work;
    s' := DoesCopy(s, Bind(1, COPY), s.w.(attempts := [Try(Downloading, Some(COPY), false, None)]), rules);
  }

  lemma OnFill(s: State, dir: EntryState, file: Entry, rules: Rules) returns (s': State)
    requires Reached(s, rules) && AtFile(s, dir, file, [], Try(Downloading, Some(COPY), false, None))
    ensures Reached(s', rules) && s' == s.(w := s.w.(staging := s.w.staging[COPY := PLANNED]))
  {
    hide Reached;
    AtFileHas(s, dir, file, [], Try(Downloading, Some(COPY), false, None));
    hide Work;
    s' := DoesCopy(s, Fill(1, COPY), s.w.(staging := s.w.staging[COPY := PLANNED]), rules);
  }

  ghost predicate CopyThere(s: State) {
    COPY in s.w.staging && s.w.staging[COPY] == PLANNED
  }

  lemma OnKeep(s: State, dir: EntryState, file: Entry, rules: Rules) returns (s': State)
    requires Reached(s, rules) && AtFile(s, dir, file, [], Try(Downloading, Some(COPY), false, None)) && CopyThere(s)
    ensures Reached(s', rules) && s' == s.(w := s.w.(attempts := [Try(Staged, Some(COPY), false, None)]))
  {
    hide Reached;
    AtFileHas(s, dir, file, [], Try(Downloading, Some(COPY), false, None));
    hide Work;
    s' := DoesCopy(s, Keep(1, COPY), s.w.(attempts := [Try(Staged, Some(COPY), false, None)]), rules);
  }

  lemma OnPlan(s: State, dir: EntryState, file: Entry, before: seq<Attempt>, rules: Rules) returns (s': State)
    requires Reached(s, rules) && AtFile(s, dir, file, before, Try(Staged, Some(COPY), false, None)) && CopyThere(s)
    ensures Reached(s', rules)
    ensures s' == s.(w := s.w.(attempts := before + [Try(TransferIntent, Some(COPY), true, None)]))
  {
    hide Reached;
    AtFileHas(s, dir, file, before, Try(Staged, Some(COPY), false, None));
    hide Work;
    s' := DoesUpload(s, Plan(1, true), s.w.(attempts := before + [Try(TransferIntent, Some(COPY), true, None)]), rules);
  }

  lemma OnCheck(s: State, dir: EntryState, file: Entry, rules: Rules) returns (s': State)
    requires Reached(s, rules) && OursRuns(s, dir, file) && s.at.Step?
    ensures Reached(s', rules) && s' == s.(w := s.w.(marks := s.w.marks + [Mark.Check])) && Cleared(s'.w.marks)
  {
    hide Reached;
    s' := DoesOutside(s, Act.Check, s.w.(marks := s.w.marks + [Mark.Check]), rules);
  }

  lemma OnPut(s: State, dir: EntryState, file: Entry, before: seq<Attempt>, rules: Rules) returns (s': State)
    requires Reached(s, rules) && AtFile(s, dir, file, before, Try(TransferIntent, Some(COPY), true, None))
    requires Cleared(s.w.marks) && |before| !in s.w.puts
    ensures Reached(s', rules)
    ensures s' == s.(w := s.w.(uploads := s.w.uploads[|before| := PLANNED], puts := s.w.puts + multiset{|before|},
                               marks := s.w.marks + [Mark.Send]))
  {
    AtFileHas(s, dir, file, before, Try(TransferIntent, Some(COPY), true, None));
    hide Work, Room, Cleared;
    s' := DoesUpload(s, Put(1), s.w.(uploads := s.w.uploads[|before| := PLANNED], puts := s.w.puts + multiset{|before|},
                               marks := s.w.marks + [Mark.Send]), rules);
  }

  lemma OnAnswer(s: State, dir: EntryState, file: Entry, before: seq<Attempt>, rules: Rules) returns (s': State)
    requires Reached(s, rules) && AtFile(s, dir, file, before, Try(TransferIntent, Some(COPY), true, None))
    ensures Reached(s', rules)
    ensures s' == s.(w := s.w.(attempts := before + [Try(WaitingTransfer, Some(COPY), true, None)]))
  {
    hide Reached;
    AtFileHas(s, dir, file, before, Try(TransferIntent, Some(COPY), true, None));
    hide Work;
    s' := DoesUpload(s, Answer(1, true), s.w.(attempts := before + [Try(WaitingTransfer, Some(COPY), true, None)]), rules);
  }

  /** A failure of the file, in both writes or only the first. */
  lemma OnFail(s: State, dir: EntryState, file: Entry, before: seq<Attempt>, row: Attempt, err: Error, cut: bool, rules: Rules)
    returns (s': State)
    requires Reached(s, rules) && AtFile(s, dir, file, before, row) && row.error.None? && !Malformed(err)
    requires match row.phase
             case WaitingTransfer => ReadError(Raised(err)) && Open(file.state)
             case TransferIntent => err.uncertain && !err.code.DestinationConflict?
             case Staged => !err.uncertain
             case _ => false
    ensures Reached(s', rules) && s'.below == s.below && s'.at == if cut then Dead else Step(1)
    ensures s'.w == s.w.(attempts := before + [row.(phase := FailedPhase(row.phase, err), error := Some(err.code))],
                         entries := [Folder0(dir), if cut then file else file.(state := FailedState(err))])
  {
    hide Reached;
    AtFileHas(s, dir, file, before, row);
    s' := DoesFailure(s, Fail(1, err, cut),
               s.w.(attempts := before + [row.(phase := FailedPhase(row.phase, err), error := Some(err.code))],
                    entries := [Folder0(dir), if cut then file else file.(state := FailedState(err))]), rules);
  }

  /** A malformed answer ends the wait, and the attempt is let go. */
  lemma OnMalformed(s: State, dir: EntryState, file: Entry, before: seq<Attempt>, row: Attempt, err: Error, rules: Rules)
    returns (s': State)
    requires Reached(s, rules) && AtFile(s, dir, file, before, row) && row.phase.WaitingTransfer? && Malformed(err)
    requires !rules.sound
    ensures Reached(s', rules) && s' == s.(w := LetGo(s.w, dir, file, before, row, err))
  {
    MalformedLeads(s, dir, file, before, row, err, rules);
    hide FailureLeads, AtFile, Reached;
    s' := DoesFailure(s, Fail(1, err, false), LetGo(s.w, dir, file, before, row, err), rules);
  }

  function LetGo(w: World, dir: EntryState, file: Entry, before: seq<Attempt>, row: Attempt, err: Error): World {
    w.(attempts := before + [row.(phase := Failed, error := Some(err.code))],
       loose := w.loose + {|before|}, entries := [Folder0(dir), file.(state := FailedEntry)])
  }

  lemma MalformedLeads(s: State, dir: EntryState, file: Entry, before: seq<Attempt>, row: Attempt, err: Error, rules: Rules)
    requires AtFile(s, dir, file, before, row) && row.phase.WaitingTransfer? && Malformed(err) && !rules.sound
    ensures FailureLeads(s, Fail(1, err, false), LetGo(s.w, dir, file, before, row, err), rules)
  {
    AtFileHas(s, dir, file, before, row);
    assert Work(s.w, 1);
    hide Work, Mine;
  }

  /** Nothing is left to do, or the job is to pause. */
  lemma OnSettle(s: State, dir: EntryState, file: Entry, rules: Rules) returns (s': State)
    requires Reached(s, rules) && Ours(s, dir, file) && s.at.Nobody? && s.w.job.state.Running?
    requires !Active(dir) && !Active(file.state) && !Success(file.state) && !file.state.OutcomeUnknown?
    requires !dir.OutcomeUnknown? && (s.w.job.pauseRequested || (!InWork(dir) && !InWork(file.state)))
    ensures Reached(s', rules)
    ensures s' == s.(w := s.w.(job := s.w.job.(state := if s.w.job.pauseRequested then Paused else CompletedWithIssues)))
  {
    hide Reached;
    assert s.w.entries[1] == file;
    s' := DoesJob(s, Settle,
                  s.w.(job := s.w.job.(state := if s.w.job.pauseRequested then Paused else CompletedWithIssues)), rules);
  }

  lemma OnAgain(s: State, dir: EntryState, file: Entry, rules: Rules) returns (s': State)
    requires Reached(s, rules) && s.at.Nobody? && (s.w.job.state.CompletedWithIssues? || s.w.job.state.Paused?)
    requires Ours(s, dir, file) && (dir.Done? || dir.FailedEntry?) && (file.state.Planned? || file.state.FailedEntry?)
    requires file.attempt == Some(|s.w.attempts| - 1) && s.w.attempts[|s.w.attempts| - 1].phase.Failed?
    ensures Reached(s', rules) && s' == s.(at := Retrying)
  {
    hide Reached;
    s' := DoesJob(s, Again, s.w, rules);
  }

  lemma OnReplanFolder(s: State, file: Entry, rules: Rules) returns (s': State)
    requires Reached(s, rules) && s.at.Retrying? && Ours(s, FailedEntry, file) && !Active(file.state)
    ensures Reached(s', rules) && s' == s.(w := s.w.(entries := [Folder0(Planned), file]))
  {
    hide Reached;
    s' := DoesPlan(s, Replan(0), s.w.(entries := [Folder0(Planned), file]), rules);
  }

  /** The retry stands at the file, which has a new attempt; the one before it is `last`. */
  ghost predicate AtRetry(s: State, dir: EntryState, file: Entry, before: seq<Attempt>, last: Attempt, row: Attempt) {
    && Ours(s, dir, file) && s.at.Retrying? && (dir.Done? || dir.Planned?) && file.state.FailedEntry?
    && file.attempt == Some(|before| + 1) && s.w.attempts == before + [last, row] && last.entry == 1 && row.entry == 1
  }

  lemma AtRetryHas(s: State, dir: EntryState, file: Entry, before: seq<Attempt>, last: Attempt, row: Attempt)
    requires AtRetry(s, dir, file, before, last, row)
    ensures Has(s.w, 1) && At(s.w, 1) == |before| + 1 && Row(s.w, 1) == row && s.w.attempts[|before|] == last && Rest(s.w)
    ensures NextFailed(TablesOf(s.w), 1) && !NextFailed(TablesOf(s.w), 0)
  {
    hide Reached;
  }

  lemma OnCreateAgain(s: State, dir: EntryState, file: Entry, before: seq<Attempt>, last: Attempt, rules: Rules)
    returns (s': State)
    requires Reached(s, rules) && s.at.Retrying? && Ours(s, dir, file) && (dir.Done? || dir.Planned?)
    requires file.state.FailedEntry? && file.attempt == Some(|before|)
    requires s.w.attempts == before + [last] && last.entry == 1 && last.phase.Failed?
    ensures Reached(s', rules)
    ensures s' == s.(w := s.w.(entries := [Folder0(dir), file.(attempt := Some(|before| + 1))],
                               attempts := before + [last, Try(Prepared, None, false, None)]))
  {
    hide Reached;
    s' := DoesPlan(s, Create(1, false), s.w.(entries := [Folder0(dir), file.(attempt := Some(|before| + 1))],
                                         attempts := before + [last, Try(Prepared, None, false, None)]), rules);
  }

  lemma OnTakeOver(s: State, dir: EntryState, file: Entry, before: seq<Attempt>, last: Attempt, rules: Rules)
    returns (s': State)
    requires Reached(s, rules) && AtRetry(s, dir, file, before, last, Try(Prepared, None, false, None))
    requires CopyThere(s) && last.local == Some(COPY)
    ensures Reached(s', rules)
    ensures s' == s.(w := s.w.(attempts := before + [last, Try(Staged, Some(COPY), false, None)]))
  {
    hide Reached;
    AtRetryHas(s, dir, file, before, last, Try(Prepared, None, false, None));
    hide Work, Rest;
    s' := DoesPlan(s, TakeOver(1, |before|), s.w.(attempts := before + [last, Try(Staged, Some(COPY), false, None)]), rules);
  }

  lemma OnDrop(s: State, dir: EntryState, file: Entry, before: seq<Attempt>, last: Attempt, rules: Rules)
    returns (s': State)
    requires Reached(s, rules) && AtRetry(s, dir, file, before, last, Try(Staged, Some(COPY), false, None))
    requires last.local == Some(COPY)
    ensures Reached(s', rules)
    ensures s' == s.(w := s.w.(attempts := before + [last.(local := None), Try(Staged, Some(COPY), false, None)]))
  {
    hide Reached;
    AtRetryHas(s, dir, file, before, last, Try(Staged, Some(COPY), false, None));
    hide Work, Rest;
    s' := DoesPlan(s, Drop(1, |before|),
               s.w.(attempts := before + [last.(local := None), Try(Staged, Some(COPY), false, None)]), rules);
  }

  lemma OnReplan(s: State, dir: EntryState, file: Entry, before: seq<Attempt>, last: Attempt, rules: Rules)
    returns (s': State)
    requires Reached(s, rules) && AtRetry(s, dir, file, before, last, Try(Staged, Some(COPY), false, None))
    ensures Reached(s', rules)
    ensures s' == s.(w := s.w.(entries := [Folder0(dir), file.(state := Planned, downloads := 0)]))
  {
    hide Reached;
    AtRetryHas(s, dir, file, before, last, Try(Staged, Some(COPY), false, None));
    hide Work, Rest, NextFailed;
    s' := DoesPlan(s, Replan(1), s.w.(entries := [Folder0(dir), file.(state := Planned, downloads := 0)]), rules);
  }

  lemma OnGoOn(s: State, dir: EntryState, file: Entry, rules: Rules) returns (s': State)
    requires Reached(s, rules) && s.at.Retrying? && Ours(s, dir, file) && !dir.FailedEntry? && !file.state.FailedEntry?
    ensures Reached(s', rules)
    ensures s' == State(s.w.(job := s.w.job.(state := Running, resume := None, pauseRequested := false)), Nobody, s.below)
  {
    hide Reached;
    s' := DoesJob(s, GoOn, s.w.(job := s.w.job.(state := Running, resume := None, pauseRequested := false)), rules);
  }

  // ---------------------------------------------------------------- one action, and one of each kind

  /** One more action of a run, which leads to the world `w`. */
  lemma Acts(s: State, act: Act, w: World, rules: Rules) returns (s': State)
    requires Reached(s, rules) && May(s, act, rules) && SameWorld(Do(s.w, act, rules), w)
    ensures Reached(s', rules) && s' == State(w, Next(s.at, act), s.below)
  {
    s' := Does(s, act, rules);
    Goes(s, act, rules);
  }

  ghost predicate OutsideLeads(s: State, act: Act, w: World) {
    Outside(act) && Turn(s, act) && OutsideEnabled(s.w, act) && SameWorld(OutsideDone(s.w, act), w)
  }

  lemma OutsideIs(w: World, act: Act, rules: Rules)
    requires Outside(act) && OutsideEnabled(w, act)
    ensures Enabled(w, act, rules) && Do(w, act, rules) == OutsideDone(w, act)
  {
    hide OutsideEnabled, OutsideDone, JobEnabled, JobDone, PlanEnabled, PlanDone, CopyEnabled, CopyDone,
         UploadEnabled, UploadDone, FailureEnabled, FailureDone;
  }

  lemma DoesOutside(s: State, act: Act, w: World, rules: Rules) returns (s': State)
    requires Reached(s, rules) && OutsideLeads(s, act, w)
    ensures Reached(s', rules) && s' == State(w, Next(s.at, act), s.below)
  {
    OutsideIs(s.w, act, rules);
    hide Reached, Turn, Enabled, Do, OutsideEnabled, OutsideDone;
    s' := Acts(s, act, w, rules);
  }

  ghost predicate JobLeads(s: State, act: Act, w: World) {
    OfJob(act) && Turn(s, act) && JobEnabled(s.w, act) && SameWorld(JobDone(s.w, act), w)
  }

  lemma JobIs(w: World, act: Act, rules: Rules)
    requires OfJob(act) && JobEnabled(w, act)
    ensures Enabled(w, act, rules) && Do(w, act, rules) == JobDone(w, act)
  {
    hide OutsideEnabled, OutsideDone, JobEnabled, JobDone, PlanEnabled, PlanDone, CopyEnabled, CopyDone,
         UploadEnabled, UploadDone, FailureEnabled, FailureDone;
  }

  lemma DoesJob(s: State, act: Act, w: World, rules: Rules) returns (s': State)
    requires Reached(s, rules) && JobLeads(s, act, w)
    ensures Reached(s', rules) && s' == State(w, Next(s.at, act), s.below)
  {
    JobIs(s.w, act, rules);
    hide Reached, Turn, Enabled, Do, JobEnabled, JobDone;
    s' := Acts(s, act, w, rules);
  }

  ghost predicate PlanLeads(s: State, act: Act, w: World, rules: Rules) {
    OfPlan(act) && Turn(s, act) && PlanEnabled(s.w, act, rules) && SameWorld(PlanDone(s.w, act, rules), w)
  }

  lemma PlanIs(w: World, act: Act, rules: Rules)
    requires OfPlan(act) && PlanEnabled(w, act, rules)
    ensures Enabled(w, act, rules) && Do(w, act, rules) == PlanDone(w, act, rules)
  {
    hide OutsideEnabled, OutsideDone, JobEnabled, JobDone, PlanEnabled, PlanDone, CopyEnabled, CopyDone,
         UploadEnabled, UploadDone, FailureEnabled, FailureDone;
  }

  lemma DoesPlan(s: State, act: Act, w: World, rules: Rules) returns (s': State)
    requires Reached(s, rules) && PlanLeads(s, act, w, rules)
    ensures Reached(s', rules) && s' == State(w, Next(s.at, act), s.below)
  {
    PlanIs(s.w, act, rules);
    hide Reached, Turn, Enabled, Do, PlanEnabled, PlanDone;
    s' := Acts(s, act, w, rules);
  }

  ghost predicate CopyLeads(s: State, act: Act, w: World) {
    OfCopy(act) && Turn(s, act) && CopyEnabled(s.w, act) && SameWorld(CopyDone(s.w, act), w)
  }

  lemma CopyIs(w: World, act: Act, rules: Rules)
    requires OfCopy(act) && CopyEnabled(w, act)
    ensures Enabled(w, act, rules) && Do(w, act, rules) == CopyDone(w, act)
  {
    hide OutsideEnabled, OutsideDone, JobEnabled, JobDone, PlanEnabled, PlanDone, CopyEnabled, CopyDone,
         UploadEnabled, UploadDone, FailureEnabled, FailureDone;
  }

  lemma DoesCopy(s: State, act: Act, w: World, rules: Rules) returns (s': State)
    requires Reached(s, rules) && CopyLeads(s, act, w)
    ensures Reached(s', rules) && s' == State(w, Next(s.at, act), s.below)
  {
    CopyIs(s.w, act, rules);
    hide Reached, Turn, Enabled, Do, CopyEnabled, CopyDone;
    s' := Acts(s, act, w, rules);
  }

  ghost predicate UploadLeads(s: State, act: Act, w: World) {
    OfUpload(act) && Turn(s, act) && UploadEnabled(s.w, act) && SameWorld(UploadDone(s.w, act), w)
  }

  lemma UploadIs(w: World, act: Act, rules: Rules)
    requires OfUpload(act) && UploadEnabled(w, act)
    ensures Enabled(w, act, rules) && Do(w, act, rules) == UploadDone(w, act)
  {
    hide OutsideEnabled, OutsideDone, JobEnabled, JobDone, PlanEnabled, PlanDone, CopyEnabled, CopyDone,
         UploadEnabled, UploadDone, FailureEnabled, FailureDone;
  }

  lemma DoesUpload(s: State, act: Act, w: World, rules: Rules) returns (s': State)
    requires Reached(s, rules) && UploadLeads(s, act, w)
    ensures Reached(s', rules) && s' == State(w, Next(s.at, act), s.below)
  {
    UploadIs(s.w, act, rules);
    hide Reached, Turn, Enabled, Do, UploadEnabled, UploadDone;
    s' := Acts(s, act, w, rules);
  }

  ghost predicate FailureLeads(s: State, act: Act, w: World, rules: Rules) {
    OfFailure(act) && Turn(s, act) && FailureEnabled(s.w, act, rules) && SameWorld(FailureDone(s.w, act, rules), w)
  }

  lemma FailureIs(w: World, act: Act, rules: Rules)
    requires OfFailure(act) && FailureEnabled(w, act, rules)
    ensures Enabled(w, act, rules) && Do(w, act, rules) == FailureDone(w, act, rules)
  {
    hide OutsideEnabled, OutsideDone, JobEnabled, JobDone, PlanEnabled, PlanDone, CopyEnabled, CopyDone,
         UploadEnabled, UploadDone, FailureEnabled, FailureDone;
  }

  lemma DoesFailure(s: State, act: Act, w: World, rules: Rules) returns (s': State)
    requires Reached(s, rules) && FailureLeads(s, act, w, rules)
    ensures Reached(s', rules) && s' == State(w, Next(s.at, act), s.below)
  {
    FailureIs(s.w, act, rules);
    hide Reached, Turn, Enabled, Do, FailureEnabled, FailureDone;
    s' := Acts(s, act, w, rules);
  }
}
