/** What the kept invariant means for a job, at every cut of every run, and exactly when a property that one would
  * expect holds of the code.
  */
module Safety {
  import opened Rows
  import opened Transactions
  import opened World
  import opened Counting
  import opened Effects
  import opened Landing
  import opened Session
  import opened Faults
  import opened Runner
  import opened Runs
  import opened Scenarios

  // ---------------------------------------------------------------- nothing is sent twice

  /** Every attempt sends its upload and its move at most once, and once either was sent no phase is left
    * from which it would be sent again.
    */
  ghost predicate SentOnce(w: World) {
    forall a: AttemptId | a < |w.attempts| ::
      && w.puts[a] <= 1 && w.moves[a] <= 1
      && (w.puts[a] == 1 ==> !PreSubmit(w.attempts[a].phase))
      && (w.moves[a] == 1 ==> !PreMove(w.attempts[a].phase))
  }

  /** Of a direct job, the uploads of one file that may still land are at most one more than its point retries and
    * the attempts that were let go.
    */
  ghost predicate FewInFlight(w: World) {
    w.job.direct ==> forall e: EntryId | e < |w.entries| :: |Flying(w, e)| <= 1 + |PointMade(w, e)| + |Loose(w, e)|
  }

  /** The bound that a job is meant to keep: one upload, and one more for every point retry. */
  ghost predicate OnePerRetry(w: World) {
    w.job.direct ==> forall e: EntryId | e < |w.entries| :: |Flying(w, e)| <= 1 + |PointMade(w, e)|
  }

  lemma NothingLoose(w: World)
    requires FewInFlight(w) && w.loose == {}
    ensures OnePerRetry(w)
  {
    forall e: EntryId | e < |w.entries| ensures w.job.direct ==> |Flying(w, e)| <= 1 + |PointMade(w, e)| {
      assert Loose(w, e) == {};
    }
  }

  // ---------------------------------------------------------------- what was delivered stays delivered

  ghost predicate FilesThere(w: World) {
    forall e: EntryId | e < |w.entries| && (w.entries[e].state.Done? || w.entries[e].state.AlreadyVerified?) ::
      Delivered(w, e)
  }

  /** The uploads `late` land one after the other; each may or may not replace a file. */
  ghost function Land(w: World, late: seq<(AttemptId, bool)>): World
    decreases |late|
  {
    if late == [] then w
    else
      var (a, replace) := late[0];
      Land(if a in w.uploads && a < |w.attempts| then LandUpload(w, a, replace) else w, late[1..])
  }

  /** Whatever lands later, in any order, a delivered file keeps the planned content. */
  lemma {:induction false} DeliveredForGood(w: World, e: EntryId, late: seq<(AttemptId, bool)>)
    requires Inv(w) && e < |w.entries| && Delivered(w, e)
    ensures e < |Land(w, late).entries| && Delivered(Land(w, late), e)
    decreases |late|
  {
    if late != [] {
      var (a, replace) := late[0];
      if a in w.uploads && a < |w.attempts| {
        LandUploadKeeps(w, a, replace);
        assert KeepsDelivery(w, LandUpload(w, a, replace), e);
        DeliveredForGood(LandUpload(w, a, replace), e, late[1..]);
      } else {
        DeliveredForGood(w, e, late[1..]);
      }
    }
  }

  // ---------------------------------------------------------------- one piece of work at a time

  ghost predicate OneAtATime(w: World) {
    forall i: EntryId, j: EntryId | i < |w.entries| && j < |w.entries| && Busy(w.entries[i]) && Busy(w.entries[j]) ::
      i == j
  }

  ghost predicate HonestCompletion(w: World) {
    w.job.state.Completed? ==> forall e: EntryId | e < |w.entries| && w.entries[e].selected :: Success(w.entries[e].state)
  }

  // ---------------------------------------------------------------- stopping

  ghost function Sends(marks: seq<Mark>): nat {
    if marks == [] then 0
    else Sends(marks[..|marks| - 1]) + if marks[|marks| - 1].Send? then 1 else 0
  }

  /** A request that passed its checkpoint before the stop may be the only one still to be sent after it. */
  ghost predicate StopHolds(marks: seq<Mark>) {
    forall i | 0 <= i < |marks| && marks[i].Stop? ::
      Sends(marks[i..]) <= 1 && forall j | i < j < |marks| :: !marks[j].Check?
  }

  lemma {:induction false} ClearedSinceStop(marks: seq<Mark>, i: nat)
    requires MarksOk(marks) && i < |marks| && marks[i].Stop?
    ensures Sends(marks[i..]) <= 1 && (Cleared(marks) ==> Sends(marks[i..]) == 0)
    ensures forall j | i < j < |marks| :: !marks[j].Check?
    decreases |marks|
  {
    var before, last := marks[..|marks| - 1], marks[|marks| - 1];
    if i < |before| {
      ClearedSinceStop(before, i);
      assert marks[i..][..|marks[i..]| - 1] == before[i..];
      assert before[i] in before;
    } else {
      assert marks[i..] == [Mark.Stop];
      assert Sends([Mark.Stop][..0]) == 0;
    }
  }

  /** Since the stop request the attempts are the same and the job kept its state or became stopped. */
  ghost predicate StopIsFinal(w: World) {
    w.job.stopRequested ==>
      && w.halt.Some? && |w.attempts| == w.halt.value.attempts
      && (if w.halt.value.stopped then w.job.state.Stopped? else w.job.state == w.halt.value.state)
  }

  /** A job whose retries are disabled has no scheduled download. */
  ghost predicate NothingScheduled(w: World) {
    !w.job.retryEnabled ==>
      forall e: EntryId | e < |w.entries| && w.entries[e].attempt.Some? && w.entries[e].attempt.value < |w.attempts| ::
        !w.attempts[w.entries[e].attempt.value].phase.DownloadRetryWait?
  }

  ghost predicate Safe(w: World) {
    && SentOnce(w) && FewInFlight(w) && FilesThere(w) && OneAtATime(w) && HonestCompletion(w)
    && StopHolds(w.marks) && StopIsFinal(w) && NothingScheduled(w)
  }

  lemma InvariantIsSafe(w: World)
    requires Inv(w)
    ensures Safe(w)
  {
    Requests(w);
    Work(w);
    forall i | 0 <= i < |w.marks| && w.marks[i].Stop?
      ensures Sends(w.marks[i..]) <= 1 && forall j | i < j < |w.marks| :: !w.marks[j].Check?
    {
      ClearedSinceStop(w.marks, i);
    }
    forall e: EntryId | e < |w.entries| && w.entries[e].attempt.Some? && w.entries[e].attempt.value < |w.attempts|
      ensures !w.job.retryEnabled ==> !w.attempts[w.entries[e].attempt.value].phase.DownloadRetryWait?
    {
      assert EntryInv(w, e) && AttemptInv(w, w.entries[e].attempt.value);
    }
  }

  lemma Requests(w: World)
    requires Inv(w)
    ensures SentOnce(w) && FewInFlight(w)
  {
    forall a: AttemptId | a < |w.attempts|
      ensures w.puts[a] <= 1 && w.moves[a] <= 1
      ensures w.puts[a] == 1 ==> !PreSubmit(w.attempts[a].phase)
      ensures w.moves[a] == 1 ==> !PreMove(w.attempts[a].phase)
    {
      assert AttemptInv(w, a);
    }
    forall e: EntryId | e < |w.entries|
      ensures w.job.direct ==> |Flying(w, e)| <= 1 + |PointMade(w, e)| + |Loose(w, e)|
    {
      assert EntryInv(w, e);
      FlyingBound(w, e);
    }
  }

  lemma Work(w: World)
    requires Inv(w)
    ensures FilesThere(w) && OneAtATime(w) && HonestCompletion(w)
  {
    forall e: EntryId | e < |w.entries|
      ensures w.entries[e].state.Done? || w.entries[e].state.AlreadyVerified? ==> Delivered(w, e)
      ensures w.job.state.Completed? && w.entries[e].selected ==> Success(w.entries[e].state)
    {
      assert EntryInv(w, e);
    }
    forall i: EntryId, j: EntryId | i < |w.entries| && j < |w.entries| && Busy(w.entries[i]) && Busy(w.entries[j])
      ensures i == j
    {
      assert NotBoth(w.entries, i, j);
    }
  }

  // ---------------------------------------------------------------- exact conditions

  lemma TwiceIsTooMany(w: World)
    requires Twice(w)
    ensures !OnePerRetry(w)
  {
    var a: AttemptId, b: AttemptId :| a < b < |w.attempts| && InTheAir(w, a) && InTheAir(w, b);
    assert {a, b} <= Flying(w, 1);
    SubsetSize({a, b}, Flying(w, 1));
    assert PointMade(w, 1) == {};
  }

  /** In every run of a direct job at most one upload of a file is in the air, and one more for every point retry, if
    * and only if two rules are kept: no answer read while an upload is awaited is malformed, and no entry whose attempt
    * has failed is given up with the directory above it.
    */
  lemma OnePerRetryExactly(rules: Rules)
    ensures rules.sound && rules.whole <==> forall s | Reached(s, rules) :: OnePerRetry(s.w)
  {
    if rules.sound && rules.whole {
      forall s | Reached(s, rules) ensures OnePerRetry(s.w) {
        ReachedKeeps(s, rules);
        Requests(s.w);
        NothingLoose(s.w);
      }
    } else {
      var s: State;
      if !rules.sound { s := MalformedTwice(rules); } else { s := SkippedTwice(rules); }
      TwiceIsTooMany(s.w);
    }
  }

  /** An attempt only becomes failed by one of the writers that `Failing` names. Its upload is in flight then exactly
    * when it was, and `_failure` recorded a definite error; and that is one that a read reported while the upload was
    * awaited.
    */
  lemma FailedInFlight(w: World, act: Act, rules: Rules, a: AttemptId)
    requires Inv(w) && Enabled(w, act, rules) && a < |w.attempts| && !w.attempts[a].phase.Failed?
    requires a < |Do(w, act, rules).attempts| && Do(w, act, rules).attempts[a].phase.Failed?
    ensures Failing(w, act, a)
    ensures InFlight(Do(w, act, rules), a) <==> InFlight(w, a) && act.Fail? && Definite(act.err)
    ensures InFlight(Do(w, act, rules), a) ==> ReadError(Raised(act.err)) && Awaited(w, act.e)
  {
    hide Inv, InFlight, AttemptInv, Mine, Do, Enabled, Meets, Awaited;
    if act.Fail? || act.PointFail? || act.Refuse? || act.GiveUp? {
      OtherRows(w, act, rules, a);
      if act.Fail? { FailIsDefinite(w, act.e, act.err, act.cut, rules); }
      if act.PointFail? { PointFailSettles(w, act.e, act.err, act.cut, rules); }
      if act.Refuse? || act.GiveUp? { RefusalSettles(w, act, rules); }
    } else if act.Switch? {
      SwitchDone(w, act.on, rules);
      SwitchFails(w, act.on, a);
    } else {
      FailsNone(w, act, rules, a);
    }
  }

  lemma AbandonedStuck(w: World, e: EntryId)
    requires Inv(w) && NextUp(TablesOf(w), e) && !w.entries[e].pointRequested
    requires w.job.direct || w.job.space.Owned?
    ensures Stuck(TablesOf(w), e) <==> w.entries[e].attempt.Some? && w.entries[e].attempt.value < |w.attempts|
                                       && AbandonedPhase(w.attempts[w.entries[e].attempt.value].phase)
  {
    assert EntryInv(w, e);
  }

  /** Of the entries that a step takes up, in progress or planned, exactly those are stuck whose attempt was abandoned.
    * Two things alone free them: a stop, and for a planned one the failure of a directory above it. Every other entry
    * is moved by some action. (Nobody asked for a point retry, and a namespace, if the job needs one, has been
    * claimed.)
    */
  lemma StuckExactly(w: World, e: EntryId)
    requires Inv(w) && NextUp(TablesOf(w), e) && !w.entries[e].pointRequested
    requires w.job.direct || w.job.space.Owned?
    ensures Stuck(TablesOf(w), e) <==> w.entries[e].attempt.Some? && w.entries[e].attempt.value < |w.attempts|
                                       && AbandonedPhase(w.attempts[w.entries[e].attempt.value].phase)
    ensures Stuck(TablesOf(w), e) <==>
              forall act | Enabled(w, act, FREE) && !Frees(act, e) :: Unmoved(w, Do(w, act, FREE), e)
  {
    AbandonedStuck(w, e);
    hide Inv, EntryInv, Enabled, Do, Unmoved, NextUp, Stuck, Frees;
    if Stuck(TablesOf(w), e) {
      forall act | Enabled(w, act, FREE) && !Frees(act, e) ensures Unmoved(w, Do(w, act, FREE), e) {
        StuckUnmoved(w, act, e);
      }
    } else {
      Moved(w, e);
    }
  }

  // ---------------------------------------------------------------- every run of the methods

  /** From a frozen plan, any operations in any order, crashes, late effects and requests included. In a guarded run
    * the uploads in flight are also one at most, and one more for every point retry.
    */
  method WholeRun(job: Job, entries: seq<Entry>, disk: map<Place, Node>, below: (EntryId, EntryId) -> bool,
                  guarded: bool, rounds: nat) returns (d: Session)
    requires Fresh(job, entries, disk)
    ensures Safe(d.W()) && (guarded ==> OnePerRetry(d.W()))
  {
    d := new Session(job, entries, disk, below, guarded);
    var runner := new Runner(d);
    runner.Run(rounds);
    InvariantIsSafe(d.W());
    if guarded { NothingLoose(d.W()); }
  }
}
