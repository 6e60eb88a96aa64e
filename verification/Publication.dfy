/** The publication of the source roots of one job: a second intent that is written before the request.
  *
  * A `Put` is recorded when it leaves the process, and with it the status of the response, once there is one.
  * Two things are kept apart: whether the code takes the request for rejected, and whether the response proves
  * it. The statuses from 201 to 399 are where they differ.
  */
module Publication {
  import opened Rows
  import opened World
  import opened Destination

  type RootId = nat

  datatype PublicationState = PlannedRoot | Intent | FailedRoot | Published

  /** A request that left the process, and the status of its response if one came. */
  datatype Put = Put(root: RootId, answer: Option<int>)

  /** The transitions `update_publication` allows. */
  predicate Allowed(s: PublicationState, s': PublicationState) {
    match s
    case PlannedRoot => true
    case Intent => !s'.PlannedRoot?
    case FailedRoot => !s'.PlannedRoot?
    case Published => s'.Published?
  }

  /** The root may be published by a request: no earlier one is unsettled. */
  predicate Requestable(s: PublicationState) {
    s.PlannedRoot? || s.FailedRoot?
  }

  /** How `ensure_publication` reads the status of the response. */
  datatype Answer = Answered | Denied | Unclear

  function Reading(status: int): Answer {
    if status == 200 then Answered else if status >= 500 then Unclear else Denied
  }

  /** The code takes the request for rejected. */
  predicate Discounted(p: Put) {
    p.answer.Some? && Reading(p.answer.value).Denied?
  }

  /** The response proves that the request had no effect. */
  predicate Rejected(p: Put) {
    p.answer.Some? && 400 <= p.answer.value < 500
  }

  /** A response that reports neither a publication nor its rejection: a 2xx other than 200, or a redirect. */
  predicate Odd(status: int) {
    201 <= status < 400
  }

  predicate OddlyAnswered(p: Put) {
    p.answer.Some? && Odd(p.answer.value)
  }

  /** The code takes every request for the root for rejected. */
  predicate Settled(puts: seq<Put>, r: RootId) {
    forall i | 0 <= i < |puts| && puts[i].root == r :: Discounted(puts[i])
  }

  /** A request for a root only follows others that the code takes for rejected. */
  predicate Reopened(puts: seq<Put>) {
    forall i, j | 0 <= i < j < |puts| && puts[i].root == puts[j].root :: Discounted(puts[i])
  }

  /** No request for a root follows one that may have taken effect. */
  predicate NeverRepeated(puts: seq<Put>) {
    forall i, j | 0 <= i < j < |puts| && puts[i].root == puts[j].root :: Rejected(puts[i])
  }

  predicate Recorded(states: seq<PublicationState>, p: Put) {
    && p.root < |states| && (!Discounted(p) ==> !Requestable(states[p.root]))
    && (p.answer.Some? ==> HttpStatus(p.answer.value))
  }

  // ---------------------------------------------------------------- runs

  /** The rows of the roots and the requests sent so far. */
  datatype Scene = Scene(states: seq<PublicationState>, puts: seq<Put>)

  /** One write to a row, or one request with what came back. With `proper` no response is an odd one. */
  ghost predicate Step(s: Scene, s': Scene, proper: bool) {
    || (exists r: RootId, state | r < |s.states| :: Writes(s, s', r, state))
    || (exists r: RootId, answer | r < |s.states| :: Requests(s, s', r, answer, proper))
  }

  ghost predicate Writes(s: Scene, s': Scene, r: RootId, state: PublicationState)
    requires r < |s.states|
  {
    && Allowed(s.states[r], state) && (Requestable(state) ==> Settled(s.puts, r))
    && s' == s.(states := s.states[r := state])
  }

  ghost predicate Requests(s: Scene, s': Scene, r: RootId, answer: Option<int>, proper: bool)
    requires r < |s.states|
  {
    && s.states[r].Intent? && Settled(s.puts, r)
    && (answer.Some? ==> HttpStatus(answer.value) && (proper ==> !Odd(answer.value)))
    && s' == s.(puts := s.puts + [Put(r, answer)])
  }

  /** A run from planned roots. */
  ghost predicate History(past: seq<Scene>, proper: bool) {
    && past != [] && past[0].puts == [] && (forall r | 0 <= r < |past[0].states| :: past[0].states[r].PlannedRoot?)
    && forall i | 0 < i < |past| :: Step(past[i - 1], past[i], proper)
  }

  ghost predicate SceneOk(s: Scene, proper: bool) {
    && (forall i | 0 <= i < |s.puts| :: Recorded(s.states, s.puts[i])) && Reopened(s.puts)
    && (proper ==> forall i | 0 <= i < |s.puts| :: !OddlyAnswered(s.puts[i]))
  }

  lemma StepKeeps(s: Scene, s': Scene, proper: bool)
    requires SceneOk(s, proper) && Step(s, s', proper)
    ensures SceneOk(s', proper)
  {
    if r: RootId, state :| r < |s.states| && Writes(s, s', r, state) {
      forall i | 0 <= i < |s'.puts| ensures Recorded(s'.states, s'.puts[i]) { assert Recorded(s.states, s.puts[i]); }
    } else {
      var r: RootId, answer :| r < |s.states| && Requests(s, s', r, answer, proper);
      forall i | 0 <= i < |s'.puts| ensures Recorded(s'.states, s'.puts[i]) {
        if i < |s.puts| { assert Recorded(s.states, s.puts[i]); }
      }
    }
  }

  lemma {:induction false} HistoryKeeps(past: seq<Scene>, proper: bool)
    requires History(past, proper)
    ensures SceneOk(past[|past| - 1], proper)
    decreases |past|
  {
    if |past| > 1 {
      var before := past[..|past| - 1];
      HistoryKeeps(before, proper);
      StepKeeps(before[|before| - 1], past[|past| - 1], proper);
    }
  }

  /** A request follows one that may have taken effect exactly when it follows one that was answered oddly. */
  lemma RepeatedExactly(puts: seq<Put>)
    requires Reopened(puts) && forall i | 0 <= i < |puts| && puts[i].answer.Some? :: HttpStatus(puts[i].answer.value)
    ensures NeverRepeated(puts) <==>
              forall i, j | 0 <= i < j < |puts| && puts[i].root == puts[j].root :: !OddlyAnswered(puts[i])
  {
    forall i, j | 0 <= i < j < |puts| && puts[i].root == puts[j].root
      ensures Rejected(puts[i]) <==> !OddlyAnswered(puts[i])
    {
      assert Discounted(puts[i]);
    }
  }

  /** The run in which a publication is accepted with 202 and then requested again. */
  lemma AcceptedTwice() returns (past: seq<Scene>)
    ensures History(past, false)
    ensures past[|past| - 1].puts == [Put(0, Some(202)), Put(0, None)]
    ensures !NeverRepeated(past[|past| - 1].puts)
  {
    var planned := Scene([PlannedRoot], []);
    var intent := planned.(states := planned.states[0 := Intent]);
    var sent := intent.(puts := intent.puts + [Put(0, Some(202))]);
    var failed := sent.(states := sent.states[0 := FailedRoot]);
    var again := failed.(states := failed.states[0 := Intent]);
    var twice := again.(puts := again.puts + [Put(0, None)]);
    past := [planned, intent, sent, failed, again, twice];
    assert Writes(planned, intent, 0, Intent) && Requests(intent, sent, 0, Some(202), false);
    assert Writes(sent, failed, 0, FailedRoot) && Writes(failed, again, 0, Intent) && Requests(again, twice, 0, None, false);
    assert twice.puts[0].root == twice.puts[1].root && !Rejected(twice.puts[0]);
  }

  /** In every run no request follows one that may have taken effect, if and only if no response lies in 201..399. */
  lemma SafeExactly(proper: bool)
    ensures proper <==> forall past: seq<Scene> | History(past, proper) :: NeverRepeated(past[|past| - 1].puts)
  {
    if proper {
      forall past: seq<Scene> | History(past, proper) ensures NeverRepeated(past[|past| - 1].puts) {
        HistoryKeeps(past, proper);
        var s := past[|past| - 1];
        forall i | 0 <= i < |s.puts| && s.puts[i].answer.Some? ensures HttpStatus(s.puts[i].answer.value) {
          assert Recorded(s.states, s.puts[i]);
        }
        RepeatedExactly(s.puts);
      }
    } else {
      var past := AcceptedTwice();
      assert !NeverRepeated(past[|past| - 1].puts);
    }
  }

  datatype Result = Existing | JustPublished

  /** The pass was cut short: the process died, or a stop or a pause came in between. */
  predicate Cut(s: Status) {
    s.Raise? && !s.exn.Raised?
  }

  /** What `ensure_publication` makes of the last response it got: a success that still has to be confirmed and a
    * response that is missing or a server error leave the outcome open.
    */
  predicate LeavesOpen(answer: Option<int>) {
    answer.None? || answer.value == 200 || answer.value >= 500
  }

  /** The requests of one call for root `r`: one, or a second one after the first was answered with 401. */
  predicate SentFor(before: seq<Put>, after: seq<Put>, r: RootId) {
    || after == before
    || (|after| == |before| + 1 && after[..|before|] == before && after[|before|].root == r)
    || (|after| == |before| + 2 && after[..|before|] == before && after[|before|] == Put(r, Some(401))
        && after[|before| + 1].root == r)
  }

  predicate Ended(exn: Exn) {
    exn.Crashed? || exn.StopSeen? || exn.JobStopped? || exn.Raised?
  }

  class Publisher {
    var states: seq<PublicationState>     // persisted
    var stopRequested: bool
    var pauseRequested: bool
    var closing: bool                     // the process is shutting down
    var keys: set<RootId>                 // remembered by the running client
    var unknown: set<RootId>
    var shared: set<RootId>               // the roots that carry a public key
    const proper: bool                    // no response to a request is an odd one
    ghost var puts: seq<Put>
    ghost var marks: seq<Mark>
    ghost var past: seq<Scene>

    /** What the publisher has done so far is a run. */
    ghost predicate Valid()
      reads this
    {
      && History(past, proper) && past[|past| - 1] == Scene(states, puts)
      && SceneOk(Scene(states, puts), proper)
      && MarksOk(marks) && (Stop in marks <==> stopRequested)
    }

    constructor (roots: nat, shared: set<RootId>, proper: bool)
      ensures Valid() && puts == [] && marks == [] && this.proper == proper
      ensures states == seq(roots, _ => PlannedRoot)
    {
      states, stopRequested, pauseRequested, closing := seq(roots, _ => PlannedRoot), false, false, false;
      keys, unknown, this.shared, this.proper := {}, {}, shared, proper;
      puts, marks := [], [];
      past := [Scene(seq(roots, _ => PlannedRoot), [])];
    }

    /** Stop and pause requests arrive; the owner of the source may share or unshare a root. */
    method Interfere()
      requires Valid()
      modifies this`closing, this`stopRequested, this`pauseRequested, this`shared, this`marks
      ensures Valid() && (Cleared(old(marks)) ==> Cleared(marks))
    {
      var stop: bool, pause: bool, down: bool, others: set<RootId> := *, *, *, *;
      pauseRequested, shared, closing := pause, others, closing || down;
      if stop && !stopRequested {
        stopRequested := true;
        marks := marks + [Stop];
        assert marks[..|marks| - 1] == old(marks);
      }
    }

    /** What ends the work on the roots before it is done. */
    predicate Ending()
      reads this
    {
      closing || stopRequested || pauseRequested
    }

    /** Nothing ends because of a stop or a pause unless there is one. */
    predicate Justified(s: Status)
      reads this
    {
      s.Raise? && (s.exn.StopSeen? || s.exn.JobStopped?) ==> Ending()
    }

    /** `_checkpoint`: it passes exactly while no stop was requested and the process is not shutting down. */
    method Checkpoint() returns (s: Status)
      requires Valid()
      modifies this`closing, this`stopRequested, this`pauseRequested, this`shared, this`marks
      ensures Valid() && Justified(s) && (s.Pass? ==> Cleared(marks)) && (s.Raise? ==> s.exn.StopSeen?)
      ensures s.Raise? <==> old(closing || stopRequested)
      ensures s.Raise? ==> pauseRequested == old(pauseRequested)
    {
      if closing || stopRequested { return Raise(StopSeen); }
      marks := marks + [Check];
      assert marks[..|marks| - 1] == old(marks);
      Interfere();
      return Pass;
    }

    /** `_publication_checkpoint`: a pause ends the work as well. */
    method PausePoint() returns (s: Status)
      requires Valid()
      modifies this`closing, this`stopRequested, this`pauseRequested, this`shared, this`marks
      ensures Valid() && Justified(s) && (s.Raise? ==> s.exn.StopSeen?)
      ensures s.Raise? <==> old(closing || stopRequested) || pauseRequested
      ensures old(closing || stopRequested) ==> pauseRequested == old(pauseRequested)
    {
      s := Checkpoint();
      if s.Pass? && pauseRequested { s := Raise(StopSeen); }
    }

    /** `update_publication`. A root goes back to a reopened state only once the code takes every request for it for
      * rejected.
      */
    method Update(r: RootId, state: PublicationState) returns (s: Status)
      requires Valid() && r < |states|
      requires Requestable(state) ==> Settled(puts, r)
      modifies this`states, this`past
      ensures Valid() && |states| == |old(states)| && forall i | 0 <= i < |states| && i != r :: states[i] == old(states)[i]
      ensures s.Pass? ==> states == old(states)[r := state] && Allowed(old(states)[r], state)
      ensures s.Raise? && !s.exn.Crashed? ==> states == old(states)
      ensures s.Raise? ==> s.exn.Crashed? || (s.exn.JobStopped? && stopRequested) || (s.exn.Refused? && !Allowed(states[r], state))
      ensures states[r] == old(states)[r] || (states[r] == state && Allowed(old(states)[r], state))
    {
      var early: bool, late: bool := *, *;
      if early { return Raise(Crashed); }
      if stopRequested { return Raise(JobStopped); }
      if !Allowed(states[r], state) { return Raise(Refused); }
      ghost var s0, s1 := Scene(states, puts), Scene(states[r := state], puts);
      assert Writes(s0, s1, r, state);
      Goes(s1);
      states, past := states[r := state], past + [s1];
      return if late then Raise(Crashed) else Pass;
    }

    /** One more step of the run. */
    lemma Goes(s': Scene)
      requires Valid() && Step(Scene(states, puts), s', proper)
      ensures History(past + [s'], proper) && SceneOk(s', proper)
    {
      StepKeeps(Scene(states, puts), s', proper);
      var more := past + [s'];
      forall i | 0 < i < |more| ensures Step(more[i - 1], more[i], proper) {
        if i < |past| { assert Step(past[i - 1], past[i], proper); }
      }
    }

    /** `before_publish`: the intent is saved between two looks at the stop request. */
    method BeforePublish(r: RootId) returns (s: Status)
      requires Valid() && r < |states| && !states[r].Published?
      modifies this`states, this`past, this`closing, this`stopRequested, this`pauseRequested, this`shared, this`marks
      ensures Valid() && |states| == |old(states)| && forall i | 0 <= i < |states| && i != r :: states[i] == old(states)[i]
      ensures s.Pass? ==> states[r].Intent? && Cleared(marks)
      ensures s.Raise? ==> s.exn.Crashed? || s.exn.StopSeen? || s.exn.JobStopped?
      ensures Justified(s)
      ensures states[r] == old(states)[r] || states[r].Intent?
    {
      s := PausePoint();
      if s.Raise? { return; }
      :- Update(r, Intent);
      s := Checkpoint();
    }

    /** `_publication_metadata` and `_check_publication_node`. */
    method ReadMetadata(r: RootId) returns (s: Status, key: bool)
      requires r < |states|
      ensures s.Raise? ==> s.exn.Crashed? || (s.exn.Raised? && !s.exn.err.uncertain)
      ensures key <==> r in shared
    {
      var dies: bool, failure: Option<Error> := *, *;
      key := r in shared;
      if dies { return Raise(Crashed), key; }
      if failure.Some? && !failure.value.uncertain { return Raise(Raised(failure.value)), key; }
      return Pass, key;
    }

    /** One PUT. `None` when no response came. The request is recorded before anything else can happen. */
    method Send(r: RootId) returns (s: Status, status: Option<int>)
      requires Valid() && r < |states| && states[r].Intent? && Settled(puts, r) && Cleared(marks)
      modifies this`puts, this`past, this`closing, this`marks, this`shared, this`stopRequested, this`pauseRequested
      ensures Valid()
      ensures exists answer :: puts == old(puts) + [Put(r, answer)] && (s.Pass? ==> answer == status)
      ensures s.Raise? ==> s.exn.Crashed?
    {
      var dies: bool, lost: bool, code: int := *, *, *;
      status := if dies || lost || !HttpStatus(code) || (proper && Odd(code)) then None else Some(code);
      ghost var s0, s1 := Scene(states, puts), Scene(states, puts + [Put(r, status)]);
      assert Requests(s0, s1, r, status, proper);
      Goes(s1);
      puts, marks, past := puts + [Put(r, status)], marks + [Mark.Send], past + [s1];
      assert marks[..|marks| - 1] == old(marks);
      if dies { return Raise(Crashed), status; }
      Interfere();
      return Pass, status;
    }

    /** The token is fetched or refreshed; a failure is an authentication error. */
    method Token() returns (s: Status)
      ensures s.Raise? ==> s.exn.Crashed?
                           || (s.exn.Raised? && !s.exn.err.uncertain && s.exn.err.auth && !s.exn.err.denied)
    {
      var dies: bool, rejected: bool := *, *;
      if dies { return Raise(Crashed); }
      if rejected { return Raise(Raised(Error(SourceError, false, true, false))); }
      return Pass;
    }

    /** `ensure_publication`. An error that is not uncertain leaves no unsettled request behind. `trouble` is the error of
      * a read before any request.
      */
    method EnsurePublication(r: RootId, known: PublicationState)
      returns (s: Status, result: Result, ghost trouble: Option<Error>)
      requires Valid() && r < |states| && states[r] == known
      modifies this
      ensures Valid() && |states| == |old(states)| && forall i | 0 <= i < |states| && i != r :: states[i] == old(states)[i]
      ensures Justified(s) && (s.Raise? ==> Ended(s.exn))
      ensures s.Pass? ==> if result.Existing? then r in old(shared) && puts == old(puts) && states == old(states)
                          else |puts| > |old(puts)| && puts[|puts| - 1].answer == Some(200)
                               && Requestable(known) && states[r].Intent?
      ensures SentFor(old(puts), puts, r)
      ensures s.Raise? && s.exn.Raised? && |puts| > |old(puts)| ==>
                states[r].Intent? && (s.exn.err.uncertain <==> LeavesOpen(puts[|puts| - 1].answer))
                && (!s.exn.err.uncertain ==> (s.exn.err.auth <==> puts[|puts| - 1].answer == Some(401)) && !s.exn.err.denied)
      ensures s.Raise? && s.exn.Raised? && |puts| == |old(puts)| ==>
                states == old(states)
                && if trouble.Some? then s.exn.err == trouble.value && !s.exn.err.uncertain
                   else if s.exn.err.uncertain then r in old(unknown) || known.Intent? else known.Published?
      ensures r in old(unknown) ==> puts == old(puts) && states == old(states)
      ensures s.Raise? && s.exn.Raised? && s.exn.err.uncertain ==> states[r].Intent? || r in old(unknown)
      ensures s.Pass? ==> r in keys && r !in unknown && r in shared
      ensures s.Raise? && s.exn.Raised? && !s.exn.err.uncertain && Requestable(known) ==>
                Settled(puts, r) && (states[r] == known || states[r].Intent?)
      ensures !Requestable(known) ==> puts == old(puts) && states == old(states)
    {
      result, trouble := Existing, None;
      var key: bool;
      s, key := ReadMetadata(r);
      if s.Raise? { trouble := if s.exn.Raised? then Some(s.exn.err) else None; return; }
      if key {
        keys, unknown := keys + {r}, unknown - {r};
        return;
      }
      if r in unknown || known.Intent? { s := Raise(Raised(Error(OutcomeUnknownCode, true, false, false))); return; }
      if known.Published? { s := Raise(Raised(Error(SourceError, false, false, false))); return; }
      s := Token();
      if s.Raise? { trouble := if s.exn.Raised? then Some(s.exn.err) else None; return; }
      var status: Option<int>;
      s, status := Submit(r);
      if s.Raise? { return; }
      s := Judge(r, status);
      if s.Raise? { return; }
      result := JustPublished;
      ghost var unread: bool;
      s, unread := Confirm(r);
    }

    /** At most two requests: the second one only after the first was rejected for its token. */
    method Submit(r: RootId) returns (s: Status, status: Option<int>)
      requires Valid() && r < |states| && Requestable(states[r])
      modifies this
      ensures Valid() && |states| == |old(states)| && forall i | 0 <= i < |states| && i != r :: states[i] == old(states)[i]
      ensures states[r] == old(states)[r] || states[r].Intent?
      ensures s.Pass? ==> states[r].Intent? && (status.Some? && Reading(status.value).Denied? ==> Settled(puts, r))
      ensures Justified(s) && (s.Raise? ==> Ended(s.exn))
      ensures s.Raise? && s.exn.Raised? && !s.exn.err.uncertain ==> Settled(puts, r)
      ensures keys == old(keys) && SentFor(old(puts), puts, r)
      ensures s.Pass? ==> |puts| > |old(puts)| && status.Some? && puts[|puts| - 1].answer == status
                          && (status.value == 401 ==> |puts| == |old(puts)| + 2)
      ensures s.Raise? && s.exn.Raised? ==>
                states[r].Intent? && |puts| > |old(puts)|
                && puts[|puts| - 1].answer == (if s.exn.err.uncertain then None else Some(401))
                && (s.exn.err.auth <==> !s.exn.err.uncertain) && !s.exn.err.denied
    {
      assert Settled(puts, r) by {
        forall i | 0 <= i < |puts| && puts[i].root == r ensures Discounted(puts[i]) { assert Recorded(states, puts[i]); }
      }
      hide History, Step, SceneOk, MarksOk, Cleared, Settled, Discounted;
      status := None;
      var refresh := 0;
      while true
        invariant Valid() && |states| == |old(states)| && refresh <= 1 && keys == old(keys)
        invariant forall i | 0 <= i < |states| && i != r :: states[i] == old(states)[i]
        invariant states[r] == old(states)[r] || states[r].Intent?
        invariant !states[r].Published? && Settled(puts, r)
        invariant if refresh == 0 then puts == old(puts) else puts == old(puts) + [Put(r, Some(401))] && states[r].Intent?
        decreases 2 - refresh
      {
        s, status := Request(r);
        if s.Raise? { return; }
        if status.None? {
          unknown := unknown + {r};
          s := Raise(Raised(Error(OutcomeUnknownCode, true, false, false)));
          return;
        }
        if status.value != 401 || refresh == 1 { return; }
        s := Token();
        if s.Raise? { return; }
        refresh := refresh + 1;
      }
    }

    /** One request, with the checkpoint and the intent before it and once more behind it. */
    method Request(r: RootId) returns (s: Status, status: Option<int>)
      requires Valid() && r < |states| && !states[r].Published? && Settled(puts, r)
      modifies this`states, this`puts, this`past, this`closing, this`marks, this`shared, this`stopRequested, this`pauseRequested
      ensures Valid() && |states| == |old(states)| && forall i | 0 <= i < |states| && i != r :: states[i] == old(states)[i]
      ensures states[r] == old(states)[r] || states[r].Intent?
      ensures s.Pass? ==> states[r].Intent? && puts == old(puts) + [Put(r, status)] && Cleared(marks)
      ensures s.Pass? && status.Some? && Reading(status.value).Denied? ==> Settled(puts, r)
      ensures s.Raise? ==> s.exn.Crashed? || s.exn.StopSeen? || s.exn.JobStopped?
      ensures Justified(s)
      ensures puts == old(puts) || exists answer :: puts == old(puts) + [Put(r, answer)]
    {
      hide History, Step, SceneOk, MarksOk, Cleared;
      status := None;
      s := BeforePublish(r);
      if s.Raise? { return; }
      s, status := Send(r);
      if s.Raise? { return; }
      assert status.Some? && Reading(status.value).Denied? ==> Settled(puts, r);
      s := BeforePublish(r);
    }

    /** The last response decides whether the outcome is known. */
    method Judge(r: RootId, status: Option<int>) returns (s: Status)
      requires Valid()
      modifies this`unknown
      ensures Valid()
      ensures s.Pass? <==> status.Some? && Reading(status.value).Answered?
      ensures s.Raise? ==> s.exn.Raised? && (s.exn.err.uncertain <==> status.None? || Reading(status.value).Unclear?)
      ensures s.Raise? && s.exn.err.uncertain ==> r in unknown
      ensures s.Raise? ==> (s.exn.err.auth <==> status == Some(401)) && !s.exn.err.denied
    {
      if status.None? || Reading(status.value).Unclear? {
        unknown := unknown + {r};
        return Raise(Raised(Error(OutcomeUnknownCode, true, false, false)));
      }
      if Reading(status.value).Denied? { return Raise(Raised(Error(SourceError, false, status.value == 401, false))); }
      return Pass;
    }

    /** A success counts only when the public key can be read. */
    method Confirm(r: RootId) returns (s: Status, ghost unread: bool)
      requires Valid() && r < |states|
      modifies this`keys, this`unknown
      ensures Valid()
      ensures s.Pass? ==> r in keys && r !in unknown && r in shared
      ensures s.Raise? ==> s.exn.Crashed? || (s.exn.Raised? && s.exn.err.uncertain)
      ensures s.Raise? ==> unread || r !in shared
    {
      unknown := unknown + {r};
      var key: bool;
      s, key := ReadMetadata(r);
      unread := s.Raise?;
      if s.Raise? {
        if s.exn.Raised? { s := Raise(Raised(Error(OutcomeUnknownCode, true, s.exn.err.auth, false))); }
        return;
      }
      if !key { s := Raise(Raised(Error(OutcomeUnknownCode, true, false, false))); return; }
      keys, unknown := keys + {r}, unknown - {r};
    }

    /** The root is one to publish. */
    predicate Asked(r: RootId, wanted: set<RootId>, download: Option<RootId>) {
      r in wanted && (download.None? || download.value == r)
    }

    /** `_prepare_publications` over the roots `wanted`; `download` is the root of the file about to be fetched.
      * When it passes for a download, or with retries enabled, every wanted root is published. No other root is
      * touched, and unless the pass is cut short at a root, a root is only left with an intent for a request that was
      * not rejected.
      */
    method Prepare(wanted: set<RootId>, download: Option<RootId>, retryEnabled: bool)
      returns (s: Status, ghost at: RootId)
      requires Valid()
      modifies this
      ensures Valid() && |states| == |old(states)| && |old(puts)| <= |puts| && puts[..|old(puts)|] == old(puts)
      ensures Justified(s)
      ensures s.Pass? && (retryEnabled || download.Some?) ==>
                forall r: RootId | r < |states| && Asked(r, wanted, download) ::
                  states[r].Published? && (download.Some? ==> r in keys)
      ensures forall r: RootId | r < |states| && !Asked(r, wanted, download) :: states[r] == old(states)[r]
      ensures forall i | |old(puts)| <= i < |puts| ::
                puts[i].root < |states| && Asked(puts[i].root, wanted, download) && Requestable(old(states)[puts[i].root])
      ensures forall r: RootId | r < |states| && states[r].Intent? && Settled(puts, r) && !(Cut(s) && r == at) :: old(states)[r].Intent?
    {
      var r: RootId := 0;
      hide Settled, Asked, Requestable;
      while r < |states|
        invariant Valid() && |states| == |old(states)| && r <= |states|
        invariant |old(puts)| <= |puts| && puts[..|old(puts)|] == old(puts)
        invariant retryEnabled || download.Some? ==>
          forall i: RootId | i < r && Asked(i, wanted, download) :: states[i].Published? && (download.Some? ==> i in keys)
        invariant forall i: RootId | i < |states| && !Asked(i, wanted, download) :: states[i] == old(states)[i]
        invariant forall i: RootId | r <= i < |states| :: states[i] == old(states)[i]
        invariant forall i | |old(puts)| <= i < |puts| ::
          puts[i].root < |states| && Asked(puts[i].root, wanted, download) && Requestable(old(states)[puts[i].root])
        invariant forall i: RootId | i < r && states[i].Intent? && Settled(puts, i) :: old(states)[i].Intent?
      {
        var known := states[r];
        var skip := !Asked(r, wanted, download) || (known.Published? && (download.None? || r in keys));
        at := r;
        if !skip {
          ghost var sent := puts;
          ghost var end: Option<Status>;
          s, end := PublishOne(r, known, download.None? && !retryEnabled);
          SettledBefore(sent, puts, r);
          if s.Raise? { return; }
        }
        r := r + 1;
      }
      s, at := Pass, 0;
    }

    /** A later request for one root changes nothing for the others. */
    lemma SettledBefore(before: seq<Put>, after: seq<Put>, r: RootId)
      requires SentFor(before, after, r)
      ensures forall i: RootId | Settled(after, i) :: Settled(before, i)
      ensures |before| <= |after| && after[..|before|] == before
      ensures forall i | |before| <= i < |after| :: after[i].root == r
    {
      assert forall i | 0 <= i < |before| :: after[i] == after[..|before|][i];
    }

    /** One root. A request that was rejected for certain opens the root again; with `tolerant` the next root is then
      * looked at. `end` is how the call ended, if it was made.
      */
    method PublishOne(r: RootId, known: PublicationState, tolerant: bool) returns (s: Status, ghost end: Option<Status>)
      requires Valid() && r < |states| && states[r] == known
      modifies this
      ensures Valid() && |states| == |old(states)| && forall i | 0 <= i < |states| && i != r :: states[i] == old(states)[i]
      ensures SentFor(old(puts), puts, r)
      ensures Justified(s)
      ensures end.None? ==> s == Raise(StopSeen) && states == old(states) && puts == old(puts)
      ensures end == Some(Pass) ==> if s.Pass? || s.exn.StopSeen? then states[r].Published? && r in keys else Cut(s)
      ensures end == Some(Pass) && s.Pass? ==> !pauseRequested
      ensures end.Some? && Cut(end.value) ==> s == end.value
      ensures end.Some? && end.value.Raise? && end.value.exn.Raised? && !Cut(s) ==>
                var err := end.value.exn.err;
                && s == (if tolerant && (!err.auth || err.denied) then Pass else end.value)
                && (!err.uncertain && Requestable(known) ==> states[r].FailedRoot?)
                && (err.uncertain && Requestable(known) ==> (states[r].Intent? && !Settled(puts, r)) || r in old(unknown))
      ensures !Requestable(known) ==> puts == old(puts) && (states == old(states) || states[r].Published?)
      ensures !Cut(s) && states[r].Intent? && Settled(puts, r) ==> known.Intent?
    {
      end := None;
      ghost var trouble: Option<Error>;
      s := PausePoint();
      if s.Raise? { return; }
      var result: Result;
      s, result, trouble := EnsurePublication(r, known);
      end := Some(s);
      if s.Raise? && s.exn.Raised? {
        var err := s.exn.err;
        if !err.uncertain && Requestable(known) { :- Update(r, FailedRoot); }
        s := if tolerant && (!err.auth || err.denied) then Pass else Raise(Raised(err));
        return;
      }
      if s.Raise? { return; }
      if !known.Published? { :- Update(r, Published); }
      s := PausePoint();
    }

    /** The process, or only its client, starts anew. */
    method Restart()
      requires Valid()
      modifies this`keys, this`unknown, this`closing
      ensures Valid() && keys == {} && unknown == {} && !closing
    {
      keys, unknown, closing := {}, {}, false;
    }

    /** Any number of passes over any roots, with restarts and crashes anywhere. `cut` are the roots at which a pass was
      * cut short.
      */
    method Run(rounds: nat) returns (ghost cut: set<RootId>)
      requires Valid()
      modifies this
      ensures Valid() && |states| == |old(states)|
      ensures forall r: RootId | r < |states| && states[r].Intent? && Settled(puts, r) :: r in cut || old(states)[r].Intent?
    {
      cut := {};
      for i := 0 to rounds
        invariant Valid() && |states| == |old(states)|
        invariant forall r: RootId | r < |states| && states[r].Intent? && Settled(puts, r) :: r in cut || old(states)[r].Intent?
      {
        var wanted: set<RootId>, download: Option<RootId>, enabled: bool, restart: bool := *, *, *, *;
        ghost var sent := puts;
        ghost var at: RootId;
        var s;
        s, at := Prepare(wanted, download, enabled);
        if Cut(s) { cut := cut + {at}; }
        assert forall r: RootId | Settled(puts, r) :: Settled(sent, r) by {
          assert forall i | 0 <= i < |sent| :: puts[i] == puts[..|sent|][i];
        }
        if restart || (s.Raise? && s.exn.Crashed?) { Restart(); }
        Interfere();
      }
    }
  }

  /** Whatever the publisher does with crashes and restarts anywhere is a run. A request follows one that may have
    * taken effect exactly when it follows one that was answered oddly, and never if no response is odd; a root with
    * a request that the code does not take for rejected is left with an intent or as published. A root whose requests
    * were all rejected is open again or published, unless a pass was cut short at it: `cut` are these roots.
    */
  method WholeRun(roots: nat, shared: set<RootId>, proper: bool, rounds: nat)
    returns (p: Publisher, ghost cut: set<RootId>)
    ensures History(p.past, proper) && p.past[|p.past| - 1] == Scene(p.states, p.puts)
    ensures proper ==> NeverRepeated(p.puts)
    ensures NeverRepeated(p.puts) <==>
              forall i, j | 0 <= i < j < |p.puts| && p.puts[i].root == p.puts[j].root :: !OddlyAnswered(p.puts[i])
    ensures forall i | 0 <= i < |p.puts| && !Discounted(p.puts[i]) ::
              p.puts[i].root < |p.states| && (p.states[p.puts[i].root].Intent? || p.states[p.puts[i].root].Published?)
    ensures forall r: RootId | r < |p.states| && (forall i | 0 <= i < |p.puts| && p.puts[i].root == r :: Rejected(p.puts[i])) ::
              Requestable(p.states[r]) || p.states[r].Published? || r in cut
    ensures MarksOk(p.marks)
  {
    p := new Publisher(roots, shared, proper);
    cut := p.Run(rounds);
    forall i | 0 <= i < |p.puts|
      ensures p.puts[i].answer.Some? ==> HttpStatus(p.puts[i].answer.value)
      ensures !Discounted(p.puts[i]) ==>
                p.puts[i].root < |p.states| && (p.states[p.puts[i].root].Intent? || p.states[p.puts[i].root].Published?)
    {
      assert Recorded(p.states, p.puts[i]);
    }
    RepeatedExactly(p.puts);
  }
}
