/** `_file`: one pass over a file entry, from the source check to the verified destination. */
module Transfer {
  import opened Rows
  import opened Transactions
  import opened World
  import opened Effects
  import opened Landing
  import opened Session
  import opened Destination
  import opened Staging
  import opened Faults

  /** A scheduled download that a switch may just have cancelled. */
  lemma ResumeGuard(w: World, w': World, e: EntryId, a: AttemptId)
    requires Inv(w) && Inv(w') && Mine(w, e, a) && w.attempts[a].phase.DownloadRetryWait?
    requires Env(SetEntry(w, e, w.entries[e].(retryAt := None)), w') && StableFor(w, w', e)
    ensures Mine(w', e, a) && Carries(w, w', e)
    ensures AttemptGuard(w', a, w'.attempts[a].(phase := Prepared))
  {
    var mid := SetEntry(w, e, w.entries[e].(retryAt := None));
    assert AttemptInv(w, a) && AttemptInv(w', a);
    assert EnvAttempt(mid.attempts[a], w'.attempts[a]) && EnvEntry(mid.entries[e], w'.entries[e]);
    assert KeepsState(mid, w', e);
  }

  /** The entry of a pass, after the checkpoint it starts with. */
  lemma CheckedEntry(w: World, w': World, e: EntryId, point: bool)
    requires Env(w, w') && Work(w, e)
    requires w.entries[e].attempt.Some? ==>
      var a := w.entries[e].attempt.value;
      && Mine(w, e, a)
      && (point ==> !w.attempts[a].phase.Failed? && !w.attempts[a].phase.DownloadRetryWait?)
      && (w.attempts[a].phase.Failed? || w.attempts[a].phase.DownloadRetryWait? || Held(w, e, a, point))
    ensures Work(w', e) && Carries(w, w', e) && w'.entries[e].attempt == w.entries[e].attempt
    ensures w.entries[e].attempt.Some? ==>
      var a := w.entries[e].attempt.value;
      && Mine(w', e, a) && EnvAttempt(w.attempts[a], w'.attempts[a])
      && (point ==> !w'.attempts[a].phase.Failed?)
      && (w'.attempts[a].phase.Failed? || w'.attempts[a].phase.DownloadRetryWait? || Held(w', e, a, point))
  {
    EnvStable(w, w');
    assert EnvEntry(w.entries[e], w'.entries[e]) && KeepsState(w, w', e);
    assert NotRequested(w, e) ==> NotRequested(w', e);
    if w.entries[e].attempt.Some? {
      var a := w.entries[e].attempt.value;
      assert Mine(w', e, a) && EnvAttempt(w.attempts[a], w'.attempts[a]);
    }
  }

  datatype Next = GoOnFrom | CheckFinal | Over

  predicate Comparable(look: Look) {
    look.Seen? && look.node.Some? && look.hashed
  }

  /** The planned content was seen. */
  predicate Matches(row: Entry, look: Look) {
    Comparable(look) && Same(row, look.node)
  }

  /** A look at a remote path, and the check of the source that belongs to it. */
  datatype Evidence = Evidence(look: Look, check: Check)

  const NO_EVIDENCE := Evidence(Unseen, Unchecked)

  const MISMATCH := Error(VerificationMismatch, false, false, false)

  const CONFLICT := Error(DestinationConflict, false, false, false)

  const REMOTE_FAILURE := Error(RemoteOperationFailed, false, false, false)

  /** The planned content was seen at the destination, and the source still has it. */
  predicate Proven(row: Entry, e: EntryId, ev: Evidence) {
    Matches(row, ev.look) && ev.look.at == Dest(e) && Unaltered(row, ev.check)
  }

  /** How a pass that ends with `ev` leaves the entry: with success exactly when that proves it. What could not be
    * compared or no longer is the planned file is given up.
    */
  ghost predicate Ends(w: World, e: EntryId, ev: Evidence) {
    && e < |w.entries|
    && var row, phase := w.entries[e], PhaseOf(w, e);
    if Proven(row, e, ev) then if row.attempt.None? then row.state.AlreadyVerified? else row.state.Done? && phase.Succeeded?
    else
      && !phase.Succeeded? && (row.attempt.None? ==> !row.state.AlreadyVerified? && !row.state.Done?)
      && (ev.look.Seen? && !Comparable(ev.look) ==> row.state.VerificationUnavailable? && phase.Failed?)
      && (ev.check.BySource? && !Unaltered(row, ev.check) ==>
            row.state == ReasonOf(row) && (row.attempt.Some? ==> phase.Failed?))
  }

  /** What `ev` has to do with the way a pass ends: other content is reported as such, and any other error came before
    * the look, or between a look at the planned content and the check of the source.
    */
  predicate Reported(row: Entry, ev: Evidence, s: Status) {
    && (Comparable(ev.look) && !Matches(row, ev.look) ==> s == Raise(Raised(MISMATCH)))
    && (s.Raise? && s.exn.Raised? ==>
          ev.check.Unchecked? && (ev.look.Seen? ==> Comparable(ev.look) && (Matches(row, ev.look) || s.exn.err == MISMATCH)))
  }

  /** A file without an attempt, or with one that has just failed, was given up. */
  lemma GivenUpEnds(w: World, e: EntryId, row: Entry, a: AttemptId, ev: Evidence)
    requires e < |w.entries| && SamePlan(row, w.entries[e]) && Stands(w, e, w.entries[e].state, Some(a), Failed)
    requires if ev.look.Seen? && !Comparable(ev.look)
             then ev.check.Unchecked? && w.entries[e].state.VerificationUnavailable?
             else ev.check.BySource? && !Unaltered(row, ev.check) && w.entries[e].state == ReasonOf(row)
    ensures Ends(w, e, ev)
  {
  }

  /** The phase in which `_logged` leaves an attempt after an error of its upload: one that is certain, and not about
    * credentials, settles it. (An exception that nobody classified is not its business.)
    */
  function LoggedUpload(p: Phase, err: Error): Phase {
    if !err.uncertain && !err.auth && !err.code.InternalError? then Failed else p
  }

  /** The error that a failed attempt is reported with again. */
  function FailureOf(row: Attempt): Error {
    Error(if row.error.Some? then row.error.value else InternalError, false, false, false)
  }

  /** What the response to a submission comes to, once `_logged` and `_failure` have seen it. An upload leaves a
    * failed attempt, from which a plain retry starts over, exactly when the response proves that the file was refused
    * and is not about credentials, and an abandoned one otherwise. A move leaves a failed attempt only when the path
    * is taken, because `_logged` does not look at it.
    */
  lemma AnswerSettles(status: int)
    requires HttpStatus(status)
    ensures var o := StatusError(status, {201, 202}, true);
            && (o.None? <==> status == 201 || status == 202)
            && (o.Some? ==>
                  var sent := FailedPhase(LoggedUpload(TransferIntent, o.value), o.value);
                  && (sent.Failed? <==> 400 <= status < 500 && status != 401 && status != 403)
                  && (!sent.Failed? ==> sent.AbandonedTransfer?)
                  && var moved := FailedPhase(Phase.MoveIntent, o.value);
                     (moved.Failed? <==> status == 409) && (!moved.Failed? ==> moved.AbandonedMove?))
  {
  }

  /** An attempt that is over, and whose local copy is of no more use. */
  predicate Spent(t: Tables, a: AttemptId, successesOnly: bool) {
    && a < |t.attempts| && HasEntry(t, t.attempts[a].entry)
    && var phase, state := t.attempts[a].phase, t.entries[t.attempts[a].entry].state;
    && (phase.Succeeded? || phase.Failed? || (AbandonedPhase(phase) && Success(state)))
    && !Active(state) && !state.OutcomeUnknown? && (!successesOnly || Success(state))
  }

  /** Nothing changed but what requests and late effects may do, and that spent attempts lost their copies. */
  ghost predicate Tidied(w: World, w': World, successesOnly: bool) {
    && |w'.entries| == |w.entries| && |w'.attempts| == |w.attempts|
    && (forall e: EntryId | e < |w.entries| :: TidyEntry(w, w', e))
    && (forall a: AttemptId | a < |w.attempts| :: TidyAttempt(w, w', a, successesOnly))
  }

  ghost predicate TidyEntry(w: World, w': World, e: EntryId)
    requires e < |w.entries| == |w'.entries|
  {
    && EnvEntry(w.entries[e], w'.entries[e]) && KeepsDelivery(w, w', e)
    && (w'.entries[e].state == w.entries[e].state || (!Success(w.entries[e].state) && w'.entries[e].state.FailedEntry?))
  }

  ghost predicate TidyAttempt(w: World, w': World, a: AttemptId, successesOnly: bool)
    requires a < |w.attempts| == |w'.attempts|
  {
    var r, r' := w.attempts[a], w'.attempts[a];
    && EnvAttempt(r.(local := r'.local), r')
    && (r'.local != r.local ==> r'.local.None? && Spent(TablesOf(w'), a, successesOnly))
  }

  lemma SpentStays(w: World, w': World, a: AttemptId, successesOnly: bool)
    requires Tidied(w, w', successesOnly) && Spent(TablesOf(w), a, successesOnly)
    ensures Spent(TablesOf(w'), a, successesOnly)
  {
    assert TidyAttempt(w, w', a, successesOnly) && TidyEntry(w, w', w.attempts[a].entry);
  }

  lemma TidiedTransitive(w: World, w1: World, w2: World, successesOnly: bool)
    requires Tidied(w, w1, successesOnly) && Tidied(w1, w2, successesOnly)
    ensures Tidied(w, w2, successesOnly)
  {
    forall e: EntryId | e < |w.entries| ensures TidyEntry(w, w2, e) {
      assert TidyEntry(w, w1, e) && TidyEntry(w1, w2, e);
    }
    forall a: AttemptId | a < |w.attempts| ensures TidyAttempt(w, w2, a, successesOnly) {
      assert TidyAttempt(w, w1, a, successesOnly) && TidyAttempt(w1, w2, a, successesOnly);
      if w1.attempts[a].local != w.attempts[a].local { SpentStays(w1, w2, a, successesOnly); }
    }
  }

  /** One spent attempt loses its copy, and requests and late effects come in between. */
  lemma TidiedNext(w: World, w': World, n: Name, a: AttemptId, successesOnly: bool)
    requires Spent(TablesOf(w), a, successesOnly)
    requires Env(SetAttempt(RemoveCopy(w, n), a, w.attempts[a].(local := None)), w')
    ensures Tidied(w, w', successesOnly) && |w'.attempts| == |w.attempts| && w'.attempts[a].local.None?
  {
    var mid := SetAttempt(RemoveCopy(w, n), a, w.attempts[a].(local := None));
    forall e: EntryId | e < |w.entries| ensures TidyEntry(w, w', e) {
      assert EnvEntry(mid.entries[e], w'.entries[e]) && KeepsState(mid, w', e) && KeepsDelivery(mid, w', e);
    }
    assert EnvAttempt(mid.attempts[a], w'.attempts[a]);
    forall i: AttemptId | i < |w.attempts| ensures TidyAttempt(w, w', i, successesOnly) {
      assert EnvAttempt(mid.attempts[i], w'.attempts[i]);
      if i == a { assert TidyEntry(w, w', w.attempts[a].entry); }
    }
  }

  /** The spent ones among the first `k` attempts have lost their copies. */
  ghost predicate NoneLeft(w: World, w': World, k: nat, successesOnly: bool) {
    forall a: AttemptId | a < k && Spent(TablesOf(w), a, successesOnly) ::
      a < |w'.attempts| && w'.attempts[a].local.None?
  }

  lemma NoneLeftYet(w: World, successesOnly: bool)
    ensures NoneLeft(w, w, 0, successesOnly)
  {
  }

  lemma NoneLeftNext(w: World, w1: World, w2: World, k: nat, successesOnly: bool)
    requires NoneLeft(w, w1, k, successesOnly) && Tidied(w, w1, successesOnly) && Tidied(w1, w2, successesOnly)
    requires k < |w.attempts|
    requires Spent(TablesOf(w1), k, successesOnly) ==> w2.attempts[k].local.None?
    ensures NoneLeft(w, w2, k + 1, successesOnly)
  {
    forall a: AttemptId | a < k + 1 && Spent(TablesOf(w), a, successesOnly)
      ensures a < |w2.attempts| && w2.attempts[a].local.None?
    {
      assert TidyAttempt(w1, w2, a, successesOnly);
      SpentStays(w, w1, a, successesOnly);
    }
  }

  lemma TidiedReflexive(w: World, successesOnly: bool)
    ensures Tidied(w, w, successesOnly)
  {
  }

  /** Tidying up does not touch a delivered file. */
  lemma TidiedDelivered(w: World, w': World, e: EntryId)
    requires Tidied(w, w', true) && e < |w.entries| && Success(w.entries[e].state) && Delivered(w, e)
    requires w.entries[e].attempt.Some? ==>
               w.entries[e].attempt.value < |w.attempts| && w.attempts[w.entries[e].attempt.value].phase.Succeeded?
    ensures PassOver(w', e) && SamePlan(w.entries[e], w'.entries[e])
    ensures Stands(w', e, w.entries[e].state, w.entries[e].attempt, Succeeded)
    ensures w.entries[e].attempt.Some? ==>
              var a := w.entries[e].attempt.value;
              w.attempts[a].entry == e && NoneLeft(w, w', |w.attempts|, true) ==>
                a < |w'.attempts| && w'.attempts[a].local.None?
  {
    assert TidyEntry(w, w', e);
    if w.entries[e].attempt.Some? { assert TidyAttempt(w, w', w.entries[e].attempt.value, true); }
  }

  /** The attempt of a file that was given up has failed. */
  lemma GivenUpOver(w: World, w': World, e: EntryId, a: AttemptId, row: Attempt)
    requires a < |w.attempts| && Undisturbed(SetAttempt(w, a, row), w', e, a) && row.phase.Failed?
    requires GivenUp(w.entries[e].state)
    ensures PassOver(w', e)
  {
  }

  /** A file at the destination may stem from an upload of ours that a point retry has given up or is asked for. */
  predicate Ours(t: Tables, e: EntryId, origin: Option<AttemptId>)
    requires HasEntry(t, e)
  {
    && t.job.direct && t.entries[e].pointRequested
    && exists i | 0 <= i < |t.attempts| ::
         var row := t.attempts[i];
         && row.entry == e && (t.entries[e].attempt != Some(i) || origin == Some(i)) && row.remote == Dest(e)
         && (row.phase.AbandonedTransfer? || row.phase.UnknownTransfer? || row.phase.TransferIntent?
             || row.phase.WaitingTransfer?)
  }

  class FileTransfer {
    const d: Session
    const stager: Stager
    const handler: Handler

    constructor (d: Session)
      ensures this.d == d && stager.d == d && handler.d == d
    {
      this.d := d;
      stager := new Stager(d);
      handler := new Handler(d);
    }

    ghost predicate Ready()
      reads d, d.store, d.watch
    {
      stager.d == d && handler.d == d && d.Valid()
    }

    /** An upload to the destination of `e`, by an attempt that is not the current one or is `origin`, may have put the
      * file there.
      */
    predicate MayBeOurs(e: EntryId, origin: Option<AttemptId>)
      requires e < |d.store.entries|
      reads d, d.store, d.watch
    {
      Ours(d.store.Rows(), e, origin)
    }

    /** `_point_overwrite`. The attempt that the point retry was asked for is on record outside the rows. */
    method PointOverwrite(e: EntryId) returns (overwrite: bool)
      requires e < |d.store.entries|
      ensures MayBeOurs(e, None) ==> overwrite
      ensures overwrite ==> MayBeOurs(e, d.store.entries[e].attempt)
    {
      var origin: Option<AttemptId> := *;
      return MayBeOurs(e, origin);
    }

    /** The current attempt of `e` was not submitted yet. */
    predicate Unsent(e: EntryId)
      requires e < |d.store.entries|
      reads d, d.store, d.watch
    {
      var attempt := d.store.entries[e].attempt;
      attempt.Some? && attempt.value < |d.store.attempts| && PreSubmit(d.store.attempts[attempt.value].phase)
    }

    /** `check_destination`: the file there is the planned one, or there is none that is in the way. */
    method CheckDestination(e: EntryId) returns (s: Status, found: bool, ghost look: Look)
      requires Ready() && e < |d.store.entries|
      modifies d, d.store
      ensures Ready() && Env(old(d.W()), d.W()) && (s.Raise? ==> LookError(s.exn))
      ensures s.Pass? ==> look.Seen? && look.at == Dest(e) && found == Matches(d.plan[e], look)
      ensures s.Pass? && !found ==> look.node.None? || (look.node.value.Bytes? && MayBeOurs(e, d.store.entries[e].attempt))
      ensures look.Seen? && s.Raise? ==>
                s == Raise(Raised(CONFLICT)) && look.node.Some? && !Matches(d.plan[e], look)
                && (look.node.value.Folder? || !MayBeOurs(e, None))
      ensures s.Pass? && found ==> Delivered(d.W(), e)
      ensures s.Pass? && !found && Unsent(e) ==> Clear(d.W(), e)
      ensures old(d.store.job.fullStop) ==> s == Raise(StopSeen)
      ensures d.Justified(s)
    {
      hide Inv, Env, Stable;
      found, look := false, Unseen;
      ghost var w := d.W();
      s := d.Enter(false);
      if s.Raise? { return; }
      ghost var w1 := d.W();
      EnvSizes(w, w1);
      var node: Option<Node>, hashed: bool;
      s, node, hashed, look := d.Stat(e, Dest(e));
      EnvTransitive(w, w1, d.W());
      EnvSizes(w, d.W());
      if s.Raise? { return; }
      if node.None? { return; }
      if !hashed || !Same(d.store.entries[e], node) {
        var overwrite := PointOverwrite(e);
        if !node.value.Bytes? || !overwrite { s := Raise(Raised(Error(DestinationConflict, false, false, false))); }
        if overwrite && Unsent(e) { RoomOfPoint(d.W(), e); }
        return;
      }
      found := true;
    }

    /** `_destination_available`: who the client is and what the root is, the first with `_identity`. `awaited` says
      * that an upload is waited for.
      */
    method DestinationAvailable(awaited: bool := false) returns (s: Status, ghost answers: nat)
      requires Ready()
      modifies d, d.store
      ensures Ready() && Env(old(d.W()), d.W()) && (s.Raise? ==> LookError(s.exn))
      ensures s.Raise? && s.exn.Raised? && Malformed(s.exn.err) ==> !(awaited && d.guarded)
      ensures s.Pass? ==> answers == 2
      ensures old(d.store.job.fullStop) ==> s == Raise(StopSeen)
      ensures d.Justified(s)
    {
      hide Inv, Env, Stable;
      answers := 0;
      ghost var w, first, second := d.W(), false, false;
      s := d.Enter(false);
      if s.Raise? { return; }
      s, first := d.Read({200}, awaited && d.guarded);
      if s.Raise? { return; }
      ghost var w1 := d.W();
      s := d.Checkpoint();
      EnvTransitive(w, w1, d.W());
      if s.Raise? { return; }
      s, second := d.Read({200, 404}, awaited && d.guarded);
      if s.Raise? { return; }
      var unusable: bool := *;
      if unusable { s := Raise(Raised(Error(DestinationOutage, false, false, false))); return; }
      answers := (if first then 1 else 0) + if second then 1 else 0;
    }

    /** The part of `_file` before the first attempt of an entry. */
    method Begin(e: EntryId) returns (s: Status, next: Next, a: AttemptId, ghost ev: Evidence)
      requires Ready() && Work(d.W(), e) && d.store.entries[e].attempt.None? && NotRequested(d.W(), e)
      modifies d, d.store
      ensures Ready() && (s.Raise? ==> Fault(old(d.W()), d.W(), e, s.exn, false))
      ensures s.Pass? ==> !next.CheckFinal?
      ensures s.Pass? && next.Over? ==> PassOver(d.W(), e) && Ends(d.W(), e, ev)
      ensures s.Pass? ==>
                ev.check.BySource? && (ev.look.Seen? <==> Unaltered(d.plan[e], ev.check))
                && (next.Over? <==> ev.look.Unseen? || Proven(d.plan[e], e, ev))
      ensures s.Pass? && next.GoOnFrom? ==>
                Held(d.W(), e, a, false) && StaysUnasked(old(d.W()), d.W(), e) && d.store.attempts[a].phase.Prepared?
                && d.store.entries[e].state.Transferring?
      ensures d.Justified(s)
    {
      hide Inv, Env, Stable, StableFor, OthersIdle, Unfinished, Steady, Trouble, Kept, Delivered, Held;
      next, a, ev := Over, 0, NO_EVIDENCE;
      ghost var w := d.W();
      s := d.Enter(false);
      EntryGoesOn(w, d.W(), e);
      if s.Raise? { return; }
      ghost var w1 := d.W();
      EnvReflexive(w1);
      var same: bool;
      ghost var check: Check;
      s, same, check := stager.Current(e);
      ev := Evidence(Unseen, check);
      if s.Raise? {
        if s.exn.Raised? { NewTrouble(w, d.W(), e, s.exn.err, false); }
        return;
      }
      if !same { return; }
      var found: bool;
      ghost var look: Look;
      s, found, look := CheckDestination(e);
      ev := Evidence(look, check);
      EnvTransitive(w, w1, d.W());
      EntryGoesOn(w, d.W(), e);
      if s.Raise? { if s.exn.Raised? { NewTrouble(w, d.W(), e, s.exn.err, false); } return; }
      if found {
        s := Confirm(e);
        return;
      }
      w1 := d.W();
      s := d.Checkpoint();
      EnvTransitive(w, w1, d.W());
      EntryGoesOn(w, d.W(), e);
      if s.Raise? { return; }
      w1 := d.W();
      s, a := Create(e);
      if s.Pass? { next := GoOnFrom; } else { FaultTransitive(w, w1, d.W(), e, s.exn, false); }
    }

    method Confirm(e: EntryId) returns (s: Status)
      requires Ready() && Work(d.W(), e) && d.store.entries[e].attempt.None? && Delivered(d.W(), e)
      modifies d, d.store
      ensures Ready() && (s.Raise? ==> s.exn.Crashed?)
      ensures s.Pass? ==> PassOver(d.W(), e) && d.store.entries[e].attempt.None? && d.store.entries[e].state.AlreadyVerified?
    {
      s := d.SaveSuccess(e, d.store.entries[e].(state := AlreadyVerified));
    }

    method Create(e: EntryId) returns (s: Status, a: AttemptId)
      requires Ready() && Work(d.W(), e) && d.store.entries[e].attempt.None? && NotRequested(d.W(), e)
      modifies d, d.store
      ensures Ready() && (s.Raise? ==> s.exn.Crashed? || s.exn.JobStopped?)
      ensures s.Pass? ==>
                Held(d.W(), e, a, false) && StaysUnasked(old(d.W()), d.W(), e) && d.store.attempts[a].phase.Prepared?
                && d.store.entries[e].state.Transferring? && a == |old(d.store.attempts)|
      ensures d.Justified(s)
    {
      hide Inv, Env, Stable, StableFor, OthersIdle, Unfinished, Steady, Kept;
      s, a := d.CreateAttempt(e, false, false);
      if s.Raise? { return; }
      Settled(d.W(), a);
      s := d.KeepEntry(e, a, d.store.entries[e].(state := Transferring));
    }

    /** The checks of `_file` before a copy is fetched. */
    method Prepare(e: EntryId, a: AttemptId, point: bool) returns (s: Status, next: Next, ghost ev: Evidence)
      requires Ready() && Held(d.W(), e, a, point) && Fetchable(d.store.attempts[a].phase)
      modifies d, d.store
      ensures Ready() && (s.Raise? ==> Fault(old(d.W()), d.W(), e, s.exn, point))
      ensures s.Pass? && !next.Over? ==> Held(d.W(), e, a, point) && Carries(old(d.W()), d.W(), e)
      ensures s.Pass? && next.CheckFinal? ==> d.store.attempts[a].phase.VerifyingFinal?
      ensures s.Pass? && next.Over? ==> PassOver(d.W(), e) && Ends(d.W(), e, Evidence(Unseen, ev.check))
      ensures s.Pass? && next.GoOnFrom? ==>
                Fetchable(d.store.attempts[a].phase) && d.store.entries[e].planned.Some? && Clear(d.W(), e)
                && (d.store.job.direct ==> Housed(d.W(), e, d.below))
      ensures s.Pass? ==>
                var row := d.plan[e];
                && (ev.look.Seen? <==> old(d.store.job.direct)) && (next.CheckFinal? <==> Matches(row, ev.look))
                && (!next.CheckFinal? ==> !ev.check.Unchecked? && (next.GoOnFrom? <==> Unaltered(row, ev.check)))
      ensures d.Justified(s)
    {
      hide Inv, Env, Stable, StableFor, OthersIdle, Unfinished, Steady, Trouble, Kept, Ends, Housed;
      next, ev := Over, NO_EVIDENCE;
      ghost var w := d.W();
      EnvReflexive(w);
      Settled(w, a);
      if d.store.job.direct {
        var found: bool;
        ghost var look: Look;
        s, found, look := CheckDestination(e);
        ev := Evidence(look, Unchecked);
        Looked(w, d.W(), e, a, if s.Raise? then s.exn else Crashed, point);
        if s.Raise? { return; }
        if found {
          Settled(d.W(), a);
          s := Advance(e, a, VerifyingFinal, point);
          next := CheckFinal;
          return;
        }
      }
      ghost var w1 := d.W();
      Looked(w, w1, e, a, Crashed, point);
      Settled(w1, a);
      var same: bool;
      ghost var check: Check;
      s, same, check := CheckSource(e, a, point);
      ev := Evidence(ev.look, check);
      if s.Raise? { FaultTransitive(w, w1, d.W(), e, s.exn, point); return; }
      if !same { return; }
      ghost var w2 := d.W();
      s := EnterDirectory(e, a, point, d.store.job.direct);
      if s.Raise? { FaultTransitive(w, w2, d.W(), e, s.exn, point); return; }
      next := GoOnFrom;
    }

    /** The attempt proceeds to a phase from which nothing is submitted any more. */
    method Advance(e: EntryId, a: AttemptId, phase: Phase, point: bool) returns (s: Status)
      requires Ready() && Held(d.W(), e, a, point) && !PreSubmit(phase) && !PreMove(phase) && !phase.Failed?
      requires !d.store.attempts[a].phase.Failed?
      requires InFlight(d.W(), a) ==> !phase.VerifyingFinal? && !phase.Succeeded?
      modifies d, d.store
      ensures Ready() && (s.Raise? ==> s.exn.Crashed?)
      ensures s.Pass? ==> Held(d.W(), e, a, point) && Carries(old(d.W()), d.W(), e)
      ensures s.Pass? ==> Undisturbed(SetAttempt(old(d.W()), a, old(d.store.attempts)[a].(phase := phase)), d.W(), e, a)
    {
      hide Inv, Env, Stable, StableFor, OthersIdle, Unfinished, Steady, Kept;
      s := d.KeepLater(e, a, d.store.attempts[a].(phase := phase));
    }

    /** `check_source`; a file that changed fails the attempt. */
    method CheckSource(e: EntryId, a: AttemptId, point: bool) returns (s: Status, same: bool, ghost check: Check)
      requires Ready() && Held(d.W(), e, a, point) && !InFlight(d.W(), a)
      modifies d, d.store
      ensures Ready() && (s.Raise? ==> Fault(old(d.W()), d.W(), e, s.exn, point))
      ensures s.Pass? ==> !check.Unchecked? && same == Unaltered(d.plan[e], check)
      ensures s.Raise? && s.exn.Raised? ==> check.Unchecked?
      ensures check.ByCopy? ==> old(d.store.entries[e].pointRequested && stager.LocalMatches(d.store.attempts[a].local, e))
      ensures s.Pass? && same ==> Held(d.W(), e, a, point) && Undisturbed(old(d.W()), d.W(), e, a)
                                  && d.store.entries[e].planned.Some?
      ensures s.Pass? && !same ==>
                PassOver(d.W(), e) && Stands(d.W(), e, ReasonOf(d.plan[e]), Some(a), Failed)
                && Ends(d.W(), e, Evidence(Unseen, check))
      ensures d.Justified(s)
    {
      hide Inv, Env, Stable, StableFor, OthersIdle, Unfinished, Steady, Trouble, Kept;
      same, check := false, Unchecked;
      ghost var w := d.W();
      s := d.Enter(false);
      Looked(w, d.W(), e, a, if s.Raise? then s.exn else Crashed, point);
      if s.Raise? { return; }
      ghost var w1 := d.W();
      s, same, check := stager.CurrentOrCache(e, a);
      if s.Raise? {
        if s.exn.Raised? { HeldTrouble(d.W(), e, a, s.exn.err, point); }
        return;
      }
      if same { return; }
      KeptParts(w1, d.W(), e, a);
      s := GiveUp(e, a);
      if s.Pass? { GivenUpEnds(d.W(), e, d.plan[e], a, Evidence(Unseen, check)); }
    }

    /** The attempt ends without a submission that could still land. */
    method GiveUp(e: EntryId, a: AttemptId) returns (s: Status)
      requires Ready() && Mine(d.W(), e, a) && !InFlight(d.W(), a) && GivenUp(d.store.entries[e].state)
      modifies d, d.store
      ensures Ready() && (s.Raise? ==> s.exn.Crashed?)
      ensures s.Pass? ==> PassOver(d.W(), e)
                          && Stands(d.W(), e, old(d.store.entries)[e].state, Some(a), Failed)
    {
      hide Inv, Env, Stable, StableFor, OthersIdle, Unfinished, Steady, Kept;
      ghost var w := d.W();
      var row := d.store.attempts[a].(phase := Failed, error := Some(SourceError));
      s := d.KeepLater(e, a, row);
      if s.Pass? { GivenUpOver(w, d.W(), e, a, row); }
    }

    /** `_ensure_dir` for the parent of a path: an unconfirmed directory is no unknown transfer. */
    method EnterDirectory(e: EntryId, a: AttemptId, point: bool, final: bool) returns (s: Status)
      requires Ready() && Held(d.W(), e, a, point) && !InFlight(d.W(), a)
      modifies d, d.store
      ensures Ready() && (s.Raise? ==> Fault(old(d.W()), d.W(), e, s.exn, point))
      ensures s.Pass? ==> Held(d.W(), e, a, point) && Undisturbed(old(d.W()), d.W(), e, a)
      ensures s.Pass? && final ==> Housed(d.W(), e, d.below)
      ensures d.Justified(s)
    {
      hide Inv, Env, Stable, StableFor, OthersIdle, Unfinished, Steady, Trouble, Kept, Housed;
      ghost var w := d.W();
      s := MakeDirectory(e, final);
      Looked(w, d.W(), e, a, if s.Raise? then s.exn else Crashed, point);
      if s.Raise? && s.exn.Raised? { HeldTrouble(d.W(), e, a, s.exn.err, point); }
    }

    method MakeDirectory(e: EntryId, final: bool) returns (s: Status)
      requires Ready() && e < |d.store.entries|
      modifies d, d.store
      ensures Ready() && Env(old(d.W()), d.W())
      ensures s.Raise? ==> s.exn.Crashed? || s.exn.StopSeen? || DirectoryError(s.exn)
      ensures s.Pass? && final ==>
                Housed(d.W(), e, d.below) && (d.store.entries[e].kind.Dir? ==> Delivered(d.W(), e))
      ensures s.Raise? && s.exn.Raised? ==> Interrupted(s.exn.err) || !s.exn.err.uncertain
      ensures d.Justified(s)
    {
      hide Inv, Stable, Delivered, Housed;
      ghost var w := d.W();
      s := d.Checkpoint();
      if s.Raise? { return; }
      ghost var w1 := d.W();
      s := d.Enter(true);
      EnvTransitive(w, w1, d.W());
      if s.Raise? { return; }
      ghost var w2 := d.W();
      s := d.EnsureDir(e, final);
      EnvTransitive(w, w2, d.W());
      if s.Raise? && s.exn.Raised? && s.exn.err.uncertain && !Interrupted(s.exn.err) {
        s := Raise(Raised(Error(DirectoryPending, false, false, false)));
      }
    }

    /** `_stage` under `_logged`, with the handling of a failed download. */
    method Fetch(e: EntryId, a: AttemptId, point: bool)
      returns (s: Status, next: Next, n: Name, ghost got: Got, ghost trouble: Option<Error>, ghost at: World)
      requires Ready() && Held(d.W(), e, a, point) && Fetchable(d.store.attempts[a].phase)
      requires d.store.entries[e].planned.Some?
      modifies d, d.store
      ensures Ready() && (s.Raise? ==> Fault(old(d.W()), d.W(), e, s.exn, point))
      ensures s.Pass? ==> !next.CheckFinal?
      ensures s.Pass? && next.Over? ==> PassOver(d.W(), e) && Scheduled(d.W(), e)
      ensures s.Pass? && next.GoOnFrom? ==>
                Held(d.W(), e, a, point) && HasCopy(d.W(), e, a, n) && Carries(old(d.W()), d.W(), e)
      ensures s.Pass? && next.GoOnFrom? ==>
                got.Present? || (got.Streamed? && d.plan[e].planned == Some(got.content))
      ensures trouble.Some? ==> Explains(got, trouble.value, d.plan[e].planned)
      ensures s.Pass? ==> (next.Over? <==> trouble.Some?) && (next.Over? ==> Repeats(at, e, trouble.value))
      ensures s.Raise? && s.exn.Raised? ==> trouble == Some(s.exn.err) && !Repeats(at, e, s.exn.err)
      ensures d.Justified(s)
    {
      hide Inv, Env, Stable, StableFor, OthersIdle, Unfinished, Steady, Trouble, Kept, Repeats, Explains, PassOver, Scheduled, HasCopy;
      next, n, got, trouble, at := Over, 0, NoRoom, None, d.W();
      ghost var w := d.W();
      s := d.Enter(false);
      Looked(w, d.W(), e, a, if s.Raise? then s.exn else Crashed, point);
      if s.Raise? { return; }
      ghost var w1 := d.W();
      s, n, got := stager.Stage(e, a);
      if s.Raise? && !s.exn.Raised? { return; }
      trouble := if s.Raise? then Some(s.exn.err) else None;
      StableParts(w1, d.W(), e, a);
      Settled(d.W(), a);
      if s.Pass? { next := GoOnFrom; return; }
      s, at := FetchFailed(e, a, s.exn.err, point);
    }

    /** A download that failed is scheduled again, or its error goes on. */
    method FetchFailed(e: EntryId, a: AttemptId, err: Error, point: bool) returns (s: Status, ghost at: World)
      requires Ready() && Held(d.W(), e, a, point) && Fetchable(d.store.attempts[a].phase) && !err.uncertain
      requires err.auth || err.code.SourceDownload? ==> a !in d.purged
      modifies d, d.store
      ensures Ready() && (s.Raise? ==> Fault(old(d.W()), d.W(), e, s.exn, point))
      ensures s.Pass? ==> PassOver(d.W(), e) && Scheduled(d.W(), e) && Repeats(at, e, err)
      ensures s.Raise? && s.exn.Raised? ==> s.exn.err == err && !Repeats(at, e, err)
      ensures d.Justified(s)
    {
      hide Inv, Env, Stable, StableFor, OthersIdle, Unfinished, Steady, Trouble, Kept, Repeats, PassOver, Scheduled;
      ghost var w := d.W();
      var scheduled: bool;
      s, scheduled, at := stager.DownloadFailure(e, a, err);
      if s.Raise? || scheduled { return; }
      StableParts(w, d.W(), e, a);
      Settled(d.W(), a);
      HeldTrouble(d.W(), e, a, err, point);
      s := Raise(Raised(err));
    }

    /** `upload_file` under `_logged`: a submission known to have failed fails the attempt. */
    method Upload(e: EntryId, a: AttemptId, n: Name, point: bool)
      returns (s: Status, accepted: bool, ghost answer: Option<Answer>)
      requires Ready() && Held(d.W(), e, a, point) && HasCopy(d.W(), e, a, n) && Clear(d.W(), e)
      modifies d, d.store
      ensures Ready() && (s.Raise? ==> Fault(old(d.W()), d.W(), e, s.exn, point))
      ensures s.Pass? ==> Mine(d.W(), e, a) && StaysUnasked(old(d.W()), d.W(), e)
                          && d.store.attempts[a].phase.TransferIntent? && (accepted || a !in d.uploads) && d.puts[a] == 1
      ensures EndsWith(answer, s, accepted)
      ensures s.Raise? && s.exn.Raised? ==>
                a < |d.store.attempts|
                && d.store.attempts[a].phase == LoggedUpload(if answer.Some? then TransferIntent else Staged, s.exn.err)
      ensures d.Justified(s)
    {
      hide Inv, Env, Stable, StableFor, OthersIdle, Unfinished, Steady, Trouble, Kept;
      ghost var w := d.W();
      Settled(w, a);
      s, accepted, answer := Submit(e, a, n);
      if s.Raise? && s.exn.Raised? {
        var err := s.exn.err;
        SubmitTrouble(w, d.W(), e, a, err, point);
        if LoggedUpload(TransferIntent, err).Failed? {
          ghost var w1 := d.W();
          s := MarkFailed(e, a, err.code);
          if s.Raise? { return; }
          MarkedTrouble(w1, d.W(), e, a, err, point);
          s := Raise(Raised(err));
        }
      }
    }

    method MarkFailed(e: EntryId, a: AttemptId, code: Code) returns (s: Status)
      requires Ready() && Mine(d.W(), e, a) && !InFlight(d.W(), a)
      modifies d, d.store
      ensures Ready() && (s.Raise? ==> s.exn.Crashed?)
      ensures s.Pass? ==> Carries(old(d.W()), d.W(), e)
      ensures s.Pass? ==>
                var row := old(d.store.attempts)[a].(phase := Failed, error := Some(code));
                Undisturbed(SetAttempt(old(d.W()), a, row), d.W(), e, a)
    {
      hide Inv, Env, Stable, StableFor, OthersIdle, Unfinished, Steady, Kept;
      s := d.KeepLater(e, a, d.store.attempts[a].(phase := Failed, error := Some(code)));
    }

    /** `destination.upload`: the link is asked for, the intent saved, and then the file sent. */
    method Submit(e: EntryId, a: AttemptId, n: Name) returns (s: Status, accepted: bool, ghost answer: Option<Answer>)
      requires Ready() && HasCopy(d.W(), e, a, n) && Clear(d.W(), e)
      modifies d, d.store
      ensures Ready() && (s.Raise? ==> !s.exn.JobStopped? && !s.exn.Refused?)
      ensures s.Pass? || s.exn.Raised? ==> Submitted(old(d.W()), d.W(), e, a)
      ensures s.Pass? ==> d.store.attempts[a].phase.TransferIntent? && (accepted || a !in d.uploads) && d.puts[a] == 1
      ensures s.Raise? && s.exn.Raised? ==>
                (s.exn.err.uncertain || a !in d.uploads) && (s.exn.err.code.DestinationConflict? ==> !s.exn.err.uncertain)
      ensures EndsWith(answer, s, accepted)
      ensures s.Pass? || s.exn.Raised? ==>
                d.puts == old(d.puts) + if answer.Some? && !answer.value.Unsent? then multiset{a} else multiset{}
      ensures s.Raise? && s.exn.Raised? ==>
                a < |d.store.attempts| && d.store.attempts[a].phase == if answer.Some? then TransferIntent else Staged
      ensures d.Justified(s)
    {
      hide Inv, Env, Stable, StableFor, OthersIdle, Unfinished, Steady, Kept;
      accepted, answer := false, None;
      ghost var w := d.W();
      var content := d.staging[n];
      Settled(w, a);
      s := d.Enter(true);
      GoOn(w, d.W(), e, a);
      if s.Raise? { return; }
      s := GetLink();
      if s.Raise? { return; }
      ghost var w1 := d.W();
      var reference: bool := *;
      s := SaveIntent(e, a, n, reference);
      if s.Raise? { return; }
      ghost var sent: Answer;
      s, accepted, sent := d.PutFile(e, a, content, reference);
      answer := Some(sent);
    }

    /** The answer to a submission, if one was tried, decides how it ends; before that there are only errors. */
    ghost predicate EndsWith(answer: Option<Answer>, s: Status, accepted: bool) {
      if answer.Some? then AnswerEnds(answer.value, s, accepted) || s == Raise(Crashed) else s.Raise?
    }

    /** The copy is opened and the upload link is read. */
    method GetLink() returns (s: Status)
      ensures s.Raise? ==> s.exn.Crashed? || (s.exn.Raised? && !s.exn.err.uncertain)
      ensures d.Justified(s)
    {
      var missing: bool, invalid: bool := *, *;
      if missing { return Raise(Raised(Error(StagingError, false, false, false))); }
      ghost var answered: bool;
      s, answered := d.Read({200});
      if s.Raise? { return; }
      if invalid { return Raise(Raised(Error(SourceError, false, false, false))); }
      s := Pass;
    }

    /** `before_upload`: the intent is saved, and a stop is looked for once more. */
    method SaveIntent(e: EntryId, a: AttemptId, n: Name, reference: bool) returns (s: Status)
      requires Ready() && HasCopy(d.W(), e, a, n)
      modifies d, d.store
      ensures Ready() && (s.Raise? ==> s.exn.Crashed? || s.exn.StopSeen?)
      ensures s.Pass? ==> Submitted(old(d.W()), d.W(), e, a) && Carries(old(d.W()), d.W(), e) && Cleared(d.marks)
                          && d.store.attempts[a].phase.TransferIntent? && d.puts[a] == 0 && a !in d.uploads
                          && d.store.entries[e].planned == Some(old(d.staging)[n]) && d.puts == old(d.puts)
      ensures d.Justified(s)
    {
      hide Inv, Env, Stable, StableFor, OthersIdle, Unfinished, Steady, Kept;
      Settled(d.W(), a);
      :- d.KeepLater(e, a, d.store.attempts[a].(phase := TransferIntent, operation := reference));
      ghost var w1 := d.W();
      :- d.Checkpoint();
      GoOn(w1, d.W(), e, a);
      s := Pass;
    }

    /** What the response of the upload meant is saved, for the attempt and then for the entry. */
    method RecordUpload(e: EntryId, a: AttemptId, accepted: bool, point: bool) returns (s: Status)
      requires Ready() && Mine(d.W(), e, a) && d.store.attempts[a].phase.TransferIntent?
      requires accepted || a !in d.uploads
      modifies d, d.store
      ensures Ready() && (s.Raise? ==> s.exn.Crashed? || s.exn.StopSeen?)
      ensures s.Pass? ==>
                Held(d.W(), e, a, point) && Carries(old(d.W()), d.W(), e) && d.puts == old(d.puts)
                && d.store.attempts[a].phase == (if accepted then WaitingTransfer else Verifying)
                && d.store.entries[e].state == if accepted then WaitingOperation else Checking
      ensures d.Justified(s)
    {
      hide Inv, Env, Stable, StableFor, OthersIdle, Unfinished, Steady, Kept;
      Settled(d.W(), a);
      var row := d.store.attempts[a].(phase := if accepted then WaitingTransfer else Verifying, operation := accepted);
      :- d.KeepLater(e, a, row);
      s := RecordEntry(e, a, if accepted then WaitingOperation else Checking, point);
    }

    method RecordEntry(e: EntryId, a: AttemptId, state: EntryState, point: bool) returns (s: Status)
      requires Ready() && Mine(d.W(), e, a) && !PreSubmit(d.store.attempts[a].phase)
      requires !d.store.attempts[a].phase.Failed? && Active(state)
      modifies d, d.store
      ensures Ready() && (s.Raise? ==> s.exn.Crashed? || s.exn.StopSeen?)
      ensures s.Pass? ==> Held(d.W(), e, a, point) && Carries(old(d.W()), d.W(), e) && d.puts == old(d.puts)
                          && d.store.attempts[a].phase == old(d.store.attempts)[a].phase
                          && d.store.entries[e].state == state
      ensures d.Justified(s)
    {
      hide Inv, Env, Stable, StableFor, OthersIdle, Unfinished, Steady, Kept;
      :- d.KeepEntry(e, a, d.store.entries[e].(state := state));
      ghost var w2 := d.W();
      :- d.Checkpoint();
      GoOn(w2, d.W(), e, a);
      s := Pass;
    }

    /** The polling of an accepted operation. */
    method PollStage(e: EntryId, a: AttemptId, point: bool)
      returns (s: Status, next: Next, ghost answer: Option<Progress>)
      requires Ready() && Held(d.W(), e, a, point)
      requires d.store.attempts[a].phase.WaitingTransfer? || d.store.attempts[a].phase.WaitingMove?
      modifies d, d.store
      ensures Ready() && (s.Raise? ==> Fault(old(d.W()), d.W(), e, s.exn, point))
      ensures s.Pass? && next.Over? ==> PassOver(d.W(), e)
      ensures s.Pass? && !next.Over? ==> Held(d.W(), e, a, point) && Carries(old(d.W()), d.W(), e)
      ensures s.Pass? && next.GoOnFrom? ==> d.store.attempts[a].phase.Verifying?
      ensures s.Pass? && next.CheckFinal? ==> d.store.attempts[a].phase.VerifyingFinal?
      ensures s.Pass? ==> answer.Some? && !answer.value.Fails?
                          && next == if answer.value.InProgress? then Over
                                     else if old(d.store.attempts)[a].phase.WaitingMove? then CheckFinal else GoOnFrom
      ensures s.Pass? && next.Over? ==> Stands(d.W(), e, d.store.entries[e].state, Some(a), old(d.store.attempts)[a].phase)
      ensures answer == Some(Fails) && s.Raise? ==>
                s.exn.Crashed?
                || (s == Raise(Raised(REMOTE_FAILURE)) && !d.store.job.fullStop)
                || (s == Raise(StopSeen) && d.store.job.fullStop && Stands(d.W(), e, FailedEntry, Some(a), Failed))
      ensures s.Raise? && s.exn.Raised? && answer.Some? ==> answer.value.Fails?
      ensures d.Justified(s)
    {
      hide Inv, Env, Stable, StableFor, OthersIdle, Unfinished, Steady, Kept;
      next := Over;
      ghost var w := d.W();
      var result: Progress;
      ghost var before: nat;
      s, result, answer, before := PollOnce(a);
      Looked(w, d.W(), e, a, if s.Raise? then s.exn else Crashed, point);
      if s.Raise? && s.exn.Raised? && Malformed(s.exn.err) && !point {
        ghost var w1 := d.W();
        d.LetGo(a);
        LetGoHeld(w, w1, e, a, s.exn.err);
        return;
      }
      if s.Raise? || result.InProgress? { return; }
      ghost var w1 := d.W();
      var isMove := d.store.attempts[a].phase.WaitingMove?;
      if result.Fails? {
        var err := REMOTE_FAILURE;
        HeldTrouble(w1, e, a, err, point);
        s := Raise(Raised(err));
        if d.store.job.fullStop {
          // a full stop is also a stop: the checkpoint after the failure is recorded does not pass
          ghost var from: World;
          s, from := handler.FailFile(e, err);
          if s.Pass? { s := Raise(StopSeen); }
        }
        return;
      }
      s := Arrived(e, a, point);
      if s.Pass? { next := if isMove then CheckFinal else GoOnFrom; }
    }

    method PollOnce(a: AttemptId) returns (s: Status, result: Progress, ghost answer: Option<Progress>, ghost before: nat)
      requires Ready()
      modifies d, d.store
      ensures Ready() && Env(old(d.W()), d.W()) && (s.Raise? ==> LookError(s.exn))
      ensures s.Raise? && s.exn.Raised? && Malformed(s.exn.err) ==> !d.guarded
      ensures s.Pass? && !result.InProgress? ==> a !in d.uploads
      ensures (s.Pass? <==> answer.Some?) && (s.Pass? ==> answer == Some(result) && before == 2)
      ensures d.Justified(s)
    {
      hide Inv, Stable;
      result, answer, before := InProgress, None, 0;
      ghost var w := d.W();
      s := d.Checkpoint();
      if s.Raise? { return; }
      ghost var w1 := d.W();
      s, before := DestinationAvailable(true);
      EnvTransitive(w, w1, d.W());
      if s.Raise? { return; }
      ghost var w2 := d.W();
      s := d.Enter(false);
      EnvTransitive(w, w2, d.W());
      if s.Raise? { return; }
      ghost var w3 := d.W();
      s, result, answer := d.Poll(a);
      EnvTransitive(w, w3, d.W());
    }

    method Arrived(e: EntryId, a: AttemptId, point: bool) returns (s: Status)
      requires Ready() && Held(d.W(), e, a, point) && a !in d.uploads
      requires d.store.attempts[a].phase.WaitingTransfer? || d.store.attempts[a].phase.WaitingMove?
      modifies d, d.store
      ensures Ready() && (s.Raise? ==> s.exn.Crashed? || s.exn.StopSeen?)
      ensures s.Pass? ==> Held(d.W(), e, a, point) && Carries(old(d.W()), d.W(), e)
      ensures s.Pass? ==>
                d.store.attempts[a].phase == if old(d.store.attempts)[a].phase.WaitingMove? then VerifyingFinal else Verifying
      ensures d.Justified(s)
    {
      hide Inv, Env, Stable, StableFor, OthersIdle, Unfinished, Steady, Kept;
      var isMove := d.store.attempts[a].phase.WaitingMove?;
      if !isMove { WaitingUnmoved(d.W(), a); }
      var row := d.store.attempts[a].(phase := if isMove then VerifyingFinal else Verifying,
                                      operation := d.store.attempts[a].operation && d.store.job.fullStop);
      :- d.KeepLater(e, a, row);
      ghost var w1 := d.W();
      :- d.Checkpoint();
      GoOn(w1, d.W(), e, a);
      s := Pass;
    }

    /** `_verify`: the node at `p` has the planned content, or it has other content, or it cannot be compared. */
    method Verify(e: EntryId, a: AttemptId, p: Place, point: bool) returns (s: Status, next: Next, ghost look: Look)
      requires Ready() && Held(d.W(), e, a, point) && !InFlight(d.W(), a)
      modifies d, d.store
      ensures Ready() && (s.Raise? ==> Fault(old(d.W()), d.W(), e, s.exn, point))
      ensures s.Pass? ==> next == if Comparable(look) then GoOnFrom else Over
      ensures Matches(d.plan[e], look) ==> s.Pass?
      ensures s.Pass? || look.Seen? ==>
                look.Seen? && look.at == p && Reported(d.plan[e], Evidence(look, Unchecked), s)
      ensures s.Pass? && next.Over? ==> PassOver(d.W(), e) && Ends(d.W(), e, Evidence(look, Unchecked))
                                        && Stands(d.W(), e, VerificationUnavailable, Some(a), Failed)
      ensures s.Pass? && next.GoOnFrom? ==>
                Held(d.W(), e, a, point) && Undisturbed(old(d.W()), d.W(), e, a) && Matches(d.plan[e], look)
      ensures s.Pass? && next.GoOnFrom? && p == Dest(e) ==> Delivered(d.W(), e)
      ensures old(Delivered(d.W(), e)) && p == Dest(e) && Comparable(look) ==> Matches(d.plan[e], look)
      ensures d.Justified(s)
    {
      hide Inv, Env, Stable, StableFor, OthersIdle, Unfinished, Steady, Trouble, Kept;
      next, look := Over, Unseen;
      ghost var w := d.W();
      s := d.Enter(false);
      Looked(w, d.W(), e, a, if s.Raise? then s.exn else Crashed, point);
      if s.Raise? { return; }
      ghost var w1 := d.W();
      var node: Option<Node>, hashed: bool;
      StillDelivered(w, w1, e);
      s, node, hashed, look := d.Stat(e, p);
      EnvTransitive(w, w1, d.W());
      Looked(w, d.W(), e, a, if s.Raise? then s.exn else Crashed, point);
      if s.Raise? { return; }
      if node.None? || !hashed {
        s := Unverifiable(e, a);
        if s.Pass? { GivenUpEnds(d.W(), e, d.plan[e], a, Evidence(look, Unchecked)); }
        return;
      }
      if !Same(d.store.entries[e], node) {
        var err := Error(VerificationMismatch, false, false, false);
        HeldTrouble(d.W(), e, a, err, point);
        s := Raise(Raised(err));
        return;
      }
      next := GoOnFrom;
    }

    lemma StillDelivered(w: World, w': World, e: EntryId)
      requires Env(w, w') && e < |w.entries|
      ensures e < |w'.entries| && (Delivered(w, e) ==> Delivered(w', e)) && SamePlan(w.entries[e], w'.entries[e])
    {
      assert KeepsDelivery(w, w', e) && EnvEntry(w.entries[e], w'.entries[e]);
    }

    method Unverifiable(e: EntryId, a: AttemptId) returns (s: Status)
      requires Ready() && Mine(d.W(), e, a) && !InFlight(d.W(), a) && !d.store.attempts[a].phase.DownloadRetryWait?
      modifies d, d.store
      ensures Ready() && (s.Raise? ==> s.exn.Crashed?)
      ensures s.Pass? ==> PassOver(d.W(), e)
                          && Stands(d.W(), e, VerificationUnavailable, Some(a), Failed)
    {
      hide Inv, Env, Stable, StableFor, OthersIdle, Unfinished, Steady, Kept;
      :- d.KeepEntry(e, a, d.store.entries[e].(state := VerificationUnavailable));
      s := GiveUp(e, a);
    }

    /** The temporary file is verified and then moved to the destination. Nothing is moved unless the planned content
      * was seen there and the source still has it.
      */
    method MoveStage(e: EntryId, a: AttemptId, point: bool)
      returns (s: Status, next: Next, ghost ev: Evidence, ghost answer: Option<Answer>)
      requires Ready() && Held(d.W(), e, a, point) && d.store.attempts[a].phase.Verifying? && !d.store.job.direct
      modifies d, d.store
      ensures Ready() && (s.Raise? ==> Fault(old(d.W()), d.W(), e, s.exn, point))
      ensures s.Pass? ==> !next.GoOnFrom?
      ensures s.Pass? && next.Over? ==> PassOver(d.W(), e)
      ensures s.Pass? && next.CheckFinal? ==> Held(d.W(), e, a, point) && Carries(old(d.W()), d.W(), e)
                                              && d.store.attempts[a].phase.VerifyingFinal?
      ensures ev.look.Seen? ==> ev.look.at == old(d.store.attempts)[a].remote
      ensures answer.Some? ==>
                Matches(d.plan[e], ev.look) && Unaltered(d.plan[e], ev.check)
                && (EndsWith(answer, s, next.Over?) || s == Raise(StopSeen))
      ensures s.Pass? && answer.None? ==> next.Over? && Ends(d.W(), e, ev)
      ensures s.Pass? && answer.Some? && next.Over? ==> PhaseOf(d.W(), e).WaitingMove?
      ensures answer.None? ==> Reported(d.plan[e], Evidence(ev.look, Unchecked), s)
      ensures d.Justified(s)
    {
      hide Inv, Env, Stable, StableFor, OthersIdle, Unfinished, Steady, Trouble, Kept, Ends;
      ev, answer := NO_EVIDENCE, None;
      ghost var w := d.W();
      ghost var look: Look, check: Check;
      s, next, look := Verify(e, a, d.store.attempts[a].remote, point);
      ev := Evidence(look, Unchecked);
      if s.Raise? || next.Over? { return; }
      next := Over;
      ghost var w1 := d.W();
      var same: bool;
      s, same, check := CheckSource(e, a, point);
      ev := Evidence(look, check);
      if s.Raise? { FaultTransitive(w, w1, d.W(), e, s.exn, point); return; }
      if !same { GivenUpEnds(d.W(), e, d.plan[e], a, ev); return; }
      ghost var w2 := d.W();
      s := EnterDirectory(e, a, point, true);
      if s.Raise? { FaultTransitive(w, w2, d.W(), e, s.exn, point); return; }
      ghost var w3 := d.W();
      var accepted: bool;
      s, accepted, answer := Move(e, a, point);
      next := if accepted then Over else CheckFinal;
      if s.Raise? { FaultTransitive(w, w3, d.W(), e, s.exn, point); }
    }

    /** The intent is saved, the move is sent, and the answer is saved. */
    method Move(e: EntryId, a: AttemptId, point: bool)
      returns (s: Status, accepted: bool, ghost answer: Option<Answer>)
      requires Ready() && Held(d.W(), e, a, point) && d.store.attempts[a].phase.Verifying? && !d.store.job.direct
      requires Housed(d.W(), e, d.below)
      modifies d, d.store
      ensures Ready() && (s.Raise? ==> Fault(old(d.W()), d.W(), e, s.exn, point))
      ensures s.Pass? ==>
                Held(d.W(), e, a, point) && Carries(old(d.W()), d.W(), e) && d.moves[a] == 1
                && d.store.attempts[a].phase == if accepted then WaitingMove else VerifyingFinal
      ensures EndsWith(answer, s, accepted) || s == Raise(StopSeen)
      ensures d.Justified(s)
    {
      hide Inv, Env, Stable, StableFor, OthersIdle, Unfinished, Steady, Kept, Housed, Delivered, AnswerEnds;
      accepted, answer := false, None;
      :- MoveIntent(e, a);
      ghost var w1 := d.W();
      s := d.Enter(true);
      GoOn(w1, d.W(), e, a);
      if s.Raise? { return; }
      ghost var sent: Answer;
      s, accepted, sent := d.PostMove(e, a);
      answer := Some(sent);
      if s.Raise? { return; }
      s := RecordMove(e, a, accepted, point);
    }

    method RecordMove(e: EntryId, a: AttemptId, accepted: bool, point: bool) returns (s: Status)
      requires Ready() && Mine(d.W(), e, a) && !d.store.job.direct
      modifies d, d.store
      ensures Ready() && (s.Raise? ==> s.exn.Crashed? || s.exn.StopSeen?)
      ensures s.Pass? ==>
                Held(d.W(), e, a, point) && Carries(old(d.W()), d.W(), e) && d.moves == old(d.moves)
                && d.store.attempts[a].phase == if accepted then WaitingMove else VerifyingFinal
      ensures d.Justified(s)
    {
      hide Inv, Env, Stable, StableFor, OthersIdle, Unfinished, Steady, Kept;
      var row := d.store.attempts[a].(phase := if accepted then WaitingMove else VerifyingFinal, operation := accepted);
      :- d.KeepLater(e, a, row);
      ghost var w3 := d.W();
      :- d.Checkpoint();
      GoOn(w3, d.W(), e, a);
      s := Pass;
    }

    method MoveIntent(e: EntryId, a: AttemptId) returns (s: Status)
      requires Ready() && Mine(d.W(), e, a) && d.store.attempts[a].phase.Verifying? && !d.store.job.direct
      modifies d, d.store
      ensures Ready() && (s.Raise? ==> s.exn.Crashed? || s.exn.StopSeen?)
      ensures s.Pass? ==> Mine(d.W(), e, a) && Carries(old(d.W()), d.W(), e)
                          && d.store.attempts[a].phase.MoveIntent? && d.moves[a] == 0 && !d.store.job.direct
      ensures d.Justified(s)
    {
      hide Inv, Env, Stable, StableFor, OthersIdle, Unfinished, Steady, Kept;
      ghost var w := d.W();
      :- d.Checkpoint();
      GoOn(w, d.W(), e, a);
      ghost var w1 := d.W();
      Settled(w1, a);
      :- d.KeepLater(e, a, d.store.attempts[a].(phase := Phase.MoveIntent));
      s := d.KeepEntry(e, a, d.store.entries[e].(state := Committing));
    }

    /** The destination is verified, and the file is done: exactly when the planned content was seen there and the
      * source still has it.
      */
    method FinalStage(e: EntryId, a: AttemptId, point: bool) returns (s: Status, ghost ev: Evidence)
      requires Ready() && Held(d.W(), e, a, point)
      requires d.store.attempts[a].phase.VerifyingFinal? || d.store.attempts[a].phase.Succeeded?
      modifies d, d.store
      ensures Ready() && (s.Raise? ==> Fault(old(d.W()), d.W(), e, s.exn, point))
      ensures s.Pass? ==> PassOver(d.W(), e) && Ends(d.W(), e, ev)
      ensures s.Pass? || ev.look.Seen? ==> ev.look.Seen? && ev.look.at == Dest(e)
      ensures s.Pass? ==> Comparable(ev.look) ==> !ev.check.Unchecked?
      ensures s.Pass? && Proven(d.plan[e], e, ev) ==> a < |d.store.attempts| && d.store.attempts[a].local.None?
      ensures Reported(d.plan[e], ev, s)
      ensures old(Delivered(d.W(), e)) && Comparable(ev.look) ==> Matches(d.plan[e], ev.look)
      ensures d.Justified(s)
    {
      hide Inv, Env, Stable, StableFor, OthersIdle, Unfinished, Steady, Trouble, Kept, Ends;
      ghost var w := d.W();
      Settled(w, a);
      if d.store.attempts[a].phase.Succeeded? { SucceededSettled(w, e, a); }
      var next: Next;
      ghost var look: Look, check: Check;
      s, next, look := Verify(e, a, Dest(e), point);
      ev := Evidence(look, Unchecked);
      if s.Raise? || next.Over? { return; }
      ghost var w1 := d.W();
      var same: bool;
      s, same, check := CheckSource(e, a, point);
      ev := Evidence(look, check);
      if s.Raise? { FaultTransitive(w, w1, d.W(), e, s.exn, point); return; }
      if !same { GivenUpEnds(d.W(), e, d.plan[e], a, ev); return; }
      DeliveredOn(w1, d.W(), e, a);
      s := Finish(e, a);
      if s.Pass? {
        ghost var w2 := d.W();
        s := Cleanup(true);
        if s.Pass? {
          TidiedDelivered(w2, d.W(), e);
          DoneEnds(d.W(), e, d.plan[e], a, ev);
        }
      }
    }

    lemma DoneEnds(w: World, e: EntryId, row: Entry, a: AttemptId, ev: Evidence)
      requires e < |w.entries| && SamePlan(row, w.entries[e]) && Proven(row, e, ev)
      requires Stands(w, e, EntryState.Done, Some(a), Succeeded)
      ensures Ends(w, e, ev)
    {
    }

    method Finish(e: EntryId, a: AttemptId) returns (s: Status)
      requires Ready() && Mine(d.W(), e, a) && !d.store.attempts[a].phase.DownloadRetryWait?
      requires !InFlight(d.W(), a) && Delivered(d.W(), e)
      modifies d, d.store
      ensures Ready() && (s.Raise? ==> s.exn.Crashed?)
      ensures s.Pass? ==> e < |d.store.entries| && d.store.entries[e].state.Done? && Delivered(d.W(), e)
                          && d.store.entries[e].attempt == Some(a)
      ensures s.Pass? ==> a < |d.store.attempts| && d.store.attempts[a].phase.Succeeded? && d.store.attempts[a].entry == e
    {
      ghost var w := d.W();
      :- d.KeepLater(e, a, d.store.attempts[a].(phase := Succeeded, error := None));
      StableParts(w, d.W(), e, a);
      hide Inv, Env, OthersIdle, Unfinished, Steady, Kept;
      s := d.SaveSuccess(e, d.store.entries[e].(state := Done, retryAt := None));
    }

    /** `cleanup`: exactly the spent attempts lose their local copies. */
    method Cleanup(successesOnly: bool) returns (s: Status)
      requires Ready()
      modifies d, d.store
      ensures Ready() && (s.Raise? ==> s.exn.Crashed?)
      ensures s.Pass? ==> Tidied(old(d.W()), d.W(), successesOnly)
                          && NoneLeft(old(d.W()), d.W(), |old(d.store.attempts)|, successesOnly)
    {
      var count, i := |d.store.attempts|, 0;
      s := Pass;
      ghost var w := d.W();
      TidiedReflexive(w, successesOnly);
      NoneLeftYet(w, successesOnly);
      hide *;
      while i < count
        invariant Ready() && s.Pass? && i <= count == |d.store.attempts|
        invariant Tidied(w, d.W(), successesOnly) && NoneLeft(w, d.W(), i, successesOnly)
        decreases count - i
      {
        ghost var w1 := d.W();
        s := TidyOne(i, successesOnly);
        if s.Raise? { return; }
        NoneLeftNext(w, w1, d.W(), i, successesOnly);
        TidiedTransitive(w, w1, d.W(), successesOnly);
        i := i + 1;
      }
    }

    method TidyOne(i: AttemptId, successesOnly: bool) returns (s: Status)
      requires Ready() && i < |d.store.attempts|
      modifies d, d.store
      ensures Ready() && (s.Raise? ==> s.exn.Crashed?)
      ensures s.Pass? ==> Tidied(old(d.W()), d.W(), successesOnly) && |d.store.attempts| == |old(d.store.attempts)|
                          && (Spent(old(d.store.Rows()), i, successesOnly) ==> d.store.attempts[i].local.None?)
    {
      hide Inv, Env, Stable, Tidied;
      s := Pass;
      ghost var w := d.W();
      TidiedReflexive(w, successesOnly);
      if Spent(d.store.Rows(), i, successesOnly) && d.store.attempts[i].local.Some? {
        var n := d.store.attempts[i].local.value;
        :- d.RemoveFile(n);
        :- ForgetCopy(i);
        TidiedNext(w, d.W(), n, i, successesOnly);
      }
    }

    method ForgetCopy(i: AttemptId) returns (s: Status)
      requires Ready() && i < |d.store.attempts|
      requires !PreSubmit(d.store.attempts[i].phase)
      modifies d, d.store
      ensures Ready() && (s.Raise? ==> s.exn.Crashed?)
      ensures s.Pass? ==> Env(SetAttempt(old(d.W()), i, old(d.store.attempts)[i].(local := None)), d.W())
    {
      AttemptOf(d.W(), i);
      hide Inv, Env, AttemptGuard;
      s := d.SaveAttempt(i, d.store.attempts[i].(local := None));
    }

    /** From the checks before the download to the saved answer of the upload. */
    method SubmitStage(e: EntryId, a: AttemptId, point: bool)
      returns (s: Status, next: Next, ghost ev: Evidence, ghost answer: Option<Answer>)
      requires Ready() && Held(d.W(), e, a, point) && Fetchable(d.store.attempts[a].phase)
      modifies d, d.store
      ensures Ready() && (s.Raise? ==> Fault(old(d.W()), d.W(), e, s.exn, point))
      ensures s.Pass? && next.Over? ==> PassOver(d.W(), e)
      ensures s.Pass? && !next.Over? ==> Held(d.W(), e, a, point) && StaysUnasked(old(d.W()), d.W(), e)
      ensures s.Pass? && next.GoOnFrom? ==>
                (d.store.attempts[a].phase.WaitingTransfer? || d.store.attempts[a].phase.Verifying?) && d.puts[a] == 1
      ensures s.Pass? && next.CheckFinal? ==> d.store.attempts[a].phase.VerifyingFinal?
      ensures s.Pass? && next.Over? ==> Ends(d.W(), e, Evidence(Unseen, ev.check))
      ensures s.Pass? && next.CheckFinal? ==> old(d.store.job.direct) && Matches(d.plan[e], ev.look)
      ensures answer.Some? ==>
                Unaltered(d.plan[e], ev.check)
                && (old(d.store.job.direct) ==> ev.look.Seen? && !Matches(d.plan[e], ev.look))
      ensures s.Pass? && next.GoOnFrom? ==> answer.Some?
      ensures d.Justified(s)
    {
      hide Inv, Env, Stable, StableFor, OthersIdle, Unfinished, Steady, Trouble, Kept, Ends;
      answer := None;
      ghost var w := d.W();
      s, next, ev := Prepare(e, a, point);
      if s.Raise? || !next.GoOnFrom? { return; }
      ghost var w1 := d.W();
      var n: Name;
      ghost var got, trouble, at;
      s, next, n, got, trouble, at := Fetch(e, a, point);
      if s.Raise? { FaultTransitive(w, w1, d.W(), e, s.exn, point); return; }
      if next.Over? { UnseenEnds(d.W(), e, ev.check); return; }
      ghost var w2 := d.W();
      ghost var check: Check;
      s, next, check, answer := SendCopy(e, a, n, point);
      ev := Evidence(ev.look, check);
      if s.Raise? { FaultTransitive(w, w2, d.W(), e, s.exn, point); }
    }

    /** The source is checked once more, and the verified copy is sent. */
    method SendCopy(e: EntryId, a: AttemptId, n: Name, point: bool)
      returns (s: Status, next: Next, ghost check: Check, ghost answer: Option<Answer>)
      requires Ready() && Held(d.W(), e, a, point) && HasCopy(d.W(), e, a, n) && Clear(d.W(), e)
      modifies d, d.store
      ensures Ready() && (s.Raise? ==> Fault(old(d.W()), d.W(), e, s.exn, point))
      ensures s.Pass? ==> !next.CheckFinal?
      ensures s.Pass? && next.Over? ==> PassOver(d.W(), e)
      ensures s.Pass? && next.GoOnFrom? ==>
                Held(d.W(), e, a, point) && StaysUnasked(old(d.W()), d.W(), e) && d.puts[a] == 1
                && (d.store.attempts[a].phase.WaitingTransfer? || d.store.attempts[a].phase.Verifying?)
      ensures s.Pass? ==> next == if Unaltered(d.plan[e], check) then GoOnFrom else Over
      ensures s.Pass? && next.Over? ==> Ends(d.W(), e, Evidence(Unseen, check))
      ensures answer.Some? ==> Unaltered(d.plan[e], check)
                               && (EndsWith(answer, s, e < |d.store.entries| && PhaseOf(d.W(), e).WaitingTransfer?) || s == Raise(StopSeen))
      ensures s.Pass? && next.GoOnFrom? ==> answer.Some?
      ensures d.Justified(s)
    {
      hide Inv, Env, Stable, StableFor, OthersIdle, Unfinished, Steady, Trouble, Kept, Ends;
      next, answer := Over, None;
      ghost var w := d.W();
      Settled(w, a);
      var same: bool;
      s, same, check := CheckSource(e, a, point);
      if s.Raise? || !same { return; }
      ghost var w1 := d.W();
      s := d.Checkpoint();
      Looked(w1, d.W(), e, a, if s.Raise? then s.exn else Crashed, point);
      if s.Raise? { return; }
      ghost var w2 := d.W();
      var accepted: bool;
      s, accepted, answer := Upload(e, a, n, point);
      if s.Raise? { FaultTransitive(w, w2, d.W(), e, s.exn, point); return; }
      s := RecordUpload(e, a, accepted, point);
      if s.Pass? { next := GoOnFrom; }
    }

    /** From an accepted or finished upload to the verified destination. `ev` is what the pass ended with. */
    method Conclude(e: EntryId, a: AttemptId, point: bool) returns (s: Status, ghost ev: Evidence)
      requires Ready() && Held(d.W(), e, a, point)
      requires var p := d.store.attempts[a].phase;
               p.WaitingTransfer? || p.WaitingMove? || p.Verifying? || p.VerifyingFinal? || p.Succeeded?
      modifies d, d.store
      ensures Ready() && (s.Raise? ==> Fault(old(d.W()), d.W(), e, s.exn, point))
      ensures s.Pass? ==> PassOver(d.W(), e) && Ends(d.W(), e, ev)
      ensures Reported(d.plan[e], ev, s)
      ensures d.Justified(s)
    {
      hide Inv, Env, Stable, StableFor, OthersIdle, Unfinished, Steady, Trouble, Kept, Ends;
      ev := NO_EVIDENCE;
      ghost var w := d.W();
      s := Pass;
      if d.store.attempts[a].phase.WaitingTransfer? || d.store.attempts[a].phase.WaitingMove? {
        var next: Next;
        ghost var answer: Option<Progress>;
        s, next, answer := PollStage(e, a, point);
        if s.Raise? { return; }
        if next.Over? { UnseenEnds(d.W(), e, Unchecked); return; }
      }
      ghost var w1 := d.W();
      if d.store.attempts[a].phase.Verifying? {
        var next: Next;
        Settled(w1, a);
        if d.store.job.direct {
          s := Advance(e, a, VerifyingFinal, point);
          next := CheckFinal;
        } else {
          ghost var answer: Option<Answer>;
          s, next, ev, answer := MoveStage(e, a, point);
          if answer.Some? {
            ev := NO_EVIDENCE;
            if s.Pass? && next.Over? { UnseenEnds(d.W(), e, Unchecked); }
          } else if s.Raise? {
            ev := Evidence(ev.look, Unchecked);
          }
        }
        if s.Raise? { FaultTransitive(w, w1, d.W(), e, s.exn, point); return; }
        if next.Over? { return; }
      }
      ghost var w2 := d.W();
      s, ev := FinalStage(e, a, point);
      if s.Raise? { FaultTransitive(w, w2, d.W(), e, s.exn, point); }
    }

    /** Without a look at the destination nothing succeeds. */
    lemma UnseenEnds(w: World, e: EntryId, check: Check)
      requires e < |w.entries| && !PhaseOf(w, e).Succeeded? && w.entries[e].attempt.Some?
      requires check.BySource? ==> Unaltered(w.entries[e], check)
      ensures Ends(w, e, Evidence(Unseen, check))
    {
    }

    /** A scheduled download is due: the attempt starts over. */
    method Resume(e: EntryId, a: AttemptId, point: bool) returns (s: Status)
      requires Ready() && Mine(d.W(), e, a) && d.store.attempts[a].phase.DownloadRetryWait?
      modifies d, d.store
      ensures Ready() && (s.Raise? ==> s.exn.Crashed?)
      ensures s.Pass? ==> Held(d.W(), e, a, point) && Carries(old(d.W()), d.W(), e)
                          && d.store.attempts[a].phase.Prepared?
    {
      ghost var w := d.W();
      EntryOf(w, e);
      AttemptOf(w, a);
      Settled(w, a);
      :- d.SaveEntry(e, d.store.entries[e].(retryAt := None));
      ResumeGuard(w, d.W(), e, a);
      ghost var w1 := d.W();
      var row := d.store.attempts[a].(phase := Prepared);
      :- d.SaveAttempt(a, row);
      AttemptSaved(w1, a, row, d.W(), e);
      Settled(d.W(), a);
      s := Pass;
    }

    /** `_file`. An abandoned attempt is left alone: only a point retry takes it up. */
    method File(e: EntryId, point: bool) returns (s: Status, ghost ev: Evidence)
      requires Ready() && Work(d.W(), e) && (point || NotRequested(d.W(), e))
      requires point ==> d.store.entries[e].attempt.Some?
      requires d.store.entries[e].attempt.Some? ==>
                 var a := d.store.entries[e].attempt.value;
                 && Mine(d.W(), e, a)
                 && (point ==> !d.store.attempts[a].phase.Failed? && !d.store.attempts[a].phase.DownloadRetryWait?)
                 && (d.store.attempts[a].phase.Failed? || d.store.attempts[a].phase.DownloadRetryWait?
                     || Held(d.W(), e, a, point))
      modifies d, d.store
      ensures Ready() && (s.Raise? ==> Fault(old(d.W()), d.W(), e, s.exn, point))
      ensures old(d.store.entries)[e].attempt.Some?
              && AbandonedPhase(old(d.store.attempts)[old(d.store.entries)[e].attempt.value].phase) ==>
                Env(old(d.W()), d.W()) && (s.Raise? ==> s.exn.StopSeen?)
      ensures s.Pass? ==> (PassOver(d.W(), e) && Ends(d.W(), e, ev))
                          || (old(d.store.entries)[e].attempt.Some?
                              && AbandonedPhase(old(d.store.attempts)[old(d.store.entries)[e].attempt.value].phase))
      ensures Reported(d.plan[e], ev, s)
      ensures d.Justified(s)
    {
      hide Inv, Env, Stable, StableFor, OthersIdle, Unfinished, Steady, Trouble, Kept, Ends;
      ev := NO_EVIDENCE;
      ghost var w := d.W();
      var attempt := d.store.entries[e].attempt;
      :- d.Checkpoint();
      CheckedEntry(w, d.W(), e, point);
      ghost var w1 := d.W();
      if attempt.None? {
        s, ev := Start(e);
      } else {
        s, ev := Proceed(e, attempt.value, point);
      }
      if s.Raise? { FaultTransitive(w, w1, d.W(), e, s.exn, point); }
    }

    method Start(e: EntryId) returns (s: Status, ghost ev: Evidence)
      requires Ready() && Work(d.W(), e) && d.store.entries[e].attempt.None? && NotRequested(d.W(), e)
      modifies d, d.store
      ensures Ready() && (s.Raise? ==> Fault(old(d.W()), d.W(), e, s.exn, false))
      ensures s.Pass? ==> PassOver(d.W(), e) && Ends(d.W(), e, ev)
      ensures Reported(d.plan[e], ev, s)
      ensures d.Justified(s)
    {
      hide Inv, Env, Stable, StableFor, OthersIdle, Unfinished, Steady, Trouble, Kept, Ends;
      ghost var w := d.W();
      var next: Next, a: AttemptId;
      s, next, a, ev := Begin(e);
      if s.Raise? { ev := NO_EVIDENCE; return; }
      if next.Over? { return; }
      ghost var w1 := d.W();
      s, ev := Pursue(e, a, false);
      if s.Raise? { FaultTransitive(w, w1, d.W(), e, s.exn, false); }
    }

    method Pursue(e: EntryId, a: AttemptId, point: bool) returns (s: Status, ghost ev: Evidence)
      requires Ready() && Held(d.W(), e, a, point) && Fetchable(d.store.attempts[a].phase)
      modifies d, d.store
      ensures Ready() && (s.Raise? ==> Fault(old(d.W()), d.W(), e, s.exn, point))
      ensures s.Pass? ==> PassOver(d.W(), e) && Ends(d.W(), e, ev)
      ensures Reported(d.plan[e], ev, s)
      ensures d.Justified(s)
    {
      hide Inv, Env, Stable, StableFor, OthersIdle, Unfinished, Steady, Trouble, Kept, Ends;
      ghost var w := d.W();
      var next: Next;
      ghost var answer: Option<Answer>;
      s, next, ev, answer := SubmitStage(e, a, point);
      ev := if s.Raise? then NO_EVIDENCE else Evidence(Unseen, ev.check);
      if s.Raise? || next.Over? { return; }
      ghost var w1 := d.W();
      s, ev := Conclude(e, a, point);
      if s.Raise? { FaultTransitive(w, w1, d.W(), e, s.exn, point); }
    }

    /** An attempt that has failed is reported with its error once more. */
    method ReportAgain(e: EntryId, a: AttemptId) returns (s: Status)
      requires Ready() && Mine(d.W(), e, a) && d.store.attempts[a].phase.Failed?
      modifies d, d.store
      ensures Ready() && (s.Raise? ==> s.exn.Crashed?)
      ensures s.Pass? ==> PassOver(d.W(), e) && Ends(d.W(), e, NO_EVIDENCE)
                          && Stands(d.W(), e, FailedState(FailureOf(old(d.store.attempts)[a])), Some(a), Failed)
    {
      hide Inv, Env, Stable, StableFor, OthersIdle, Unfinished, Steady, Kept, PassOver, Ends, Noted, CanFail;
      var error := d.store.attempts[a].error;
      var code := if error.Some? then error.value else InternalError;
      FailedAgain(d.W(), e, a, code);
      ghost var from: World;
      s, from := handler.FailFile(e, Error(code, false, false, false));
      if s.Pass? { FailedOver(d.W(), e, a, Error(code, false, false, false)); }
    }

    lemma FailedOver(w: World, e: EntryId, a: AttemptId, err: Error)
      requires Stands(w, e, FailedState(err), Some(a), Failed) && !err.uncertain
      ensures PassOver(w, e) && Ends(w, e, NO_EVIDENCE)
    {
    }

    /** The pass over an entry with attempt `a`, past the checkpoint. */
    method Proceed(e: EntryId, a: AttemptId, point: bool) returns (s: Status, ghost ev: Evidence)
      requires Ready() && Mine(d.W(), e, a) && (point ==> !d.store.attempts[a].phase.Failed?)
      requires d.store.attempts[a].phase.Failed? || d.store.attempts[a].phase.DownloadRetryWait? || Held(d.W(), e, a, point)
      modifies d, d.store
      ensures Ready() && (s.Raise? ==> Fault(old(d.W()), d.W(), e, s.exn, point))
      ensures if AbandonedPhase(old(d.store.attempts)[a].phase) then s.Pass? && d.W() == old(d.W())
              else s.Pass? ==> PassOver(d.W(), e) && Ends(d.W(), e, ev)
      ensures Reported(d.plan[e], ev, s)
      ensures old(d.store.attempts)[a].phase.Failed? ==>
                if s.Raise? then s.exn.Crashed?
                else Stands(d.W(), e, FailedState(FailureOf(old(d.store.attempts)[a])), Some(a), Failed)
      ensures UnknownPhase(old(d.store.attempts)[a].phase) ==>
                s == Raise(Raised(Error(OutcomeUnknownCode, true, false, false))) && d.W() == old(d.W())
      ensures d.Justified(s)
    {
      hide Inv, Env, Stable, StableFor, OthersIdle, Unfinished, Steady, Kept, Ends;
      ev := NO_EVIDENCE;
      ghost var w := d.W();
      var phase := d.store.attempts[a].phase;
      s := Pass;
      if phase.DownloadRetryWait? {
        :- Resume(e, a, point);
        ghost var w1 := d.W();
        s, ev := Pursue(e, a, point);
        if s.Raise? { FaultTransitive(w, w1, d.W(), e, s.exn, point); }
      } else if UnknownPhase(phase) {
        var err := Error(OutcomeUnknownCode, true, false, false);
        HeldTrouble(w, e, a, err, point);
        s := Raise(Raised(err));
      } else if phase.Failed? {
        s := ReportAgain(e, a);
      } else if Fetchable(phase) {
        s, ev := Pursue(e, a, point);
      } else if !AbandonedPhase(phase) {
        s, ev := Conclude(e, a, point);
      }
    }
  }
}
