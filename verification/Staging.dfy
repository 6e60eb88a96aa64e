/** Source checks, downloads into the staging directory, and the purge of its copies. */
module Staging {
  import opened Rows
  import opened Transactions
  import opened World
  import opened Effects
  import opened Landing
  import opened Session

  /** The errors of the source and of the staging directory, and those a download ends with. */
  predicate LocalError(exn: Exn) {
    exn.Raised? && !exn.err.uncertain
  }

  /** No other attempt has the name `n`, and `a` is downloading into it. */
  ghost predicate Writes(w: World, a: AttemptId, n: Name) {
    && a < |w.attempts| && w.attempts[a].phase.Downloading? && w.attempts[a].local == Some(n)
    && forall i: AttemptId | i < |w.attempts| && w.attempts[i].local == Some(n) :: i == a
  }

  lemma WritesKept(w: World, w': World, a: AttemptId, n: Name)
    requires Writes(w, a, n) && Steady(w, w')
    ensures Writes(w', a, n)
  {
    assert EnvAttempt(w.attempts[a], w'.attempts[a]);
    forall i: AttemptId | i < |w'.attempts| && w'.attempts[i].local == Some(n) ensures i == a {
      assert EnvAttempt(w.attempts[i], w'.attempts[i]);
    }
  }

  lemma WritesPhase(w: World, a: AttemptId, n: Name)
    requires Writes(w, a, n)
    ensures a < |w.attempts| && w.attempts[a].phase.Downloading? && w.attempts[a].local == Some(n)
  {
  }

  lemma WorkState(w: World, e: EntryId)
    requires Work(w, e)
    ensures e < |w.entries| && w.entries[e].kind.File? && Unfinished(w, e)
  {
  }

  /** The attempt may still be submitted and no copy of it is awaited. */
  predicate Fetchable(p: Phase) {
    p.Prepared? || p.Downloading? || p.Staged?
  }

  /** The verified copy of attempt `a`. */
  ghost predicate HasCopy(w: World, e: EntryId, a: AttemptId, n: Name) {
    && Mine(w, e, a) && w.attempts[a].phase.Staged? && w.attempts[a].local == Some(n)
    && n in w.staging && w.entries[e].planned == Some(w.staging[n])
  }

  lemma HasCopyKept(w: World, w': World, e: EntryId, a: AttemptId, n: Name)
    requires HasCopy(w, e, a, n) && Undisturbed(w, w', e, a)
    ensures HasCopy(w', e, a, n)
  {
  }

  /** Neither a submission of the attempt is in the air nor did one fail. */
  ghost predicate Calm(w: World, e: EntryId) {
    Work(w, e) &&
    (w.entries[e].attempt.Some? ==>
       var a := w.entries[e].attempt.value;
       a < |w.attempts| && w.attempts[a].entry == e
       && (InFlight(w, a) ==> !w.attempts[a].phase.Failed?)
       && !w.attempts[a].phase.DownloadRetryWait?)
  }

  /** What a check of the source came to: none was made, a copy already verified was taken for it, or the source said
    * whether it still has the planned file.
    */
  datatype Check = Unchecked | ByCopy | BySource(asPlanned: bool)

  /** The check lets the work on a file go on. */
  predicate Unaltered(row: Entry, check: Check) {
    check.ByCopy? || (check == BySource(true) && row.planned.Some?)
  }

  /** The state of a file whose check did not. */
  function ReasonOf(row: Entry): EntryState {
    if row.planned.None? then VerificationUnavailable else SourceChanged
  }

  /** How a copy was got: it was there already, no download was begun for want of room or of attempts, the stream broke,
    * or it came to its end with this content.
    */
  datatype Got = Present | NoRoom | LimitReached(limit: nat) | Broke(err: Error) | Streamed(content: Content)

  /** A stream was begun. */
  predicate Begun(got: Got) {
    got.Broke? || got.Streamed?
  }

  /** What an error of a download is, from how the copy was got. */
  predicate Explains(got: Got, err: Error, planned: Option<Content>) {
    match got
    case Present => false
    case NoRoom => err.code.StagingError? && !err.auth
    case LimitReached(_) => !err.auth
    case Broke(broken) => err == broken
    case Streamed(content) => err.code.SourceDownload? && !err.auth && planned != Some(content)
  }

  /** A failed download is repeated later: the source is to blame, an attempt is left, and nothing speaks against it. */
  predicate Repeats(w: World, e: EntryId, err: Error) {
    && e < |w.entries| && !err.auth && err.code.SourceDownload?
    && w.entries[e].downloads < DownloadLimit(w.job)
    && w.job.retryEnabled && !w.job.stopRequested && !w.job.fullStop && !w.entries[e].pointRequested
  }

  /** The downloads counted so far are the same. */
  predicate SameCount(w: World, w': World, e: EntryId) {
    e < |w.entries| && e < |w'.entries| && w'.entries[e].downloads == w.entries[e].downloads
  }

  class Stager {
    const d: Session

    constructor (d: Session)
      ensures this.d == d
    {
      this.d := d;
    }

    /** `_local_matches`. */
    predicate LocalMatches(local: Option<Name>, e: EntryId)
      requires e < |d.store.entries|
      reads d, d.store, d.watch
    {
      local.Some? && local.value in d.staging && d.store.entries[e].planned == Some(d.staging[local.value])
    }

    /** `_current`: the source still has the planned file; otherwise the entry says why not. */
    method Current(e: EntryId) returns (s: Status, same: bool, ghost check: Check)
      requires d.Valid() && Calm(d.W(), e)
      modifies d, d.store
      ensures d.Valid()
      ensures s.Raise? ==> s.exn.Crashed? || (LocalError(s.exn) && d.W() == old(d.W()))
      ensures !check.ByCopy?
      ensures s.Pass? || check.BySource? ==>
                check.BySource? && (s.Raise? ==> s.exn.Crashed?) && same == Unaltered(d.plan[e], check)
      ensures same ==> s.Pass? && d.W() == old(d.W())
      ensures s.Pass? && !same ==> Kept(old(d.W()), d.W(), e) && d.purged == old(d.purged)
      ensures s.Pass? && !same ==>
                e < |d.store.entries| && d.store.entries[e].state == ReasonOf(d.plan[e])
                && d.store.entries[e].attempt == old(d.store.entries)[e].attempt
    {
      same, check := false, Unchecked;
      var failure: Option<Error>, asPlanned: bool := *, *;
      if failure.Some? && !failure.value.uncertain { s := Raise(Raised(failure.value)); return; }
      check := BySource(asPlanned);
      if asPlanned && d.store.entries[e].planned.Some? { s, same := Pass, true; return; }
      var state := if d.store.entries[e].planned.None? then VerificationUnavailable else SourceChanged;
      assert EntryInv(d.W(), e);
      ghost var w := SetEntry(d.W(), e, d.store.entries[e].(state := state));
      WorkState(d.W(), e);
      assert EntryGuard(d.W(), e, d.store.entries[e].(state := state));
      hide Inv, Env, Stable, StableFor, OthersIdle, Unfinished, Steady, EntryGuard, Calm;
      s := d.SaveEntry(e, d.store.entries[e].(state := state));
      if s.Pass? { StateSaved(w, d.W(), e); }
    }

    lemma StateSaved(w: World, w': World, e: EntryId)
      requires Env(w, w') && e < |w.entries| && GivenUp(w.entries[e].state)
      requires w.entries[e].attempt.Some? && w.entries[e].attempt.value < |w.attempts| ==>
                 !w.attempts[w.entries[e].attempt.value].phase.DownloadRetryWait?
      ensures e < |w'.entries| && w'.entries[e].state == w.entries[e].state && w'.purged == w.purged
    {
      assert KeepsState(w, w', e);
    }

    /** `_current_or_cache`: a point retry goes on with a copy it already verified. */
    method CurrentOrCache(e: EntryId, a: AttemptId) returns (s: Status, same: bool, ghost check: Check)
      requires d.Valid() && Calm(d.W(), e) && Mine(d.W(), e, a)
      modifies d, d.store
      ensures d.Valid()
      ensures s.Raise? ==> s.exn.Crashed? || (LocalError(s.exn) && d.W() == old(d.W()))
      ensures check.ByCopy? <==>
                old(d.store.entries[e].pointRequested && LocalMatches(d.store.attempts[a].local, e))
      ensures check.ByCopy? ==> s.Pass?
      ensures s.Pass? || check.BySource? ==>
                !check.Unchecked? && (s.Raise? ==> s.exn.Crashed?) && same == Unaltered(d.plan[e], check)
      ensures same ==> s.Pass? && d.W() == old(d.W()) && d.store.entries[e].planned.Some?
      ensures s.Pass? && !same ==> Kept(old(d.W()), d.W(), e) && d.purged == old(d.purged)
      ensures s.Pass? && !same ==>
                e < |d.store.entries| && d.store.entries[e].state == ReasonOf(d.plan[e])
                && d.store.entries[e].attempt == old(d.store.entries)[e].attempt
    {
      if d.store.entries[e].pointRequested && LocalMatches(d.store.attempts[a].local, e) {
        s, same, check := Pass, true, ByCopy;
        return;
      }
      s, same, check := Current(e);
    }

    /** `_stage`: a copy that matches the plan is used again, anything else is downloaded once more. */
    method Stage(e: EntryId, a: AttemptId) returns (s: Status, local: Name, ghost got: Got)
      requires d.Valid() && Mine(d.W(), e, a) && Fetchable(d.store.attempts[a].phase)
      requires d.store.entries[e].planned.Some?
      modifies d, d.store
      ensures d.Valid()
      ensures s.Pass? ==> HasCopy(d.W(), e, a, local) && StableFor(old(d.W()), d.W(), e)
      ensures s.Raise? ==> s.exn.Crashed? || s.exn.StopSeen? || LocalError(s.exn)
      ensures s.Raise? && s.exn.Raised? ==>
                StableFor(old(d.W()), d.W(), e) && Mine(d.W(), e, a) && Fetchable(d.store.attempts[a].phase)
      ensures s.Raise? && s.exn.Raised? && (s.exn.err.auth || s.exn.err.code.SourceDownload?) ==> a !in d.purged
      ensures d.Justified(s)
      ensures got.Present? <==> old(LocalMatches(d.store.attempts[a].local, e))
      ensures got.Present? && s.Raise? ==> s.exn.Crashed?
      ensures s.Pass? ==>
                d.store.entries[e].state == if got.Present? then old(d.store.entries[e].state) else Cached
      ensures s.Pass? && !got.Present? ==> got.Streamed? && d.plan[e].planned == Some(got.content)
      ensures s.Raise? && s.exn.Raised? ==> Explains(got, s.exn.err, d.plan[e].planned)
      ensures s.Pass? || s.exn.Raised? ==>
                d.store.entries[e].downloads
                == (if !got.Present? && old(Renews(d.store.attempts[a])) then 0 else old(d.store.entries[e].downloads))
                   + if Begun(got) then 1 else 0
      ensures s.Raise? && s.exn.Raised? && got.LimitReached? ==>
                d.store.entries[e].downloads >= got.limit && got.limit in {1, MAX_DOWNLOAD_ATTEMPTS}
    {
      local, got := 0, NoRoom;
      var row := d.store.attempts[a];
      if row.local.Some? && LocalMatches(row.local, e) {
        local, got := row.local.value, Present;
        s := Reuse(e, a, local);
        return;
      }
      s, local, got := DownloadAnew(e, a);
    }

    /** What does not match is removed, and the file is downloaded once more. */
    method DownloadAnew(e: EntryId, a: AttemptId) returns (s: Status, local: Name, ghost got: Got)
      requires d.Valid() && Mine(d.W(), e, a) && Fetchable(d.store.attempts[a].phase)
      requires d.store.entries[e].planned.Some? && !LocalMatches(d.store.attempts[a].local, e)
      modifies d, d.store
      ensures d.Valid()
      ensures s.Pass? ==> HasCopy(d.W(), e, a, local) && StableFor(old(d.W()), d.W(), e)
      ensures s.Raise? ==> s.exn.Crashed? || s.exn.StopSeen? || LocalError(s.exn)
      ensures s.Raise? && s.exn.Raised? ==>
                StableFor(old(d.W()), d.W(), e) && Mine(d.W(), e, a) && Fetchable(d.store.attempts[a].phase)
      ensures s.Raise? && s.exn.Raised? && (s.exn.err.auth || s.exn.err.code.SourceDownload?) ==> a !in d.purged
      ensures d.Justified(s) && !got.Present?
      ensures s.Pass? ==> got.Streamed? && d.plan[e].planned == Some(got.content) && d.store.entries[e].state.Cached?
      ensures s.Raise? && s.exn.Raised? ==> Explains(got, s.exn.err, d.plan[e].planned)
      ensures s.Pass? || s.exn.Raised? ==>
                d.store.entries[e].downloads
                == (if old(Renews(d.store.attempts[a])) then 0 else old(d.store.entries[e].downloads))
                   + if Begun(got) then 1 else 0
      ensures s.Raise? && s.exn.Raised? && got.LimitReached? ==>
                d.store.entries[e].downloads >= got.limit && got.limit in {1, MAX_DOWNLOAD_ATTEMPTS}
    {
      local, got := 0, NoRoom;
      hide Inv, Env, Stable, StableFor, OthersIdle, Unfinished, Steady;
      ghost var w := d.W();
      AttemptOf(w, a);
      if d.store.attempts[a].local.Some? {
        s := Discard(e, a);
        if s.Raise? { return; }
        KeptParts(w, d.W(), e, a);
      } else {
        EnvReflexive(w);
        EnvKept(w, w, e);
        KeptParts(w, w, e, a);
      }
      ghost var w' := d.W();
      s, local, got := Download(e, a);
      if s.Pass? || s.exn.Raised? { StableTransitive(w, w', d.W(), e); }
    }

    method Reuse(e: EntryId, a: AttemptId, n: Name) returns (s: Status)
      requires d.Valid() && Mine(d.W(), e, a) && Fetchable(d.store.attempts[a].phase)
      requires d.store.attempts[a].local == Some(n) && LocalMatches(Some(n), e)
      modifies d, d.store
      ensures d.Valid() && (s.Raise? ==> s.exn.Crashed?)
      ensures s.Pass? ==> HasCopy(d.W(), e, a, n) && StableFor(old(d.W()), d.W(), e)
      ensures s.Pass? ==> SameCount(old(d.W()), d.W(), e) && d.store.entries[e].state == old(d.store.entries)[e].state
    {
      AttemptOf(d.W(), a);
      hide Inv, Env, Stable, StableFor, OthersIdle, Unfinished, Steady;
      s := d.KeepLocal(e, a, d.store.attempts[a].(phase := Staged));
    }

    /** The attempt has a verified copy that is gone, and was not submitted. */
    predicate Renews(row: Attempt)
      reads d, d.watch
    {
      row.phase.Staged? && !row.operation && row.local.Some? && row.local.value !in d.staging
    }

    /** A copy that cannot be used; one that a purge removed gives its download budget back. */
    method Discard(e: EntryId, a: AttemptId) returns (s: Status)
      requires d.Valid() && Mine(d.W(), e, a) && Fetchable(d.store.attempts[a].phase)
      requires d.store.attempts[a].local.Some? && !LocalMatches(d.store.attempts[a].local, e)
      modifies d, d.store
      ensures d.Valid() && (s.Raise? ==> s.exn.Crashed?)
      ensures s.Pass? ==> Kept(old(d.W()), d.W(), e)
      ensures s.Pass? ==> (a in d.purged && Downloadable(d.store.entries[e].state) ==> d.store.entries[e].downloads == 0)
      ensures s.Pass? ==>
                d.store.entries[e].downloads
                == (if old(Renews(d.store.attempts[a])) then 0 else old(d.store.entries[e].downloads))
      ensures s.Pass? ==> old(d.store.attempts[a].local.value) !in d.staging
    {
      var row := d.store.attempts[a];
      ghost var w := d.W();
      AttemptOf(w, a);
      hide Inv, Env, Stable, StableFor, OthersIdle, Unfinished, Steady, EntryGuard, AttemptInv, Unfinished;
      EnvReflexive(w);
      EnvKept(w, w, e);
      if row.phase.Staged? && !row.operation && row.local.value !in d.staging {
        :- RenewBudget(e, a);
      }
      ghost var w' := d.W();
      s := d.RemoveFile(row.local.value);
      if s.Pass? {
        SameKept(w', d.W(), e);
        KeptTransitive(w, w', d.W(), e);
      }
    }

    method RenewBudget(e: EntryId, a: AttemptId) returns (s: Status)
      requires d.Valid() && Mine(d.W(), e, a) && !d.store.attempts[a].phase.DownloadRetryWait?
      requires !d.store.attempts[a].phase.Failed?
      modifies d, d.store
      ensures d.Valid() && (s.Raise? ==> s.exn.Crashed?)
      ensures s.Pass? ==> Kept(old(d.W()), d.W(), e) && e < |d.store.entries| && d.store.entries[e].downloads == 0
    {
      hide Inv, Env, Stable, StableFor, OthersIdle, Unfinished, Steady;
      s := d.KeepEntry(e, a, d.store.entries[e].(downloads := 0));
    }

    /** A fresh download into a file of its own. */
    method Download(e: EntryId, a: AttemptId) returns (s: Status, n: Name, ghost got: Got)
      requires d.Valid() && Mine(d.W(), e, a) && Fetchable(d.store.attempts[a].phase)
      requires d.store.entries[e].planned.Some?
      requires a in d.purged && Downloadable(d.store.entries[e].state) ==> d.store.entries[e].downloads == 0
      modifies d, d.store
      ensures d.Valid()
      ensures s.Pass? ==> HasCopy(d.W(), e, a, n) && StableFor(old(d.W()), d.W(), e)
      ensures s.Raise? ==> s.exn.Crashed? || s.exn.StopSeen? || LocalError(s.exn)
      ensures s.Raise? && s.exn.Raised? ==>
                StableFor(old(d.W()), d.W(), e) && Mine(d.W(), e, a) && Fetchable(d.store.attempts[a].phase)
      ensures s.Raise? && s.exn.Raised? && (s.exn.err.auth || s.exn.err.code.SourceDownload?) ==> a !in d.purged
      ensures !got.Present?
      ensures s.Pass? ==> got.Streamed? && d.plan[e].planned == Some(got.content) && d.store.entries[e].state.Cached?
      ensures s.Raise? && s.exn.Raised? ==> Explains(got, s.exn.err, d.plan[e].planned)
      ensures s.Pass? || s.exn.Raised? ==>
                d.store.entries[e].downloads == old(d.store.entries)[e].downloads + if Begun(got) then 1 else 0
      ensures s.Raise? && s.exn.Raised? && got.LimitReached? ==>
                d.store.entries[e].downloads >= got.limit && got.limit in {1, MAX_DOWNLOAD_ATTEMPTS}
      ensures d.Justified(s)
    {
      hide Inv, Env, Stable, StableFor, OthersIdle, Unfinished, Steady;
      n, got := 0, NoRoom;
      ghost var w := d.W();
      EnvReflexive(w);
      EnvKept(w, w, e);
      KeptParts(w, w, e, a);
      var full: bool := *;
      if full { s := Raise(Raised(Error(StagingError, false, false, false))); return; }
      got := LimitReached(DownloadLimit(d.store.job));
      s := d.CountDownload(e, a);
      if s.Raise? {
        if s.exn.Raised? { KeptParts(w, d.W(), e, a); }
        return;
      }
      KeptParts(w, d.W(), e, a);
      ghost var w' := d.W();
      s, n := Open(e, a);
      if s.Raise? { return; }
      StableParts(w', d.W(), e, a);
      StableTransitive(w, w', d.W(), e);
      w' := d.W();
      s, got := Fill(e, a, n);
      if s.Pass? || s.exn.Raised? { StableTransitive(w, w', d.W(), e); }
    }

    /** The attempt is bound to a new name before the first byte is written. */
    method Open(e: EntryId, a: AttemptId) returns (s: Status, n: Name)
      requires d.Valid() && Mine(d.W(), e, a) && Fetchable(d.store.attempts[a].phase) && a !in d.purged
      modifies d, d.store
      ensures d.Valid() && (s.Raise? ==> s.exn.Crashed?)
      ensures s.Pass? ==> Mine(d.W(), e, a) && Writes(d.W(), a, n) && n !in d.staging && a !in d.purged
      ensures s.Pass? ==> StableFor(old(d.W()), d.W(), e) && SameCount(old(d.W()), d.W(), e)
      ensures s.Pass? ==> d.store.entries[e].state.Fetching?
    {
      n := d.FreshName();
      ghost var w := d.W();
      ghost var bound := SetAttempt(w, a, d.store.attempts[a].(phase := Downloading, local := Some(n)));
      assert Writes(bound, a, n);
      hide Inv, Env, Stable, StableFor, OthersIdle, Unfinished, Steady, Writes;
      :- d.KeepLocal(e, a, d.store.attempts[a].(phase := Downloading, local := Some(n)));
      ghost var w1 := d.W();
      WritesKept(bound, w1, a, n);
      :- d.KeepEntry(e, a, d.store.entries[e].(state := Fetching));
      WritesKept(w1, d.W(), a, n);
      StableTransitive(w, w1, d.W(), e);
      s := Pass;
    }

    /** The chunks of the stream are written one by one; only a complete and matching file is kept. */
    method Fill(e: EntryId, a: AttemptId, n: Name) returns (s: Status, ghost got: Got)
      requires d.Valid() && Mine(d.W(), e, a) && Writes(d.W(), a, n) && a !in d.purged
      requires d.store.entries[e].planned.Some?
      modifies d, d.store
      ensures d.Valid()
      ensures s.Pass? ==> HasCopy(d.W(), e, a, n) && StableFor(old(d.W()), d.W(), e)
      ensures s.Raise? ==> s.exn.Crashed? || s.exn.StopSeen? || LocalError(s.exn)
      ensures s.Raise? && s.exn.Raised? ==>
                StableFor(old(d.W()), d.W(), e) && Mine(d.W(), e, a)
                && Fetchable(d.store.attempts[a].phase) && a !in d.purged
      ensures Begun(got)
      ensures s.Pass? ==> got.Streamed? && d.plan[e].planned == Some(got.content) && d.store.entries[e].state.Cached?
      ensures s.Raise? && s.exn.Raised? ==> Explains(got, s.exn.err, d.plan[e].planned)
      ensures s.Pass? || s.exn.Raised? ==> SameCount(old(d.W()), d.W(), e)
      ensures d.Justified(s)
    {
      hide Inv, Env, Stable, StableFor, OthersIdle, Unfinished, Steady, Writes;
      ghost var w := d.W();
      WritesPhase(w, a, n);
      var written: Content;
      s, written, got := Receive(e, a, n);
      if s.Raise? && !s.exn.Raised? { return; }
      KeptParts(w, d.W(), e, a);
      WritesPhase(d.W(), a, n);
      if s.Raise? { return; }
      if d.store.entries[e].planned != Some(written) {
        s := Raise(Raised(Error(SourceDownload, false, false, false)));
        return;
      }
      ghost var w2 := d.W();
      s := Close(e, a, n);
      if s.Pass? { StableTransitive(w, w2, d.W(), e); }
    }

    /** The stream up to its end, or up to where it broke. */
    method Receive(e: EntryId, a: AttemptId, n: Name) returns (s: Status, written: Content, ghost got: Got)
      requires d.Valid() && Mine(d.W(), e, a) && Writes(d.W(), a, n)
      modifies d, d.store
      ensures d.Valid()
      ensures s.Raise? ==> s.exn.Crashed? || s.exn.StopSeen? || LocalError(s.exn)
      ensures s.Pass? || s.exn.Raised? ==>
                Kept(old(d.W()), d.W(), e) && Writes(d.W(), a, n) && d.purged == old(d.purged) && SameCount(old(d.W()), d.W(), e)
      ensures s.Pass? ==> n in d.staging && d.staging[n] == written && got == Streamed(written)
      ensures Begun(got) && (s.Raise? && s.exn.Raised? ==> got == Broke(s.exn.err))
      ensures d.Justified(s)
    {
      hide Inv, Env, Stable, StableFor, OthersIdle, Unfinished, Steady, Writes;
      ghost var w := d.W();
      written, got := [], Streamed([]);
      SameKept(w, w, e);
      WorkState(w, e);
      var refused: Option<Error>, chunks: nat := *, *;
      if refused.Some? && !refused.value.uncertain { return Raise(Raised(refused.value)), [], Broke(refused.value); }
      s := Write(e, a, n, written);
      if s.Raise? && s.exn.Raised? { got := Broke(s.exn.err); }
      while s.Pass? && chunks > 0
        invariant d.Valid() && d.Justified(s) && (s.Raise? ==> s.exn.Crashed? || s.exn.StopSeen? || LocalError(s.exn))
        invariant s.Pass? || s.exn.Raised? ==> Kept(w, d.W(), e) && Writes(d.W(), a, n) && d.purged == w.purged
        invariant s.Pass? ==> n in d.staging && d.staging[n] == written && got == Streamed(written)
        invariant s.Pass? || s.exn.Raised? ==> SameCount(w, d.W(), e)
        invariant Begun(got) && (s.Raise? && s.exn.Raised? ==> got == Broke(s.exn.err))
        decreases chunks
      {
        KeptParts(w, d.W(), e, a);
        ghost var w1 := d.W();
        var chunk: Content := *;
        written, got := written + chunk, Streamed(got.content + chunk);
        s := Append(e, a, n, written);
        if s.Pass? || s.exn.Raised? { KeptTransitive(w, w1, d.W(), e); }
        if s.Raise? && s.exn.Raised? { got := Broke(s.exn.err); }
        chunks := chunks - 1;
      }
    }

    /** Before each chunk is written the stop request, the size and the space are looked at. */
    method Append(e: EntryId, a: AttemptId, n: Name, written: Content) returns (s: Status)
      requires d.Valid() && Mine(d.W(), e, a) && Writes(d.W(), a, n)
      modifies d, d.store
      ensures d.Valid()
      ensures s.Pass? || s.exn.Raised? ==> Kept(old(d.W()), d.W(), e) && Writes(d.W(), a, n) && d.purged == old(d.purged)
      ensures s.Pass? ==> n in d.staging && d.staging[n] == written
      ensures s.Raise? ==> s.exn.Crashed? || s.exn.StopSeen? || LocalError(s.exn)
      ensures s.Pass? || s.exn.Raised? ==> SameCount(old(d.W()), d.W(), e) && Cleared(d.W().marks)
      ensures d.Justified(s)
    {
      ghost var w := d.W();
      :- d.Checkpoint();
      GoOn(w, d.W(), e, a);
      WritesKept(w, d.W(), a, n);
      ghost var w1 := d.W();
      s := Write(e, a, n, written);
      if s.Pass? || s.exn.Raised? { KeptTransitive(w, w1, d.W(), e); }
    }

    /** What the stream brought so far is in the file, unless it broke or there is no room. */
    method Write(e: EntryId, a: AttemptId, n: Name, written: Content) returns (s: Status)
      requires d.Valid() && Mine(d.W(), e, a) && Writes(d.W(), a, n)
      modifies d`staging
      ensures d.Valid()
      ensures s.Pass? || s.exn.Raised? ==> Kept(old(d.W()), d.W(), e) && Writes(d.W(), a, n)
      ensures s.Pass? ==> d.staging == old(d.staging)[n := written]
      ensures s.Raise? ==> s.exn.Crashed? || (LocalError(s.exn) && d.W() == old(d.W()))
      ensures d.Justified(s)
    {
      ghost var w := d.W();
      SameKept(w, w, e);
      var broken: Option<Error> := *;
      if broken.Some? && !broken.value.uncertain { return Raise(Raised(broken.value)); }
      s := d.WriteFile(n, written);
      SameKept(w, d.W(), e);
    }

    method Close(e: EntryId, a: AttemptId, n: Name) returns (s: Status)
      requires d.Valid() && Mine(d.W(), e, a) && Writes(d.W(), a, n) && a !in d.purged
      requires n in d.staging && d.store.entries[e].planned == Some(d.staging[n])
      modifies d, d.store
      ensures d.Valid() && (s.Raise? ==> s.exn.Crashed?)
      ensures s.Pass? ==> HasCopy(d.W(), e, a, n) && StableFor(old(d.W()), d.W(), e)
      ensures s.Pass? ==> SameCount(old(d.W()), d.W(), e) && d.store.entries[e].state.Cached?
    {
      hide Inv, Env, Stable, StableFor, OthersIdle, Unfinished, Steady;
      ghost var w := d.W();
      :- d.KeepLocal(e, a, d.store.attempts[a].(phase := Staged));
      ghost var w1 := d.W();
      :- d.KeepEntry(e, a, d.store.entries[e].(state := Cached));
      StableTransitive(w, w1, d.W(), e);
      s := Pass;
    }

    /** `_download_failure`: whether the failed download was scheduled to be repeated, and the world this was decided in. */
    method DownloadFailure(e: EntryId, a: AttemptId, err: Error) returns (s: Status, scheduled: bool, ghost at: World)
      requires d.Valid() && Mine(d.W(), e, a) && Fetchable(d.store.attempts[a].phase) && !err.uncertain
      requires err.auth || err.code.SourceDownload? ==> a !in d.purged
      modifies d, d.store
      ensures d.Valid() && (s.Raise? ==> s.exn.Crashed? || s.exn.StopSeen?)
      ensures s.Pass? && !scheduled ==> StableFor(old(d.W()), d.W(), e) && Mine(d.W(), e, a)
                                        && Fetchable(d.store.attempts[a].phase)
      ensures s.Pass? && scheduled ==> PassOver(d.W(), e) && Scheduled(d.W(), e)
      ensures s.Pass? ==> StableFor(old(d.W()), at, e) && (scheduled <==> Repeats(at, e, err))
      ensures s.Pass? && (old(d.store.entries[e].pointRequested) || (!err.auth && !err.code.SourceDownload?)) ==>
                d.W() == at == old(d.W())
      ensures s.Pass? && err.auth && !old(d.store.entries[e].pointRequested) ==>
                d.store.entries[e].downloads == (if at.entries[e].downloads > 0 then at.entries[e].downloads - 1 else 0)
                && at == old(d.W())
      ensures s.Pass? && !err.auth && err.code.SourceDownload? && !old(d.store.entries[e].pointRequested) ==>
                && SameCount(old(d.W()), at, e) && SameCount(at, d.W(), e) && a < |at.attempts| && at.attempts[a].local.None?
                && (old(d.store.attempts[a].local.Some?) ==> old(d.store.attempts[a].local.value) !in at.staging)
      ensures d.Justified(s)
    {
      hide Inv, Env, Stable, StableFor, OthersIdle, Unfinished, Steady, EntryGuard;
      scheduled, at := false, d.W();
      ghost var w := d.W();
      EnvReflexive(w);
      EnvKept(w, w, e);
      if d.store.entries[e].pointRequested { KeptParts(w, w, e, a); s := Pass; return; }
      if err.auth {
        s := Uncount(e, a);
        return;
      }
      if !err.code.SourceDownload? { KeptParts(w, w, e, a); s := Pass; return; }
      s := d.Checkpoint();
      if s.Raise? { return; }
      GoOn(w, d.W(), e, a);
      KeptParts(w, d.W(), e, a);
      ghost var w0 := d.W();
      s := DropPartial(e, a);
      if s.Raise? { return; }
      StableTransitive(w, w0, d.W(), e);
      ghost var w1 := d.W();
      at := w1;
      if d.store.entries[e].downloads >= DownloadLimit(d.store.job) { return; }
      var retryAt: int := *;
      s, scheduled := d.ScheduleRetry(e, a, retryAt, err.code);
      if s.Pass? && scheduled { ScheduledOver(w1, d.W(), e, retryAt, err.code); }
      if s.Pass? && !scheduled {
        GoOn(w1, d.W(), e, a);
        KeptParts(w1, d.W(), e, a);
        StableTransitive(w, w1, d.W(), e);
      }
    }

    /** Rejected credentials do not count as a download. */
    method Uncount(e: EntryId, a: AttemptId) returns (s: Status)
      requires d.Valid() && Mine(d.W(), e, a) && Fetchable(d.store.attempts[a].phase) && a !in d.purged
      modifies d, d.store
      ensures d.Valid() && (s.Raise? ==> s.exn.Crashed?)
      ensures s.Pass? ==> StableFor(old(d.W()), d.W(), e) && Mine(d.W(), e, a) && Fetchable(d.store.attempts[a].phase)
      ensures s.Pass? ==>
                var count := old(d.store.entries[e].downloads);
                d.store.entries[e].downloads == if count > 0 then count - 1 else 0
    {
      hide Inv, Env, Stable, StableFor, OthersIdle, Unfinished, Steady, EntryGuard;
      ghost var w := d.W();
      var count := d.store.entries[e].downloads;
      s := d.KeepEntry(e, a, d.store.entries[e].(downloads := if count > 0 then count - 1 else 0));
      if s.Pass? { KeptParts(w, d.W(), e, a); }
    }

    /** The partial copy of the attempt is removed and forgotten. */
    method DropPartial(e: EntryId, a: AttemptId) returns (s: Status)
      requires d.Valid() && Mine(d.W(), e, a) && Fetchable(d.store.attempts[a].phase) && a !in d.purged
      modifies d, d.store
      ensures d.Valid() && (s.Raise? ==> s.exn.Crashed?)
      ensures s.Pass? ==> StableFor(old(d.W()), d.W(), e) && Mine(d.W(), e, a)
                          && Fetchable(d.store.attempts[a].phase) && a !in d.purged
      ensures s.Pass? ==> SameCount(old(d.W()), d.W(), e) && d.store.attempts[a].local.None?
      ensures s.Pass? && old(d.store.attempts[a].local.Some?) ==> old(d.store.attempts[a].local.value) !in d.staging
    {
      hide Inv, Env, Stable, StableFor, OthersIdle, Unfinished, Steady;
      ghost var w := d.W();
      EnvReflexive(w);
      EnvKept(w, w, e);
      if d.store.attempts[a].local.None? { return Pass; }
      :- d.RemoveFile(d.store.attempts[a].local.value);
      SameKept(w, d.W(), e);
      ghost var w1 := d.W();
      :- d.KeepLocal(e, a, d.store.attempts[a].(local := None));
      StableTransitive(w, w1, d.W(), e);
      s := Pass;
    }
  }
}
