/** The purge of the staging directory. It may be cut short by a crash or a failing unlink anywhere;
  * the rows it leaves behind still give exactly the verified copies a download budget of their own.
  */
module Purge {
  import opened Rows
  import opened Transactions
  import opened World
  import opened Effects
  import opened Landing
  import opened Session

  /** `pending_cache_downloads`: a download of the current attempt that was not checkpointed as complete. */
  predicate Pending(t: Tables, a: AttemptId)
    requires a < |t.attempts|
  {
    var r := t.attempts[a];
    && r.entry < |t.entries| && t.entries[r.entry].attempt == Some(a) && Downloadable(t.entries[r.entry].state)
    && (r.phase.Prepared? || r.phase.Downloading? || r.phase.DownloadRetryWait?)
    && r.local.Some? && !r.operation
  }

  /** The copy of attempt `a` is complete and has the planned content. */
  predicate Complete(t: Tables, staging: map<Name, Content>, a: AttemptId)
    requires a < |t.attempts| && t.attempts[a].entry < |t.entries|
  {
    var r := t.attempts[a];
    r.local.Some? && r.local.value in staging && t.entries[r.entry].planned == Some(staging[r.local.value])
  }

  predicate Confirmable(t: Tables, staging: map<Name, Content>, a: AttemptId)
    requires a < |t.attempts|
  {
    Pending(t, a) && Complete(t, staging, a)
  }

  ghost predicate Found(w: World, a: AttemptId)
    requires a < |w.attempts|
  {
    Confirmable(TablesOf(w), w.staging, a)
  }

  /** The current download of entry `e` had reached a verified copy, whether or not this was saved. */
  ghost predicate Owed(w: World, e: EntryId)
    requires e < |w.entries|
  {
    w.entries[e].attempt.Some? && w.entries[e].attempt.value < |w.attempts| &&
    var a := w.entries[e].attempt.value;
    var r := w.attempts[a];
    && r.entry == e && r.local.Some? && !r.operation && Downloadable(w.entries[e].state)
    && (Found(w, a)
        || (r.phase.Staged? && (r.local.value in w.staging ==> Complete(TablesOf(w), w.staging, a))))
  }

  /** The rows of `w`, with complete downloads confirmed and whatever else others may have changed. */
  ghost predicate Purging(w: World, w': World) {
    && |w'.entries| == |w.entries| && |w'.attempts| == |w.attempts| && w'.puts == w.puts && w'.moves == w.moves
    && w'.uploads.Keys <= w.uploads.Keys && w'.job.direct == w.job.direct && w'.job.space == w.job.space
    && (forall e: EntryId | e < |w.entries| :: PurgedEntry(w, w', e))
    && (forall a: AttemptId | a < |w.attempts| :: PurgedRow(w, w', a))
    && (forall n | n in w'.staging :: n in w.staging && w'.staging[n] == w.staging[n])
  }

  ghost predicate PurgedEntry(w: World, w': World, e: EntryId)
    requires e < |w.entries| && e < |w'.entries|
  {
    && EnvEntry(w.entries[e], w'.entries[e])
    && (w'.entries[e].state == w.entries[e].state
        || (w'.entries[e].state.FailedEntry? && w.entries[e].attempt.Some?
            && w.entries[e].attempt.value < |w.attempts|
            && w.attempts[w.entries[e].attempt.value].phase.DownloadRetryWait?))
  }

  ghost predicate PurgedRow(w: World, w': World, a: AttemptId)
    requires a < |w.attempts| && a < |w'.attempts|
  {
    var r, r' := w.attempts[a], w'.attempts[a];
    EnvAttempt(r, r') || (Found(w, a) && r' == r.(phase := Staged))
  }

  /** Every complete download among the first `k` attempts is confirmed. */
  ghost predicate ConfirmedTo(w: World, w': World, k: nat) {
    && |w'.attempts| == |w.attempts| && k <= |w.attempts|
    && forall a: AttemptId | a < k && Found(w, a) :: w'.attempts[a].phase.Staged?
  }

  lemma SameStaging(w: World, w': World)
    requires Env(w, w')
    ensures w'.staging == w.staging
  {
  }

  lemma PurgingEnv(w: World, w1: World, w2: World, k: nat)
    requires Purging(w, w1) && Env(w1, w2) && ConfirmedTo(w, w1, k)
    ensures Purging(w, w2) && ConfirmedTo(w, w2, k)
  {
    forall e: EntryId | e < |w.entries| ensures PurgedEntry(w, w2, e) {
      assert PurgedEntry(w, w1, e) && EnvEntry(w1.entries[e], w2.entries[e]) && KeepsState(w1, w2, e);
      var attempt := w.entries[e].attempt;
      if attempt.Some? && attempt.value < |w.attempts| { assert PurgedRow(w, w1, attempt.value); }
    }
    forall a: AttemptId | a < |w.attempts| ensures PurgedRow(w, w2, a) {
      assert PurgedRow(w, w1, a) && EnvAttempt(w1.attempts[a], w2.attempts[a]);
    }
    forall a: AttemptId | a < k && Found(w, a) ensures w2.attempts[a].phase.Staged? {
      assert EnvAttempt(w1.attempts[a], w2.attempts[a]);
    }
  }

  /** A complete download may be confirmed, even when a switch cancelled it meanwhile. */
  lemma ConfirmGuard(w: World, w': World, a: AttemptId)
    requires Inv(w) && Inv(w') && Purging(w, w') && w'.purged == w.purged && a < |w.attempts| && Found(w, a)
    ensures AttemptGuard(w', a, w'.attempts[a].(phase := Staged))
  {
    assert AttemptInv(w, a) && AttemptInv(w', a) && PurgedRow(w, w', a) && PurgedEntry(w, w', w.attempts[a].entry);
  }

  lemma ConfirmSaved(w: World, w1: World, w2: World, a: AttemptId)
    requires Purging(w, w1) && ConfirmedTo(w, w1, a) && a < |w.attempts| && Found(w, a)
    requires Env(SetAttempt(w1, a, w1.attempts[a].(phase := Staged)), w2)
    ensures Purging(w, w2) && ConfirmedTo(w, w2, a + 1) && w2.purged == w1.purged && |w2.attempts| == |w1.attempts|
  {
    var mid := SetAttempt(w1, a, w1.attempts[a].(phase := Staged));
    assert PurgedRow(w, w1, a);
    forall i: AttemptId | i < |w.attempts| ensures PurgedRow(w, mid, i) { assert PurgedRow(w, w1, i); }
    forall e: EntryId | e < |w.entries| ensures PurgedEntry(w, mid, e) { assert PurgedEntry(w, w1, e); }
    PurgingEnv(w, mid, w2, a + 1);
  }

  /** What forgetting the copies `names` does to the download counters. */
  lemma ResetExactly(w: World, w': World, names: set<Name>, e: EntryId)
    requires Inv(w) && Purging(w, w') && ConfirmedTo(w, w', |w.attempts|) && e < |w.entries|
    requires AllLinked(TablesOf(w'))
    ensures var row := ClearCacheReferences(TablesOf(w'), names).entries[e];
            && (row.downloads != w.entries[e].downloads ==> row.downloads == 0 && Owed(w, e))
            && (Owed(w, e) && Downloadable(row.state) ==>
                  w.attempts[w.entries[e].attempt.value].local.value in names ==> row.downloads == 0)
  {
    assert PurgedEntry(w, w', e) && EntryInv(w, e) && Linked(TablesOf(w'), e);
    if w.entries[e].attempt.Some? {
      var a := w.entries[e].attempt.value;
      assert PurgedRow(w, w', a) && AttemptInv(w, a);
    }
  }

  /** Budgets are only ever given back for copies that were verified. */
  ghost predicate OnlyOwed(w: World, entries: seq<Entry>) {
    && |entries| == |w.entries|
    && forall e: EntryId | e < |entries| ::
         entries[e].downloads == w.entries[e].downloads || (entries[e].downloads == 0 && Owed(w, e))
  }

  ghost predicate AllOwed(w: World, entries: seq<Entry>) {
    && |entries| == |w.entries|
    && forall e: EntryId | e < |entries| && Owed(w, e) && Downloadable(entries[e].state) :: entries[e].downloads == 0
  }

  lemma PurgingOnly(w: World, w': World)
    requires Purging(w, w')
    ensures OnlyOwed(w, w'.entries) && |w'.attempts| == |w.attempts|
  {
    forall e: EntryId | e < |w.entries| ensures w'.entries[e].downloads == w.entries[e].downloads {
      assert PurgedEntry(w, w', e);
    }
  }

  lemma PurgingReflexive(w: World)
    ensures Purging(w, w) && ConfirmedTo(w, w, 0)
  {
    forall e: EntryId | e < |w.entries| ensures PurgedEntry(w, w, e) {}
    forall a: AttemptId | a < |w.attempts| ensures PurgedRow(w, w, a) {}
  }

  lemma ConfirmCrashed(w: World, w1: World, w2: World, a: AttemptId)
    requires Purging(w, w1) && a < |w.attempts| && Found(w, a)
    requires w2 == w1 || w2 == SetAttempt(w1, a, w1.attempts[a].(phase := Staged))
    ensures Purging(w, w2)
  {
    forall i: AttemptId | i < |w.attempts| ensures PurgedRow(w, w2, i) { assert PurgedRow(w, w1, i) && PurgedRow(w, w1, a); }
    forall e: EntryId | e < |w.entries| ensures PurgedEntry(w, w2, e) { assert PurgedEntry(w, w1, e); }
  }

  lemma ConfirmedNext(w: World, w': World, a: AttemptId)
    requires ConfirmedTo(w, w', a) && a < |w.attempts| && !Found(w, a)
    ensures ConfirmedTo(w, w', a + 1)
  {
  }

  lemma UnlinkKeeps(w: World, w': World, n: Name, k: nat)
    requires Purging(w, w') && ConfirmedTo(w, w', k)
    ensures Purging(w, PurgeCopy(w', n)) && ConfirmedTo(w, PurgeCopy(w', n), k)
  {
    forall i: AttemptId | i < |w.attempts| ensures PurgedRow(w, PurgeCopy(w', n), i) { assert PurgedRow(w, w', i); }
    forall e: EntryId | e < |w.entries| ensures PurgedEntry(w, PurgeCopy(w', n), e) { assert PurgedEntry(w, w', e); }
  }

  /** Forgetting every copy that any row names. */
  lemma ForgotAll(w: World, w': World, names: set<Name>)
    requires Inv(w) && Purging(w, w') && ConfirmedTo(w, w', |w.attempts|) && AllLinked(TablesOf(w'))
    requires forall a: AttemptId | a < |w.attempts| && w'.attempts[a].local.Some? :: w'.attempts[a].local.value in names
    ensures var t := ClearCacheReferences(TablesOf(w'), names);
            && OnlyOwed(w, t.entries) && AllOwed(w, t.entries)
            && forall a: AttemptId | a < |t.attempts| :: t.attempts[a].local.None?
  {
    var t := ClearCacheReferences(TablesOf(w'), names);
    forall e: EntryId | e < |w.entries|
      ensures t.entries[e].downloads == w.entries[e].downloads || (t.entries[e].downloads == 0 && Owed(w, e))
      ensures Owed(w, e) && Downloadable(t.entries[e].state) ==> t.entries[e].downloads == 0
    {
      ResetExactly(w, w', names, e);
      if Owed(w, e) { assert PurgedRow(w, w', w.entries[e].attempt.value); }
    }
  }

  lemma ForgotSome(w: World, w': World, names: set<Name>)
    requires Inv(w) && Purging(w, w') && ConfirmedTo(w, w', |w.attempts|) && AllLinked(TablesOf(w'))
    ensures OnlyOwed(w, ClearCacheReferences(TablesOf(w'), names).entries)
  {
    var t := ClearCacheReferences(TablesOf(w'), names);
    forall e: EntryId | e < |w.entries|
      ensures t.entries[e].downloads == w.entries[e].downloads || (t.entries[e].downloads == 0 && Owed(w, e))
    {
      ResetExactly(w, w', names, e);
    }
  }

  class Purger {
    const d: Session

    constructor (d: Session)
      ensures this.d == d
    {
      this.d := d;
    }

    /** `cleanup_cache`. Whatever cuts it short, a download counter is only reset, and only for a download
      * that had reached a verified copy; when it passes, every such download has its counter reset and no
      * copy is left.
      */
    method CleanupCache() returns (s: Status)
      requires d.Valid()
      modifies d, d.store
      ensures d.Valid() && OnlyOwed(old(d.W()), d.store.entries)
      ensures s.Pass? ==> AllOwed(old(d.W()), d.store.entries) && d.staging == map[]
                          && forall a | 0 <= a < |d.store.attempts| :: d.store.attempts[a].local.None?
      ensures old(d.store.job).state in {Queued, Planning, Running} ==> s == Raise(Refused) && d.W() == old(d.W())
    {
      ghost var w := d.W();
      PurgingReflexive(w);
      PurgingOnly(w, w);
      if d.store.job.state in {Queued, Planning, Running} { return Raise(Refused); }
      s := Confirm();
      PurgingOnly(w, d.W());
      if s.Raise? { return; }
      s := Unlink(w);
    }

    /** `_confirm_cached_downloads`. */
    method Confirm() returns (s: Status)
      requires d.Valid()
      modifies d, d.store
      ensures d.Valid() && Purging(old(d.W()), d.W()) && (s.Raise? ==> s.exn.Crashed?)
      ensures s.Pass? ==> ConfirmedTo(old(d.W()), d.W(), |d.store.attempts|)
    {
      ghost var w := d.W();
      var a: AttemptId, count := 0, |d.store.attempts|;
      var found := set i | 0 <= i < count && Confirmable(d.store.Rows(), d.staging, i);
      assert forall i: AttemptId | i < count :: i in found <==> Found(w, i);
      s := Pass;
      hide Env, Inv, AttemptGuard, Found;
      PurgingReflexive(w);
      while a < count
        invariant d.Valid() && s.Pass? && Purging(w, d.W()) && a <= count && ConfirmedTo(w, d.W(), a)
        invariant |d.store.attempts| == count && d.purged == w.purged
      {
        ghost var w1 := d.W();
        if a in found {
          ConfirmGuard(w, w1, a);
          s := d.SaveAttempt(a, d.store.attempts[a].(phase := Staged));
          if s.Raise? { ConfirmCrashed(w, w1, d.W(), a); return; }
          ConfirmSaved(w, w1, d.W(), a);
        } else {
          ConfirmedNext(w, w1, a);
        }
        a := a + 1;
      }
    }

    /** Every file of the staging directory is unlinked; then their names are forgotten in one transaction. */
    method Unlink(ghost w: World) returns (s: Status)
      requires d.Valid() && Inv(w) && Purging(w, d.W()) && ConfirmedTo(w, d.W(), |w.attempts|)
      modifies d, d.store
      ensures d.Valid() && OnlyOwed(w, d.store.entries)
      ensures s.Pass? ==> AllOwed(w, d.store.entries) && d.staging == map[]
                          && forall a | 0 <= a < |d.store.attempts| :: d.store.attempts[a].local.None?
    {
      hide Env, Inv, Found, Purging, ConfirmedTo, OnlyOwed, AllOwed, ClearCacheReferences;
      var names, cleared := d.staging.Keys, References() - d.staging.Keys;
      while names != {}
        invariant d.Valid() && Purging(w, d.W()) && ConfirmedTo(w, d.W(), |w.attempts|)
        invariant names == d.staging.Keys
        decreases names
      {
        var n :| n in names;
        var refused: bool := *;
        if refused {
          InvLinked(d.W());
          ForgotSome(w, d.W(), cleared);
          PurgingOnly(w, d.W());
          var s' := d.Forget(cleared);
          return if s'.Raise? then s' else Raise(Raised(Error(StagingError, false, false, false)));
        }
        UnlinkKeeps(w, d.W(), n, |w.attempts|);
        PurgingOnly(w, d.W());
        PurgingOnly(w, PurgeCopy(d.W(), n));
        :- d.PurgeFile(n);
        names, cleared := names - {n}, cleared + {n};
        ghost var w1 := d.W();
        d.Interfere();
        PurgingEnv(w, w1, d.W(), |w.attempts|);
        SameStaging(w1, d.W());
      }
      PurgingOnly(w, d.W());
      var all := References();
      InvLinked(d.W());
      ForgotAll(w, d.W(), all);
      s := d.Forget(all);
    }

    /** `cache_references`. */
    function References(): set<Name>
      reads d, d.store, d.watch
    {
      set a | 0 <= a < |d.store.attempts| && d.store.attempts[a].local.Some? :: d.store.attempts[a].local.value
    }
  }
}
