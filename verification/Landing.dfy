/** Requests that leave the process, what they do to the remote disk when they land, and the
  * local copies they are made from.
  */
module Landing {
  import opened Rows
  import opened Transactions
  import opened World
  import opened Counting
  import opened Effects

  /** The upload of attempt `a` is sent; it may land from now on, or never. */
  function SendUpload(w: World, a: AttemptId, content: Content): World {
    w.(uploads := w.uploads[a := content], puts := w.puts + multiset{a}, marks := w.marks + [Send])
  }

  function SendMove(w: World, a: AttemptId): World {
    w.(renames := w.renames + {a}, moves := w.moves + multiset{a}, marks := w.marks + [Send])
  }

  /** A file arrives at a path. A late one may or may not replace a file, and never replaces a folder. */
  function Arrive(disk: map<Place, Node>, p: Place, content: Content, replace: bool): map<Place, Node> {
    if p !in disk || (replace && disk[p].Bytes?) then disk[p := Bytes(content)] else disk
  }

  function LandUpload(w: World, a: AttemptId, replace: bool): World
    requires a in w.uploads && a < |w.attempts|
  {
    w.(uploads := w.uploads - {a}, disk := Arrive(w.disk, w.attempts[a].remote, w.uploads[a], replace))
  }

  function LoseUpload(w: World, a: AttemptId): World {
    w.(uploads := w.uploads - {a})
  }

  function LandMove(w: World, a: AttemptId, replace: bool): World
    requires a < |w.attempts|
  {
    var src, dst := w.attempts[a].remote, Dest(w.attempts[a].entry);
    w.(renames := w.renames - {a},
       disk := if src in w.disk && w.disk[src].Bytes? && src != dst
               then Arrive(w.disk - {src}, dst, w.disk[src].content, replace) else w.disk)
  }

  function LoseMove(w: World, a: AttemptId): World {
    w.(renames := w.renames - {a})
  }

  function MakeFolder(w: World, e: EntryId): World {
    w.(disk := if Dest(e) in w.disk then w.disk else w.disk[Dest(e) := Folder])
  }

  function PassCheck(w: World): World {
    w.(marks := w.marks + [Check])
  }

  lemma SendUploadKeeps(w: World, a: AttemptId, content: Content)
    requires Inv(w) && a < |w.attempts| && w.attempts[a].entry < |w.entries|
    requires w.attempts[a].phase.TransferIntent? && w.puts[a] == 0 && Cleared(w.marks)
    requires w.entries[w.attempts[a].entry].attempt == Some(a)
    requires w.entries[w.attempts[a].entry].planned == Some(content)
    requires w.job.direct ==> Room(w, w.attempts[a].entry)
    ensures Inv(SendUpload(w, a, content))
  {
    var w' := SendUpload(w, a, content);
    assert w'.marks[..|w'.marks| - 1] == w.marks;
    forall i: AttemptId | i < |w'.attempts| ensures AttemptInv(w', i) { assert AttemptInv(w, i); }
    forall e: EntryId | e < |w'.entries| ensures EntryInv(w', e) {
      assert EntryInv(w, e);
      if w.job.direct { SendCounted(w, a, content, e); }
    }
    SameRecords(w, w', a);
    forall e | e in w.watched ensures OnWatch(w', e) { assert OnWatch(w, e); }
  }

  /** One more upload in the air. */
  lemma SendCounted(w: World, a: AttemptId, content: Content, e: EntryId)
    requires a < |w.attempts| && e < |w.entries| && w.attempts[a].entry < |w.entries|
    requires w.entries[w.attempts[a].entry].attempt == Some(a) && w.puts[a] == 0
    requires Room(w, w.attempts[a].entry) && Counted(w, e)
    requires w.entries[e].attempt.Some? && w.entries[e].attempt.value == a ==> w.attempts[a].entry == e
    ensures Counted(SendUpload(w, a, content), e)
  {
    var w' := SendUpload(w, a, content);
    assert Superseded(w', e) == Superseded(w, e);
    assert PointMade(w', e) == PointMade(w, e) && Loose(w', e) == Loose(w, e);
    if e == w.attempts[a].entry {
      SubsetSize(Flying(w', e), Superseded(w, e) + {a});
    } else {
      assert Flying(w', e) == Flying(w, e);
    }
  }

  lemma SendMoveKeeps(w: World, a: AttemptId)
    requires Inv(w) && a < |w.attempts| && !w.job.direct
    requires w.attempts[a].phase.MoveIntent? && w.moves[a] == 0 && Cleared(w.marks)
    ensures Inv(SendMove(w, a))
  {
    var w' := SendMove(w, a);
    assert w'.marks[..|w'.marks| - 1] == w.marks;
    forall i: AttemptId | i < |w'.attempts| ensures AttemptInv(w', i) { assert AttemptInv(w, i); }
    forall e: EntryId | e < |w'.entries| ensures EntryInv(w', e) { assert EntryInv(w, e); }
    SameRecords(w, w', a);
    forall e | e in w.watched ensures OnWatch(w', e) { assert OnWatch(w, e); }
  }

  lemma SameRecords(w: World, w': World, a: AttemptId)
    requires Inv(w) && a < |w.attempts| && |w'.attempts| == |w.attempts|
    requires w'.disk == w.disk && w'.entries == w.entries
    requires forall i | i in w'.puts || i in w'.moves || i in w'.uploads || i in w'.renames
               || i in w'.pointMade || i in w'.purged || i in w'.loose ::
             i == a || i in w.puts || i in w.moves || i in w.uploads || i in w.renames
               || i in w.pointMade || i in w.purged || i in w.loose
    ensures forall p | p in w'.disk :: TempInv(w', p)
    ensures forall i | i in w'.puts || i in w'.moves || i in w'.uploads || i in w'.renames
                       || i in w'.pointMade || i in w'.purged || i in w'.loose :: Known(w', i)
  {
    forall p | p in w'.disk ensures TempInv(w', p) { assert TempInv(w, p); }
    forall i | i in w'.puts || i in w'.moves || i in w'.uploads || i in w'.renames
               || i in w'.pointMade || i in w'.purged || i in w'.loose ensures Known(w', i) {
      assert i != a ==> Known(w, i);
    }
  }

  lemma LandUploadKeeps(w: World, a: AttemptId, replace: bool)
    requires Inv(w) && a in w.uploads && a < |w.attempts|
    ensures Inv(LandUpload(w, a, replace)) && Env(w, LandUpload(w, a, replace))
  {
    var w' := LandUpload(w, a, replace);
    assert AttemptInv(w, a);
    forall i: AttemptId | i < |w'.attempts| ensures AttemptInv(w', i) { assert AttemptInv(w, i); }
    forall e: EntryId | e < |w'.entries|
      ensures EntryInv(w', e) && KeepsRoom(w, w', e) && KeepsDelivery(w, w', e) && KeepsState(w, w', e)
    {
      assert EntryInv(w, e);
      if w.job.direct { LandCounted(w, a, replace, e); }
    }
    forall p | p in w'.disk ensures TempInv(w', p) { assert p in w.disk ==> TempInv(w, p); }
    RecordsShrink(w, w');
    forall e | e in w.watched ensures OnWatch(w', e) { assert OnWatch(w, e); }
  }

  /** A landing settles one upload; the file is there from then on, unless another one was in the way. */
  lemma LandCounted(w: World, a: AttemptId, replace: bool, e: EntryId)
    requires Inv(w) && w.job.direct && a in w.uploads && a < |w.attempts| && e < |w.entries|
    ensures var w' := LandUpload(w, a, replace); Counted(w', e) && (Room(w, e) ==> Room(w', e))
  {
    var w' := LandUpload(w, a, replace);
    assert AttemptInv(w, a) && EntryInv(w, e);
    FlyingShrinks(w, w', e);
    FlyingBound(w, e);
    hide Inv;
    if e == w.attempts[a].entry { LandedCounted(w, a, replace); }
  }

  lemma LandedCounted(w: World, a: AttemptId, replace: bool)
    requires w.job.direct && a in w.uploads && a < |w.attempts| && w.attempts[a].entry < |w.entries|
    requires AttemptInv(w, a) && EntryInv(w, w.attempts[a].entry)
    ensures var w', e := LandUpload(w, a, replace), w.attempts[a].entry; Counted(w', e) && (Room(w, e) ==> Room(w', e))
  {
    var w', e := LandUpload(w, a, replace), w.attempts[a].entry;
    FlyingShrinks(w, w', e);
    FlyingBound(w, e);
    assert Flying(w', e) == Flying(w, e) - {a};
    if w.entries[e].attempt != Some(a) { assert Superseded(w', e) == Superseded(w, e) - {a}; }
  }

  /** Only files are attempted. */
  lemma DirectoryUntried(w: World, e: EntryId)
    requires Inv(w) && e < |w.entries| && w.entries[e].kind.Dir?
    ensures w.entries[e].attempt.None? && forall a: AttemptId | a < |w.attempts| :: w.attempts[a].entry != e
  {
    assert EntryInv(w, e);
    forall a: AttemptId | a < |w.attempts|
      ensures w.attempts[a].entry < |w.entries| && w.entries[w.attempts[a].entry].kind.File?
    {
      assert AttemptInv(w, a);
    }
  }

  lemma FolderCounted(w: World, d: EntryId, e: EntryId)
    requires Inv(w) && e < |w.entries|
    ensures var w' := MakeFolder(w, d);
            (w.job.direct ==> Counted(w', e) && (Room(w, e) ==> Room(w', e))) && (Delivered(w, e) ==> Delivered(w', e))
  {
    var w' := MakeFolder(w, d);
    assert EntryInv(w, e);
    FlyingShrinks(w, w', e);
    if w.entries[e].kind.Dir? {
      DirectoryUntried(w, e);
      assert Flying(w, e) == {};
    }
  }

  lemma RecordsShrink(w: World, w': World)
    requires Inv(w) && |w'.attempts| == |w.attempts|
    requires w'.puts == w.puts && w'.moves == w.moves && w'.uploads.Keys <= w.uploads.Keys
    requires w'.renames <= w.renames && w'.pointMade == w.pointMade && w'.purged <= w.purged
    requires w'.loose == w.loose
    ensures forall i | i in w'.puts || i in w'.moves || i in w'.uploads || i in w'.renames
                       || i in w'.pointMade || i in w'.purged || i in w'.loose :: Known(w', i)
  {
    forall i | i in w'.puts || i in w'.moves || i in w'.uploads || i in w'.renames
               || i in w'.pointMade || i in w'.purged || i in w'.loose ensures Known(w', i) {
      assert Known(w, i);
    }
  }

  lemma LoseUploadKeeps(w: World, a: AttemptId)
    requires Inv(w)
    ensures Inv(LoseUpload(w, a)) && Env(w, LoseUpload(w, a))
  {
    var w' := LoseUpload(w, a);
    forall i: AttemptId | i < |w'.attempts| ensures AttemptInv(w', i) { assert AttemptInv(w, i); }
    forall e: EntryId | e < |w'.entries|
      ensures EntryInv(w', e) && KeepsRoom(w, w', e) && KeepsDelivery(w, w', e) && KeepsState(w, w', e)
    {
      assert EntryInv(w, e);
      CountedSame(w, w', e);
    }
    forall p | p in w'.disk ensures TempInv(w', p) { assert TempInv(w, p); }
    RecordsShrink(w, w');
    forall e | e in w.watched ensures OnWatch(w', e) { assert OnWatch(w, e); }
  }

  lemma LandMoveKeeps(w: World, a: AttemptId, replace: bool)
    requires Inv(w) && a < |w.attempts|
    ensures Inv(LandMove(w, a, replace)) && Env(w, LandMove(w, a, replace))
  {
    var w' := LandMove(w, a, replace);
    assert AttemptInv(w, a);
    var src := w.attempts[a].remote;
    assert src in w.disk ==> TempInv(w, src);
    forall i: AttemptId | i < |w'.attempts| ensures AttemptInv(w', i) { assert AttemptInv(w, i); }
    forall e: EntryId | e < |w'.entries|
      ensures EntryInv(w', e) && KeepsRoom(w, w', e) && KeepsDelivery(w, w', e) && KeepsState(w, w', e)
    {
      assert EntryInv(w, e);
      if w.job.direct { CountedSame(w, w', e); }
    }
    forall p | p in w'.disk ensures TempInv(w', p) { assert p in w.disk ==> TempInv(w, p); }
    RecordsShrink(w, w');
    forall e | e in w.watched ensures OnWatch(w', e) { assert OnWatch(w, e); }
  }

  lemma LoseMoveKeeps(w: World, a: AttemptId)
    requires Inv(w)
    ensures Inv(LoseMove(w, a)) && Env(w, LoseMove(w, a))
  {
    var w' := LoseMove(w, a);
    forall i: AttemptId | i < |w'.attempts| ensures AttemptInv(w', i) { assert AttemptInv(w, i); }
    forall e: EntryId | e < |w'.entries|
      ensures EntryInv(w', e) && KeepsRoom(w, w', e) && KeepsDelivery(w, w', e) && KeepsState(w, w', e)
    {
      assert EntryInv(w, e);
      CountedSame(w, w', e);
    }
    forall p | p in w'.disk ensures TempInv(w', p) { assert TempInv(w, p); }
    RecordsShrink(w, w');
    forall e | e in w.watched ensures OnWatch(w', e) { assert OnWatch(w, e); }
  }

  lemma MakeFolderKeeps(w: World, e: EntryId)
    requires Inv(w)
    ensures Inv(MakeFolder(w, e)) && Env(w, MakeFolder(w, e))
  {
    var w' := MakeFolder(w, e);
    forall i: AttemptId | i < |w'.attempts| ensures AttemptInv(w', i) { assert AttemptInv(w, i); }
    forall i: EntryId | i < |w'.entries|
      ensures EntryInv(w', i) && KeepsRoom(w, w', i) && KeepsDelivery(w, w', i) && KeepsState(w, w', i)
    {
      assert EntryInv(w, i);
      FolderCounted(w, e, i);
    }
    forall p | p in w'.disk ensures TempInv(w', p) { assert p in w.disk ==> TempInv(w, p); }
    RecordsShrink(w, w');
    forall e | e in w.watched ensures OnWatch(w', e) { assert OnWatch(w, e); }
  }

  lemma PassCheckKeeps(w: World)
    requires Inv(w) && !w.job.stopRequested
    ensures Inv(PassCheck(w)) && Env(w, PassCheck(w)) && Cleared(PassCheck(w).marks)
  {
    var w' := PassCheck(w);
    assert w'.marks[..|w'.marks| - 1] == w.marks;
    forall i: AttemptId | i < |w'.attempts| ensures AttemptInv(w', i) { assert AttemptInv(w, i); }
    forall e: EntryId | e < |w'.entries|
      ensures EntryInv(w', e) && KeepsRoom(w, w', e) && KeepsDelivery(w, w', e) && KeepsState(w, w', e)
    {
      assert EntryInv(w, e);
      CountedSame(w, w', e);
    }
    forall p | p in w'.disk ensures TempInv(w', p) { assert TempInv(w, p); }
    RecordsShrink(w, w');
    forall e | e in w.watched ensures OnWatch(w', e) { assert OnWatch(w, e); }
  }

  // ---------------------------------------------------------------- local copies

  function WriteCopy(w: World, n: Name, content: Content): World {
    w.(staging := w.staging[n := content])
  }

  function RemoveCopy(w: World, n: Name): World {
    w.(staging := w.staging - {n})
  }

  /** The attempts whose verified copy is the file `n`. */
  ghost function Owners(w: World, n: Name): set<AttemptId> {
    set a | 0 <= a < |w.attempts| && w.attempts[a].local == Some(n)
            && HasEntry(TablesOf(w), w.attempts[a].entry) && Verified(TablesOf(w), a)
  }

  /** The purge unlinks a copy; its owners are owed a fresh download budget. */
  ghost function PurgeCopy(w: World, n: Name): World {
    w.(staging := w.staging - {n}, purged := w.purged + Owners(w, n))
  }

  /** A download begins: the attempt owes nothing to an earlier purge any more. */
  function BeginDownload(w: World, a: AttemptId): World {
    w.(purged := w.purged - {a})
  }

  lemma CopiesKeep(w: World, w': World)
    requires Inv(w)
    requires w' == w.(staging := w'.staging, purged := w'.purged)
    requires forall a: AttemptId | a < |w.attempts| :: AttemptInv(w', a)
    requires forall a | a in w'.purged :: a in w.purged || a < |w.attempts|
    ensures Inv(w')
  {
    forall e: EntryId | e < |w'.entries| ensures EntryInv(w', e) {
      assert EntryInv(w, e);
      CountedSame(w, w', e);
    }
    forall p | p in w'.disk ensures TempInv(w', p) { assert TempInv(w, p); }
    forall i | i in w'.puts || i in w'.moves || i in w'.uploads || i in w'.renames
               || i in w'.pointMade || i in w'.purged || i in w'.loose ensures Known(w', i) {
      assert i < |w.attempts| || Known(w, i);
    }
    forall e | e in w.watched ensures OnWatch(w', e) { assert OnWatch(w, e); }
  }

  lemma WriteCopyKeeps(w: World, n: Name, content: Content)
    requires Inv(w)
    requires forall a: AttemptId | a < |w.attempts| :: w.attempts[a].local == Some(n) ==> !w.attempts[a].phase.Staged?
    ensures Inv(WriteCopy(w, n, content))
  {
    var w' := WriteCopy(w, n, content);
    forall a: AttemptId | a < |w.attempts| ensures AttemptInv(w', a) { assert AttemptInv(w, a); }
    CopiesKeep(w, w');
  }

  lemma RemoveCopyKeeps(w: World, n: Name)
    requires Inv(w)
    ensures Inv(RemoveCopy(w, n))
  {
    var w' := RemoveCopy(w, n);
    forall a: AttemptId | a < |w.attempts| ensures AttemptInv(w', a) { assert AttemptInv(w, a); }
    CopiesKeep(w, w');
  }

  lemma PurgeCopyKeeps(w: World, n: Name)
    requires Inv(w)
    ensures Inv(PurgeCopy(w, n))
  {
    var w' := PurgeCopy(w, n);
    forall a: AttemptId | a < |w.attempts| ensures AttemptInv(w', a) { assert AttemptInv(w, a); }
    CopiesKeep(w, w');
  }

  lemma BeginDownloadKeeps(w: World, a: AttemptId)
    requires Inv(w)
    ensures Inv(BeginDownload(w, a))
  {
    var w' := BeginDownload(w, a);
    forall i: AttemptId | i < |w.attempts| ensures AttemptInv(w', i) { assert AttemptInv(w, i); }
    CopiesKeep(w, w');
  }

  lemma ClearWatches(w: World, names: set<Name>)
    requires Watches(w) && AllLinked(TablesOf(w))
    ensures Watches(With(w, ClearCacheReferences(TablesOf(w), names)))
  {
    var w' := With(w, ClearCacheReferences(TablesOf(w), names));
    forall i | i in w'.watched ensures OnWatch(w', i) { assert OnWatch(w, i); }
  }

  lemma ClearCacheReferencesKeeps(w: World, names: set<Name>)
    requires Inv(w) && AllLinked(TablesOf(w))
    ensures Inv(With(w, ClearCacheReferences(TablesOf(w), names)))
  {
    hide Watches;
    var w' := With(w, ClearCacheReferences(TablesOf(w), names));
    assert |w'.entries| == |w.entries| && |w'.attempts| == |w.attempts|;
    forall a: AttemptId | a < |w.attempts| ensures AttemptInv(w', a) { ClearRow(w, names, a); }
    forall i: EntryId | i < |w.entries| ensures EntryInv(w', i) && SamePlan(w.entries[i], w'.entries[i]) {
      ClearEntry(w, names, i);
    }
    LessBusy(w.entries, w'.entries);
    RemoteKeeps(w, w');
    ClearWatches(w, names);
  }

  lemma ClearRow(w: World, names: set<Name>, a: AttemptId)
    requires Inv(w) && AllLinked(TablesOf(w)) && a < |w.attempts|
    ensures AttemptInv(With(w, ClearCacheReferences(TablesOf(w), names)), a)
  {
    assert AttemptInv(w, a) && HasEntry(TablesOf(w), w.attempts[a].entry);
    assert Linked(TablesOf(w), w.attempts[a].entry);
  }

  lemma ClearEntry(w: World, names: set<Name>, i: EntryId)
    requires Inv(w) && AllLinked(TablesOf(w)) && i < |w.entries|
    ensures var w' := With(w, ClearCacheReferences(TablesOf(w), names));
            EntryInv(w', i) && SamePlan(w.entries[i], w'.entries[i])
  {
    var w' := With(w, ClearCacheReferences(TablesOf(w), names));
    assert EntryInv(w, i) && Linked(TablesOf(w), i);
    CountedSame(w, w', i);
  }
}
