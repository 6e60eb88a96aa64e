/** The transfer of a list to the local disk: files are linked into place and never written over. */
module LocalTransfer {
  import opened Rows
  import Selection

  datatype LocalState =
    | Waiting | Loading | Saved | Verified | Broken | Conflicting | Unverifiable | LeftOut

  type Target = nat

  /** The rows of one source, in the order in which they are worked on: directories before files, short paths first. */
  datatype Item = Item(kind: Selection.Kind, selected: bool, planned: Option<Content>, target: Target,
                       state: LocalState, attempts: nat)

  datatype Node = Folder | Bytes(content: Content)

  predicate Pending(item: Item) {
    item.selected && (item.state.Waiting? || item.state.Loading?)
  }

  function CountPending(items: seq<Item>): nat {
    if items == [] then 0
    else CountPending(items[..|items| - 1]) + if Pending(items[|items| - 1]) then 1 else 0
  }

  lemma {:induction false} OneLess(items: seq<Item>, e: nat, item: Item)
    requires e < |items|
    ensures CountPending(items[e := item]) + (if Pending(items[e]) then 1 else 0)
            == CountPending(items) + (if Pending(item) then 1 else 0)
    decreases |items|
  {
    var n := |items| - 1;
    if e < n {
      OneLess(items[..n], e, item);
      assert items[e := item][..n] == items[..n][e := item];
    } else {
      assert items[e := item][..n] == items[..n];
    }
  }

  /** What is on the disk stays there, and what is there stays the same. */
  predicate Grows(disk: map<Target, Node>, disk': map<Target, Node>) {
    forall t | t in disk :: t in disk' && disk'[t] == disk[t]
  }

  /** The destination holds what was planned. */
  predicate Arrived(item: Item, disk: map<Target, Node>) {
    item.target in disk
    && match item.kind
       case File => item.planned.Some? && disk[item.target] == Bytes(item.planned.value)
       case Dir => disk[item.target].Folder?
  }

  /** Only the state and the number of attempts of a row change. */
  predicate SameItem(a: Item, b: Item) {
    b == a.(state := b.state, attempts := b.attempts)
  }

  const MAX_DOWNLOADS := 5

  /** What came of asking the source for an entry. */
  datatype Reply = Stops | Fails(err: Error) | Differs | AsPlanned

  function ReplyStatus(reply: Reply): Status {
    match reply
    case Stops => Raise(StopSeen)
    case Fails(err) => Raise(Raised(err))
    case Differs => Raise(Raised(Error(SourceAltered, false, false, false)))
    case AsPlanned => Pass
  }

  /** What came of a stream: it was not opened, it was stopped, it broke, it was longer than the plan, or it ended. */
  datatype Stream = Unopened | Stopped | Broke(err: Error) | TooLong(received: Content) | Ended(received: Content)

  const ALTERED_CONTENT := Error(SourceDownload, false, false, false)

  const TAKEN := Error(DestinationConflict, false, false, false)

  /** How one download ends. What arrived complete and as planned is in place, unless the work is stopped or something
    * else was put there meanwhile.
    */
  predicate DownloadEnds(item: Item, disk: map<Target, Node>, reply: Reply, stream: Stream, s: Status) {
    if !reply.AsPlanned? then s == ReplyStatus(reply) && stream.Unopened?
    else
      match stream
      case Unopened => false
      case Stopped => s == Raise(StopSeen)
      case Broke(err) => s == Raise(Raised(err))
      case TooLong(received) =>
        (item.planned.Some? ==> |received| > |item.planned.value|) && s == Raise(Raised(ALTERED_CONTENT))
      case Ended(received) =>
        && (if item.planned.Some? then |received| <= |item.planned.value| else received == [])
        && if item.planned != Some(received) then s == Raise(Raised(ALTERED_CONTENT))
        else
          || (s.Pass? && Arrived(item, disk)) || s == Raise(StopSeen)
          || (s == Raise(Raised(TAKEN)) && item.target in disk && disk[item.target] != Bytes(received))
  }

  /** An error of the source after which a download is tried once more, while retries are on. */
  predicate Retryable(err: Error) {
    !err.auth && (err.code.SourceDownload? || err.code.SourceError?)
  }

  /** The downloads of one call: all but the last ended with an error that is worth another try. */
  predicate Repeats(tries: seq<Status>) {
    && |tries| <= MAX_DOWNLOADS
    && forall i | 0 <= i < |tries| - 1 :: tries[i].Raise? && tries[i].exn.Raised? && Retryable(tries[i].exn.err)
  }

  /** How the tries end, with what the retry switch was found to be after each failed one. An error worth another try is
    * the last word only after the fifth one or with retries off, and no other try follows one with retries off.
    */
  predicate TriesEnd(tries: seq<Status>, switch: seq<bool>, s: Status) {
    && Repeats(tries)
    && |switch| <= |tries| && (forall i | 0 <= i < |tries| - 1 :: i < |switch| && switch[i])
    && (s.Pass? <==> tries != [] && tries[|tries| - 1].Pass?)
    && (s.Raise? && s.exn.Raised? && s.exn.err.code != StagingError ==> tries != [] && s == tries[|tries| - 1])
    && (s.Raise? && s.exn.Raised? && Retryable(s.exn.err) ==> |tries| == MAX_DOWNLOADS || (|switch| == |tries| && !switch[|tries| - 1]))
  }

  /** Every try so far ended with an error worth another one, and found retries on. */
  predicate Trying(tries: seq<Status>, switch: seq<bool>) {
    && |switch| == |tries|
    && forall i | 0 <= i < |tries| ::
         tries[i].Raise? && tries[i].exn.Raised? && Retryable(tries[i].exn.err) && switch[i]
  }

  lemma NoTries()
    ensures Trying([], [])
  {
  }

  /** No try is begun after a stop or for want of space. */
  lemma NoTry(tries: seq<Status>, switch: seq<bool>, s: Status)
    requires Trying(tries, switch) && |tries| < MAX_DOWNLOADS
    requires s == Raise(StopSeen) || (s.Raise? && s.exn.Raised? && s.exn.err.code.StagingError?)
    ensures TriesEnd(tries, switch, s)
  {
  }

  /** What one more try makes of it. */
  lemma OneTry(tries: seq<Status>, switch: seq<bool>, s: Status, on: bool)
    requires Trying(tries, switch) && |tries| < MAX_DOWNLOADS && (s.Raise? ==> s.exn.StopSeen? || s.exn.Raised?)
    ensures s.Pass? || s.exn.StopSeen? ==> TriesEnd(tries + [s], switch, s)
    ensures s.Raise? && s.exn.Raised? ==>
              if |tries| + 1 < MAX_DOWNLOADS && Retryable(s.exn.err) && on then Trying(tries + [s], switch + [on])
              else TriesEnd(tries + [s], switch + [on], s)
  {
    hide Retryable;
  }

  class LocalList {
    var items: seq<Item>
    var disk: map<Target, Node>
    var stopping: bool                      // the batch is to stop, or the process is shutting down
    ghost var downloads: map<nat, nat>      // downloads of this call, by entry

    /** A saved or verified entry has arrived. */
    ghost predicate Valid()
      reads this
    {
      && (forall e | 0 <= e < |items| && (items[e].state.Saved? || items[e].state.Verified?) :: Arrived(items[e], disk))
      && forall e | e in downloads :: downloads[e] <= MAX_DOWNLOADS
    }

    /** What a start requires: no selected entry has an issue, and what is left out is not selected. */
    predicate Startable()
      reads this
    {
      forall e | 0 <= e < |items| && items[e].selected ::
        !items[e].state.Conflicting? && !items[e].state.Unverifiable? && !items[e].state.LeftOut?
    }

    /** The rows keep their plan, the files keep their contents, and no other row than `e` was touched. */
    twostate predicate Kept(e: nat)
      reads this
    {
      && |items| == |old(items)| && Grows(old(disk), disk)
      && forall i | 0 <= i < |items| :: SameItem(old(items)[i], items[i]) && (i != e ==> items[i] == old(items)[i])
    }

    constructor (items: seq<Item>, disk: map<Target, Node>)
      requires forall e | 0 <= e < |items| && (items[e].state.Saved? || items[e].state.Verified?) :: Arrived(items[e], disk)
      ensures Valid() && this.items == items && this.disk == disk
    {
      this.items, this.disk, stopping, downloads := items, disk, false, map[];
    }

    /** Other programs may put files where there are none, and a stop may be requested. */
    method Others()
      requires Valid()
      modifies this`disk, this`stopping
      ensures Valid() && Grows(old(disk), disk)
    {
      var more: map<Target, Node>, stop: bool := *, *;
      disk, stopping := more + disk, stopping || stop;
    }

    /** Nothing ends because of a stop unless there is one. */
    predicate Justified(s: Status)
      reads this
    {
      s.Raise? && s.exn.StopSeen? ==> stopping
    }

    method SetState(e: nat, state: LocalState)
      requires Valid() && e < |items|
      requires state.Saved? || state.Verified? ==> Arrived(items[e], disk)
      modifies this`items
      ensures Valid() && items == old(items)[e := old(items)[e].(state := state)]
    {
      items := items[e := items[e].(state := state)];
    }

    /** `next_entry`. */
    method NextEntry() returns (found: Option<nat>)
      ensures found.None? ==> forall e | 0 <= e < |items| :: !Pending(items[e])
      ensures found.Some? ==> found.value < |items| && Pending(items[found.value])
                              && forall e | 0 <= e < found.value :: !Pending(items[e])
    {
      var e := 0;
      while e < |items|
        invariant e <= |items| && forall i | 0 <= i < e :: !Pending(items[i])
      {
        if Pending(items[e]) { return Some(e); }
        e := e + 1;
      }
      return None;
    }

    function At(target: Target): Option<Node>
      reads this
    {
      if target in disk then Some(disk[target]) else None
    }

    /** `_local_metadata`: what is at the target. */
    method Look(e: nat) returns (node: Option<Node>)
      requires Valid() && e < |items|
      modifies this`disk, this`stopping
      ensures Valid() && Grows(old(disk), disk) && node == old(At(items[e].target))
    {
      node := At(items[e].target);
      Others();
    }

    /** `_current_local`: the source is asked whether it still has the planned entry. */
    method Current() returns (s: Status, ghost reply: Reply)
      ensures s == ReplyStatus(reply) && (reply.Stops? <==> stopping)
    {
      var failure: Option<Error>, differs: bool := *, *;
      reply := if stopping then Stops else if failure.Some? then Fails(failure.value) else if differs then Differs else AsPlanned;
      if stopping { return Raise(StopSeen), reply; }
      if failure.Some? { return Raise(Raised(failure.value)), reply; }
      if differs { return Raise(Raised(Error(SourceAltered, false, false, false))), reply; }
      return Pass, reply;
    }

    /** `os.link`: it fails when something is there already. */
    method Link(e: nat, content: Content) returns (linked: bool)
      requires Valid() && e < |items|
      modifies this`disk
      ensures Valid() && Grows(old(disk), disk) && (linked <==> items[e].target !in old(disk))
      ensures disk == if linked then old(disk)[items[e].target := Bytes(content)] else old(disk)
    {
      linked := items[e].target !in disk;
      if linked { disk := disk[items[e].target := Bytes(content)]; }
    }

    /** One download into a temporary file, and its link into place. */
    method DownloadOnce(e: nat) returns (s: Status, ghost reply: Reply, ghost stream: Stream)
      requires Valid() && e < |items| && items[e].kind.File? && e in downloads
      modifies this`disk, this`stopping
      ensures Valid() && Grows(old(disk), disk) && Justified(s)
      ensures DownloadEnds(items[e], disk, reply, stream, s) && (s.Pass? ==> Arrived(items[e], disk))
      ensures s.Raise? ==> s.exn.StopSeen? || s.exn.Raised?
    {
      stream := Unopened;
      s, reply := Current();
      if s.Raise? { return; }
      var count: nat := *;
      var received: Content := [];
      ghost var sent: Content := [];
      while count > 0
        invariant Valid() && Grows(old(disk), disk) && received == sent
        invariant items[e].planned.None? ==> received == []
        invariant items[e].planned.Some? ==> |received| <= |items[e].planned.value|
        decreases count
      {
        var chunk: Content, broken: Option<Error> := *, *;
        Others();
        if stopping { return Raise(StopSeen), reply, Stream.Stopped; }
        if broken.Some? { return Raise(Raised(broken.value)), reply, Broke(broken.value); }
        received, sent := received + chunk, sent + chunk;
        if items[e].planned.None? || |received| > |items[e].planned.value| {
          return Raise(Raised(Error(SourceDownload, false, false, false))), reply, TooLong(sent);
        }
        count := count - 1;
      }
      stream := Ended(sent);
      if items[e].planned != Some(received) { s := Raise(Raised(Error(SourceDownload, false, false, false))); return; }
      Others();
      if stopping { s := Raise(StopSeen); return; }
      var linked := Link(e, received);
      if !linked {
        var node := Look(e);
        if node != Some(Bytes(received)) { s := Raise(Raised(Error(DestinationConflict, false, false, false))); }
      }
    }

    /** `_download_local`: at most five downloads, each repeated only after a retryable error while retries are on. */
    method Download(e: nat) returns (s: Status, ghost tries: seq<Status>, ghost switch: seq<bool>)
      requires Valid() && e < |items| && items[e].kind.File? && e !in downloads
      modifies this
      ensures Valid() && Kept(e) && downloads.Keys == old(downloads).Keys + {e} && downloads[e] == |tries|
      ensures forall i | i in old(downloads) :: downloads[i] == old(downloads)[i]
      ensures TriesEnd(tries, switch, s) && Justified(s)
      ensures s.Pass? ==> items[e].state.Saved?
      ensures s.Raise? ==> (s.exn.StopSeen? || s.exn.Raised?) && !items[e].state.Saved? && !items[e].state.Verified?
    {
      hide TriesEnd, Trying, Retryable, DownloadEnds;
      tries, switch := [], [];
      NoTries();
      downloads := downloads[e := 0];
      var attempt := 1;
      while attempt <= MAX_DOWNLOADS
        invariant 1 <= attempt <= MAX_DOWNLOADS && Valid() && Kept(e) && items[e].kind.File?
        invariant downloads.Keys == old(downloads).Keys + {e} && downloads[e] == |tries| == attempt - 1
        invariant forall i | i in old(downloads) :: downloads[i] == old(downloads)[i]
        invariant Trying(tries, switch)
        decreases MAX_DOWNLOADS - attempt
      {
        var begun: bool;
        s, begun := Try(e, attempt);
        if !begun { NoTry(tries, switch, s); return; }
        var enabled: bool := *;
        OneTry(tries, switch, s, enabled);
        tries := tries + [s];
        if s.Pass? || s.exn.StopSeen? { return; }
        switch := switch + [enabled];
        if attempt == MAX_DOWNLOADS || !Retryable(s.exn.err) || !enabled { return; }
        attempt := attempt + 1;
      }
    }

    /** One try. It is not begun after a stop or for want of space. */
    method Try(e: nat, attempt: nat) returns (s: Status, begun: bool)
      requires Valid() && e < |items| && items[e].kind.File? && e in downloads && attempt <= MAX_DOWNLOADS
      modifies this
      ensures Valid() && Grows(old(disk), disk) && Justified(s)
      ensures items == old(items)[e := old(items)[e].(state := if s.Pass? then Saved else Loading, attempts := attempt)]
      ensures downloads == if begun then old(downloads)[e := attempt] else old(downloads)
      ensures s.Raise? ==> s.exn.StopSeen? || s.exn.Raised?
      ensures !begun ==> s == Raise(StopSeen) || (s.Raise? && s.exn.Raised? && s.exn.err.code.StagingError?)
    {
      begun := false;
      items := items[e := items[e].(state := Loading, attempts := attempt)];
      var full: bool := *;
      Others();
      if stopping || full {
        s := Raise(if stopping then StopSeen else Raised(Error(StagingError, false, false, false)));
        return;
      }
      begun, downloads := true, downloads[e := attempt];
      ghost var reply: Reply, stream: Stream;
      s, reply, stream := DownloadOnce(e);
      if s.Pass? { SetState(e, Saved); }
    }

    /** `mkdir`, which leaves alone what is there already. Whether it fails is given. */
    method MakeFolder(e: nat, failed: bool) returns (there: bool)
      requires Valid() && e < |items|
      modifies this`disk
      ensures Valid() && Grows(old(disk), disk) && (there <==> At(items[e].target) == Some(Folder))
      ensures disk == if items[e].target in old(disk) || failed then old(disk) else old(disk)[items[e].target := Folder]
    {
      if items[e].target !in disk && !failed { disk := disk[items[e].target := Folder]; }
      there := items[e].target in disk && disk[items[e].target].Folder?;
    }

    /** The body of the loop of `_transfer_local`, up to the handlers. What is at the target already is verified or in the
      * way, and never downloaded.
      */
    method Work(e: nat) returns (s: Status, ghost reply: Reply, ghost tries: seq<Status>, ghost switch: seq<bool>)
      requires Valid() && e < |items| && Pending(items[e]) && e !in downloads
      modifies this
      ensures Valid() && Kept(e) && Justified(s)
      ensures downloads.Keys == old(downloads).Keys + if e in downloads then {e} else {}
      ensures forall i | i in old(downloads) :: i in downloads && downloads[i] == old(downloads)[i]
      ensures s.Pass? ==> items[e].state.Saved? || items[e].state.Verified?
      ensures s.Raise? ==> (s.exn.StopSeen? || s.exn.Raised?) && !items[e].state.Saved? && !items[e].state.Verified?
      ensures e in downloads ==> reply.AsPlanned? && old(At(items[e].target)).None? && items[e].kind.File?
      ensures if !reply.AsPlanned? then s == ReplyStatus(reply)
              else
                match old(At(items[e].target))
                case Some(node) =>
                  if node.Folder? != items[e].kind.Dir? then s == Raise(Raised(TAKEN))
                  else if items[e].kind.Dir? then s.Pass? && items[e].state.Saved?
                  else if items[e].planned == Some(node.content) then s.Pass? && items[e].state.Verified?
                  else s == Raise(Raised(TAKEN))
                case None =>
                  if items[e].kind.File? then TriesEnd(tries, switch, s) && (s.Pass? ==> items[e].state.Saved?)
                  else if s.Pass? then items[e].state.Saved? else s.exn.Raised? && s.exn.err.code.StagingError?
    {
      tries, switch := [], [];
      s, reply := Current();
      if s.Raise? { return; }
      var node := Look(e);
      var wrong := match node
        case None => false
        case Some(n) => n.Folder? != items[e].kind.Dir?;
      if wrong { s := Raise(Raised(Error(DestinationConflict, false, false, false))); return; }
      if items[e].kind.Dir? {
        var failed: bool := *;
        var there := MakeFolder(e, failed);
        if !there {
          s := Raise(Raised(Error(StagingError, false, false, false)));
          return;
        }
        SetState(e, Saved);
        return;
      }
      if node.Some? {
        if items[e].planned != Some(node.value.content) {
          s := Raise(Raised(Error(DestinationConflict, false, false, false)));
          return;
        }
        SetState(e, Verified);
        return;
      }
      s, tries, switch := Download(e);
    }

    /** One turn of the loop with its handlers: a stop and rejected credentials leave the entry pending and end the
      * transfer, any other error is its result.
      */
    method Turn(e: nat) returns (s: Status, ghost end: Status, ghost on: bool)
      requires Valid() && e < |items| && Pending(items[e]) && e !in downloads
      modifies this
      ensures Valid() && Kept(e) && Justified(s)
      ensures downloads.Keys == old(downloads).Keys + if e in downloads then {e} else {}
      ensures e in downloads ==> items[e].target !in old(disk)
      ensures s.Pass? || s == end
      ensures end.Pass? ==> s.Pass? && (items[e].state.Saved? || items[e].state.Verified?)
      ensures end.Raise? ==> (end.exn.StopSeen? || end.exn.Raised?)
                             && items[e].state == if s.Pass? then Broken else Waiting
      ensures end.Raise? ==> (s == end <==> end.exn.StopSeen? || (end.exn.err.auth && (on || !end.exn.err.denied)))
      ensures items[e].state.Verified? ==> old(At(items[e].target)).Some?
      ensures items[e].state.Saved? && items[e].kind.File? ==> old(At(items[e].target)).None?
    {
      ghost var reply: Reply, tries: seq<Status>, switch: seq<bool>;
      s, reply, tries, switch := Work(e);
      end, on := s, true;
      if s.Raise? {
        var enabled: bool := *;
        on := enabled;
        var halt := s.exn.StopSeen? || (s.exn.err.auth && (enabled || !s.exn.err.denied));
        SetState(e, if halt then Waiting else Broken);
        if !halt { s := Pass; }
      }
    }

    /** `_transfer_local`. Every turn takes one entry off the list. When it returns normally every selected entry is
      * saved, verified or failed, and the first two have arrived; no file that was there was changed, and nothing that
      * was there was downloaded.
      */
    method Transfer() returns (s: Status)
      requires Valid() && downloads == map[]
      modifies this
      ensures Valid() && Grows(old(disk), disk) && |items| == |old(items)|
      ensures forall e | 0 <= e < |items| :: SameItem(old(items)[e], items[e])
      ensures forall e | 0 <= e < |items| && !Pending(old(items)[e]) :: items[e] == old(items)[e]
      ensures forall e | e in downloads :: e < |items| && downloads[e] <= MAX_DOWNLOADS && items[e].target !in old(disk)
      ensures s.Pass? && old(Startable()) ==>
                forall e | 0 <= e < |items| && items[e].selected ::
                  items[e].state.Broken? || ((items[e].state.Saved? || items[e].state.Verified?) && Arrived(items[e], disk))
      ensures forall e | 0 <= e < |items| && Pending(old(items)[e]) && items[e].kind.File? && items[e].state.Saved? ::
                items[e].target !in old(disk)
      ensures s.Raise? ==> s.exn.StopSeen? || (s.exn.Raised? && s.exn.err.auth)
      ensures Justified(s)
    {
      while true
        invariant Valid() && Grows(old(disk), disk) && |items| == |old(items)|
        invariant forall e | 0 <= e < |items| :: Progressed(old(items)[e], items[e], old(disk))
        invariant forall e | e in downloads :: e < |items| && !Pending(items[e]) && items[e].target !in old(disk)
        decreases CountPending(items)
      {
        var next := NextEntry();
        if next.None? { return Pass; }
        var e := next.value;
        Others();
        if stopping { return Raise(StopSeen); }
        ghost var before, end, on := items, Status.Pass, true;
        assert Progressed(old(items)[e], items[e], old(disk));
        s, end, on := Turn(e);
        assert items == before[e := items[e]];
        assert Progressed(old(items)[e], items[e], old(disk));
        if s.Raise? { return; }
        OneLess(before, e, items[e]);
      }
    }

    /** A row is as it was, or it was pending and is now saved, verified, failed or pending again. */
    predicate Progressed(was: Item, item: Item, before: map<Target, Node>) {
      && SameItem(was, item)
      && (item == was
          || (&& Pending(was)
              && (item.state.Saved? || item.state.Verified? || item.state.Broken? || item.state.Waiting?)
              && (item.state.Saved? && item.kind.File? ==> item.target !in before)))
    }
  }
}
