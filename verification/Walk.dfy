/** The breadth-first walk over a paged listing. */
module Walk {
  import opened Paths

  type Path = seq<string>

  datatype Node = Node(path: Path, dir: bool)

  /** What a server may put into a page. */
  datatype Item = Malformed | Entry(node: Node)

  datatype Response = Failure | Page(total: int, items: seq<Item>)

  /** Why a walk ended. `Cut` means that the caller stopped asking. */
  datatype End = Finished | Refused | Changed | Cut

  type Server = (nat, Path, nat) -> Response

  predicate ChildOf(p: Path, folder: Path) {
    |p| == |folder| + 1 && p[..|folder|] == folder
  }

  /** No path is yielded twice, the root included. */
  predicate Distinct(yielded: seq<Node>) {
    forall i, j | 0 <= i < j < |yielded| :: yielded[i].path != yielded[j].path
  }

  /** What is yielded lies in the root or in a directory that was yielded before. */
  predicate ParentsFirst(yielded: seq<Node>, root: Path) {
    forall i | 0 <= i < |yielded| ::
      yielded[i].path == root || ParentBefore(yielded, root, i)
  }

  predicate ParentBefore(yielded: seq<Node>, root: Path, i: nat)
    requires i < |yielded|
  {
    ChildOf(yielded[i].path, root)
    || exists j | 0 <= j < i :: yielded[j].dir && ChildOf(yielded[i].path, yielded[j].path)
  }

  /** `folder` is the root or was yielded as a directory. */
  predicate Opened(yielded: seq<Node>, root: Path, folder: Path) {
    folder == root || Node(folder, true) in yielded
  }

  /** The account of the walk: what was seen, and what is still to be listed. */
  ghost predicate Account(yielded: seq<Node>, seen: set<Path>, pending: seq<Path>, root: Path) {
    && Distinct(yielded) && ParentsFirst(yielded, root)
    && (forall n | n in yielded :: n.path in seen) && root in seen
    && (forall f | f in pending :: Opened(yielded, root, f))
  }

  lemma Yield(yielded: seq<Node>, seen: set<Path>, pending: seq<Path>, root: Path, folder: Path, node: Node)
    requires Account(yielded, seen, pending, root) && Opened(yielded, root, folder)
    requires ChildOf(node.path, folder) && node.path !in seen
    ensures Account(yielded + [node], seen + {node.path}, if node.dir then pending + [node.path] else pending, root)
    ensures Opened(yielded + [node], root, folder)
  {
    var more := yielded + [node];
    forall i | 0 <= i < |more| ensures more[i].path == root || ParentBefore(more, root, i) {
      if i < |yielded| {
        if yielded[i].path != root && !ChildOf(yielded[i].path, root) {
          assert ParentBefore(yielded, root, i);
          var j :| 0 <= j < i && yielded[j].dir && ChildOf(yielded[i].path, yielded[j].path);
          assert more[j].dir && ChildOf(more[i].path, more[j].path);
        }
      } else if folder != root {
        var j :| 0 <= j < |yielded| && yielded[j] == Node(folder, true);
        assert more[j].dir && ChildOf(more[i].path, more[j].path);
      }
    }
    forall i, j | 0 <= i < j < |more| ensures more[i].path != more[j].path {
      if j == |yielded| { assert yielded[i] in yielded; }
    }
    forall f | f in (if node.dir then pending + [node.path] else pending) ensures Opened(more, root, f) {
      if f == node.path && node.dir { assert more[|yielded|] == Node(f, true); }
    }
  }

  /** What is wrong with an item of a page, if anything: it is no entry of the folder, or one that cannot be there now. */
  function ItemEnd(item: Item, folder: Path, seen: set<Path>): End {
    if item.Malformed? || !(|folder| < |item.node.path| && item.node.path[..|folder|] == folder) then Refused
    else if |item.node.path| != |folder| + 1 || item.node.path in seen then Changed
    else Finished
  }

  /** The first `k` items are taken over, and the next one ends the walk. */
  predicate FlawAt(items: seq<Item>, k: nat, folder: Path, seen: set<Path>, end: End) {
    && k < |items| && Acceptable(items[..k], folder, seen) && !end.Finished?
    && end == ItemEnd(items[k], folder, seen + PathsOf(NodesOf(items[..k])))
  }

  /** The items before the first one that is not acceptable are taken over. */
  ghost predicate Flawed(items: seq<Item>, folder: Path, seen: set<Path>, end: End, yielded: seq<Node>, yielded': seq<Node>) {
    exists k: nat :: FlawAt(items, k, folder, seen, end) && yielded' == yielded + NodesOf(items[..k])
  }

  /** One page is taken over, item by item. */
  method TakePage(items: seq<Item>, folder: Path, yielded: seq<Node>, seen: set<Path>, pending: seq<Path>, root: Path)
    returns (yielded': seq<Node>, seen': set<Path>, pending': seq<Path>, end: End)
    requires Account(yielded, seen, pending, root) && Opened(yielded, root, folder)
    ensures Account(yielded', seen', pending', root) && Opened(yielded', root, folder)
    ensures end.Finished? || end.Refused? || end.Changed?
    ensures end.Finished? <==> Acceptable(items, folder, seen)
    ensures !end.Finished? ==> Flawed(items, folder, seen, end, yielded, yielded')
    ensures end.Finished? ==> yielded' == yielded + NodesOf(items) && seen' == seen + PathsOf(NodesOf(items))
                              && pending' == pending + Folders(NodesOf(items))
  {
    yielded', seen', pending', end := yielded, seen, pending, Finished;
    var k := 0;
    assert Upto(items, 0, folder, yielded, seen, pending, yielded', seen', pending');
    hide *;
    while k < |items|
      invariant k <= |items|
      invariant Account(yielded', seen', pending', root) && Opened(yielded', root, folder)
      invariant Upto(items, k, folder, yielded, seen, pending, yielded', seen', pending')
    {
      NextItem(items, k, folder, yielded, seen, pending, yielded', seen', pending');
      FlawIs(items, k, folder, yielded, seen, pending, yielded', seen', pending');
      if items[k].Malformed? { end := Refused; return; }
      var node := items[k].node;
      IsChild(node.path, folder);
      if !(|folder| < |node.path| && node.path[..|folder|] == folder) { end := Refused; return; }
      if |node.path| != |folder| + 1 || node.path in seen' { end := Changed; return; }
      Yield(yielded', seen', pending', root, folder, node);
      yielded', seen', pending' :=
        yielded' + [node], seen' + {node.path}, if node.dir then pending' + [node.path] else pending';
      k := k + 1;
    }
    UptoAll(items, folder, yielded, seen, pending, yielded', seen', pending');
  }

  lemma FlawIs(items: seq<Item>, k: nat, folder: Path, yielded: seq<Node>, seen: set<Path>, pending: seq<Path>,
               yielded': seq<Node>, seen': set<Path>, pending': seq<Path>)
    requires k < |items| && Upto(items, k, folder, yielded, seen, pending, yielded', seen', pending')
    ensures var item := items[k];
            if item.Malformed? || !(|folder| < |item.node.path| && item.node.path[..|folder|] == folder)
            then Flawed(items, folder, seen, Refused, yielded, yielded')
            else |item.node.path| != |folder| + 1 || item.node.path in seen' ==>
                   Flawed(items, folder, seen, Changed, yielded, yielded')
  {
    assert !ItemEnd(items[k], folder, seen').Finished? ==>
             FlawAt(items, k, folder, seen, ItemEnd(items[k], folder, seen'));
  }

  lemma IsChild(p: Path, folder: Path)
    ensures ChildOf(p, folder) <==> |p| == |folder| + 1 && p[..|folder|] == folder
  {
  }

  /** The first `k` items were new children of the folder and have been taken over. */
  ghost predicate Upto(items: seq<Item>, k: nat, folder: Path, yielded: seq<Node>, seen: set<Path>, pending: seq<Path>,
                       yielded': seq<Node>, seen': set<Path>, pending': seq<Path>)
    requires k <= |items|
  {
    && Acceptable(items[..k], folder, seen)
    && yielded' == yielded + NodesOf(items[..k]) && seen' == seen + PathsOf(NodesOf(items[..k]))
    && pending' == pending + Folders(NodesOf(items[..k]))
  }

  lemma UptoAll(items: seq<Item>, folder: Path, yielded: seq<Node>, seen: set<Path>, pending: seq<Path>,
                yielded': seq<Node>, seen': set<Path>, pending': seq<Path>)
    requires Upto(items, |items|, folder, yielded, seen, pending, yielded', seen', pending')
    ensures Acceptable(items, folder, seen)
    ensures yielded' == yielded + NodesOf(items) && seen' == seen + PathsOf(NodesOf(items))
            && pending' == pending + Folders(NodesOf(items))
  {
    assert items[..|items|] == items;
  }

  /** The page is acceptable up to the next item exactly when that is a new child; if not, the page is not. */
  lemma NextItem(items: seq<Item>, k: nat, folder: Path, yielded: seq<Node>, seen: set<Path>, pending: seq<Path>,
                 yielded': seq<Node>, seen': set<Path>, pending': seq<Path>)
    requires k < |items| && Upto(items, k, folder, yielded, seen, pending, yielded', seen', pending')
    ensures if items[k].Entry? && ChildOf(items[k].node.path, folder) && items[k].node.path !in seen' then
              var node := items[k].node;
              Upto(items, k + 1, folder, yielded, seen, pending, yielded' + [node], seen' + {node.path},
                   if node.dir then pending' + [node.path] else pending')
            else
              !Acceptable(items, folder, seen)
  {
    var more, before := items[..k + 1], NodesOf(items[..k]);
    assert more[..k] == items[..k] && more[k] == items[k];
    if items[k].Entry? && ChildOf(items[k].node.path, folder) && items[k].node.path !in seen' {
      var node := items[k].node;
      PathsAppend(before, [node]);
      PathsOfOne(node);
      hide ChildOf, PathsOf;
      assert NodesOf(more) == before + [node];
      assert (before + [node])[..|before|] == before;
      assert yielded + (before + [node]) == yielded' + [node];
      assert pending + (Folders(before) + [node.path]) == pending' + [node.path];
    } else {
      Unacceptable(items, folder, seen, k);
    }
  }

  function NodesOf(items: seq<Item>): seq<Node> {
    if items == [] then []
    else
      var before, last := NodesOf(items[..|items| - 1]), items[|items| - 1];
      if last.Entry? then before + [last.node] else before
  }

  function PathsOf(nodes: seq<Node>): set<Path> {
    set i | 0 <= i < |nodes| :: nodes[i].path
  }

  lemma PathsOfOne(node: Node)
    ensures PathsOf([node]) == {node.path}
  {
    assert [node][0].path in PathsOf([node]);
  }

  lemma PathsAppend(a: seq<Node>, b: seq<Node>)
    ensures PathsOf(a + b) == PathsOf(a) + PathsOf(b)
  {
    forall p | p in PathsOf(a) + PathsOf(b) ensures p in PathsOf(a + b) {
      if p in PathsOf(a) {
        var i :| 0 <= i < |a| && a[i].path == p;
        assert (a + b)[i].path == p;
      } else {
        var i :| 0 <= i < |b| && b[i].path == p;
        assert (a + b)[|a| + i].path == p;
      }
    }
  }

  function Folders(nodes: seq<Node>): seq<Path> {
    if nodes == [] then []
    else
      var before, last := Folders(nodes[..|nodes| - 1]), nodes[|nodes| - 1];
      if last.dir then before + [last.path] else before
  }

  /** The page holds new children of the folder and nothing else. */
  predicate Acceptable(items: seq<Item>, folder: Path, seen: set<Path>) {
    items == [] ||
    var before, last := items[..|items| - 1], items[|items| - 1];
    && Acceptable(before, folder, seen)
    && last.Entry? && ChildOf(last.node.path, folder) && last.node.path !in seen + PathsOf(NodesOf(before))
  }

  lemma {:induction false} Unacceptable(items: seq<Item>, folder: Path, seen: set<Path>, k: nat)
    requires k < |items| && !Acceptable(items[..k + 1], folder, seen)
    ensures !Acceptable(items, folder, seen)
    decreases |items|
  {
    if k + 1 < |items| {
      assert items[..|items| - 1][..k + 1] == items[..k + 1];
      Unacceptable(items[..|items| - 1], folder, seen, k);
    } else {
      assert items[..k + 1] == items;
    }
  }

  lemma {:induction false} FoldersAppend(a: seq<Node>, b: seq<Node>)
    ensures Folders(a + b) == Folders(a) + Folders(b)
    decreases |b|
  {
    if b == [] {
      assert a + b == a;
    } else {
      FoldersAppend(a, b[..|b| - 1]);
      assert (a + b)[..|a + b| - 1] == a + b[..|b| - 1];
    }
  }

  lemma {:induction false} FoldersAre(nodes: seq<Node>, f: Path)
    ensures f in Folders(nodes) <==> Node(f, true) in nodes
    decreases |nodes|
  {
    if nodes != [] {
      var before, last := nodes[..|nodes| - 1], nodes[|nodes| - 1];
      FoldersAre(before, f);
      assert nodes == before + [last];
    }
  }

  // ---------------------------------------------------------------- a server that pages a fixed tree

  type Tree = map<Path, seq<Node>>

  function Entries(nodes: seq<Node>): seq<Item> {
    seq(|nodes|, i requires 0 <= i < |nodes| => Entry(nodes[i]))
  }

  function Until(offset: nat, limit: nat, length: nat): nat {
    if offset + limit < length then offset + limit else length
  }

  /** Every listing is cut into pages of `limit` entries. */
  ghost predicate Pages(serve: Server, tree: Tree, limit: nat) {
    limit > 0 && forall request, folder, offset: nat | folder in tree && offset <= |tree[folder]| ::
      serve(request, folder, offset) ==
      Page(|tree[folder]|, Entries(tree[folder][offset..Until(offset, limit, |tree[folder]|)]))
  }

  ghost predicate Listing(tree: Tree, folder: Path)
    requires folder in tree
  {
    && (forall i | 0 <= i < |tree[folder]| ::
          ChildOf(tree[folder][i].path, folder) && (tree[folder][i].dir <==> tree[folder][i].path in tree))
    && (forall i, j | 0 <= i < j < |tree[folder]| :: tree[folder][i].path != tree[folder][j].path)
  }

  /** Every folder but the root is an entry of the folder above it. */
  ghost predicate Rooted(tree: Tree, root: Path) {
    && root in tree
    && (forall f | f in tree :: Listing(tree, f))
    && (forall f | f in tree && f != root :: |f| > |root| && f[..|f| - 1] in tree && Node(f, true) in tree[f[..|f| - 1]])
  }

  lemma {:induction false} EntriesBack(nodes: seq<Node>)
    ensures NodesOf(Entries(nodes)) == nodes
    decreases |nodes|
  {
    if nodes != [] {
      EntriesBack(nodes[..|nodes| - 1]);
      assert Entries(nodes)[..|nodes| - 1] == Entries(nodes[..|nodes| - 1]);
    }
  }

  lemma {:induction false} PageAcceptable(nodes: seq<Node>, folder: Path, seen: set<Path>)
    requires forall i | 0 <= i < |nodes| :: ChildOf(nodes[i].path, folder) && nodes[i].path !in seen
    requires forall i, j | 0 <= i < j < |nodes| :: nodes[i].path != nodes[j].path
    ensures Acceptable(Entries(nodes), folder, seen)
    decreases |nodes|
  {
    if nodes != [] {
      var before := nodes[..|nodes| - 1];
      PageAcceptable(before, folder, seen);
      EntriesBack(before);
      assert Entries(nodes)[..|nodes| - 1] == Entries(before);
    }
  }

  /** The children of `folder` were not yielded yet. */
  ghost predicate Unlisted(seen: set<Path>, folder: Path) {
    forall p | p in seen :: !ChildOf(p, folder)
  }

  /** The server pages the tree, and nothing in `folder` was yielded yet. */
  ghost predicate Serves(serve: Server, tree: Tree, limit: nat, folder: Path, seen: set<Path>) {
    Pages(serve, tree, limit) && folder in tree && Listing(tree, folder) && Unlisted(seen, folder)
  }

  lemma PartPaths(nodes: seq<Node>, offset: nat, until: nat)
    requires offset <= until <= |nodes|
    requires forall i, j | 0 <= i < j < |nodes| :: nodes[i].path != nodes[j].path
    ensures forall i | offset <= i < until :: nodes[i].path !in PathsOf(nodes[..offset])
  {
  }

  /** The next page of a fixed listing is taken over as it is. */
  lemma NextPage(serve: Server, tree: Tree, limit: nat, request: nat, folder: Path, offset: nat, seen: set<Path>,
                 part: seq<Node>)
    requires Serves(serve, tree, limit, folder, seen) && offset <= |tree[folder]| && part == tree[folder][..offset]
    ensures var r, until := serve(request, folder, offset), Until(offset, limit, |tree[folder]|);
            && r.Page? && r.total == |tree[folder]| && |r.items| == until - offset && until <= |tree[folder]|
            && (offset < r.total ==> r.items != []) && NodesOf(r.items) == tree[folder][offset..until]
            && Acceptable(r.items, folder, seen + PathsOf(part))
            && part + NodesOf(r.items) == tree[folder][..until]
  {
    var all, until := tree[folder], Until(offset, limit, |tree[folder]|);
    var nodes := all[offset..until];
    EntriesBack(nodes);
    PartPaths(all, offset, until);
    forall i | 0 <= i < |nodes| ensures ChildOf(nodes[i].path, folder) && nodes[i].path !in seen + PathsOf(part) {
      assert nodes[i] == all[offset + i];
    }
    forall i, j | 0 <= i < j < |nodes| ensures nodes[i].path != nodes[j].path {
      assert nodes[i] == all[offset + i] && nodes[j] == all[offset + j];
    }
    PageAcceptable(nodes, folder, seen + PathsOf(part));
    assert all[..offset] + nodes == all[..until];
  }

  lemma {:induction false} NodesOfAll(items: seq<Item>, folder: Path, seen: set<Path>)
    requires Acceptable(items, folder, seen)
    ensures |NodesOf(items)| == |items| && forall n | n in NodesOf(items) :: ChildOf(n.path, folder)
    decreases |items|
  {
    if items != [] { NodesOfAll(items[..|items| - 1], folder, seen); }
  }

  /** The nodes of `part` were taken over. */
  ghost predicate Taken(yielded: seq<Node>, seen: set<Path>, pending: seq<Path>, yielded': seq<Node>, seen': set<Path>,
                        pending': seq<Path>, part: seq<Node>, folder: Path)
  {
    && yielded' == yielded + part && seen' == seen + PathsOf(part) && pending' == pending + Folders(part)
    && forall n | n in part :: ChildOf(n.path, folder)
  }

  lemma TakenMore(yielded: seq<Node>, seen: set<Path>, pending: seq<Path>, yielded1: seq<Node>, seen1: set<Path>,
                  pending1: seq<Path>, part: seq<Node>, items: seq<Item>, folder: Path)
    requires Taken(yielded, seen, pending, yielded1, seen1, pending1, part, folder)
    requires Acceptable(items, folder, seen1)
    ensures |NodesOf(items)| == |items|
    ensures Taken(yielded, seen, pending, yielded1 + NodesOf(items), seen1 + PathsOf(NodesOf(items)),
                  pending1 + Folders(NodesOf(items)), part + NodesOf(items), folder)
  {
    hide Acceptable, NodesOf, PathsOf, Folders, ChildOf;
    NodesOfAll(items, folder, seen1);
    PathsAppend(part, NodesOf(items));
    FoldersAppend(part, NodesOf(items));
  }

  lemma NothingTaken(yielded: seq<Node>, seen: set<Path>, pending: seq<Path>, folder: Path)
    ensures Taken(yielded, seen, pending, yielded, seen, pending, [], folder)
  {
  }

  /** Under a fixed tree, what was taken so far is the beginning of the listing. */
  ghost predicate Begun(serve: Server, tree: Tree, limit: nat, folder: Path, seen: set<Path>, part: seq<Node>) {
    Serves(serve, tree, limit, folder, seen) ==> |part| <= |tree[folder]| && part == tree[folder][..|part|]
  }

  /** ... and the next response continues it. */
  ghost predicate Continues(response: Response, tree: Tree, folder: Path, seen: set<Path>, part: seq<Node>)
    requires folder in tree
  {
    && response.Page? && response.total == |tree[folder]| && Acceptable(response.items, folder, seen + PathsOf(part))
    && (|part| < response.total ==> response.items != [])
    && |part + NodesOf(response.items)| <= |tree[folder]| && |NodesOf(response.items)| == |response.items|
    && part + NodesOf(response.items) == tree[folder][..|part + NodesOf(response.items)|]
  }

  lemma BegunEmpty(serve: Server, tree: Tree, limit: nat, folder: Path, seen: set<Path>)
    ensures Begun(serve, tree, limit, folder, seen, [])
  {
  }

  /** What a page adds to the part taken so far. */
  lemma AfterPage(serve: Server, tree: Tree, limit: nat, request: nat, folder: Path, seen: set<Path>, part: seq<Node>)
    requires Begun(serve, tree, limit, folder, seen, part)
    ensures Serves(serve, tree, limit, folder, seen) ==>
              var r := serve(request, folder, |part|);
              && Wellformed(r, |part|) && Acceptable(r.items, folder, seen + PathsOf(part))
              && (|part| + |r.items| >= r.total ==> part + NodesOf(r.items) == tree[folder])
    ensures serve(request, folder, |part|).Page? ==>
              Begun(serve, tree, limit, folder, seen, part + NodesOf(serve(request, folder, |part|).items))
  {
    hide Acceptable, NodesOf, PathsOf, Serves;
    if Serves(serve, tree, limit, folder, seen) {
      ServesListing(serve, tree, limit, folder, seen);
      Continued(serve, tree, limit, request, folder, seen, part);
    }
  }

  lemma Continued(serve: Server, tree: Tree, limit: nat, request: nat, folder: Path, seen: set<Path>, part: seq<Node>)
    requires Serves(serve, tree, limit, folder, seen) && Begun(serve, tree, limit, folder, seen, part)
    ensures Continues(serve(request, folder, |part|), tree, folder, seen, part)
  {
    NextPage(serve, tree, limit, request, folder, |part|, seen, part);
  }

  /** What the first `n` pages of a folder hold, when they are read from request `first` on. */
  function OnPages(serve: Server, folder: Path, first: nat, n: nat): seq<Node> {
    if n == 0 then []
    else
      var part := OnPages(serve, folder, first, n - 1);
      var r := serve(first + n - 1, folder, |part|);
      if r.Page? then part + NodesOf(r.items) else part
  }

  /** The response to request `n` of the folder. */
  function Answer(serve: Server, folder: Path, first: nat, n: nat): Response {
    serve(first + n, folder, |OnPages(serve, folder, first, n)|)
  }

  /** A page that says how many entries there are, and holds some unless they are all there. */
  predicate Wellformed(r: Response, offset: nat) {
    r.Page? && r.total >= 0 && (r.items == [] ==> offset >= r.total)
  }

  /** The page can be taken over. */
  predicate Usable(serve: Server, folder: Path, first: nat, n: nat, seen: set<Path>) {
    var part, r := OnPages(serve, folder, first, n), Answer(serve, folder, first, n);
    Wellformed(r, |part|) && Acceptable(r.items, folder, seen + PathsOf(part))
  }

  /** With this page the folder is complete. */
  predicate IsLast(serve: Server, folder: Path, first: nat, n: nat) {
    var r := Answer(serve, folder, first, n);
    r.Page? && |OnPages(serve, folder, first, n + 1)| >= r.total
  }

  /** The first `n` pages were taken over, and each left something to be read. */
  predicate ReadOn(serve: Server, folder: Path, first: nat, n: nat, seen: set<Path>) {
    forall j | 0 <= j < n :: Usable(serve, folder, first, j, seen) && !IsLast(serve, folder, first, j)
  }

  /** How the listing of a folder ends after `n` requests, whatever the server answers. */
  ghost predicate ListingEnds(serve: Server, folder: Path, first: nat, n: nat, seen: set<Path>, part: seq<Node>, end: End) {
    if end.Cut? then part == OnPages(serve, folder, first, n) && ReadOn(serve, folder, first, n, seen)
    else
      && n > 0 && ReadOn(serve, folder, first, n - 1, seen)
      && if end.Finished? then
           && part == OnPages(serve, folder, first, n) && Usable(serve, folder, first, n - 1, seen)
           && IsLast(serve, folder, first, n - 1)
         else
           && part == OnPages(serve, folder, first, n - 1)
           && var r := Answer(serve, folder, first, n - 1);
              if !Wellformed(r, |part|) then end.Refused?
              else exists k: nat :: FlawAt(r.items, k, folder, seen + PathsOf(part), end)
  }

  /** A page that could not be taken over ends the listing. */
  lemma PageRefused(serve: Server, folder: Path, first: nat, n: nat, seen: set<Path>, part: seq<Node>, end: End,
                    yielded: seq<Node>, yielded': seq<Node>)
    requires ListingEnds(serve, folder, first, n, seen, part, Cut) && !end.Finished? && !end.Cut?
    requires var r := serve(first + n, folder, |part|);
             Wellformed(r, |part|) && Flawed(r.items, folder, seen + PathsOf(part), end, yielded, yielded')
    ensures ListingEnds(serve, folder, first, n + 1, seen, part, end)
  {
    hide ListingEnds;
    AnswerRefused(serve, folder, first, n, seen, part, end);
  }

  /** The next response ends the listing. */
  lemma AnswerRefused(serve: Server, folder: Path, first: nat, n: nat, seen: set<Path>, part: seq<Node>, end: End)
    requires ListingEnds(serve, folder, first, n, seen, part, Cut) && !end.Finished? && !end.Cut?
    requires var r := serve(first + n, folder, |part|);
             if Wellformed(r, |part|) then exists k: nat :: FlawAt(r.items, k, folder, seen + PathsOf(part), end) else end.Refused?
    ensures ListingEnds(serve, folder, first, n + 1, seen, part, end)
  {
    assert serve(first + n, folder, |part|) == Answer(serve, folder, first, n);
    hide FlawAt, OnPages, Usable, IsLast;
  }

  /** The next response is taken over. */
  lemma AnswerTaken(serve: Server, folder: Path, first: nat, n: nat, seen: set<Path>, part: seq<Node>)
    requires ListingEnds(serve, folder, first, n, seen, part, Cut)
    requires var r := serve(first + n, folder, |part|);
             Wellformed(r, |part|) && Acceptable(r.items, folder, seen + PathsOf(part))
    ensures var r := serve(first + n, folder, |part|);
            && (|part| + |r.items| >= r.total ==> ListingEnds(serve, folder, first, n + 1, seen, part + NodesOf(r.items), Finished))
            && (|part| + |r.items| < r.total ==> ListingEnds(serve, folder, first, n + 1, seen, part + NodesOf(r.items), Cut))
  {
    var r := serve(first + n, folder, |part|);
    assert r == Answer(serve, folder, first, n);
    NodesOfAll(r.items, folder, seen + PathsOf(part));
    assert OnPages(serve, folder, first, n + 1) == part + NodesOf(r.items);
    assert Usable(serve, folder, first, n, seen) && (IsLast(serve, folder, first, n) <==> |part| + |r.items| >= r.total);
    hide OnPages, NodesOf, PathsOf, Acceptable, Usable, IsLast;
  }

  lemma NothingRead(serve: Server, folder: Path, first: nat, seen: set<Path>)
    ensures ListingEnds(serve, folder, first, 0, seen, [], Cut)
  {
  }

  /** All pages of one folder. Under a fixed tree they hold exactly its listing, at the cost of one request for
    * each entry and one more.
    */
  method ListFolder(serve: Server, folder: Path, first: nat, last: nat, yielded: seq<Node>, seen: set<Path>,
                    pending: seq<Path>, root: Path, ghost tree: Tree, ghost limit: nat)
    returns (yielded': seq<Node>, seen': set<Path>, pending': seq<Path>, next: nat, ghost part: seq<Node>, end: End)
    requires Account(yielded, seen, pending, root) && Opened(yielded, root, folder) && first <= last
    ensures first <= next <= last && (end.Cut? ==> next == last && next <= first + |part|)
    ensures end.Finished? ==> first < next <= first + |part| + 1
    ensures ListingEnds(serve, folder, first, next - first, seen, part, end)
    ensures FolderEnds(serve, tree, limit, folder, seen, part, end)
    ensures Account(yielded', seen', pending', root)
    ensures end.Finished? || end.Cut? ==> InFolder(serve, tree, limit, folder, root, yielded, seen, pending, yielded', seen', pending', part)
  {
    yielded', seen', pending', next, part, end := yielded, seen, pending, first, [], Cut;
    EnterFolder(serve, tree, limit, folder, root, yielded, seen, pending);
    var offset: nat := 0;
    NothingRead(serve, folder, first, seen);
    NotEnded(serve, tree, limit, folder, seen, part);
    hide *;
    while next < last
      invariant first <= next <= last && end.Cut? && offset == |part| && next <= first + |part|
      invariant InFolder(serve, tree, limit, folder, root, yielded, seen, pending, yielded', seen', pending', part)
      invariant ListingEnds(serve, folder, first, next - first, seen, part, Cut)
      decreases last - next
    {
      ghost var more: seq<Node>;
      yielded', seen', pending', offset, more, end :=
        ReadInFolder(serve, folder, first, next, yielded', seen', pending', root, offset, part, yielded, seen, pending, tree, limit);
      next, part := next + 1, more;
      if !end.Cut? { return; }
      NotEnded(serve, tree, limit, folder, seen, part);
    }
    AccountOf(serve, tree, limit, folder, root, yielded, seen, pending, yielded', seen', pending', part);
  }

  lemma AccountOf(serve: Server, tree: Tree, limit: nat, folder: Path, root: Path, yielded: seq<Node>, seen: set<Path>,
                  pending: seq<Path>, yielded': seq<Node>, seen': set<Path>, pending': seq<Path>, part: seq<Node>)
    requires InFolder(serve, tree, limit, folder, root, yielded, seen, pending, yielded', seen', pending', part)
    ensures Account(yielded', seen', pending', root)
  {
  }

  lemma NotEnded(serve: Server, tree: Tree, limit: nat, folder: Path, seen: set<Path>, part: seq<Node>)
    ensures FolderEnds(serve, tree, limit, folder, seen, part, Cut)
  {
  }

  /** The walk is in the folder, and `part` of it was taken over. */
  ghost predicate InFolder(serve: Server, tree: Tree, limit: nat, folder: Path, root: Path, yielded: seq<Node>,
                           seen: set<Path>, pending: seq<Path>, yielded': seq<Node>, seen': set<Path>,
                           pending': seq<Path>, part: seq<Node>)
  {
    && Account(yielded', seen', pending', root) && Opened(yielded', root, folder)
    && Taken(yielded, seen, pending, yielded', seen', pending', part, folder)
    && Begun(serve, tree, limit, folder, seen, part)
  }

  lemma EnterFolder(serve: Server, tree: Tree, limit: nat, folder: Path, root: Path, yielded: seq<Node>, seen: set<Path>,
                    pending: seq<Path>)
    requires Account(yielded, seen, pending, root) && Opened(yielded, root, folder)
    ensures InFolder(serve, tree, limit, folder, root, yielded, seen, pending, yielded, seen, pending, [])
  {
    NothingTaken(yielded, seen, pending, folder);
    BegunEmpty(serve, tree, limit, folder, seen);
  }

  /** One page of the folder is asked for, and taken over if it can be. */
  method ReadInFolder(serve: Server, folder: Path, ghost first: nat, next: nat, yielded1: seq<Node>, seen1: set<Path>,
                      pending1: seq<Path>, root: Path, offset: nat, ghost part: seq<Node>, ghost yielded: seq<Node>,
                      ghost seen: set<Path>, ghost pending: seq<Path>, ghost tree: Tree, ghost limit: nat)
    returns (yielded': seq<Node>, seen': set<Path>, pending': seq<Path>, offset': nat, ghost more: seq<Node>, end: End)
    requires InFolder(serve, tree, limit, folder, root, yielded, seen, pending, yielded1, seen1, pending1, part)
    requires first <= next && offset == |part| && ListingEnds(serve, folder, first, next - first, seen, part, Cut)
    ensures ListingEnds(serve, folder, first, next + 1 - first, seen, more, end)
    ensures FolderEnds(serve, tree, limit, folder, seen, more, end)
    ensures Account(yielded', seen', pending', root)
    ensures end.Finished? || end.Cut? ==>
              InFolder(serve, tree, limit, folder, root, yielded, seen, pending, yielded', seen', pending', more)
              && offset' == |more| >= |part| && (end.Cut? ==> |more| > |part|)
  {
    SeenPart(yielded, seen, pending, yielded1, seen1, pending1, part, folder);
    hide Account, Opened, Taken, Begun, FolderEnds, ListingEnds, PageRead, NodesOf, PathsOf;
    ghost var items: seq<Item>;
    yielded', seen', pending', offset', items, end :=
      ReadPage(serve, folder, first, next, yielded1, seen1, pending1, root, offset, seen, part);
    PageAdds(serve, tree, limit, folder, next, yielded, seen, pending, yielded1, seen1, pending1, part, offset', items,
             end, yielded', seen', pending');
    more := if end.Finished? || end.Cut? then part + NodesOf(items) else part;
  }

  /** A page was taken over, or it could not be. */
  ghost predicate PageRead(r: Response, folder: Path, offset: nat, offset': nat, items: seq<Item>, end: End,
                           yielded: seq<Node>, seen: set<Path>, pending: seq<Path>,
                           yielded': seq<Node>, seen': set<Path>, pending': seq<Path>)
  {
    if end.Finished? || end.Cut? then
      && r.Page? && items == r.items && Acceptable(items, folder, seen) && offset' == offset + |items|
      && yielded' == yielded + NodesOf(items) && seen' == seen + PathsOf(NodesOf(items))
      && pending' == pending + Folders(NodesOf(items)) && |items| == |NodesOf(items)|
      && (end.Finished? <==> offset' >= r.total) && (end.Cut? ==> items != [])
    else !Wellformed(r, offset) || !Acceptable(r.items, folder, seen)
  }

  /** A fixed tree is listed in full, unless the caller stops asking. */
  ghost predicate FolderEnds(serve: Server, tree: Tree, limit: nat, folder: Path, seen: set<Path>, part: seq<Node>, end: End) {
    Serves(serve, tree, limit, folder, seen) ==> end.Cut? || (end.Finished? && part == tree[folder])
  }

  /** What a page adds to the account of its folder. */
  lemma PageAdds(serve: Server, tree: Tree, limit: nat, folder: Path, next: nat, yielded: seq<Node>, seen: set<Path>,
                 pending: seq<Path>, yielded1: seq<Node>, seen1: set<Path>, pending1: seq<Path>, part: seq<Node>,
                 offset': nat, items: seq<Item>, end: End, yielded': seq<Node>, seen': set<Path>, pending': seq<Path>)
    requires Begun(serve, tree, limit, folder, seen, part)
    requires Taken(yielded, seen, pending, yielded1, seen1, pending1, part, folder)
    requires PageRead(serve(next, folder, |part|), folder, |part|, offset', items, end, yielded1, seen1, pending1,
                      yielded', seen', pending')
    ensures FolderEnds(serve, tree, limit, folder, seen, part + NodesOf(items), end)
    ensures end.Refused? || end.Changed? ==> FolderEnds(serve, tree, limit, folder, seen, part, end)
    ensures end.Finished? || end.Cut? ==>
              var more := part + NodesOf(items);
              && offset' == |more| && Begun(serve, tree, limit, folder, seen, more) && (end.Cut? ==> |more| > |part|)
              && Taken(yielded, seen, pending, yielded', seen', pending', more, folder)
  {
    SeenPart(yielded, seen, pending, yielded1, seen1, pending1, part, folder);
    AfterPage(serve, tree, limit, next, folder, seen, part);
    hide Begun, Taken, Serves, Acceptable, NodesOf, PathsOf, Folders;
    if end.Finished? || end.Cut? { TakenMore(yielded, seen, pending, yielded1, seen1, pending1, part, items, folder); }
  }

  /** One page of a folder is asked for and taken over. */
  method ReadPage(serve: Server, folder: Path, ghost first: nat, next: nat, yielded: seq<Node>, seen: set<Path>,
                  pending: seq<Path>, root: Path, offset: nat, ghost before: set<Path>, ghost part: seq<Node>)
    returns (yielded': seq<Node>, seen': set<Path>, pending': seq<Path>, offset': nat, ghost items: seq<Item>, end: End)
    requires Account(yielded, seen, pending, root) && Opened(yielded, root, folder) && first <= next
    requires offset == |part| && seen == before + PathsOf(part)
    requires ListingEnds(serve, folder, first, next - first, before, part, Cut)
    ensures Account(yielded', seen', pending', root) && Opened(yielded', root, folder)
    ensures ListingEnds(serve, folder, first, next - first + 1, before,
                        if end.Finished? || end.Cut? then part + NodesOf(items) else part, end)
    ensures PageRead(serve(next, folder, offset), folder, offset, offset', items, end, yielded, seen, pending,
                     yielded', seen', pending')
  {
    hide Account, Opened, Acceptable, NodesOf, PathsOf, Folders, ListingEnds, Flawed;
    yielded', seen', pending', offset', items := yielded, seen, pending, offset, [];
    var response := serve(next, folder, offset);
    if response.Failure? || response.total < 0 || (response.items == [] && offset < response.total) {
      end := Refused;
      AnswerRefused(serve, folder, first, next - first, before, part, end);
      return;
    }
    items := response.items;
    yielded', seen', pending', end := TakePage(response.items, folder, yielded, seen, pending, root);
    if !end.Finished? {
      PageRefused(serve, folder, first, next - first, before, part, end, yielded, yielded');
      return;
    }
    AnswerTaken(serve, folder, first, next - first, before, part);
    NodesOfAll(items, folder, seen);
    offset' := offset + |response.items|;
    if offset' < response.total { end := Cut; }
  }

  lemma SeenPart(yielded: seq<Node>, seen: set<Path>, pending: seq<Path>, yielded': seq<Node>, seen': set<Path>,
                 pending': seq<Path>, part: seq<Node>, folder: Path)
    requires Taken(yielded, seen, pending, yielded', seen', pending', part, folder)
    ensures seen' == seen + PathsOf(part)
  {
  }

  // ---------------------------------------------------------------- the walk

  function Start(root: Node): seq<Node> {
    if root.path == [] then [] else [root]
  }

  /** The folders in the order they are listed: the root, and then every directory as it is yielded. */
  function Queue(yielded: seq<Node>, root: Path): seq<Path> {
    (if root == [] then [root] else []) + Folders(yielded)
  }

  predicate NoRepeats(paths: seq<Path>) {
    forall i, j | 0 <= i < j < |paths| :: paths[i] != paths[j]
  }

  /** The books of the walk between two folders: which folders are done, and what they held. */
  ghost predicate Ledger(yielded: seq<Node>, pending: seq<Path>, done: seq<Path>, listed: map<Path, seq<Node>>, root: Node) {
    && done + pending == Queue(yielded, root.path)
    && |yielded| >= |Start(root)| && yielded[..|Start(root)|] == Start(root)
    && SameFolders(done, listed) && Booked(yielded, listed, root) && Deep(Queue(yielded, root.path), root.path)
  }

  ghost predicate SameFolders(done: seq<Path>, listed: map<Path, seq<Node>>) {
    forall f :: f in done <==> f in listed
  }

  predicate Deep(paths: seq<Path>, root: Path) {
    forall f | f in paths :: |f| >= |root|
  }

  /** What was listed was yielded, and the other way round. */
  ghost predicate Booked(yielded: seq<Node>, listed: map<Path, seq<Node>>, root: Node) {
    && (forall f | f in listed :: forall n | n in listed[f] :: n in yielded && ChildOf(n.path, f))
    && (forall n | n in yielded :: n == root || exists f | f in listed :: n in listed[f])
  }

  lemma BookedMore(yielded: seq<Node>, listed: map<Path, seq<Node>>, root: Node, folder: Path, part: seq<Node>)
    requires Booked(yielded, listed, root) && folder !in listed && forall n | n in part :: ChildOf(n.path, folder)
    ensures Booked(yielded + part, listed[folder := part], root)
  {
    var listed' := listed[folder := part];
    forall n | n in yielded + part ensures n == root || exists f | f in listed' :: n in listed'[f] {
      if n in part {
        assert n in listed'[folder];
      } else if n != root {
        var f :| f in listed && n in listed[f];
        assert listed'[f] == listed[f];
      }
    }
  }

  lemma {:induction false} FoldersDistinct(yielded: seq<Node>)
    requires Distinct(yielded)
    ensures NoRepeats(Folders(yielded))
    decreases |yielded|
  {
    if yielded != [] {
      var before, last := yielded[..|yielded| - 1], yielded[|yielded| - 1];
      FoldersDistinct(before);
      FoldersAre(before, last.path);
      assert Node(last.path, true) !in before;
    }
  }

  lemma QueueDistinct(yielded: seq<Node>, root: Path)
    requires Distinct(yielded) && (root == [] ==> forall n | n in yielded :: n.path != [])
    ensures NoRepeats(Queue(yielded, root))
  {
    FoldersDistinct(yielded);
    FoldersAre(yielded, root);
    assert root == [] ==> root !in Folders(yielded);
  }

  /** Every yielded path but the root itself is longer than the root. */
  lemma NotTheRoot(yielded: seq<Node>, pending: seq<Path>, done: seq<Path>, listed: map<Path, seq<Node>>, root: Node)
    requires Ledger(yielded, pending, done, listed, root)
    ensures forall n | n in yielded :: n == root || |n.path| > |root.path|
  {
    forall n | n in yielded ensures n == root || |n.path| > |root.path| {
      if n != root {
        var f :| f in listed && n in listed[f];
        assert f in done && (done + pending)[..|done|] == done && f in Queue(yielded, root.path);
      }
    }
  }

  lemma FirstIsNew(a: seq<Path>, b: seq<Path>)
    requires NoRepeats(a + b) && b != []
    ensures b[0] !in a
  {
    forall i | 0 <= i < |a| ensures a[i] != b[0] { assert (a + b)[i] != (a + b)[|a|]; }
  }

  /** The next folder was not listed, so nothing in it was yielded. */
  lemma NextUnlisted(yielded: seq<Node>, seen: set<Path>, pending: seq<Path>, done: seq<Path>,
                     listed: map<Path, seq<Node>>, root: Node)
    requires Ledger(yielded, pending, done, listed, root) && Distinct(yielded) && pending != []
    requires seen == {root.path} + PathsOf(yielded)
    requires root.path == [] ==> forall n | n in yielded :: n.path != []
    ensures Unlisted(seen, pending[0]) && pending[0] !in listed && |pending[0]| >= |root.path|
  {
    var folder := pending[0];
    QueueDistinct(yielded, root.path);
    assert (done + pending)[|done|] == folder;
    FirstIsNew(done, pending);
    forall p | p in seen ensures !ChildOf(p, folder) {
      if p != root.path {
        var i :| 0 <= i < |yielded| && yielded[i].path == p;
        var n := yielded[i];
        assert n in yielded && n != root;
        var f :| f in listed && n in listed[f];
        assert ChildOf(p, f);
      }
    }
  }

  lemma Regroup(a: seq<Path>, b: seq<Path>, c: seq<Path>)
    requires b != []
    ensures (a + [b[0]]) + (b[1..] + c) == (a + b) + c
  {
  }

  lemma DeepParts(part: seq<Node>, root: Path, folder: Path)
    requires |folder| >= |root| && forall n | n in part :: ChildOf(n.path, folder)
    ensures Deep(Folders(part), root)
  {
    hide Folders;
    forall f | f in Folders(part) ensures |f| >= |root| { FoldersAre(part, f); }
  }

  lemma QueueGrows(yielded: seq<Node>, part: seq<Node>, root: Path, folder: Path)
    requires |folder| >= |root| && forall n | n in part :: ChildOf(n.path, folder)
    ensures Queue(yielded + part, root) == Queue(yielded, root) + Folders(part)
    ensures Deep(Queue(yielded, root), root) ==> Deep(Queue(yielded + part, root), root)
  {
    hide Folders;
    FoldersAppend(yielded, part);
    DeepParts(part, root, folder);
  }

  lemma SameFoldersMore(done: seq<Path>, listed: map<Path, seq<Node>>, folder: Path, part: seq<Node>)
    requires SameFolders(done, listed)
    ensures SameFolders(done + [folder], listed[folder := part])
  {
  }

  /** The books after one more folder. */
  lemma FolderDone(yielded: seq<Node>, pending: seq<Path>, done: seq<Path>, listed: map<Path, seq<Node>>, root: Node,
                   part: seq<Node>)
    requires Ledger(yielded, pending, done, listed, root) && pending != [] && pending[0] !in listed
    requires |pending[0]| >= |root.path| && forall n | n in part :: ChildOf(n.path, pending[0])
    ensures Ledger(yielded + part, pending[1..] + Folders(part), done + [pending[0]], listed[pending[0] := part], root)
  {
    BookedMore(yielded, listed, root, pending[0], part);
    QueueGrows(yielded, part, root.path, pending[0]);
    SameFoldersMore(done, listed, pending[0], part);
    Regroup(done, pending, Folders(part));
    assert (yielded + part)[..|Start(root)|] == yielded[..|Start(root)|];
    hide Booked, Folders, Queue, ChildOf, Deep, SameFolders, Start;
  }

  /** Under a fixed tree, every folder done holds what the tree lists. */
  ghost predicate Copied(tree: Tree, listed: map<Path, seq<Node>>, pending: seq<Path>) {
    && (forall f | f in listed :: f in tree && listed[f] == tree[f])
    && (forall f | f in pending :: f in tree)
  }

  /** Everything the tree lists was yielded, and nothing else but the root. */
  ghost predicate Complete(tree: Tree, yielded: seq<Node>, root: Node) {
    && (forall f | f in tree :: forall n | n in tree[f] :: n in yielded)
    && (forall n | n in yielded :: n == root || exists f | f in tree :: n in tree[f])
  }

  lemma {:induction false} FolderReached(tree: Tree, yielded: seq<Node>, done: seq<Path>, listed: map<Path, seq<Node>>,
                                         root: Node, f: Path)
    requires Ledger(yielded, [], done, listed, root) && Copied(tree, listed, []) && Rooted(tree, root.path)
    requires f in tree && root.dir
    ensures f in listed
    decreases |f|
  {
    assert done + [] == done;
    if f == root.path {
      if root.path != [] {
        assert Start(root)[0] == root && yielded[0] == yielded[..1][0];
        FoldersAre(yielded, f);
      }
    } else {
      var above := f[..|f| - 1];
      FolderReached(tree, yielded, done, listed, root, above);
      assert Node(f, true) in yielded;
      FoldersAre(yielded, f);
    }
  }

  lemma AllReached(tree: Tree, yielded: seq<Node>, done: seq<Path>, listed: map<Path, seq<Node>>, root: Node)
    requires Ledger(yielded, [], done, listed, root) && Copied(tree, listed, []) && Rooted(tree, root.path) && root.dir
    ensures Complete(tree, yielded, root)
  {
    forall f | f in tree ensures f in listed { FolderReached(tree, yielded, done, listed, root, f); }
    forall n | n in yielded ensures n == root || exists f | f in tree :: n in tree[f] {
      if n != root { var f :| f in listed && n in listed[f]; assert n in tree[f]; }
    }
  }

  // ---------------------------------------------------------------- how many requests a fixed tree takes

  ghost function NodesIn(tree: Tree): set<Path> {
    set f, i | f in tree && 0 <= i < |tree[f]| :: tree[f][i].path
  }

  lemma {:induction false} DistinctWithin(yielded: seq<Node>, paths: set<Path>)
    requires Distinct(yielded) && forall n | n in yielded :: n.path in paths
    ensures |yielded| <= |paths|
    decreases |yielded|
  {
    if yielded != [] {
      var before, last := yielded[..|yielded| - 1], yielded[|yielded| - 1];
      forall n | n in before ensures n.path in paths - {last.path} {
        var i :| 0 <= i < |before| && before[i] == n;
        assert yielded[i].path != yielded[|before|].path;
      }
      DistinctWithin(before, paths - {last.path});
    }
  }

  lemma {:induction false} NoRepeatsWithin(paths: seq<Path>, all: set<Path>)
    requires NoRepeats(paths) && forall p | p in paths :: p in all
    ensures |paths| <= |all|
    decreases |paths|
  {
    if paths != [] {
      var before, last := paths[..|paths| - 1], paths[|paths| - 1];
      forall p | p in before ensures p in all - {last} {
        var i :| 0 <= i < |before| && before[i] == p;
        assert paths[i] != paths[|before|];
      }
      NoRepeatsWithin(before, all - {last});
    }
  }

  lemma QueueBudget(tree: Tree, yielded: seq<Node>, pending: seq<Path>, done: seq<Path>, listed: map<Path, seq<Node>>,
                    root: Node, folder: Path)
    requires Ledger(yielded, [folder] + pending, done, listed, root) && Copied(tree, listed, [folder] + pending)
    requires Distinct(yielded) && (root.path == [] ==> forall n | n in yielded :: n.path != [])
    ensures |done| < |tree|
  {
    QueueDistinct(yielded, root.path);
    var queue := Queue(yielded, root.path);
    var used := done + [folder];
    assert queue == used + pending;
    forall i, j | 0 <= i < j < |used| ensures used[i] != used[j] { assert queue[i] != queue[j]; }
    forall p | p in used ensures p in tree.Keys { assert p == folder || p in listed; }
    NoRepeatsWithin(used, tree.Keys);
  }

  lemma ListedPath(tree: Tree, yielded: seq<Node>, listed: map<Path, seq<Node>>, root: Node, part: seq<Node>,
                   folder: Path, n: Node)
    requires Booked(yielded, listed, root) && n in yielded + part && n != root && folder in tree
    requires forall f | f in listed :: f in tree && listed[f] == tree[f]
    requires forall m | m in part :: m in tree[folder]
    ensures n.path in NodesIn(tree)
  {
    if n in part {
      var i :| 0 <= i < |tree[folder]| && tree[folder][i] == n;
      assert tree[folder][i].path in NodesIn(tree);
    } else {
      var f :| f in listed && n in listed[f];
      var i :| 0 <= i < |tree[f]| && tree[f][i] == n;
      assert tree[f][i].path in NodesIn(tree);
    }
  }

  /** What was asked for so far stays below one request for every node and every folder. */
  lemma Affordable(tree: Tree, yielded: seq<Node>, pending: seq<Path>, done: seq<Path>, listed: map<Path, seq<Node>>,
                   root: Node, part: seq<Node>, folder: Path)
    requires Ledger(yielded, [folder] + pending, done, listed, root) && Copied(tree, listed, [folder] + pending)
    requires Distinct(yielded + part) && root.path !in NodesIn(tree)
    requires forall n | n in part :: n in tree[folder]
    requires root.path == [] ==> forall n | n in yielded + part :: n.path != []
    ensures |yielded + part| - |Start(root)| + |done| < |NodesIn(tree)| + |tree|
  {
    var more := yielded + part;
    forall i, j | 0 <= i < j < |yielded| ensures yielded[i].path != yielded[j].path {
      assert more[i].path != more[j].path;
    }
    QueueBudget(tree, yielded, pending, done, listed, root, folder);
    assert folder in [folder] + pending;
    var below := more[|Start(root)|..];
    forall i: nat | i < |below| ensures below[i].path in NodesIn(tree) {
      BelowTheRoot(yielded, part, root, i);
      ListedPath(tree, yielded, listed, root, part, folder, below[i]);
    }
    forall i, j | 0 <= i < j < |below| ensures below[i].path != below[j].path {
      assert more[|Start(root)| + i].path != more[|Start(root)| + j].path;
    }
    DistinctWithin(below, NodesIn(tree));
  }

  lemma BelowTheRoot(yielded: seq<Node>, part: seq<Node>, root: Node, i: nat)
    requires Distinct(yielded + part) && |yielded| >= |Start(root)| && yielded[..|Start(root)|] == Start(root)
    requires |Start(root)| + i < |yielded + part|
    requires root.path == [] ==> forall n | n in yielded + part :: n.path != []
    ensures (yielded + part)[|Start(root)|..][i] in yielded + part && (yielded + part)[|Start(root)|..][i] != root
  {
    var more := yielded + part;
    var n := more[|Start(root)| + i];
    assert n in more;
    if root.path != [] {
      assert yielded[..1][0] == root && more[0] == root;
      assert more[0].path != more[1 + i].path;
    }
  }

  /** The server pages a tree below the root, which is not listed again inside it. */
  ghost predicate Fixed(serve: Server, tree: Tree, limit: nat, root: Node) {
    Pages(serve, tree, limit) && Rooted(tree, root.path) && root.path !in NodesIn(tree) && root.dir
  }

  /** Everything that is known between two folders. */
  ghost predicate Books(yielded: seq<Node>, seen: set<Path>, pending: seq<Path>, done: seq<Path>,
                        listed: map<Path, seq<Node>>, root: Node, tree: Tree, fixed: bool)
  {
    && Account(yielded, seen, pending, root.path) && Ledger(yielded, pending, done, listed, root)
    && seen == {root.path} + PathsOf(yielded)
    && (root.path == [] ==> forall n | n in yielded :: n.path != [])
    && (fixed ==> Copied(tree, listed, pending))
  }

  lemma BooksBegin(root: Node, tree: Tree, fixed: bool)
    requires root.dir && (fixed ==> root.path in tree)
    ensures Books(Start(root), {root.path}, [root.path], [], map[], root, tree, fixed)
  {
    if root.path != [] {
      PathsOfOne(root);
      assert Folders([root]) == Folders([root][..0]) + [root.path];
      assert [] + [root.path] == Queue([root], root.path);
    } else {
      assert Queue([], root.path) == [root.path];
    }
  }

  lemma BooksNext(yielded: seq<Node>, seen: set<Path>, pending: seq<Path>, done: seq<Path>, listed: map<Path, seq<Node>>,
                  root: Node, tree: Tree, serve: Server, limit: nat)
    requires Books(yielded, seen, pending, done, listed, root, tree, Fixed(serve, tree, limit, root)) && pending != []
    ensures Account(yielded, seen, pending[1..], root.path) && Opened(yielded, root.path, pending[0])
    ensures pending[0] !in listed && |pending[0]| >= |root.path|
    ensures Fixed(serve, tree, limit, root) ==> Serves(serve, tree, limit, pending[0], seen)
  {
    hide Folders, PathsOf;
    NextUnlisted(yielded, seen, pending, done, listed, root);
    assert pending[0] in pending;
  }

  lemma BooksMore(yielded: seq<Node>, seen: set<Path>, pending: seq<Path>, done: seq<Path>, listed: map<Path, seq<Node>>,
                  root: Node, tree: Tree, serve: Server, limit: nat,
                  yielded': seq<Node>, seen': set<Path>, pending': seq<Path>, part: seq<Node>)
    requires Books(yielded, seen, pending, done, listed, root, tree, Fixed(serve, tree, limit, root)) && pending != []
    requires pending[0] !in listed && |pending[0]| >= |root.path|
    requires Taken(yielded, seen, pending[1..], yielded', seen', pending', part, pending[0])
    requires Account(yielded', seen', pending', root.path)
    requires Fixed(serve, tree, limit, root) ==> pending[0] in tree && part == tree[pending[0]]
    ensures Books(yielded', seen', pending', done + [pending[0]], listed[pending[0] := part], root, tree,
                  Fixed(serve, tree, limit, root))
  {
    FolderDone(yielded, pending, done, listed, root, part);
    PathsAppend(yielded, part);
    if Fixed(serve, tree, limit, root) { CopiedMore(tree, listed, pending, part); }
    hide Account, Ledger, Copied, Fixed, PathsOf, Folders;
    assert pending' == pending[1..] + Folders(part);
    forall n | n in yielded' && root.path == [] ensures n.path != [] { assert n in yielded || n in part; }
  }

  lemma CopiedMore(tree: Tree, listed: map<Path, seq<Node>>, pending: seq<Path>, part: seq<Node>)
    requires Copied(tree, listed, pending) && pending != [] && part == tree[pending[0]] && Listing(tree, pending[0])
    ensures Copied(tree, listed[pending[0] := part], pending[1..] + Folders(part))
  {
    hide Folders;
    assert pending[0] in pending;
    forall f | f in pending[1..] + Folders(part) ensures f in tree {
      FoldersAre(part, f);
      if f in Folders(part) {
        var i :| 0 <= i < |part| && part[i] == Node(f, true);
        assert tree[pending[0]][i].dir;
      }
    }
  }

  lemma TooFew(yielded: seq<Node>, seen: set<Path>, pending: seq<Path>, done: seq<Path>, listed: map<Path, seq<Node>>,
               root: Node, tree: Tree, serve: Server, limit: nat,
               yielded': seq<Node>, seen': set<Path>, pending': seq<Path>, part: seq<Node>)
    requires Fixed(serve, tree, limit, root)
    requires Books(yielded, seen, pending, done, listed, root, tree, true) && pending != []
    requires Taken(yielded, seen, pending[1..], yielded', seen', pending', part, pending[0])
    requires Account(yielded', seen', pending', root.path)
    requires Serves(serve, tree, limit, pending[0], seen) && Begun(serve, tree, limit, pending[0], seen, part)
    ensures |yielded'| - |Start(root)| + |done| < |NodesIn(tree)| + |tree|
  {
    assert [pending[0]] + pending[1..] == pending;
    forall n | n in yielded + part && root.path == [] ensures n.path != [] { assert n in yielded || n in part; }
    hide Ledger, Copied, Account, Fixed;
    assert Distinct(yielded') by { AccountParts(yielded', seen', pending', root.path); }
    Affordable(tree, yielded, pending[1..], done, listed, root, part, pending[0]);
  }

  lemma AccountParts(yielded: seq<Node>, seen: set<Path>, pending: seq<Path>, root: Path)
    requires Account(yielded, seen, pending, root)
    ensures Distinct(yielded) && ParentsFirst(yielded, root)
  {
  }

  lemma BooksEnd(yielded: seq<Node>, seen: set<Path>, done: seq<Path>, listed: map<Path, seq<Node>>,
                 root: Node, tree: Tree, serve: Server, limit: nat)
    requires Books(yielded, seen, [], done, listed, root, tree, Fixed(serve, tree, limit, root))
    ensures Distinct(yielded) && ParentsFirst(yielded, root.path)
    ensures Fixed(serve, tree, limit, root) ==> Complete(tree, yielded, root)
  {
    if Fixed(serve, tree, limit, root) { AllReached(tree, yielded, done, listed, root); }
  }

  /** `walk`: the root unless it is the whole disk, and then folder after folder. On any server no path is yielded
    * twice and every node follows its folder, however far the walk gets. On one that pages a fixed tree the walk
    * finishes within one request for each entry and each folder, and has then yielded exactly the tree.
    */
  method WalkTree(serve: Server, root: Node, requests: nat, ghost tree: Tree, ghost limit: nat)
    returns (yielded: seq<Node>, end: End)
    ensures Distinct(yielded) && ParentsFirst(yielded, root.path)
    ensures Fixed(serve, tree, limit, root) ==> end.Finished? || end.Cut?
    ensures Fixed(serve, tree, limit, root) && end.Finished? ==> Complete(tree, yielded, root)
    ensures Fixed(serve, tree, limit, root) && requests >= |NodesIn(tree)| + |tree| ==> end.Finished?
    ensures !root.dir ==> yielded == Start(root) && end.Finished?
  {
    yielded, end := Start(root), Finished;
    if !root.dir { return; }
    var pending, seen, next: nat := [root.path], {root.path}, 0;
    ghost var done: seq<Path>, listed: map<Path, seq<Node>> := [], map[];
    BooksBegin(root, tree, Fixed(serve, tree, limit, root));
    hide *;
    while pending != [] && end.Finished?
      invariant end.Finished? ==> Books(yielded, seen, pending, done, listed, root, tree, Fixed(serve, tree, limit, root))
      invariant end.Finished? ==> next <= requests && next + |Start(root)| <= |yielded| + |done|
      invariant !end.Finished? ==> Distinct(yielded) && ParentsFirst(yielded, root.path)
      invariant !end.Finished? && Fixed(serve, tree, limit, root) ==> end.Cut? && requests < |NodesIn(tree)| + |tree|
      decreases end.Finished?, requests - next
    {
      yielded, seen, pending, next, done, listed, end :=
        OneFolder(serve, root, next, requests, yielded, seen, pending, done, listed, tree, limit);
    }
    if end.Finished? { BooksEnd(yielded, seen, done, listed, root, tree, serve, limit); }
  }

  /** One turn of the walk. */
  method OneFolder(serve: Server, root: Node, first: nat, requests: nat, yielded: seq<Node>, seen: set<Path>,
                   pending: seq<Path>, ghost done: seq<Path>, ghost listed: map<Path, seq<Node>>, ghost tree: Tree,
                   ghost limit: nat)
    returns (yielded': seq<Node>, seen': set<Path>, pending': seq<Path>, next: nat, ghost done': seq<Path>,
             ghost listed': map<Path, seq<Node>>, end: End)
    requires Books(yielded, seen, pending, done, listed, root, tree, Fixed(serve, tree, limit, root)) && pending != []
    requires first <= requests && first + |Start(root)| <= |yielded| + |done|
    ensures end.Finished? ==>
              && Books(yielded', seen', pending', done', listed', root, tree, Fixed(serve, tree, limit, root))
              && first < next <= requests && next + |Start(root)| <= |yielded'| + |done'|
    ensures !end.Finished? ==> Distinct(yielded') && ParentsFirst(yielded', root.path)
    ensures !end.Finished? && Fixed(serve, tree, limit, root) ==> end.Cut? && requests < |NodesIn(tree)| + |tree|
  {
    hide *;
    var folder := pending[0];
    done', listed' := done, listed;
    BooksNext(yielded, seen, pending, done, listed, root, tree, serve, limit);
    ghost var part: seq<Node>;
    yielded', seen', pending', next, part, end :=
      ListFolder(serve, folder, first, requests, yielded, seen, pending[1..], root.path, tree, limit);
    AccountParts(yielded', seen', pending', root.path);
    if end.Refused? || end.Changed? { EndsOnly(serve, tree, limit, folder, seen, part, end); return; }
    FolderTaken(serve, tree, limit, folder, root.path, yielded, seen, pending[1..], yielded', seen', pending', part, end);
    TakenLength(yielded, seen, pending[1..], yielded', seen', pending', part, folder);
    ServesListing(serve, tree, limit, folder, seen);
    if end.Cut? {
      if Fixed(serve, tree, limit, root) {
        TooFew(yielded, seen, pending, done, listed, root, tree, serve, limit, yielded', seen', pending', part);
      }
      return;
    }
    BooksMore(yielded, seen, pending, done, listed, root, tree, serve, limit, yielded', seen', pending', part);
    done', listed' := done + [folder], listed[folder := part];
  }

  lemma EndsOnly(serve: Server, tree: Tree, limit: nat, folder: Path, seen: set<Path>, part: seq<Node>, end: End)
    requires FolderEnds(serve, tree, limit, folder, seen, part, end) && !end.Finished? && !end.Cut?
    ensures !Serves(serve, tree, limit, folder, seen)
  {
  }

  lemma FolderTaken(serve: Server, tree: Tree, limit: nat, folder: Path, root: Path, yielded: seq<Node>, seen: set<Path>,
                    pending: seq<Path>, yielded': seq<Node>, seen': set<Path>, pending': seq<Path>, part: seq<Node>, end: End)
    requires InFolder(serve, tree, limit, folder, root, yielded, seen, pending, yielded', seen', pending', part)
    requires FolderEnds(serve, tree, limit, folder, seen, part, end)
    ensures Taken(yielded, seen, pending, yielded', seen', pending', part, folder)
    ensures Begun(serve, tree, limit, folder, seen, part)
    ensures Serves(serve, tree, limit, folder, seen) && end.Finished? ==> folder in tree && part == tree[folder]
  {
    hide Account, Opened, Taken, Begun;
  }

  lemma TakenLength(yielded: seq<Node>, seen: set<Path>, pending: seq<Path>, yielded': seq<Node>, seen': set<Path>,
                    pending': seq<Path>, part: seq<Node>, folder: Path)
    requires Taken(yielded, seen, pending, yielded', seen', pending', part, folder)
    ensures |yielded'| == |yielded| + |part|
  {
  }

  lemma ServesListing(serve: Server, tree: Tree, limit: nat, folder: Path, seen: set<Path>)
    ensures Serves(serve, tree, limit, folder, seen) ==> folder in tree
  {
  }
}
