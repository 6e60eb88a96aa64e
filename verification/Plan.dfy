/** The plan: what becomes the path of every source node below the destination root, and in which order. */
module Plan {
  import opened Rows
  import opened Paths
  import Selection

  // ---------------------------------------------------------------- canonical paths

  /** The length of a character in UTF-8. */
  function Utf8(c: char): nat {
    var code := c as int;
    if code < 0x80 then 1 else if code < 0x800 then 2 else if code < 0x1_0000 then 3 else 4
  }

  function Utf8Length(s: string): nat {
    if s == "" then 0 else Utf8(s[0]) + Utf8Length(s[1..])
  }

  /** `s.split("/")`. */
  function Split(s: string): (parts: seq<string>)
    ensures parts != [] && forall i | 0 <= i < |parts| :: '/' !in parts[i]
  {
    if s == "" then [""]
    else
      var rest := Split(s[1..]);
      if s[0] == '/' then [""] + rest else [[s[0]] + rest[0]] + rest[1..]
  }

  lemma {:induction false} JoinSplitBack(s: string)
    ensures Join(Split(s)) == s
    decreases |s|
  {
    if s != "" {
      JoinSplitBack(s[1..]);
      var rest, parts := Split(s[1..]), Split(s);
      if s[0] == '/' {
        assert parts[1..] == rest;
        assert Join(parts) == "" + "/" + Join(rest);
      } else if |rest| == 1 {
        assert parts == [[s[0]] + rest[0]];
      } else {
        assert parts[1..] == rest[1..];
        assert Join(parts) == [s[0]] + (rest[0] + "/" + Join(rest[1..]));
      }
      assert s == [s[0]] + s[1..];
    }
  }

  lemma {:induction false} SplitName(x: string, rest: string)
    requires '/' !in x && (rest == "" || rest[0] == '/')
    ensures Split(x + rest) == if rest == "" then [x] else [x] + Split(rest[1..])
    decreases |x|
  {
    if x == "" {
      assert x + rest == rest;
    } else {
      assert (x + rest)[1..] == x[1..] + rest;
      SplitName(x[1..], rest);
      assert x == [x[0]] + x[1..];
    }
  }

  lemma {:induction false} SplitJoin(p: seq<string>)
    requires Names(p) && p != []
    ensures Split(Join(p)) == p
    decreases |p|
  {
    if |p| == 1 {
      assert p[0] + "" == p[0];
      SplitName(p[0], "");
    } else {
      SplitJoin(p[1..]);
      var rest := "/" + Join(p[1..]);
      assert Join(p) == p[0] + rest && rest[1..] == Join(p[1..]);
      SplitName(p[0], rest);
    }
  }

  /** A part that no path may contain. */
  predicate Refused(part: string) {
    part == "" || part == "." || part == ".." || Utf8Length(part) > 255
    || exists c | c in part :: c == '\\' || c == ':' || c as int < 32 || c as int == 127
  }

  /** The part of `disk_path` that only cuts: the scheme and trailing slashes go, a leading slash comes. */
  function Trimmed(value: string): (path: string)
    ensures path != "" && path[0] == '/' && (path == "/" || path[|path| - 1] != '/')
  {
    var tail := if StartsWith(value, "disk:") then value[5..] else value;
    var rooted := if StartsWith(tail, "/") then tail else "/" + tail;
    if RStrip(rooted) == "" then "/" else RStrip(rooted)
  }

  /** The part of `disk_path` that refuses. */
  function Checked(path: string): Option<string>
    requires path != ""
  {
    if path != "/" && exists part | part in Split(path[1..]) :: Refused(part) then None
    else if Utf8Length(path) > 4096 then None
    else Some("disk:" + path)
  }

  /** `disk_path`. */
  function DiskPath(value: string): Option<string> {
    Checked(Trimmed(value))
  }

  /** The names a path may be made of, and how long it may be. */
  predicate Allowed(p: seq<string>) {
    && (forall i | 0 <= i < |p| :: '/' !in p[i] && !Refused(p[i]))
    && Utf8Length("/" + Join(p)) <= 4096
  }

  lemma AllowedNames(p: seq<string>)
    requires Allowed(p)
    ensures Names(p)
  {
  }

  /** What `disk_path` returns is canonical. */
  lemma DiskPathIsCanonical(value: string) returns (p: seq<string>)
    requires DiskPath(value).Some?
    ensures Allowed(p) && DiskPath(value) == Some(Disk(p))
  {
    var path := Trimmed(value);
    hide Trimmed, Utf8Length;
    if path == "/" {
      p := [];
      assert "/" + Join(p) == "/" && "disk:/" + Join(p) == "disk:" + path;
    } else {
      p := Split(path[1..]);
      JoinSplitBack(path[1..]);
      hide Split, Join, Refused;
      assert path == "/" + Join(p);
      assert "disk:" + path == "disk:/" + Join(p);
      forall i | 0 <= i < |p| ensures '/' !in p[i] && !Refused(p[i]) { assert p[i] in p; }
    }
  }

  lemma TrimmedDisk(p: seq<string>)
    requires Names(p)
    ensures Trimmed(Disk(p)) == "/" + Join(p)
  {
    var rooted := "/" + Join(p);
    assert Disk(p)[..5] == "disk:" && Disk(p)[5..] == rooted;
    assert rooted[..1] == "/";
    if p == [] {
      assert rooted == "/" && "/"[..0] == "" && RStrip("/") == RStrip("");
    } else {
      JoinNonempty(p);
      assert rooted[|rooted| - 1] == Join(p)[|Join(p)| - 1];
    }
  }

  lemma PartsOf(p: seq<string>)
    requires Names(p) && p != []
    ensures var path := "/" + Join(p); path != "/" && Split(path[1..]) == p && "disk:" + path == Disk(p)
  {
    JoinNonempty(p);
    SplitJoin(p);
    assert ("/" + Join(p))[1..] == Join(p);
  }

  lemma NoPartRefused(p: seq<string>)
    requires Names(p)
    ensures (exists part | part in p :: Refused(part)) <==> !(forall i | 0 <= i < |p| :: '/' !in p[i] && !Refused(p[i]))
  {
    hide Refused;
    if exists part | part in p :: Refused(part) {
      var part :| part in p && Refused(part);
      var i :| 0 <= i < |p| && p[i] == part;
    }
  }

  /** A canonical path is left as it is. */
  lemma DiskPathOfCanonical(p: seq<string>)
    requires Names(p)
    ensures DiskPath(Disk(p)) == if Allowed(p) then Some(Disk(p)) else None
  {
    TrimmedDisk(p);
    if p == [] {
      assert "/" + Join(p) == "/" && "disk:" + "/" == Disk(p);
    } else {
      PartsOf(p);
      NoPartRefused(p);
    }
    hide Trimmed, Utf8Length, Split, Join, Refused, Disk;
  }

  lemma DiskPathIdempotent(value: string)
    requires DiskPath(value).Some?
    ensures DiskPath(DiskPath(value).value) == DiskPath(value)
  {
    var p := DiskPathIsCanonical(value);
    AllowedNames(p);
    DiskPathOfCanonical(p);
  }

  /** `s.lstrip("/")`. */
  function LStrip(s: string): string {
    if s != "" && s[0] == '/' then LStrip(s[1..]) else s
  }

  /** `join_path`. */
  function JoinPath(parent: string, relative: string): Option<string> {
    DiskPath(RStrip(parent) + "/" + LStrip(relative))
  }

  // ---------------------------------------------------------------- from source paths to destination paths

  /** The directory that holds the source root. */
  function Base(root: string): string {
    if root == "disk:/" then "disk:" else CutLast(root)
  }

  /** How many names of the root are not repeated below the destination. */
  function Dropped(root: seq<string>): (k: nat)
    ensures k <= |root|
  {
    if root == [] then 0 else |root| - 1
  }

  predicate Within(p: seq<string>, root: seq<string>) {
    |root| <= |p| && p[..|root|] == root
  }

  function Placed(p: seq<string>, root: seq<string>, destination: seq<string>): seq<string>
    requires Within(p, root)
  {
    destination + p[Dropped(root)..]
  }

  lemma BaseLength(p: seq<string>, root: seq<string>)
    requires Names(p) && Names(root) && Within(p, root) && p != []
    ensures var base := Base(Disk(root));
            StartsWith(Disk(p), base + "/") && Disk(p)[|base| + 1..] == Join(p[Dropped(root)..])
  {
    var base, k := Base(Disk(root)), Dropped(root);
    DiskScheme(root);
    CutDisk(root);
    hide Join, Names;
    if k == 0 {
      assert p[0..] == p && base + "/" == "disk:/";
      BehindPrefix("disk:/", Join(p));
    } else {
      assert root[..k] == p[..k];
      JoinSplit(p, k);
      var whole := "disk:/" + Join(p[..k]);
      assert base == whole;
      assert Disk(p) == (whole + "/") + Join(p[k..]);
      BehindPrefix(whole + "/", Join(p[k..]));
    }
  }

  lemma BehindPrefix(prefix: string, rest: string)
    ensures StartsWith(prefix + rest, prefix) && (prefix + rest)[|prefix|..] == rest
  {
  }

  /** What follows the base in the path of a node. */
  function Relative(path: string, root: string): string {
    var base := Base(root);
    if |base| + 1 <= |path| then path[|base| + 1..] else ""
  }

  lemma LStripJoin(p: seq<string>)
    requires Names(p) && p != []
    ensures LStrip(Join(p)) == Join(p)
  {
    JoinHead(p);
    assert Join(p)[0] == p[0][0] && p[0][0] in p[0];
  }

  lemma Appended(destination: seq<string>, rest: seq<string>)
    requires Names(destination) && Names(rest) && rest != []
    ensures RStrip(Disk(destination)) + "/" + Join(rest) == Disk(destination + rest)
  {
    StripDisk(destination);
    if destination == [] {
      assert destination + rest == rest;
    } else {
      JoinSplit(destination + rest, |destination|);
      assert (destination + rest)[..|destination|] == destination && (destination + rest)[|destination|..] == rest;
      assert "disk:/" + Join(destination) + "/" + Join(rest) == "disk:/" + (Join(destination) + "/" + Join(rest));
    }
  }

  /** The target of a node is the destination root followed by what remains of its path, if that is a path. */
  lemma TargetIsPlaced(p: seq<string>, root: seq<string>, destination: seq<string>)
    requires Names(p) && Names(root) && Names(destination) && Within(p, root) && p != []
    ensures JoinPath(Disk(destination), Relative(Disk(p), Disk(root)))
            == if Allowed(Placed(p, root, destination)) then Some(Disk(Placed(p, root, destination))) else None
  {
    BaseLength(p, root);
    var rest := p[Dropped(root)..];
    assert Names(rest) && rest != [];
    LStripJoin(rest);
    Appended(destination, rest);
    assert Names(destination + rest);
    hide Join, Disk, Base, DiskPath, Allowed, Names, RStrip, LStrip;
    DiskPathOfCanonical(destination + rest);
  }

  /** Nothing is placed on top of something else, and what lies below a directory stays below it. */
  lemma PlacingPreserves(p: seq<string>, q: seq<string>, root: seq<string>, destination: seq<string>)
    requires Within(p, root) && Within(q, root)
    ensures Placed(p, root, destination) == Placed(q, root, destination) <==> p == q
    ensures Below(Placed(p, root, destination), Placed(q, root, destination)) <==> Below(p, q)
  {
    var k := Dropped(root);
    var p', q' := Placed(p, root, destination), Placed(q, root, destination);
    assert p[..k] == p[..|root|][..k] && q[..k] == q[..|root|][..k];
    assert p == p[..k] + p[k..] && q == q[..k] + q[k..];
    assert p'[|destination|..] == p[k..] && q'[|destination|..] == q[k..];
    if |q| < |p| {
      assert p'[..|q'|] == destination + p[k..|q|];
      assert p[..|q|] == p[..k] + p[k..|q|];
      if p'[..|q'|] == q' { assert p[k..|q|] == p'[..|q'|][|destination|..] == q[k..]; }
      if p[..|q|] == q { assert p[k..|q|] == p[..|q|][k..] == q[k..]; }
    }
  }

  // ---------------------------------------------------------------- the order of the plan

  datatype Item = Item(kind: Selection.Kind, source: string, target: string)

  function Slashes(s: string): nat {
    if s == "" then 0 else (if s[0] == '/' then 1 else 0) + Slashes(s[1..])
  }

  lemma {:induction false} SlashesAdd(s: string, t: string)
    ensures Slashes(s + t) == Slashes(s) + Slashes(t)
    decreases |s|
  {
    if s == "" {
      assert s + t == t;
    } else {
      assert (s + t)[1..] == s[1..] + t;
      SlashesAdd(s[1..], t);
    }
  }

  lemma {:induction false} NoSlashes(s: string)
    requires '/' !in s
    ensures Slashes(s) == 0
    decreases |s|
  {
    if s != "" { NoSlashes(s[1..]); }
  }

  /** A path has a slash for every name. */
  lemma {:induction false} DiskSlashes(p: seq<string>)
    requires Names(p) && p != []
    ensures Slashes(Disk(p)) == |p|
  {
    JoinSlashes(p);
    assert Slashes("disk:/") == 1 by {
      NoSlashes("disk:");
      SlashesAdd("disk:", "/");
      assert "disk:" + "/" == "disk:/" && Slashes("/") == 1 + Slashes("/"[1..]);
    }
    SlashesAdd("disk:/", Join(p));
  }

  lemma {:induction false} JoinSlashes(p: seq<string>)
    requires Names(p) && p != []
    ensures Slashes(Join(p)) == |p| - 1
    decreases |p|
  {
    NoSlashes(p[0]);
    if |p| > 1 {
      JoinSlashes(p[1..]);
      assert Join(p) == p[0] + ("/" + Join(p[1..]));
      SlashesAdd(p[0], "/" + Join(p[1..]));
    }
  }

  predicate LexLess(s: string, t: string) {
    t != "" && (s == "" || s[0] < t[0] || (s[0] == t[0] && LexLess(s[1..], t[1..])))
  }

  /** Directories first, shallow ones before deep ones, and then by text. */
  predicate Before(a: Item, b: Item) {
    var x, y := Slashes(a.target), Slashes(b.target);
    if a.kind != b.kind then a.kind.Dir?
    else x < y || (x == y && !LexLess(b.target, a.target))
  }

  predicate Ordered(items: seq<Item>) {
    forall i, j | 0 <= i < j < |items| :: Before(items[i], items[j])
  }

  lemma {:induction false} LexTotal(s: string, t: string, u: string)
    ensures !(LexLess(s, t) && LexLess(t, s))
    ensures !LexLess(t, s) && !LexLess(u, t) ==> !LexLess(u, s)
    decreases |s|
  {
    if s != "" && t != "" && u != "" {
      LexTotal(s[1..], t[1..], u[1..]);
    } else if s != "" && t != "" {
      LexTotal(s[1..], t[1..], "");
    }
  }

  lemma BeforeTransitive(a: Item, b: Item, c: Item)
    requires Before(a, b) && Before(b, c)
    ensures Before(a, c)
  {
    LexTotal(a.target, b.target, c.target);
  }

  function Insert(item: Item, items: seq<Item>): (r: seq<Item>)
    requires Ordered(items)
    ensures multiset(r) == multiset(items) + multiset{item}
  {
    if items == [] then [item]
    else if Before(item, items[0]) then [item] + items
    else
      assert items == [items[0]] + items[1..];
      assert Ordered(items[1..]);
      [items[0]] + Insert(item, items[1..])
  }

  lemma {:induction false} InsertOrdered(item: Item, items: seq<Item>)
    requires Ordered(items)
    ensures Ordered(Insert(item, items))
    decreases |items|
  {
    if items != [] {
      var r := Insert(item, items);
      if Before(item, items[0]) {
        forall i, j | 0 <= i < j < |r| ensures Before(r[i], r[j]) {
          if i == 0 && j > 1 { BeforeTransitive(item, items[0], items[j - 1]); }
          if i > 0 { assert r[i] == items[i - 1] && r[j] == items[j - 1]; }
        }
      } else {
        LexTotal(item.target, items[0].target, item.target);
        InsertOrdered(item, items[1..]);
        forall i, j | 0 <= i < j < |r| ensures Before(r[i], r[j]) {
          if i == 0 {
            assert r[j] in multiset(Insert(item, items[1..]));
            assert r[j] == item || r[j] in items[1..];
          }
        }
      }
    }
  }

  /** `entries.sort`. */
  function Sort(items: seq<Item>): (r: seq<Item>)
    ensures Ordered(r) && multiset(r) == multiset(items)
  {
    if items == [] then []
    else
      var last := items[|items| - 1];
      assert items == items[..|items| - 1] + [last];
      var rest := Sort(items[..|items| - 1]);
      InsertOrdered(last, rest);
      Insert(last, rest)
  }

  // ---------------------------------------------------------------- the plan

  /** A node of the walk. Its type may be one that cannot be copied, and the source may not know its size. */
  datatype Node = Node(path: string, kind: Option<Selection.Kind>, size: Option<int>)

  datatype Problem =
    | InvalidPath | InvalidTree | TechnicalCollision | PathCollision | UnsupportedResource | SizeUnavailable

  datatype Outcome = Planned(items: seq<Item>) | Rejected(problem: Problem)

  /** `item` stands for the node with the names `p`. */
  predicate Stands(item: Item, p: seq<string>, root: seq<string>, destination: seq<string>) {
    && Allowed(p) && p != [] && Within(p, root)
    && item.source == Disk(p) && item.target == Disk(Placed(p, root, destination))
  }

  ghost predicate Faithful(item: Item, root: seq<string>, destination: seq<string>) {
    exists p :: Stands(item, p, root, destination)
  }

  ghost predicate AllFaithful(items: seq<Item>, root: seq<string>, destination: seq<string>) {
    forall i | 0 <= i < |items| :: Faithful(items[i], root, destination)
  }

  /** The checks on the place of a node in the walked tree. */
  predicate InTree(path: string, root: string) {
    (root == "disk:/" || path == root || StartsWith(path, root + "/")) && StartsWith(path, Base(root) + "/")
  }

  lemma UnderRoot(p: seq<string>, root: seq<string>)
    requires Names(p) && Names(root) && p != [] && root != []
    ensures Disk(p) == Disk(root) || StartsWith(Disk(p), Disk(root) + "/") <==> Within(p, root)
  {
    StripDisk(root);
    DiskPrefix(p, root);
    hide Join, StartsWith, RStrip;
    if Disk(p) == Disk(root) { DiskInjective(p, root); }
    if |p| == |root| && Within(p, root) { assert p == root; }
    assert p == root ==> Within(p, root);
    hide Disk;
  }

  lemma InTreeIsWithin(p: seq<string>, root: seq<string>)
    requires Names(p) && Names(root) && p != []
    ensures InTree(Disk(p), Disk(root)) <==> Within(p, root)
  {
    DiskScheme(root);
    if root != [] { UnderRoot(p, root); } else { assert Within(p, root); }
    if Within(p, root) { BaseLength(p, root); }
    hide Join, Disk, Base, StartsWith, Within;
  }

  /** The technical namespace and the target of a node may not contain one another. */
  predicate Collides(target: string, technical: string) {
    technical != ""
    && (target == technical || StartsWith(target, technical + "/") || StartsWith(technical, target + "/"))
  }

  /** One of the two paths contains the other. */
  predicate Overlap(p: seq<string>, q: seq<string>) {
    p == q || Below(p, q) || Below(q, p)
  }

  lemma CollidesIsOverlap(p: seq<string>, q: seq<string>)
    requires Names(p) && Names(q) && p != [] && q != []
    ensures Disk(p) != "" && (Collides(Disk(p), Disk(q)) <==> Overlap(p, q))
  {
    StripDisk(p);
    StripDisk(q);
    DiskPrefix(p, q);
    DiskPrefix(q, p);
    hide Join, StartsWith, RStrip, Below;
    if Disk(p) == Disk(q) { DiskInjective(p, q); }
  }

  // what the plan has to be, in terms of names

  lemma HasNames(value: string)
    requires DiskPath(value).Some?
    ensures exists p :: Allowed(p) && DiskPath(value) == Some(Disk(p))
  {
    var p := DiskPathIsCanonical(value);
  }

  /** The names of the canonical path of a node, if it has one. */
  ghost function NamesOf(node: Node): (p: Option<seq<string>>)
    ensures p.Some? <==> DiskPath(node.path).Some?
    ensures p.Some? ==> Allowed(p.value) && DiskPath(node.path) == Some(Disk(p.value))
  {
    if DiskPath(node.path).None? then None
    else
      HasNames(node.path);
      var p :| Allowed(p) && DiskPath(node.path) == Some(Disk(p));
      Some(p)
  }

  lemma NamesAre(node: Node, p: seq<string>)
    requires Allowed(p) && DiskPath(node.path) == Some(Disk(p))
    ensures NamesOf(node) == Some(p) && Names(p)
  {
    var q := NamesOf(node).value;
    AllowedNames(p);
    AllowedNames(q);
    DiskInjective(p, q);
  }

  /** The names the target of a node is made of. The root of the disk has none. */
  ghost function PlaceOf(node: Node, root: seq<string>, destination: seq<string>): Option<seq<string>> {
    var p := NamesOf(node);
    if p.Some? && p.value != [] && Within(p.value, root) then Some(Placed(p.value, root, destination)) else None
  }

  /** What is wrong with the path of a node or with its target. */
  ghost function Misplaced(node: Node, root: seq<string>, destination: seq<string>, technical: Option<seq<string>>)
    : Option<Problem>
  {
    var p := NamesOf(node);
    if p.None? then Some(InvalidPath)
    else if p.value == [] then None
    else if !Within(p.value, root) then Some(InvalidTree)
    else if !Allowed(Placed(p.value, root, destination)) then Some(InvalidPath)
    else if technical.Some? && Overlap(Placed(p.value, root, destination), technical.value) then Some(TechnicalCollision)
    else None
  }

  /** What is wrong with a node wherever it is. */
  function Flaw(node: Node): Option<Problem> {
    if node.kind.None? then Some(UnsupportedResource)
    else if node.kind.value.File? && (node.size.None? || node.size.value < 0) then Some(SizeUnavailable)
    else None
  }

  /** Both nodes have a target, and normalised the targets are the same. */
  ghost predicate SamePlace(a: Node, b: Node, root: seq<string>, destination: seq<string>, normal: string -> string) {
    var x, y := PlaceOf(a, root, destination), PlaceOf(b, root, destination);
    x.Some? && y.Some? && normal(Disk(x.value)) == normal(Disk(y.value))
  }

  /** Where the normalisation keeps the targets apart, only nodes with the same canonical path have the same place. */
  lemma SamePlaceExactly(a: Node, b: Node, root: seq<string>, destination: seq<string>, normal: string -> string)
    requires Names(destination) && PlaceOf(a, root, destination).Some? && PlaceOf(b, root, destination).Some?
    ensures DiskPath(a.path) == DiskPath(b.path) ==> SamePlace(a, b, root, destination, normal)
    ensures var x, y := Disk(PlaceOf(a, root, destination).value), Disk(PlaceOf(b, root, destination).value);
            (normal(x) == normal(y) ==> x == y) ==>
              (SamePlace(a, b, root, destination, normal) <==> DiskPath(a.path) == DiskPath(b.path))
  {
    var p, q := NamesOf(a).value, NamesOf(b).value;
    AllowedNames(p);
    AllowedNames(q);
    if DiskPath(a.path) == DiskPath(b.path) { DiskInjective(p, q); }
    PlacingPreserves(p, q, root, destination);
    var x, y := Placed(p, root, destination), Placed(q, root, destination);
    assert Names(x) && Names(y);
    hide Allowed, Disk, Names, Within, Placed, DiskPath;
    if Disk(x) == Disk(y) { DiskInjective(x, y); }
  }

  /** What is wrong with node `k` of the walk. */
  ghost function Complaint(nodes: seq<Node>, k: nat, root: seq<string>, destination: seq<string>,
                           technical: Option<seq<string>>, normal: string -> string): Option<Problem>
    requires k < |nodes|
  {
    var misplaced := Misplaced(nodes[k], root, destination, technical);
    if misplaced.Some? || NamesOf(nodes[k]) == Some([]) then misplaced
    else if Claimed(nodes, k, root, destination, normal) then Some(PathCollision)
    else Flaw(nodes[k])
  }

  /** An earlier node has the place of node `k`. */
  ghost predicate Claimed(nodes: seq<Node>, k: nat, root: seq<string>, destination: seq<string>, normal: string -> string)
    requires k < |nodes|
  {
    exists i | 0 <= i < k :: SamePlace(nodes[i], nodes[k], root, destination, normal)
  }

  /** The items of the plan in the order of the walk. The root of the disk is none. */
  ghost function ItemsOf(nodes: seq<Node>, root: seq<string>, destination: seq<string>): seq<Item> {
    if nodes == [] then []
    else
      var last := nodes[|nodes| - 1];
      ItemsOf(nodes[..|nodes| - 1], root, destination)
      + if PlaceOf(last, root, destination).Some? && last.kind.Some? then [ItemOf(last, root, destination)] else []
  }

  ghost function ItemOf(node: Node, root: seq<string>, destination: seq<string>): Item
    requires PlaceOf(node, root, destination).Some? && node.kind.Some?
  {
    Item(node.kind.value, Disk(NamesOf(node).value), Disk(PlaceOf(node, root, destination).value))
  }

  datatype Place = Place(source: string, target: string)

  /** The path and the target of one node, or why the plan is refused. */
  method PlanNode(node: Node, rootText: string, destinationText: string, technicalText: string, ghost root: seq<string>,
                  ghost destination: seq<string>, ghost technical: Option<seq<string>>)
    returns (place: Option<Place>, problem: Option<Problem>)
    requires Names(root) && rootText == Disk(root) && Names(destination) && destinationText == Disk(destination)
    requires technicalText == (if technical.Some? then Disk(technical.value) else "")
    requires technical.Some? ==> Names(technical.value) && technical.value != []
    ensures problem == Misplaced(node, root, destination, technical)
    ensures place.Some? <==> problem.None? && PlaceOf(node, root, destination).Some?
    ensures place.Some? ==> place.value == Place(Disk(NamesOf(node).value), Disk(PlaceOf(node, root, destination).value))
  {
    place, problem := None, None;
    var canonical := DiskPath(node.path);
    if canonical.None? { problem := Some(InvalidPath); return; }
    var path := canonical.value;
    ghost var p := NamesOf(node).value;
    AllowedNames(p);
    DiskScheme(p);
    if path == "disk:/" { return; }
    InTreeIsWithin(p, root);
    if !InTree(path, rootText) { problem := Some(InvalidTree); return; }
    TargetIsPlaced(p, root, destination);
    ghost var x := Placed(p, root, destination);
    assert x != [];
    hide DiskPath, Join, Disk, Base, InTree, JoinPath, Within, Placed, Relative, StartsWith, Overlap;
    var target := JoinPath(destinationText, Relative(path, rootText));
    if target.None? { problem := Some(InvalidPath); return; }
    AllowedNames(x);
    if technical.Some? { CollidesIsOverlap(x, technical.value); CollidesIsOverlap(technical.value, x); }
    if Collides(target.value, technicalText) { problem := Some(TechnicalCollision); return; }
    place := Some(Place(path, target.value));
  }

  lemma FlawOf(node: Node, root: seq<string>, destination: seq<string>)
    ensures node.kind.None? ==> Flaw(node) == Some(UnsupportedResource)
    ensures node.kind.Some? ==>
              Flaw(node) == if node.kind.value.File? && (node.size.None? || node.size.value < 0) then Some(SizeUnavailable) else None
    ensures node.kind.Some? && PlaceOf(node, root, destination).Some? ==>
              ItemOf(node, root, destination)
              == Item(node.kind.value, Disk(NamesOf(node).value), Disk(PlaceOf(node, root, destination).value))
  {
  }

  lemma ProgressItems(items: seq<Item>, seen: set<string>, nodes: seq<Node>, root: seq<string>, destination: seq<string>,
                      normal: string -> string)
    requires Progress(items, seen, nodes, |nodes|, root, destination, normal)
    ensures items == ItemsOf(nodes[..|nodes|], root, destination)
  {
  }

  /** `plan`: every node once, below the destination, directories before what they hold. The plan is refused exactly
    * when something is wrong with a node, and then for the first one. `normal` is the normalisation of names.
    */
  method MakePlan(nodes: seq<Node>, rootText: string, destinationText: string, technicalText: string,
                  normal: string -> string, ghost root: seq<string>, ghost destination: seq<string>,
                  ghost technical: Option<seq<string>>) returns (r: Outcome)
    requires Names(root) && rootText == Disk(root) && Names(destination) && destinationText == Disk(destination)
    requires technicalText == (if technical.Some? then Disk(technical.value) else "")
    requires technical.Some? ==> Names(technical.value) && technical.value != []
    ensures r.Planned? <==> forall k | 0 <= k < |nodes| :: Complaint(nodes, k, root, destination, technical, normal).None?
    ensures r.Rejected? ==>
              exists k | 0 <= k < |nodes| ::
                Complaint(nodes, k, root, destination, technical, normal) == Some(r.problem)
                && forall i | 0 <= i < k :: Complaint(nodes, i, root, destination, technical, normal).None?
    ensures r.Planned? ==> Ordered(r.items) && multiset(r.items) == multiset(ItemsOf(nodes, root, destination))
    ensures r.Planned? ==> AllFaithful(r.items, root, destination) && Distinct(r.items, normal)
  {
    var items: seq<Item>, seen: set<string> := [], {};
    var k := 0;
    hide *;
    NothingPlanned(nodes, root, destination, normal);
    while k < |nodes|
      invariant k <= |nodes| && Progress(items, seen, nodes, k, root, destination, normal)
      invariant forall i | 0 <= i < k :: Complaint(nodes, i, root, destination, technical, normal).None?
    {
      var place, problem := PlanNode(nodes[k], rootText, destinationText, technicalText, root, destination, technical);
      NextNode(items, seen, nodes, k, root, destination, technical, normal);
      FlawOf(nodes[k], root, destination);
      if problem.Some? { return Rejected(problem.value); }
      if place.Some? {
        if normal(place.value.target) in seen { return Rejected(PathCollision); }
        seen := seen + {normal(place.value.target)};
        if nodes[k].kind.None? { return Rejected(UnsupportedResource); }
        if nodes[k].kind.value.File? && (nodes[k].size.None? || nodes[k].size.value < 0) { return Rejected(SizeUnavailable); }
        items := items + [Item(nodes[k].kind.value, place.value.source, place.value.target)];
      }
      k := k + 1;
    }
    assert nodes[..|nodes|] == nodes;
    PlannedItems(nodes, |nodes|, root, destination, technical, normal);
    ProgressItems(items, seen, nodes, root, destination, normal);
    r := Outcome.Planned(Sort(items));
    SortedPlan(items, r.items, root, destination, normal);
  }

  /** The target of the node, normalised, is `t`. */
  ghost predicate PlacedAt(node: Node, root: seq<string>, destination: seq<string>, normal: string -> string, t: string) {
    var x := PlaceOf(node, root, destination);
    x.Some? && normal(Disk(x.value)) == t
  }

  /** The first `k` nodes are planned, and `seen` are their targets. */
  ghost predicate Progress(items: seq<Item>, seen: set<string>, nodes: seq<Node>, k: nat, root: seq<string>,
                           destination: seq<string>, normal: string -> string)
  {
    k <= |nodes| && items == ItemsOf(nodes[..k], root, destination) && Targets(seen, nodes, k, root, destination, normal)
  }

  ghost predicate Targets(seen: set<string>, nodes: seq<Node>, k: nat, root: seq<string>, destination: seq<string>,
                          normal: string -> string)
    requires k <= |nodes|
  {
    forall t :: t in seen <==> exists i | 0 <= i < k :: PlacedAt(nodes[i], root, destination, normal, t)
  }

  lemma NothingPlanned(nodes: seq<Node>, root: seq<string>, destination: seq<string>, normal: string -> string)
    ensures Progress([], {}, nodes, 0, root, destination, normal)
  {
  }

  /** Whether an earlier node has the place of node `k` is seen from the targets planned so far. */
  lemma ClaimedIsSeen(items: seq<Item>, seen: set<string>, nodes: seq<Node>, k: nat, root: seq<string>,
                      destination: seq<string>, normal: string -> string)
    requires Progress(items, seen, nodes, k, root, destination, normal) && k < |nodes|
    requires PlaceOf(nodes[k], root, destination).Some?
    ensures normal(Disk(PlaceOf(nodes[k], root, destination).value)) in seen
            <==> Claimed(nodes, k, root, destination, normal)
  {
    hide PlaceOf, ItemsOf, Disk;
    var t := normal(Disk(PlaceOf(nodes[k], root, destination).value));
    if t in seen {
      var i :| 0 <= i < k && PlacedAt(nodes[i], root, destination, normal, t);
      assert SamePlace(nodes[i], nodes[k], root, destination, normal);
    }
    if Claimed(nodes, k, root, destination, normal) {
      var i :| 0 <= i < k && SamePlace(nodes[i], nodes[k], root, destination, normal);
      assert PlacedAt(nodes[i], root, destination, normal, t);
    }
  }

  /** The next node is the root of the disk. */
  lemma NoneMore(items: seq<Item>, seen: set<string>, nodes: seq<Node>, k: nat, root: seq<string>,
                 destination: seq<string>, normal: string -> string)
    requires Progress(items, seen, nodes, k, root, destination, normal) && k < |nodes|
    requires PlaceOf(nodes[k], root, destination).None?
    ensures Progress(items, seen, nodes, k + 1, root, destination, normal)
  {
    ItemsNext(nodes, k, root, destination);
    OnePlace(nodes[k], root, destination, normal);
    TargetsNext(seen, {}, nodes, k, root, destination, normal);
    hide PlacedAt, Targets, ItemsOf, PlaceOf;
    assert seen + {} == seen;
    assert items + [] == items;
  }

  /** The next node is planned. */
  lemma OneMore(items: seq<Item>, seen: set<string>, nodes: seq<Node>, k: nat, root: seq<string>,
                destination: seq<string>, normal: string -> string)
    requires Progress(items, seen, nodes, k, root, destination, normal) && k < |nodes|
    requires PlaceOf(nodes[k], root, destination).Some? && nodes[k].kind.Some?
    ensures Progress(items + [ItemOf(nodes[k], root, destination)],
                     seen + {normal(Disk(PlaceOf(nodes[k], root, destination).value))}, nodes, k + 1, root, destination, normal)
  {
    hide PlacedAt, Targets, ItemsOf, PlaceOf, Disk, ItemOf;
    ItemsNext(nodes, k, root, destination);
    OnePlace(nodes[k], root, destination, normal);
    TargetsNext(seen, {normal(Disk(PlaceOf(nodes[k], root, destination).value))}, nodes, k, root, destination, normal);
  }

  lemma ItemsNext(nodes: seq<Node>, k: nat, root: seq<string>, destination: seq<string>)
    requires k < |nodes|
    ensures var last := nodes[k];
            ItemsOf(nodes[..k + 1], root, destination) == ItemsOf(nodes[..k], root, destination)
              + if PlaceOf(last, root, destination).Some? && last.kind.Some? then [ItemOf(last, root, destination)] else []
  {
    var more := nodes[..k + 1];
    assert more[..k] == nodes[..k] && more[k] == nodes[k];
    hide PlaceOf, ItemOf;
  }

  lemma OnePlace(node: Node, root: seq<string>, destination: seq<string>, normal: string -> string)
    ensures var place := PlaceOf(node, root, destination);
            forall u :: PlacedAt(node, root, destination, normal, u) <==> place.Some? && u == normal(Disk(place.value))
  {
    hide PlaceOf, Disk;
  }

  lemma TargetsNext(seen: set<string>, new': set<string>, nodes: seq<Node>, k: nat, root: seq<string>,
                    destination: seq<string>, normal: string -> string)
    requires k < |nodes| && Targets(seen, nodes, k, root, destination, normal)
    requires forall u :: PlacedAt(nodes[k], root, destination, normal, u) <==> u in new'
    ensures Targets(seen + new', nodes, k + 1, root, destination, normal)
  {
    hide PlacedAt;
    forall u ensures u in seen + new' <==> exists i | 0 <= i < k + 1 :: PlacedAt(nodes[i], root, destination, normal, u) {
      assert u in new' <==> PlacedAt(nodes[k], root, destination, normal, u);
    }
  }

  lemma ComplaintIs(nodes: seq<Node>, k: nat, root: seq<string>, destination: seq<string>,
                    technical: Option<seq<string>>, normal: string -> string)
    requires k < |nodes|
    ensures var misplaced := Misplaced(nodes[k], root, destination, technical);
            Complaint(nodes, k, root, destination, technical, normal) ==
            if misplaced.Some? then misplaced
            else if PlaceOf(nodes[k], root, destination).None? then None
            else if Claimed(nodes, k, root, destination, normal) then Some(PathCollision)
            else Flaw(nodes[k])
  {
    if Misplaced(nodes[k], root, destination, technical).None? { NoPlace(nodes[k], root, destination, technical); }
    hide Misplaced, PlaceOf, Claimed, Flaw, NamesOf;
  }

  /** What is wrong with the next node, and how the plan goes on if nothing is. */
  lemma NextNode(items: seq<Item>, seen: set<string>, nodes: seq<Node>, k: nat, root: seq<string>,
                 destination: seq<string>, technical: Option<seq<string>>, normal: string -> string)
    requires Progress(items, seen, nodes, k, root, destination, normal) && k < |nodes|
    ensures var node, complaint := nodes[k], Complaint(nodes, k, root, destination, technical, normal);
            var misplaced, place := Misplaced(node, root, destination, technical), PlaceOf(node, root, destination);
            if misplaced.Some? then complaint == misplaced
            else if place.None? then complaint.None? && Progress(items, seen, nodes, k + 1, root, destination, normal)
            else
              var t := normal(Disk(place.value));
              && complaint == (if t in seen then Some(PathCollision) else Flaw(node))
              && (Flaw(node).None? ==>
                    Progress(items + [ItemOf(node, root, destination)], seen + {t}, nodes, k + 1, root, destination, normal))
  {
    assert Flaw(nodes[k]).None? ==> nodes[k].kind.Some?;
    hide *;
    ComplaintIs(nodes, k, root, destination, technical, normal);
    if PlaceOf(nodes[k], root, destination).Some? { ClaimedIsSeen(items, seen, nodes, k, root, destination, normal); }
    if PlaceOf(nodes[k], root, destination).None? { NoneMore(items, seen, nodes, k, root, destination, normal); }
    else if nodes[k].kind.Some? { OneMore(items, seen, nodes, k, root, destination, normal); }
  }

  lemma NoPlace(node: Node, root: seq<string>, destination: seq<string>, technical: Option<seq<string>>)
    requires Misplaced(node, root, destination, technical).None?
    ensures PlaceOf(node, root, destination).None? <==> NamesOf(node) == Some([])
  {
  }

  predicate Distinct(items: seq<Item>, normal: string -> string) {
    forall i, j | 0 <= i < j < |items| :: normal(items[i].target) != normal(items[j].target)
  }

  /** The node is planned as this item. */
  ghost predicate PlannedAs(item: Item, node: Node, root: seq<string>, destination: seq<string>) {
    PlaceOf(node, root, destination).Some? && node.kind.Some? && item == ItemOf(node, root, destination)
  }

  /** The item stands for one of the nodes. */
  ghost predicate From(item: Item, nodes: seq<Node>, root: seq<string>, destination: seq<string>) {
    exists n | 0 <= n < |nodes| :: PlannedAs(item, nodes[n], root, destination)
  }

  /** One more node adds its item, if it has one. */
  lemma ItemsOfMore(nodes: seq<Node>, root: seq<string>, destination: seq<string>)
    requires nodes != []
    ensures var before, last := nodes[..|nodes| - 1], nodes[|nodes| - 1];
            forall item :: item in ItemsOf(nodes, root, destination) <==>
                             item in ItemsOf(before, root, destination) || PlannedAs(item, last, root, destination)
  {
    hide PlaceOf, ItemOf;
  }

  lemma FromMore(nodes: seq<Node>, root: seq<string>, destination: seq<string>, item: Item)
    requires nodes != []
    ensures From(item, nodes, root, destination) <==>
              From(item, nodes[..|nodes| - 1], root, destination) || PlannedAs(item, nodes[|nodes| - 1], root, destination)
  {
    hide PlannedAs;
    var before := nodes[..|nodes| - 1];
    if From(item, before, root, destination) {
      var n :| 0 <= n < |before| && PlannedAs(item, before[n], root, destination);
      assert nodes[n] == before[n];
    }
    if From(item, nodes, root, destination) {
      var n :| 0 <= n < |nodes| && PlannedAs(item, nodes[n], root, destination);
      if n < |before| { assert before[n] == nodes[n]; }
    }
  }

  /** Exactly the nodes that have a place are planned. */
  lemma {:induction false} PlannedExactly(nodes: seq<Node>, root: seq<string>, destination: seq<string>)
    ensures forall item :: item in ItemsOf(nodes, root, destination) <==> From(item, nodes, root, destination)
    decreases |nodes|
  {
    if nodes != [] {
      PlannedExactly(nodes[..|nodes| - 1], root, destination);
      ItemsOfMore(nodes, root, destination);
      hide ItemsOf, From, PlannedAs;
      forall item ensures item in ItemsOf(nodes, root, destination) <==> From(item, nodes, root, destination) {
        FromMore(nodes, root, destination, item);
      }
    }
  }

  /** A planned node stands for itself. */
  lemma ItemStands(node: Node, root: seq<string>, destination: seq<string>)
    requires PlaceOf(node, root, destination).Some? && node.kind.Some?
    ensures Faithful(ItemOf(node, root, destination), root, destination)
  {
    assert Stands(ItemOf(node, root, destination), NamesOf(node).value, root, destination);
  }

  /** A node whose place is not taken is planned behind others. */
  lemma PlannedNext(before: seq<Node>, last: Node, items: seq<Item>, root: seq<string>, destination: seq<string>,
                    normal: string -> string)
    requires items == ItemsOf(before, root, destination) && Distinct(items, normal)
    requires PlaceOf(last, root, destination).Some? && last.kind.Some?
    requires forall n | 0 <= n < |before| :: !SamePlace(before[n], last, root, destination, normal)
    ensures Distinct(items + [ItemOf(last, root, destination)], normal)
  {
    PlannedExactly(before, root, destination);
    hide Disk, PlaceOf, ItemsOf;
    var item := ItemOf(last, root, destination);
    forall i | 0 <= i < |items| ensures normal(items[i].target) != normal(item.target) {
      assert items[i] in items && From(items[i], before, root, destination);
      var n :| 0 <= n < |before| && PlannedAs(items[i], before[n], root, destination);
      assert !SamePlace(before[n], last, root, destination, normal);
    }
  }

  /** The plan of nodes with nothing wrong. */
  lemma {:induction false} PlannedItems(nodes: seq<Node>, k: nat, root: seq<string>, destination: seq<string>,
                                        technical: Option<seq<string>>, normal: string -> string)
    requires k <= |nodes|
    requires forall i | 0 <= i < k :: Complaint(nodes, i, root, destination, technical, normal).None?
    ensures var items := ItemsOf(nodes[..k], root, destination);
            AllFaithful(items, root, destination) && Distinct(items, normal)
    decreases k
  {
    if k > 0 {
      PlannedItems(nodes, k - 1, root, destination, technical, normal);
      var before, last := nodes[..k - 1], nodes[k - 1];
      assert nodes[..k][..k - 1] == before && nodes[..k][k - 1] == last;
      if PlaceOf(last, root, destination).Some? { NotClaimed(nodes, k - 1, root, destination, technical, normal); }
      hide PlaceOf, ItemOf, Complaint, Claimed, SamePlace, Faithful, Distinct;
      if PlaceOf(last, root, destination).Some? && last.kind.Some? {
        ItemStands(last, root, destination);
        PlannedNext(before, last, ItemsOf(before, root, destination), root, destination, normal);
      }
    }
  }

  lemma NotClaimed(nodes: seq<Node>, k: nat, root: seq<string>, destination: seq<string>,
                   technical: Option<seq<string>>, normal: string -> string)
    requires k < |nodes| && Complaint(nodes, k, root, destination, technical, normal).None?
    requires PlaceOf(nodes[k], root, destination).Some?
    ensures forall n | 0 <= n < k :: !SamePlace(nodes[..k][n], nodes[k], root, destination, normal)
  {
    hide Misplaced, SamePlace;
    forall n | 0 <= n < k ensures !SamePlace(nodes[..k][n], nodes[k], root, destination, normal) {
      assert !Claimed(nodes, k, root, destination, normal);
    }
  }

  lemma Rearranged<T>(a: seq<T>, b: seq<T>)
    requires multiset(a) == multiset(b)
    ensures forall x :: x in a <==> x in b
  {
    forall x ensures x in a <==> x in b { assert x in multiset(a) <==> x in multiset(b); }
  }

  lemma {:induction false} DistinctMultiset(items: seq<Item>, normal: string -> string)
    requires Distinct(items, normal)
    ensures forall x | x in items :: multiset(items)[x] == 1
    decreases |items|
  {
    if items != [] {
      var rest, last := items[..|items| - 1], items[|items| - 1];
      DistinctMultiset(rest, normal);
      assert items == rest + [last];
      assert last !in rest;
    }
  }

  /** Sorting keeps what is planned, and that no two targets are the same. */
  lemma SortedPlan(items: seq<Item>, sorted: seq<Item>, root: seq<string>, destination: seq<string>,
                   normal: string -> string)
    requires multiset(sorted) == multiset(items) && AllFaithful(items, root, destination) && Distinct(items, normal)
    ensures AllFaithful(sorted, root, destination) && Distinct(sorted, normal)
  {
    hide Faithful;
    Rearranged(items, sorted);
    forall i | 0 <= i < |sorted| ensures Faithful(sorted[i], root, destination) { assert sorted[i] in items; }
    forall i, j | 0 <= i < j < |sorted| ensures normal(sorted[i].target) != normal(sorted[j].target) {
      Twice(items, sorted, normal, i, j);
    }
  }

  lemma TwoOccurrences<T>(s: seq<T>, i: nat, j: nat)
    requires i < j < |s| && s[i] == s[j]
    ensures multiset(s)[s[i]] >= 2
  {
    assert s == s[..i] + [s[i]] + s[i + 1..j] + [s[i]] + s[j + 1..];
  }

  lemma Twice(items: seq<Item>, sorted: seq<Item>, normal: string -> string, i: nat, j: nat)
    requires multiset(sorted) == multiset(items) && i < j < |sorted|
    requires Distinct(items, normal)
    ensures normal(sorted[i].target) != normal(sorted[j].target)
  {
    Rearranged(items, sorted);
    DistinctMultiset(items, normal);
    assert sorted[i] in items && sorted[j] in items;
    if sorted[i] == sorted[j] { TwoOccurrences(sorted, i, j); }
  }

  /** In the plan every directory comes before everything below it, at the source as at the destination. */
  lemma PlanOrder(items: seq<Item>, root: seq<string>, destination: seq<string>, i: nat, j: nat)
    requires Ordered(items) && AllFaithful(items, root, destination) && Names(destination)
    requires i < |items| && j < |items| && items[i].kind.Dir?
    requires StartsWith(items[j].target, items[i].target + "/") || StartsWith(items[j].source, items[i].source + "/")
    ensures i < j
  {
    assert Faithful(items[i], root, destination) && Faithful(items[j], root, destination);
    var p :| Stands(items[i], p, root, destination);
    var q :| Stands(items[j], q, root, destination);
    AllowedNames(p);
    AllowedNames(q);
    var p', q' := Placed(p, root, destination), Placed(q, root, destination);
    assert Names(p') && Names(q') && p' != [] && q' != [];
    hide Allowed, Within, Placed, Ordered, StartsWith, Join, Disk, RStrip, AllFaithful;
    StripDisk(p);
    StripDisk(p');
    DiskPrefix(q, p);
    DiskPrefix(q', p');
    PlacingPreserves(q, p, root, destination);
    NotAfter(items, p', q', i, j);
  }

  lemma NotAfter(items: seq<Item>, p: seq<string>, q: seq<string>, i: nat, j: nat)
    requires Ordered(items) && i < |items| && j < |items| && items[i].kind.Dir?
    requires Names(p) && Names(q) && p != [] && items[i].target == Disk(p) && items[j].target == Disk(q) && Below(q, p)
    ensures i < j
  {
    DiskSlashes(p);
    DiskSlashes(q);
    assert !Before(items[j], items[i]);
  }

  /** The source tree and the destination tree of a plan have the same shape, so a selection means the same in both. */
  lemma SameTrees(kinds: seq<Selection.Kind>, paths: seq<seq<string>>, root: seq<string>, destination: seq<string>)
    requires Selection.Planned(Selection.Tree(kinds, paths)) && Names(destination)
    requires forall i | 0 <= i < |paths| :: Within(paths[i], root)
    ensures var placed := seq(|paths|, i requires 0 <= i < |paths| && Within(paths[i], root) =>
                            Placed(paths[i], root, destination));
            Selection.SameShape(Selection.Tree(kinds, paths), Selection.Tree(kinds, placed))
  {
    forall i, j | 0 <= i < |paths| && 0 <= j < |paths|
      ensures Placed(paths[i], root, destination) == Placed(paths[j], root, destination) <==> paths[i] == paths[j]
      ensures Below(Placed(paths[i], root, destination), Placed(paths[j], root, destination)) <==> Below(paths[i], paths[j])
    {
      PlacingPreserves(paths[i], paths[j], root, destination);
    }
  }
}
