/** Disk paths as strings, and what their prefix arithmetic means for the names they are made of. */
module Paths {

  /** A component of a path. */
  predicate Name(s: string) {
    s != "" && '/' !in s
  }

  predicate Names(p: seq<string>) {
    forall i | 0 <= i < |p| :: Name(p[i])
  }

  function Join(p: seq<string>): string {
    if p == [] then "" else if |p| == 1 then p[0] else p[0] + "/" + Join(p[1..])
  }

  /** The canonical form of a path; `Disk([])` is the root. */
  function Disk(p: seq<string>): string {
    "disk:/" + Join(p)
  }

  predicate StartsWith(s: string, prefix: string) {
    |prefix| <= |s| && s[..|prefix|] == prefix
  }

  /** `p` lies strictly below `q`. */
  predicate Below(p: seq<string>, q: seq<string>) {
    |q| < |p| && p[..|q|] == q
  }

  lemma BelowTransitive(p: seq<string>, q: seq<string>, r: seq<string>)
    requires Below(p, q) && Below(q, r)
    ensures Below(p, r)
  {
    assert p[..|r|] == p[..|q|][..|r|];
  }

  /** Two paths above the same one are above one another, or equal. */
  lemma Comparable(p: seq<string>, q: seq<string>, r: seq<string>)
    requires Below(p, q) && Below(p, r)
    ensures q == r || Below(q, r) || Below(r, q)
  {
    if |q| <= |r| {
      assert p[..|r|][..|q|] == p[..|q|];
    } else {
      assert p[..|q|][..|r|] == p[..|r|];
    }
  }

  /** A string up to its first slash. */
  function Head(s: string): (r: string)
    ensures |r| <= |s| && '/' !in r
  {
    if s == "" || s[0] == '/' then "" else [s[0]] + Head(s[1..])
  }

  lemma {:induction false} HeadOf(x: string, rest: string)
    requires '/' !in x && (rest == "" || rest[0] == '/')
    ensures Head(x + rest) == x
    decreases |x|
  {
    if x == "" {
      assert x + rest == rest;
    } else {
      assert (x + rest)[1..] == x[1..] + rest;
      HeadOf(x[1..], rest);
      assert x == [x[0]] + x[1..];
    }
  }

  lemma JoinHead(p: seq<string>)
    requires Names(p) && p != []
    ensures Head(Join(p)) == p[0] && Head(Join(p) + "/") == p[0]
    ensures |p| == 1 <==> |Join(p)| == |p[0]|
  {
    var rest := if |p| == 1 then "" else "/" + Join(p[1..]);
    assert Join(p) == p[0] + rest && Join(p) + "/" == p[0] + (rest + "/");
    HeadOf(p[0], rest);
    HeadOf(p[0], rest + "/");
  }

  /** A prefix that holds a slash has the same head. */
  lemma {:induction false} PrefixHead(s: string, t: string)
    requires StartsWith(s, t) && |Head(t)| < |t|
    ensures Head(s) == Head(t)
    decreases |t|
  {
    assert s[0] == t[0];
    if t[0] != '/' {
      assert s[1..][..|t| - 1] == s[..|t|][1..];
      PrefixHead(s[1..], t[1..]);
    }
  }

  /** The first name ends at the first slash. */
  lemma FirstName(p: seq<string>, q: seq<string>)
    requires Names(p) && Names(q) && p != [] && q != [] && StartsWith(Join(p), Join(q) + "/")
    ensures |p| > 1 && p[0] == q[0]
    ensures |q| > 1 ==> StartsWith(Join(p[1..]), Join(q[1..]) + "/")
  {
    var s, t := Join(p), Join(q) + "/";
    JoinHead(p);
    JoinHead(q);
    PrefixHead(s, t);
    if |q| > 1 {
      var k := |q[0]|;
      var s', t' := Join(p[1..]), Join(q[1..]) + "/";
      assert s == p[0] + "/" + s' && t == q[0] + "/" + t';
      assert s[k + 1..] == s' && t[k + 1..] == t';
      assert s'[..|t'|] == s[..|t|][k + 1..];
    }
  }

  /** A joined path starts with another one and a slash exactly when it lies below it. */
  lemma {:induction false} JoinPrefix(p: seq<string>, q: seq<string>)
    requires Names(p) && Names(q) && p != [] && q != []
    ensures StartsWith(Join(p), Join(q) + "/") <==> Below(p, q)
    decreases |q|
  {
    if StartsWith(Join(p), Join(q) + "/") {
      FirstName(p, q);
      if |q| > 1 {
        JoinPrefix(p[1..], q[1..]);
        assert p[..|q|] == [p[0]] + p[1..][..|q| - 1];
        assert q == [q[0]] + q[1..];
      } else {
        assert p[..1] == q;
      }
    }
    if Below(p, q) {
      JoinSplit(p, |q|);
      assert Join(p) == Join(q) + "/" + Join(p[|q|..]);
      assert Join(p)[..|Join(q)| + 1] == Join(q) + "/";
    }
  }

  lemma {:induction false} JoinSplit(p: seq<string>, k: nat)
    requires 0 < k < |p|
    ensures Join(p) == Join(p[..k]) + "/" + Join(p[k..])
    decreases k
  {
    if k > 1 {
      JoinSplit(p[1..], k - 1);
      assert p[1..][..k - 1] == p[..k][1..] && p[1..][k - 1..] == p[k..];
      assert p[..k][0] == p[0];
      assert Join(p) == p[0] + "/" + (Join(p[..k][1..]) + "/" + Join(p[k..]));
    } else {
      assert p[..1] == [p[0]];
    }
  }

  lemma {:induction false} JoinInjective(p: seq<string>, q: seq<string>)
    requires Names(p) && Names(q) && Join(p) == Join(q)
    ensures p == q
    decreases |p|
  {
    if p != [] { JoinNonempty(p); }
    if q != [] { JoinNonempty(q); }
    if p != [] && q != [] {
      JoinHead(p);
      JoinHead(q);
      if |p| > 1 {
        assert Join(p)[|p[0]| + 1..] == Join(p[1..]) && Join(q)[|q[0]| + 1..] == Join(q[1..]);
        JoinInjective(p[1..], q[1..]);
        assert p == [p[0]] + p[1..] && q == [q[0]] + q[1..];
      }
    }
  }

  lemma {:induction false} JoinNonempty(p: seq<string>)
    requires Names(p) && p != []
    ensures Join(p) != "" && Join(p)[|Join(p)| - 1] != '/'
    decreases |p|
  {
    if |p| > 1 { JoinNonempty(p[1..]); } else { assert p[0][|p[0]| - 1] in p[0]; }
  }

  lemma DiskInjective(p: seq<string>, q: seq<string>)
    requires Names(p) && Names(q) && Disk(p) == Disk(q)
    ensures p == q
  {
    assert Disk(p)[6..] == Join(p) && Disk(q)[6..] == Join(q);
    JoinInjective(p, q);
  }

  // ---------------------------------------------------------------- the string operations of the source

  /** `s.rstrip("/")`. */
  function RStrip(s: string): (r: string)
    ensures |r| <= |s| && r == s[..|r|] && (r == "" || r[|r| - 1] != '/')
    ensures forall i | |r| <= i < |s| :: s[i] == '/'
  {
    if s != "" && s[|s| - 1] == '/' then RStrip(s[..|s| - 1]) else s
  }

  /** `s.rsplit("/", 1)[0]`. */
  function CutLast(s: string): (r: string)
    ensures |r| <= |s| && r == s[..|r|]
    ensures '/' !in s ==> r == s
    ensures '/' in s ==> |r| < |s| && s[|r|] == '/' && '/' !in s[|r| + 1..]
  {
    if '/' !in s then s else s[..LastSlash(s)]
  }

  function LastSlash(s: string): (i: nat)
    requires '/' in s
    ensures i < |s| && s[i] == '/' && '/' !in s[i + 1..]
  {
    if s[|s| - 1] == '/' then |s| - 1
    else
      assert s == s[..|s| - 1] + [s[|s| - 1]];
      var i := LastSlash(s[..|s| - 1]);
      assert s[i + 1..] == s[..|s| - 1][i + 1..] + [s[|s| - 1]];
      i
  }

  lemma CutAt(s: string, t: string, u: string)
    requires s == t + "/" + u && '/' !in u
    ensures CutLast(s) == t
  {
    var r := CutLast(s);
    assert s[|t|] == '/';
    assert '/' in s;
    assert s[..|t|] == t;
  }

  /** Cutting off the last name leads to the parent; above a top-level name only the scheme is left. */
  lemma CutDisk(p: seq<string>)
    requires Names(p)
    ensures CutLast(Disk(p)) == if |p| <= 1 then "disk:" else Disk(p[..|p| - 1])
  {
    if |p| <= 1 {
      var u := if p == [] then "" else p[0];
      assert Disk(p) == "disk:" + "/" + u;
      CutAt(Disk(p), "disk:", u);
    } else {
      var k := |p| - 1;
      JoinSplit(p, k);
      assert p[k..] == [p[k]];
      assert Disk(p) == Disk(p[..k]) + "/" + p[k];
      CutAt(Disk(p), Disk(p[..k]), p[k]);
    }
  }

  lemma StripDisk(p: seq<string>)
    requires Names(p)
    ensures RStrip(Disk(p)) + "/" == if p == [] then "disk:/" else Disk(p) + "/"
  {
    if p == [] {
      assert Disk(p) == "disk:/";
      assert "disk:/"[..5] == "disk:";
    } else {
      JoinNonempty(p);
      assert Disk(p)[|Disk(p)| - 1] == Join(p)[|Join(p)| - 1];
    }
  }

  /** The prefix of a directory, `rstrip("/") + "/"`, is carried by exactly the paths below it. */
  lemma DiskPrefix(p: seq<string>, q: seq<string>)
    requires Names(p) && Names(q) && p != []
    ensures StartsWith(Disk(p), RStrip(Disk(q)) + "/") <==> Below(p, q)
  {
    StripDisk(q);
    if q == [] {
      assert Disk(p)[..6] == "disk:/";
    } else {
      JoinPrefix(p, q);
      var s, t := Disk(p), Disk(q) + "/";
      assert t == "disk:/" + (Join(q) + "/");
      if StartsWith(s, t) {
        assert Join(p)[..|Join(q)| + 1] == s[..|t|][6..];
      }
      if StartsWith(Join(p), Join(q) + "/") {
        assert s[..|t|] == "disk:/" + Join(p)[..|Join(q)| + 1];
      }
    }
  }

  lemma DiskScheme(p: seq<string>)
    requires Names(p)
    ensures StartsWith(Disk(p), "disk:/") && !StartsWith("disk:", "disk:/") && (Disk(p) == "disk:/" <==> p == [])
  {
    assert Disk(p)[..6] == "disk:/";
    if p != [] { JoinNonempty(p); }
  }

  /** What is left of a path after cutting it down to `k` names. */
  function Cut(p: seq<string>, k: nat): string
    requires k <= |p|
  {
    if k == 0 then "disk:" else Disk(p[..k])
  }

  lemma CutStep(p: seq<string>, k: nat)
    requires Names(p) && 0 < k <= |p|
    ensures CutLast(Cut(p, k)) == Cut(p, k - 1) && StartsWith(Cut(p, k), "disk:/") && Cut(p, k) != "disk:"
  {
    CutDisk(p[..k]);
    DiskScheme(p[..k]);
    assert k > 1 ==> p[..k][..k - 1] == p[..k - 1];
  }

  /** The first `n` of the paths above `p`, nearest first. */
  predicate Nearest(parents: seq<string>, p: seq<string>, n: nat)
    requires n <= |p|
  {
    |parents| == n && forall k | 0 <= k < n :: parents[k] == Disk(p[..|p| - 1 - k])
  }

  lemma Further(parents: seq<string>, p: seq<string>, n: nat)
    requires n < |p| && Nearest(parents, p, n)
    ensures Nearest(parents + [Disk(p[..|p| - 1 - n])], p, n + 1)
  {
  }

  lemma ParentsBegin(p: seq<string>)
    requires Names(p)
    ensures CutLast(Disk(p)) == Cut(p, if p == [] then 0 else |p| - 1) && Nearest([], p, 0)
    ensures Disk([]) == "disk:/" && p[..0] == [] && !StartsWith("disk:", "disk:/") && (Disk(p) == "disk:/" <==> p == [])
  {
    CutDisk(p);
    DiskScheme(p);
    if p != [] {
      assert p[..|p|] == p;
      CutStep(p, |p|);
    }
  }

  /** `_parent_paths`: the paths above `p`, nearest first, the root last. */
  method ParentPaths(path: string, ghost p: seq<string>) returns (parents: seq<string>)
    requires Names(p) && path == Disk(p)
    ensures Nearest(parents, p, |p|)
  {
    parents := [];
    ParentsBegin(p);
    hide Join, Disk, CutLast, StartsWith, Nearest;
    var parent := CutLast(path);
    ghost var k: nat := if p == [] then 0 else |p| - 1;
    while StartsWith(parent, "disk:/")
      invariant k < |p| || (p == [] && k == 0)
      invariant parent == Cut(p, k) && Nearest(parents, p, if p == [] then 0 else |p| - 1 - k)
      decreases k
    {
      if k > 0 { CutStep(p, k); }
      Further(parents, p, |p| - 1 - k);
      parents := parents + [parent];
      parent, k := CutLast(parent), k - 1;
    }
    if k > 0 { CutStep(p, k); }
    if parent == "disk:" && path != "disk:/" {
      Further(parents, p, |p| - 1);
      parents := parents + ["disk:/"];
    }
  }

  /** `x` is one of the parent paths of `p` exactly when `p` lies below it. */
  lemma ParentsAreAbove(parents: seq<string>, p: seq<string>, x: seq<string>)
    requires Names(p) && Names(x) && Nearest(parents, p, |p|)
    ensures Disk(x) in parents <==> Below(p, x)
  {
    if Disk(x) in parents {
      var k :| 0 <= k < |parents| && parents[k] == Disk(x);
      DiskInjective(x, p[..|p| - 1 - k]);
    }
    if Below(p, x) {
      assert parents[|p| - 1 - |x|] == Disk(p[..|x|]);
    }
  }
}
