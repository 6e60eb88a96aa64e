/** The bytes of the staging directory, shared by all concurrent downloads of the process. */
module Cache {
  import opened Rows

  // ---------------------------------------------------------------- sums over maps

  ghost function Sum(m: map<Name, nat>): nat
    decreases |m|
  {
    if m == map[] then 0 else var n :| n in m; m[n] + Sum(m - {n})
  }

  lemma {:induction false} SumWithout(m: map<Name, nat>, n: Name)
    requires n in m
    ensures Sum(m) == m[n] + Sum(m - {n})
    decreases |m|
  {
    var x :| x in m && Sum(m) == m[x] + Sum(m - {x});
    if x != n {
      SumWithout(m - {x}, n);
      SumWithout(m - {n}, x);
      assert m - {x} - {n} == m - {n} - {x};
    }
  }

  /** Setting one entry changes the sum by just that entry. */
  lemma SumWith(m: map<Name, nat>, n: Name, v: nat)
    ensures Sum(m[n := v]) == v + Sum(m - {n})
    ensures n in m ==> Sum(m[n := v]) + m[n] == Sum(m) + v
    ensures n !in m ==> Sum(m[n := v]) == Sum(m) + v
  {
    SumWithout(m[n := v], n);
    assert m[n := v] - {n} == m - {n};
    if n in m { SumWithout(m, n); } else { assert m - {n} == m; }
  }

  // ---------------------------------------------------------------- the account

  function Written(files: map<Name, nat>, n: Name): nat {
    if n in files then files[n] else 0
  }

  /** `_reserved_cache_bytes`, name by name: what each reservation has still to write. */
  function Remaining(files: map<Name, nat>, reserved: map<Name, nat>): map<Name, nat> {
    map n | n in reserved :: if reserved[n] > Written(files, n) then reserved[n] - Written(files, n) else 0
  }

  /** What is staged already and what was promised. */
  ghost function Committed(files: map<Name, nat>, reserved: map<Name, nat>): nat {
    Sum(files) + Sum(Remaining(files, reserved))
  }

  /** The entries of `Remaining` follow the reservation and the file of the same name, and nothing else. */
  lemma RemainingUpdate(files: map<Name, nat>, reserved: map<Name, nat>, n: Name, written: nat, size: nat)
    requires n in files ==> n in reserved
    ensures Remaining(files[n := written], reserved[n := size])
            == Remaining(files, reserved)[n := if size > written then size - written else 0]
  {
    var a, b := Remaining(files[n := written], reserved[n := size]), Remaining(files, reserved);
    assert a.Keys == b.Keys + {n};
    forall k | k in reserved && k != n ensures a[k] == b[k] {}
  }

  lemma Admitted(files: map<Name, nat>, reserved: map<Name, nat>, n: Name, size: nat)
    requires n !in files && n !in reserved
    ensures Committed(files, reserved[n := size]) == Committed(files, reserved) + size
  {
    hide Sum;
    SumWith(Remaining(files, reserved), n, size);
    var a, b := Remaining(files, reserved[n := size]), Remaining(files, reserved);
    assert a == b[n := size] by {
      assert a.Keys == b.Keys + {n};
      forall k | k in reserved ensures a[k] == b[k] {}
    }
  }

  /** Bytes that were promised move from one side of the account to the other. */
  lemma Moved(files: map<Name, nat>, reserved: map<Name, nat>, n: Name, length: nat)
    requires n in reserved && Written(files, n) + length <= reserved[n]
    ensures Committed(files[n := Written(files, n) + length], reserved) == Committed(files, reserved)
  {
    hide Sum;
    var total, left := Written(files, n) + length, Remaining(files, reserved);
    assert n in left && left[n] == reserved[n] - Written(files, n);
    RemainingUpdate(files, reserved, n, total, reserved[n]);
    assert reserved[n := reserved[n]] == reserved;
    hide Remaining;
    SumWith(files, n, total);
    SumWith(left, n, reserved[n] - total);
  }

  lemma Released(files: map<Name, nat>, reserved: map<Name, nat>, n: Name)
    requires n in reserved
    ensures Committed(files, reserved - {n}) <= Committed(files, reserved)
  {
    SumWithout(Remaining(files, reserved), n);
    assert Remaining(files, reserved - {n}) == Remaining(files, reserved) - {n};
  }

  lemma Unlinked(files: map<Name, nat>, reserved: map<Name, nat>, n: Name)
    requires n !in reserved
    ensures Committed(files - {n}, reserved) <= Committed(files, reserved)
  {
    if n in files { SumWithout(files, n); } else { assert files - {n} == files; }
    assert Remaining(files - {n}, reserved) == Remaining(files, reserved);
  }

  /** The promise of one download covers its next chunk. */
  lemma ChunkFits(files: map<Name, nat>, reserved: map<Name, nat>, n: Name, length: nat)
    requires n in reserved && Written(files, n) + length <= reserved[n]
    ensures Sum(files) + length <= Committed(files, reserved)
  {
    SumWithout(Remaining(files, reserved), n);
  }

  datatype Chunk = Stored | TooLong | OverBudget

  /** The directory and the reservations. Each method is one step that no other thread can divide. */
  class StagingCache {
    const budget: nat
    var files: map<Name, nat>
    var reserved: map<Name, nat>

    /** A live download never writes past its reservation, and all promises together stay within the budget. */
    ghost predicate Valid()
      reads this
    {
      && Committed(files, reserved) <= budget
      && forall n | n in reserved :: Written(files, n) <= reserved[n]
    }

    constructor (budget: nat, files: map<Name, nat>)
      requires Sum(files) <= budget
      ensures Valid() && this.budget == budget && this.files == files && reserved == map[]
    {
      this.budget, this.files, reserved := budget, files, map[];
      assert Remaining(files, map[]) == map[];
    }

    /** `_staging_size` and `_reserved_cache_bytes` add up the entries one by one. */
    method Total(m: map<Name, nat>) returns (total: nat)
      ensures total == Sum(m)
    {
      total := 0;
      var rest := m;
      while rest != map[]
        invariant total + Sum(rest) == Sum(m)
        decreases |rest|
      {
        var n :| n in rest;
        SumWithout(rest, n);
        total, rest := total + rest[n], rest - {n};
      }
    }

    /** `reserve_cache` on entry: admitted exactly when the volume has room and everything promised still fits. */
    method Admit(n: Name, size: nat, free: int, spare: int) returns (ok: bool)
      requires Valid() && n !in files && n !in reserved
      modifies this`reserved
      ensures Valid()
      ensures ok <==> old(Sum(Remaining(files, reserved))) + size <= free - spare
                      && old(Committed(files, reserved)) + size <= budget
      ensures reserved == if ok then old(reserved)[n := size] else old(reserved)
    {
      var promised := Total(Remaining(files, reserved));
      var staged := Total(files);
      ok := !(size + promised > free - spare || staged + promised + size > budget);
      if ok {
        Admitted(files, reserved, n, size);
        reserved := reserved[n := size];
      }
    }

    /** One chunk of an admitted download. The check against the budget never fails. */
    method Append(n: Name, length: nat) returns (chunk: Chunk)
      requires Valid() && n in reserved
      modifies this`files
      ensures Valid() && !chunk.OverBudget?
      ensures chunk.TooLong? <==> old(Written(files, n)) + length > reserved[n]
      ensures files == if chunk.Stored? then old(files)[n := old(Written(files, n)) + length] else old(files)
      ensures chunk.Stored? ==> Committed(files, reserved) == old(Committed(files, reserved))
    {
      hide Sum, Remaining, Committed;
      if Written(files, n) + length > reserved[n] { return TooLong; }
      ChunkFits(files, reserved, n, length);
      var staged := Total(files);
      if staged + length > budget { return OverBudget; }
      Moved(files, reserved, n, length);
      assert Sum(files) + length <= budget;
      files := files[n := Written(files, n) + length];
      return Stored;
    }

    /** `reserve_cache` on exit, whether the download was completed or not. */
    method Release(n: Name)
      requires Valid() && n in reserved
      modifies this`reserved
      ensures Valid() && reserved == old(reserved) - {n}
    {
      Released(files, reserved, n);
      reserved := reserved - {n};
    }

    /** A copy that no download writes to is unlinked. */
    method Unlink(n: Name)
      requires Valid() && n !in reserved
      modifies this`files
      ensures Valid() && files == old(files) - {n}
    {
      Unlinked(files, reserved, n);
      files := files - {n};
    }

    /** `cleanup_cache`: refused while any reservation is live; otherwise the files go one by one, `failsAfter`
      * of them at most.
      */
    method Purge(failsAfter: nat) returns (refused: bool)
      requires Valid()
      modifies this`files
      ensures Valid() && (refused <==> reserved != map[])
      ensures refused ==> files == old(files)
      ensures !refused ==> files.Keys <= old(files).Keys && forall n | n in files :: files[n] == old(files)[n]
      ensures !refused ==> |files| + failsAfter >= |old(files)|
      ensures !refused && failsAfter >= |old(files)| ==> files == map[]
    {
      if reserved != map[] { return true; }
      var removed: nat := 0;
      while files != map[] && removed < failsAfter
        invariant Valid() && files.Keys <= old(files).Keys && |files| + removed == |old(files)| && removed <= failsAfter
        invariant forall n | n in files :: files[n] == old(files)[n]
        decreases |files|
      {
        var n :| n in files;
        Unlink(n);
        removed := removed + 1;
      }
      return false;
    }

    /** Any interleaving of admissions, chunks, ends and purges. */
    method Run(rounds: nat)
      requires Valid()
      modifies this
      ensures Valid()
    {
      for i := 0 to rounds
        invariant Valid()
      {
        var kind: int, n: Name, size: nat, free: int, spare: int := *, *, *, *, *;
        match kind {
        case 0 => if n !in files && n !in reserved { var _ := Admit(n, size, free, spare); }
        case 1 => if n in reserved { var _ := Append(n, size); }
        case 2 => if n in reserved { Release(n); }
        case 3 => if n !in reserved { Unlink(n); }
        case _ => var _ := Purge(size);
        }
      }
    }
  }

  /** From a start within the budget the directory never exceeds it. */
  method WholeRun(budget: nat, files: map<Name, nat>, rounds: nat) returns (cache: StagingCache)
    requires Sum(files) <= budget
    ensures Sum(cache.files) + Sum(Remaining(cache.files, cache.reserved)) <= budget
  {
    cache := new StagingCache(budget, files);
    cache.Run(rounds);
  }
}
