/** The selection of entries before a start, kept by two stores in two ways, and one meaning for both. */
module Selection {
  import opened Paths

  datatype Kind = File | Dir

  datatype Operation = Operation(target: nat, selected: bool)

  /** The planned tree: what each entry is, and its path below the root of the plan. */
  datatype Tree = Tree(kinds: seq<Kind>, paths: seq<seq<string>>)

  predicate Planned(t: Tree) {
    && |t.paths| == |t.kinds| && (forall i | 0 <= i < |t.paths| :: Names(t.paths[i]) && t.paths[i] != [])
    && forall i, j | 0 <= i < |t.paths| && 0 <= j < |t.paths| && t.paths[i] == t.paths[j] :: i == j
  }

  // ---------------------------------------------------------------- the meaning

  /** The operation reaches entry `i`: it is the target, or below a target directory, or a directory above a
    * target that is selected.
    */
  predicate Covers(t: Tree, op: Operation, i: nat)
    requires Planned(t) && op.target < |t.kinds| && i < |t.kinds|
  {
    || i == op.target
    || (t.kinds[op.target].Dir? && Below(t.paths[i], t.paths[op.target]))
    || (op.selected && t.kinds[i].Dir? && Below(t.paths[op.target], t.paths[i]))
  }

  function Apply(t: Tree, selected: seq<bool>, op: Operation): seq<bool>
    requires Planned(t) && |selected| == |t.kinds| && op.target < |t.kinds|
  {
    seq(|selected|, i requires 0 <= i < |selected| => if Covers(t, op, i) then op.selected else selected[i])
  }

  function After(t: Tree, ops: seq<Operation>): (selected: seq<bool>)
    requires Planned(t) && forall op | op in ops :: op.target < |t.kinds|
    ensures |selected| == |t.kinds|
  {
    if ops == [] then seq(|t.kinds|, _ => true)
    else Apply(t, After(t, ops[..|ops| - 1]), ops[|ops| - 1])
  }

  /** Operation `k` is the last one that reaches entry `i`. */
  predicate Last(t: Tree, ops: seq<Operation>, i: nat, k: nat)
    requires Planned(t) && i < |t.kinds| && forall op | op in ops :: op.target < |t.kinds|
  {
    k < |ops| && Covers(t, ops[k], i) && forall j | k < j < |ops| :: !Covers(t, ops[j], i)
  }

  /** An entry is selected exactly when the last operation that reached it was a selection, or none did. */
  lemma {:induction false} LastOperationDecides(t: Tree, ops: seq<Operation>, i: nat)
    requires Planned(t) && i < |t.kinds| && forall op | op in ops :: op.target < |t.kinds|
    ensures After(t, ops)[i] <==> forall k: nat | Last(t, ops, i, k) :: ops[k].selected
    decreases |ops|
  {
    if ops != [] {
      var before, last := ops[..|ops| - 1], |ops| - 1;
      LastOperationDecides(t, before, i);
      if Covers(t, ops[last], i) {
        assert Last(t, ops, i, last);
        forall k: nat | Last(t, ops, i, k) ensures k == last {}
      } else {
        forall k: nat ensures Last(t, ops, i, k) <==> Last(t, before, i, k) {
          if Last(t, before, i, k) {
            forall j | k < j < |ops| ensures !Covers(t, ops[j], i) { if j < last { assert before[j] == ops[j]; } }
          }
          if Last(t, ops, i, k) {
            forall j | k < j < last ensures !Covers(t, before[j], i) { assert before[j] == ops[j]; }
          }
        }
      }
    }
  }

  /** Every directory above a selected entry is selected. */
  ghost predicate Closed(t: Tree, selected: seq<bool>) {
    && Planned(t) && |selected| == |t.kinds|
    && forall i, j | 0 <= i < |selected| && 0 <= j < |selected| ::
         selected[i] && t.kinds[j].Dir? && Below(t.paths[i], t.paths[j]) ==> selected[j]
  }

  lemma ApplyKeepsClosed(t: Tree, selected: seq<bool>, op: Operation)
    requires Closed(t, selected) && op.target < |t.kinds|
    ensures Closed(t, Apply(t, selected, op))
  {
    var selected' := Apply(t, selected, op);
    forall i, j | 0 <= i < |selected| && 0 <= j < |selected| && selected'[i]
                  && t.kinds[j].Dir? && Below(t.paths[i], t.paths[j])
      ensures selected'[j]
    {
      AboveStays(t, selected, op, i, j);
    }
  }

  lemma AboveStays(t: Tree, selected: seq<bool>, op: Operation, i: nat, j: nat)
    requires Closed(t, selected) && op.target < |t.kinds| && i < |selected| && j < |selected|
    requires t.kinds[j].Dir? && Below(t.paths[i], t.paths[j]) && Apply(t, selected, op)[i]
    ensures Apply(t, selected, op)[j]
  {
    var target := t.paths[op.target];
    if op.selected && Covers(t, op, i) {
      if Below(t.paths[i], target) {
        Comparable(t.paths[i], target, t.paths[j]);
      } else if Below(target, t.paths[i]) {
        BelowTransitive(target, t.paths[i], t.paths[j]);
      }
    } else if !op.selected && Below(t.paths[j], target) {
      BelowTransitive(t.paths[i], t.paths[j], target);
    }
  }

  lemma {:induction false} AlwaysClosed(t: Tree, ops: seq<Operation>)
    requires Planned(t) && forall op | op in ops :: op.target < |t.kinds|
    ensures Closed(t, After(t, ops))
    decreases |ops|
  {
    if ops != [] {
      AlwaysClosed(t, ops[..|ops| - 1]);
      ApplyKeepsClosed(t, After(t, ops[..|ops| - 1]), ops[|ops| - 1]);
    }
  }

  /** `selection_partial` of the migration store: a selected directory with something below it left out. */
  ghost predicate PartlySelected(t: Tree, selected: seq<bool>, i: nat)
    requires Planned(t) && |selected| == |t.kinds| && i < |t.kinds|
  {
    t.kinds[i].Dir? && selected[i]
    && exists k | 0 <= k < |selected| :: !selected[k] && Below(t.paths[k], t.paths[i])
  }

  /** `selection_partial` of the batch store: a directory with something below it that differs from it. */
  ghost predicate Mixed(t: Tree, selected: seq<bool>, i: nat)
    requires Planned(t) && |selected| == |t.kinds| && i < |t.kinds|
  {
    t.kinds[i].Dir? && exists k | 0 <= k < |selected| :: selected[k] != selected[i] && Below(t.paths[k], t.paths[i])
  }

  /** The definitions agree on every directory exactly when no directory above a selected entry is left out. */
  lemma DefinitionsAgree(t: Tree, selected: seq<bool>)
    requires Planned(t) && |selected| == |t.kinds|
    ensures Closed(t, selected) <==>
              forall i | 0 <= i < |selected| :: PartlySelected(t, selected, i) <==> Mixed(t, selected, i)
  {
    if !Closed(t, selected) {
      var i, j :| 0 <= i < |selected| && 0 <= j < |selected| && selected[i] && t.kinds[j].Dir?
                  && Below(t.paths[i], t.paths[j]) && !selected[j];
      assert Mixed(t, selected, j) && !PartlySelected(t, selected, j);
    } else {
      forall i | 0 <= i < |selected| ensures PartlySelected(t, selected, i) <==> Mixed(t, selected, i) {
        if Mixed(t, selected, i) {
          var k :| 0 <= k < |selected| && selected[k] != selected[i] && Below(t.paths[k], t.paths[i]);
          assert selected[k] ==> selected[i];
        }
      }
    }
  }

  /** After any operations the two stores describe every directory alike. */
  lemma StoresAgree(t: Tree, ops: seq<Operation>, i: nat)
    requires Planned(t) && i < |t.kinds| && forall op | op in ops :: op.target < |t.kinds|
    ensures PartlySelected(t, After(t, ops), i) <==> Mixed(t, After(t, ops), i)
  {
    AlwaysClosed(t, ops);
    DefinitionsAgree(t, After(t, ops));
  }

  // ---------------------------------------------------------------- the migration store

  datatype Row = Row(kind: Kind, path: string, selected: bool)

  /** The entries of a job; their paths are strings. */
  class EntryTable {
    var rows: seq<Row>
    ghost const tree: Tree

    ghost predicate Valid()
      reads this
    {
      && Planned(tree) && |rows| == |tree.kinds|
      && forall i | 0 <= i < |rows| :: rows[i].kind == tree.kinds[i] && rows[i].path == Disk(tree.paths[i])
    }

    ghost function Selected(): seq<bool>
      reads this
    {
      seq(|rows|, i requires 0 <= i < |rows| reads this => rows[i].selected)
    }

    constructor (tree: Tree)
      requires Planned(tree)
      ensures Valid() && this.tree == tree && Selected() == After(tree, [])
    {
      rows := seq(|tree.kinds|, i requires 0 <= i < |tree.kinds| && |tree.paths| == |tree.kinds| =>
                Row(tree.kinds[i], Disk(tree.paths[i]), true));
      this.tree := tree;
    }

    /** `set_entry_selection`: one update of the target and what carries its prefix, then the parents one by one. */
    method SetSelection(target: nat, selected: bool)
      requires Valid() && target < |rows|
      modifies this`rows
      ensures Valid() && Selected() == Apply(tree, old(Selected()), Operation(target, selected))
    {
      var was, entry := rows, rows[target];
      var prefix := RStrip(entry.path) + "/";
      UpdateBelow(target, entry.kind, prefix, selected);
      ghost var below := rows;
      var parents := ParentPaths(entry.path, tree.paths[target]);
      if selected {
        var k := 0;
        while k < |parents|
          invariant Valid() && k <= |parents| && |rows| == |below|
          invariant forall i | 0 <= i < |rows| ::
            rows[i].selected == (below[i].selected || (rows[i].kind.Dir? && rows[i].path in parents[..k]))
        {
          SelectDirectory(parents[k]);
          assert parents[..k + 1] == parents[..k] + [parents[k]];
          k := k + 1;
        }
        assert parents[..k] == parents;
      }
      forall i | 0 <= i < |rows|
        ensures rows[i].selected == Apply(tree, old(Selected()), Operation(target, selected))[i]
      {
        ParentsAreAbove(parents, tree.paths[target], tree.paths[i]);
        DiskPrefix(tree.paths[i], tree.paths[target]);
      }
    }

    method UpdateBelow(target: nat, kind: Kind, prefix: string, selected: bool)
      requires Valid() && target < |rows|
      modifies this`rows
      ensures Valid() && |rows| == |old(rows)|
      ensures forall i | 0 <= i < |rows| ::
        rows[i].selected == if i == target || (kind.Dir? && StartsWith(rows[i].path, prefix)) then selected
                            else old(rows)[i].selected
    {
      var k := 0;
      while k < |rows|
        invariant Valid() && k <= |rows| && |rows| == |old(rows)|
        invariant forall i | 0 <= i < |rows| ::
          rows[i].selected == if i < k && (i == target || (kind.Dir? && StartsWith(rows[i].path, prefix))) then selected
                              else old(rows)[i].selected
      {
        if k == target || (kind.Dir? && StartsWith(rows[k].path, prefix)) {
          rows := rows[k := rows[k].(selected := selected)];
        }
        k := k + 1;
      }
    }

    method SelectDirectory(path: string)
      requires Valid()
      modifies this`rows
      ensures Valid() && |rows| == |old(rows)|
      ensures forall i | 0 <= i < |rows| ::
        rows[i].selected == (old(rows)[i].selected || (rows[i].kind.Dir? && rows[i].path == path))
    {
      var k := 0;
      while k < |rows|
        invariant Valid() && k <= |rows| && |rows| == |old(rows)|
        invariant forall i | 0 <= i < |rows| ::
          rows[i].selected == (old(rows)[i].selected || (i < k && rows[i].kind.Dir? && rows[i].path == path))
      {
        if rows[k].kind.Dir? && rows[k].path == path { rows := rows[k := rows[k].(selected := true)]; }
        k := k + 1;
      }
    }

    /** `_describe_selection`: partial when it is a parent path of an unselected entry. */
    method Partial(target: nat) returns (partial: bool)
      requires Valid() && target < |rows|
      ensures partial <==> PartlySelected(tree, Selected(), target)
    {
      partial := false;
      if !rows[target].kind.Dir? || !rows[target].selected { return; }
      var k := 0;
      while k < |rows| && !partial
        invariant k <= |rows|
        invariant partial <==> exists i | 0 <= i < k :: !rows[i].selected && Below(tree.paths[i], tree.paths[target])
      {
        if !rows[k].selected {
          var parents := ParentPaths(rows[k].path, tree.paths[k]);
          ParentsAreAbove(parents, tree.paths[k], tree.paths[target]);
          partial := rows[target].path in parents;
        }
        k := k + 1;
      }
      if partial {
        ghost var i :| 0 <= i < |rows| && !rows[i].selected && Below(tree.paths[i], tree.paths[target]);
        assert !Selected()[i];
      }
      assert partial ==> PartlySelected(tree, Selected(), target);
    }
  }

  // ---------------------------------------------------------------- the batch store

  /** The same entries under destination paths, compared as text. */
  class BatchTable {
    var rows: seq<Row>
    ghost const tree: Tree

    ghost predicate Valid()
      reads this
    {
      && Planned(tree) && |rows| == |tree.kinds|
      && forall i | 0 <= i < |rows| :: rows[i].kind == tree.kinds[i] && rows[i].path == Join(tree.paths[i])
    }

    ghost function Selected(): seq<bool>
      reads this
    {
      seq(|rows|, i requires 0 <= i < |rows| reads this => rows[i].selected)
    }

    constructor (tree: Tree)
      requires Planned(tree)
      ensures Valid() && this.tree == tree && Selected() == After(tree, [])
    {
      rows := seq(|tree.kinds|, i requires 0 <= i < |tree.kinds| && |tree.paths| == |tree.kinds| =>
                Row(tree.kinds[i], Join(tree.paths[i]), true));
      this.tree := tree;
    }

    /** `set_entry_selection`: one update downwards, and for a selection one upwards. */
    method SetSelection(target: nat, selected: bool)
      requires Valid() && target < |rows|
      modifies this`rows
      ensures Valid() && Selected() == Apply(tree, old(Selected()), Operation(target, selected))
    {
      var k, entry := 0, rows[target];
      while k < |rows|
        invariant Valid() && k <= |rows| && |rows| == |old(rows)|
        invariant forall i | k <= i < |rows| :: rows[i] == old(rows)[i]
        invariant forall i | 0 <= i < k ::
          rows[i].selected == Apply(tree, old(Selected()), Operation(target, selected))[i]
      {
        JoinPrefix(tree.paths[k], tree.paths[target]);
        JoinPrefix(tree.paths[target], tree.paths[k]);
        if k == target || (entry.kind.Dir? && StartsWith(rows[k].path, entry.path + "/")) {
          rows := rows[k := rows[k].(selected := selected)];
        }
        if selected && rows[k].kind.Dir? && StartsWith(entry.path, rows[k].path + "/") {
          rows := rows[k := rows[k].(selected := true)];
        }
        k := k + 1;
      }
    }

    /** `selection_partial`. */
    method Partial(target: nat) returns (partial: bool)
      requires Valid() && target < |rows|
      ensures partial <==> Mixed(tree, Selected(), target)
    {
      partial := false;
      if !rows[target].kind.Dir? { return; }
      var k := 0;
      while k < |rows| && !partial
        invariant k <= |rows|
        invariant partial <==>
          exists i | 0 <= i < k :: rows[i].selected != rows[target].selected && Below(tree.paths[i], tree.paths[target])
      {
        JoinPrefix(tree.paths[k], tree.paths[target]);
        partial := StartsWith(rows[k].path, rows[target].path + "/") && rows[k].selected != rows[target].selected;
        k := k + 1;
      }
      if partial {
        ghost var i :| 0 <= i < |rows| && rows[i].selected != rows[target].selected && Below(tree.paths[i], tree.paths[target]);
        assert Selected()[i] != Selected()[target];
      }
      assert partial ==> Mixed(tree, Selected(), target);
    }
  }

  /** The order of a tree does not depend on the directory it is copied to. */
  predicate SameShape(t: Tree, t': Tree) {
    && Planned(t) && Planned(t') && t'.kinds == t.kinds
    && forall i, j | 0 <= i < |t.kinds| && 0 <= j < |t.kinds| ::
         Below(t'.paths[i], t'.paths[j]) <==> Below(t.paths[i], t.paths[j])
  }

  lemma {:induction false} SameSelections(t: Tree, t': Tree, ops: seq<Operation>)
    requires SameShape(t, t') && forall op | op in ops :: op.target < |t.kinds|
    ensures After(t', ops) == After(t, ops)
    decreases |ops|
  {
    if ops != [] {
      var before, last := ops[..|ops| - 1], ops[|ops| - 1];
      SameSelections(t, t', before);
      forall i: nat | i < |t.kinds| ensures Covers(t', last, i) <==> Covers(t, last, i) {}
    }
  }

  /** The two stores, given the same operations on the same plan, select the same entries and call the same
    * directories partly selected, although one compares source paths and the other destination paths.
    */
  method BothStores(source: Tree, destination: Tree, ops: seq<Operation>, i: nat)
    returns (partial: bool, mixed: bool, one: EntryTable, other: BatchTable)
    requires SameShape(source, destination) && i < |source.kinds|
    requires forall op | op in ops :: op.target < |source.kinds|
    ensures one.Selected() == other.Selected() == After(source, ops)
    ensures partial == mixed
  {
    one := new EntryTable(source);
    other := new BatchTable(destination);
    SameSelections(source, destination, []);
    var k := 0;
    while k < |ops|
      invariant k <= |ops| && one.Valid() && other.Valid() && one.tree == source && other.tree == destination
      invariant one.Selected() == After(source, ops[..k]) && other.Selected() == After(destination, ops[..k])
    {
      assert ops[..k + 1][..k] == ops[..k] && ops[..k + 1][k] == ops[k];
      one.SetSelection(ops[k].target, ops[k].selected);
      other.SetSelection(ops[k].target, ops[k].selected);
      k := k + 1;
    }
    assert ops[..k] == ops;
    SameSelections(source, destination, ops);
    partial := one.Partial(i);
    mixed := other.Partial(i);
    StoresAgree(source, ops, i);
    assert Mixed(destination, After(source, ops), i) <==> Mixed(source, After(source, ops), i);
  }
}
