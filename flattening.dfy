/** `flatten_df`: keep the flat columns, then replace every nested column by
    one column per immediate sub-field, named `parent_sub`. Only one level is
    expanded; the sub-fields keep their own kinds. */
module Flattening {
  import opened Seqs
  import opened Schema

  /** `flat_cols`: the columns whose type string starts with neither `struct`
      nor `array`, in input order. */
  function FlatColumns(cols: seq<Field>): seq<Field>
  {
    Filter(cols, IsFlatColumn)
  }

  /** `nested_cols`: the columns whose type string starts with `struct` or
      `array`, in input order. */
  function NestedColumns(cols: seq<Field>): seq<Field>
  {
    Filter(cols, IsNestedColumn)
  }

  /** `select(n + ".*")` succeeds on this column. */
  predicate Expandable(c: Field)
  {
    StarFields(c.kind).Some?
  }

  predicate NotExpandable(c: Field)
  {
    StarFields(c.kind).None?
  }

  /** Every nested column can be star-expanded, so the select succeeds. */
  predicate Flattenable(cols: seq<Field>)
  {
    forall c :: c in cols && IsNestedColumn(c) ==> Expandable(c)
  }

  /** The derived columns of one nested column, in sub-field order. */
  function Run(parent: Field): seq<Field>
    requires Expandable(parent)
  {
    var fs := StarFields(parent.kind).value;
    seq(|fs|, i requires 0 <= i < |fs| => Derive(parent, fs[i]))
  }

  function Runs(nested: seq<Field>): seq<seq<Field>>
    requires forall c :: c in nested ==> Expandable(c)
  {
    seq(|nested|, k requires 0 <= k < |nested| => Run(nested[k]))
  }

  /** `flatten_df`: the select list is `flat_cols` followed by one
      `col(n.sub).alias(n_sub)` per nested column `n` and sub-field `sub`.
      Star-expanding a nested column that is not a struct (or an array of
      structs) fails, and the first such column in `nested_cols` is reported. */
  function Flatten(cols: seq<Field>): (r: Result<seq<Field>>)
    ensures r.Ok? <==> Flattenable(cols)
    ensures r.Err? ==> exists c :: c in cols && IsNestedColumn(c) && !Expandable(c)
                                   && r.error == CannotStarExpand(c.name, Dtype(c.kind))
  {
    var nested := NestedColumns(cols);
    var unexpandable := Filter(nested, NotExpandable);
    FilterMembers(cols, IsNestedColumn);
    FilterMembers(nested, NotExpandable);
    if unexpandable != [] then
      var c := unexpandable[0];
      assert c in unexpandable;
      Err(CannotStarExpand(c.name, Dtype(c.kind)))
    else
      Ok(FlatColumns(cols) + Concat(Runs(nested)))
  }

  /** The number of derived columns a column contributes. */
  function SubFieldCount(c: Field): nat
  {
    match StarFields(c.kind)
    case Some(fs) => |fs|
    case None => 0
  }

  function SubFieldTotal(cs: seq<Field>): nat
  {
    if cs == [] then 0 else SubFieldCount(cs[0]) + SubFieldTotal(cs[1..])
  }

  /** Every column lands in exactly one of `flat_cols` and `nested_cols`, and
      the two lists interleave back into the input: each keeps input order. */
  lemma Partition(cols: seq<Field>)
    ensures IsMerge(cols, FlatColumns(cols), NestedColumns(cols))
    ensures |FlatColumns(cols)| + |NestedColumns(cols)| == |cols|
    ensures forall c :: c in FlatColumns(cols) ==> c in cols && IsFlatColumn(c) && !IsNestedColumn(c)
    ensures forall c :: c in NestedColumns(cols) ==> c in cols && IsNestedColumn(c) && !IsFlatColumn(c)
  {
    forall c: Field ensures IsNestedColumn(c) == !IsFlatColumn(c) {
      DtypeTestsComplementary(Dtype(c.kind));
    }
    FilterPartition(cols, IsFlatColumn, IsNestedColumn);
    FilterMembers(cols, IsFlatColumn);
    FilterMembers(cols, IsNestedColumn);
  }

  /** No other order-preserving split puts the flat columns on one side and
      the nested ones on the other. */
  lemma PartitionUnique(cols: seq<Field>, flat: seq<Field>, nested: seq<Field>)
    requires IsMerge(cols, flat, nested)
    requires forall c :: c in flat ==> IsFlatColumn(c)
    requires forall c :: c in nested ==> IsNestedColumn(c)
    ensures flat == FlatColumns(cols) && nested == NestedColumns(cols)
  {
    forall c: Field ensures IsNestedColumn(c) == !IsFlatColumn(c) {
      DtypeTestsComplementary(Dtype(c.kind));
    }
    MergeIsFilter(cols, flat, nested, IsFlatColumn, IsNestedColumn);
  }

  /** The error names the first nested column, in input order, that cannot be
      star-expanded. */
  lemma FlattenErrorIsFirst(cols: seq<Field>)
    requires Flatten(cols).Err?
    ensures exists k :: 0 <= k < |NestedColumns(cols)|
                        && NotExpandable(NestedColumns(cols)[k])
                        && (forall j :: 0 <= j < k ==> Expandable(NestedColumns(cols)[j]))
                        && Flatten(cols).error == CannotStarExpand(NestedColumns(cols)[k].name, Dtype(NestedColumns(cols)[k].kind))
  {
    FilterHead(NestedColumns(cols), NotExpandable);
  }

  lemma {:induction false} RunsLength(nested: seq<Field>)
    requires forall c :: c in nested ==> Expandable(c)
    ensures |Concat(Runs(nested))| == SubFieldTotal(nested)
  {
    if nested != [] {
      forall c | c in nested[1..] ensures Expandable(c) { assert c in nested; }
      assert nested[0] in nested;
      RunsLength(nested[1..]);
      assert Runs(nested)[1..] == Runs(nested[1..]);
    }
  }

  lemma RunsAppend(a: seq<Field>, b: seq<Field>)
    requires forall c :: c in a ==> Expandable(c)
    requires forall c :: c in b ==> Expandable(c)
    ensures forall c :: c in a + b ==> Expandable(c)
    ensures Runs(a + b) == Runs(a) + Runs(b)
  {
  }

  lemma RunsPrefix(nested: seq<Field>, k: nat)
    requires forall c :: c in nested ==> Expandable(c)
    requires k <= |nested|
    ensures forall c :: c in nested[..k] ==> Expandable(c)
    ensures Runs(nested)[..k] == Runs(nested[..k])
  {
    forall c | c in nested[..k] ensures Expandable(c) { assert c in nested; }
  }

  /** Under `Flattenable`, every column of `nested_cols` can be expanded. */
  lemma NestedExpandable(cols: seq<Field>)
    requires Flattenable(cols)
    ensures forall c :: c in NestedColumns(cols) ==> Expandable(c)
  {
    FilterMembers(cols, IsNestedColumn);
  }

  /** What a successful flatten returns, spelled out. */
  lemma FlattenOk(cols: seq<Field>)
    requires Flattenable(cols)
    ensures forall c :: c in NestedColumns(cols) ==> Expandable(c)
    ensures Flatten(cols) == Ok(FlatColumns(cols) + Concat(Runs(NestedColumns(cols))))
  {
    FilterMembers(cols, IsNestedColumn);
  }

  /** The output starts with the flat columns, unchanged and in input order,
      and holds one more column per immediate sub-field of each nested column. */
  lemma FlattenShape(cols: seq<Field>)
    requires Flattenable(cols)
    ensures Flatten(cols).value[..|FlatColumns(cols)|] == FlatColumns(cols)
    ensures |Flatten(cols).value| == |FlatColumns(cols)| + SubFieldTotal(NestedColumns(cols))
  {
    NestedExpandable(cols);
    RunsLength(NestedColumns(cols));
  }

  /** The `k`-th nested column contributes one contiguous run, starting after
      the flat columns and the runs of the nested columns before it: its
      `i`-th column is named `parent_sub` after its `i`-th declared sub-field
      and has that sub-field's kind (not flattened any further). */
  lemma RunLayout(cols: seq<Field>, k: nat)
    requires Flattenable(cols)
    requires k < |NestedColumns(cols)|
    ensures var parent := NestedColumns(cols)[k];
            var start := |FlatColumns(cols)| + SubFieldTotal(NestedColumns(cols)[..k]);
            && Expandable(parent)
            && start + SubFieldCount(parent) <= |Flatten(cols).value|
            && forall i :: 0 <= i < SubFieldCount(parent) ==>
                 var sub := StarFields(parent.kind).value[i];
                 Flatten(cols).value[start + i] == Field(parent.name + "_" + sub.name, DerivedKind(parent.kind, sub))
  {
    var nested := NestedColumns(cols);
    NestedExpandable(cols);
    assert nested[k] in nested;
    var runs := Runs(nested);
    ConcatSplit(runs, k);
    RunsPrefix(nested, k);
    RunsLength(nested[..k]);
    var out := Flatten(cols).value;
    assert out == FlatColumns(cols) + (Concat(runs[..k]) + Run(nested[k]) + Concat(runs[k + 1..]));
  }

  /** `c` is `parent_sub` for a nested column `parent` of `cols` and one of
      its immediate sub-fields `sub`. */
  ghost predicate IsDerivedFrom(c: Field, cols: seq<Field>)
  {
    exists parent, sub :: parent in cols && IsNestedColumn(parent) && Expandable(parent)
                          && sub in StarFields(parent.kind).value
                          && c == Derive(parent, sub)
  }

  /** Every column after the flat prefix is `parent_sub` for some nested
      column `parent` and one of its immediate sub-fields `sub`. */
  lemma DerivedAreSubFields(cols: seq<Field>)
    requires Flattenable(cols)
    ensures forall j :: |FlatColumns(cols)| <= j < |Flatten(cols).value| ==>
              IsDerivedFrom(Flatten(cols).value[j], cols)
  {
    var nested := NestedColumns(cols);
    NestedExpandable(cols);
    FilterMembers(cols, IsNestedColumn);
    var out := Flatten(cols).value;
    forall j | |FlatColumns(cols)| <= j < |out|
      ensures IsDerivedFrom(out[j], cols)
    {
      var runs := Runs(nested);
      assert out == FlatColumns(cols) + Concat(runs);
      assert out[j] == Concat(runs)[j - |FlatColumns(cols)|];
      assert out[j] in Concat(runs);
      ConcatMember(runs, out[j]);
      var k :| 0 <= k < |runs| && out[j] in runs[k];
      assert nested[k] in nested;
      var fs := StarFields(nested[k].kind).value;
      var i :| 0 <= i < |fs| && out[j] == Run(nested[k])[i];
      assert fs[i] in fs;
    }
  }

  /** With no nested column the transform is the identity. */
  lemma NoNestedIsIdentity(cols: seq<Field>)
    requires forall c :: c in cols ==> IsFlatColumn(c)
    ensures Flatten(cols) == Ok(cols)
  {
    FilterKeepsAll(cols, IsFlatColumn);
    FilterMembers(cols, IsNestedColumn);
    if NestedColumns(cols) != [] {
      var c := NestedColumns(cols)[0];
      assert c in NestedColumns(cols);
      DtypeTestsComplementary(Dtype(c.kind));
      assert false;
    }
    assert Filter(NestedColumns(cols), NotExpandable) == [];
    assert Concat(Runs(NestedColumns(cols))) == [];
    assert FlatColumns(cols) == cols;
    assert Flatten(cols) == Ok(FlatColumns(cols) + []);
    assert cols + [] == cols;
  }

  /** In particular a schema of scalar columns whose type names are not
      `struct...`/`array...` (every Spark atomic type) is left as it is. */
  lemma ScalarSchemaIsIdentity(cols: seq<Field>)
    requires forall c :: c in cols ==> c.kind.Scalar? && IsFlatDtype(c.kind.typeName)
    ensures Flatten(cols) == Ok(cols)
  {
    forall c | c in cols ensures IsFlatColumn(c) {
      NestedByKind(c.kind);
    }
    NoNestedIsIdentity(cols);
  }

  /** A nested column with no sub-fields contributes no column: the output is
      what it would be without that column. */
  lemma EmptyNestedIsDropped(cols: seq<Field>, i: nat)
    requires i < |cols|
    requires IsNestedColumn(cols[i])
    requires StarFields(cols[i].kind) == Some([])
    ensures Flatten(cols) == Flatten(cols[..i] + cols[i + 1..])
  {
    var c := cols[i];
    var before, after := cols[..i], cols[i + 1..];
    var rest := before + after;
    assert cols == before + [c] + after;
    DtypeTestsComplementary(Dtype(c.kind));
    FilterSkip(before, c, after, IsFlatColumn);
    FilterKeep(before, c, after, IsNestedColumn);
    FilterAppend(before, after, IsNestedColumn);
    var nb, na := NestedColumns(before), NestedColumns(after);
    FilterSkip(nb, c, na, NotExpandable);
    if Filter(NestedColumns(cols), NotExpandable) == [] {
      assert Flatten(cols).Ok?;
      NestedExpandable(cols);
      assert nb + [c] + na == NestedColumns(cols);
      forall d | d in nb ensures Expandable(d) { assert d in nb + [c] + na; }
      forall d | d in na ensures Expandable(d) { assert d in nb + [c] + na; }
      RunsAppend(nb, [c]);
      RunsAppend(nb + [c], na);
      RunsAppend(nb, na);
      assert Runs([c]) == [[]];
      ConcatSkipEmpty(Runs(nb), Runs(na));
    }
  }
}
