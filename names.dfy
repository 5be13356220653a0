/** Output column names. `flatten_df` does nothing to keep them unique: a
    derived name `parent_sub` can equal another derived name or a flat
    column's name. They are unique under an explicit no-collision condition. */
module Names {
  import opened Seqs
  import opened Schema
  import opened Flattening

  ghost predicate DistinctNames(cols: seq<Field>)
  {
    forall i, j :: 0 <= i < j < |cols| ==> cols[i].name != cols[j].name
  }

  /** A sufficient condition for unique output names: the input names are
      unique, each nested column's sub-field names are unique, no nested
      column's name contains `_`, and no flat column is named like a derived
      column. */
  ghost predicate NoCollision(cols: seq<Field>)
  {
    && DistinctNames(cols)
    && (forall c :: c in cols && IsNestedColumn(c) && Expandable(c) ==> DistinctNames(StarFields(c.kind).value))
    && (forall c :: c in cols && IsNestedColumn(c) ==> '_' !in c.name)
    && (forall c, d, f ::
          (c in cols && IsFlatColumn(c) && d in cols && IsNestedColumn(d) && Expandable(d)
           && f in StarFields(d.kind).value) ==> c.name != d.name + "_" + f.name)
  }

  /** In `parent_sub`, the `_` after the parent is the first one when the
      parent has none. */
  lemma FirstUnderscore(a: string, x: string)
    requires '_' !in a
    ensures (a + "_" + x)[|a|] == '_'
    ensures forall k :: 0 <= k < |a| ==> (a + "_" + x)[k] != '_'
  {
    forall k | 0 <= k < |a| ensures (a + "_" + x)[k] != '_' {
      assert (a + "_" + x)[k] == a[k];
      assert a[k] in a;
    }
  }

  /** Without `_` in the parent names, `parent_sub` determines both parts. */
  lemma UnderscoreSplit(a: string, x: string, b: string, y: string)
    requires '_' !in a && '_' !in b
    ensures a + "_" + x == b + "_" + y ==> a == b && x == y
  {
    FirstUnderscore(a, x);
    FirstUnderscore(b, y);
    var s, t := a + "_" + x, b + "_" + y;
    assert s == t ==> |a| == |b|;
    assert s[..|a|] == a && s[|a| + 1..] == x;
    assert t[..|b|] == b && t[|b| + 1..] == y;
  }

  /** A common prefix cancels. */
  lemma PrefixCancel(p: string, x: string, y: string)
    ensures p + x == p + y ==> x == y
  {
    assert (p + x)[|p|..] == x && (p + y)[|p|..] == y;
  }

  lemma {:induction false} FilterDistinct(cols: seq<Field>, p: Field -> bool)
    requires DistinctNames(cols)
    ensures DistinctNames(Filter(cols, p))
  {
    if cols != [] {
      var rest := cols[1..];
      assert DistinctNames(rest) by {
        forall i, j | 0 <= i < j < |rest| ensures rest[i].name != rest[j].name {
          assert rest[i] == cols[i + 1] && rest[j] == cols[j + 1];
        }
      }
      FilterDistinct(rest, p);
      FilterMembers(rest, p);
      forall x | x in Filter(rest, p) ensures x.name != cols[0].name {
        var m :| 0 <= m < |rest| && rest[m] == x;
        assert cols[m + 1] == x;
      }
      var head := if p(cols[0]) then [cols[0]] else [];
      DistinctAppend(head, Filter(rest, p));
    }
  }

  lemma DistinctAppend(a: seq<Field>, b: seq<Field>)
    requires DistinctNames(a) && DistinctNames(b)
    requires forall x, y :: x in a && y in b ==> x.name != y.name
    ensures DistinctNames(a + b)
  {
    var s := a + b;
    forall i, j | 0 <= i < j < |s| ensures s[i].name != s[j].name {
      if j < |a| {
        assert s[i] == a[i] && s[j] == a[j];
      } else if i >= |a| {
        assert s[i] == b[i - |a|] && s[j] == b[j - |a|];
      } else {
        assert s[i] == a[i] && s[j] == b[j - |a|];
        assert a[i] in a && b[j - |a|] in b;
      }
    }
  }

  /** The derived columns of one nested column have distinct names when its
      sub-fields do. */
  lemma RunDistinct(parent: Field)
    requires Expandable(parent)
    requires DistinctNames(StarFields(parent.kind).value)
    ensures DistinctNames(Run(parent))
  {
    var fs := StarFields(parent.kind).value;
    var run := Run(parent);
    forall i, j | 0 <= i < j < |run| ensures run[i].name != run[j].name {
      PrefixCancel(parent.name + "_", fs[i].name, fs[j].name);
    }
  }

  /** A derived column's name comes from its parent and one of its sub-fields. */
  lemma InRuns(nested: seq<Field>, y: Field)
    requires forall c :: c in nested ==> Expandable(c)
    requires y in Concat(Runs(nested))
    ensures exists d, f :: d in nested && f in StarFields(d.kind).value && y.name == d.name + "_" + f.name
  {
    var runs := Runs(nested);
    ConcatMember(runs, y);
    var k :| 0 <= k < |runs| && y in runs[k];
    var d := nested[k];
    assert d in nested;
    var fs := StarFields(d.kind).value;
    var i :| 0 <= i < |fs| && y == Run(d)[i];
    assert fs[i] in fs;
  }

  lemma {:induction false} RunsDistinct(nested: seq<Field>)
    requires DistinctNames(nested)
    requires forall c :: c in nested ==> Expandable(c) && DistinctNames(StarFields(c.kind).value) && '_' !in c.name
    ensures DistinctNames(Concat(Runs(nested)))
  {
    if nested != [] {
      var first, rest := nested[0], nested[1..];
      assert first in nested;
      forall c | c in rest ensures Expandable(c) && DistinctNames(StarFields(c.kind).value) && '_' !in c.name {
        assert c in nested;
      }
      assert DistinctNames(rest) by {
        forall i, j | 0 <= i < j < |rest| ensures rest[i].name != rest[j].name {
          assert rest[i] == nested[i + 1] && rest[j] == nested[j + 1];
        }
      }
      RunsDistinct(rest);
      RunDistinct(first);
      assert Runs(nested)[1..] == Runs(rest);
      assert Concat(Runs(nested)) == Run(first) + Concat(Runs(rest));
      forall x, y | x in Run(first) && y in Concat(Runs(rest)) ensures x.name != y.name {
        var fs := StarFields(first.kind).value;
        var i :| 0 <= i < |fs| && x == Run(first)[i];
        InRuns(rest, y);
        var d, f :| d in rest && f in StarFields(d.kind).value && y.name == d.name + "_" + f.name;
        var m :| 0 <= m < |rest| && rest[m] == d;
        assert nested[m + 1] == d;
        UnderscoreSplit(first.name, fs[i].name, d.name, f.name);
      }
      DistinctAppend(Run(first), Concat(Runs(rest)));
    }
  }

  /** Under the no-collision condition every output column name is unique. */
  lemma FlattenNamesDistinct(cols: seq<Field>)
    requires NoCollision(cols)
    requires Flattenable(cols)
    ensures DistinctNames(Flatten(cols).value)
  {
    var flat, nested := FlatColumns(cols), NestedColumns(cols);
    NestedExpandable(cols);
    FilterDistinct(cols, IsFlatColumn);
    FilterDistinct(cols, IsNestedColumn);
    FilterMembers(cols, IsFlatColumn);
    FilterMembers(cols, IsNestedColumn);
    RunsDistinct(nested);
    forall x, y | x in flat && y in Concat(Runs(nested)) ensures x.name != y.name {
      InRuns(nested, y);
    }
    DistinctAppend(flat, Concat(Runs(nested)));
  }

  /** Without the condition names can collide: `a` with sub-field `b_c` and
      `a_b` with sub-field `c` both yield `a_b_c`. */
  lemma DerivedNamesCanCollide()
    ensures var cols := [Field("a", Struct([Field("b_c", Scalar("string"))])),
                         Field("a_b", Struct([Field("c", Scalar("bigint"))]))];
            && Flatten(cols) == Ok([Field("a_b_c", Scalar("string")), Field("a_b_c", Scalar("bigint"))])
            && !DistinctNames(Flatten(cols).value)
  {
    var a := Field("a", Struct([Field("b_c", Scalar("string"))]));
    var ab := Field("a_b", Struct([Field("c", Scalar("bigint"))]));
    var cols := [a, ab];
    NestedByKind(a.kind);
    NestedByKind(ab.kind);
    assert IsNestedColumn(a) && !IsFlatColumn(a) && Expandable(a);
    assert IsNestedColumn(ab) && !IsFlatColumn(ab) && Expandable(ab);
    FilterCons(a, [ab], IsFlatColumn);
    FilterCons(ab, [], IsFlatColumn);
    FilterCons(a, [ab], IsNestedColumn);
    FilterCons(ab, [], IsNestedColumn);
    assert [a] + [ab] == cols && [ab] + [] == [ab];
    assert FlatColumns(cols) == [];
    assert NestedColumns(cols) == cols;
    FlattenOk(cols);
    assert "a" + "_" + "b_c" == "a_b_c" == "a_b" + "_" + "c";
    assert Run(a) == [Field("a_b_c", Scalar("string"))];
    assert Run(ab) == [Field("a_b_c", Scalar("bigint"))];
    assert Runs(cols) == [Run(a)] + [Run(ab)];
    ConcatCons(Run(a), [Run(ab)]);
    ConcatCons(Run(ab), []);
    assert [Run(ab)] + [] == [Run(ab)];
    var out := Flatten(cols).value;
    assert out == [] + (Run(a) + (Run(ab) + []));
    assert out == [Field("a_b_c", Scalar("string")), Field("a_b_c", Scalar("bigint"))];
    assert out[0].name == out[1].name;
  }

  /** A derived name can also equal a flat column's name. */
  lemma DerivedNameCanShadowFlat()
    ensures var cols := [Field("a_b", Scalar("string")), Field("a", Struct([Field("b", Scalar("bigint"))]))];
            && Flatten(cols) == Ok([Field("a_b", Scalar("string")), Field("a_b", Scalar("bigint"))])
            && !DistinctNames(Flatten(cols).value)
  {
    var flat := Field("a_b", Scalar("string"));
    var a := Field("a", Struct([Field("b", Scalar("bigint"))]));
    var cols := [flat, a];
    NestedByKind(flat.kind);
    NestedByKind(a.kind);
    assert "string"[3] != "struct"[3] && "string"[0] != "array"[0];
    assert IsFlatColumn(flat) && !IsNestedColumn(flat);
    assert IsNestedColumn(a) && !IsFlatColumn(a) && Expandable(a);
    FilterCons(flat, [a], IsFlatColumn);
    FilterCons(a, [], IsFlatColumn);
    FilterCons(flat, [a], IsNestedColumn);
    FilterCons(a, [], IsNestedColumn);
    assert [flat] + [a] == cols && [a] + [] == [a];
    assert FlatColumns(cols) == [flat];
    assert NestedColumns(cols) == [a];
    FlattenOk(cols);
    assert "a" + "_" + "b" == "a_b";
    assert Run(a) == [Field("a_b", Scalar("bigint"))];
    assert Runs([a]) == [Run(a)] + [];
    ConcatCons(Run(a), []);
    var out := Flatten(cols).value;
    assert out == [flat] + (Run(a) + []);
    assert out == [Field("a_b", Scalar("string")), Field("a_b", Scalar("bigint"))];
    assert out[0].name == out[1].name;
  }
}
