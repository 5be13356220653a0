/** The schema a Spark dataframe reports for its columns, as far as the
    flattening transform looks at it: each column has a name and a data type,
    `dtypes` renders each data type as a string, and `select(n + ".*")` lists
    the sub-fields of a nested column. */
module Schema {

  /** A Spark data type. Every type other than a struct or an array (string,
      bigint, double, boolean, map<...>, ...) is a `Scalar` carrying the name
      Spark renders for it. */
  datatype Kind =
    | Scalar(typeName: string)
    | Struct(fields: seq<Field>)
    | Array(elem: Kind)

  /** A named, typed column: both a top-level column of a dataframe and a
      sub-field of a struct are Spark StructFields. */
  datatype Field = Field(name: string, kind: Kind)

  datatype Option<T> = None | Some(value: T)

  /** The one error the transform can raise: star-expanding a column that has
      no struct to expand. */
  datatype FlattenError = CannotStarExpand(column: string, dtype: string)

  datatype Result<T> = Ok(value: T) | Err(error: FlattenError)

  /** Python's `s.startswith(prefix)`. */
  predicate StartsWith(s: string, prefix: string)
  {
    |prefix| <= |s| && s[..|prefix|] == prefix
  }

  /** The type string `dtypes` reports for a kind, e.g.
      `struct<name:string,age:bigint>` or `array<string>`. */
  function Dtype(k: Kind): string
    decreases k, 1
  {
    match k
    case Scalar(t) => t
    case Struct(fs) => "struct<" + FieldList(k, 0) + ">"
    case Array(e) => "array<" + Dtype(e) + ">"
  }

  /** The comma-separated `name:type` list of a struct's fields from index `i` on. */
  function FieldList(k: Kind, i: nat): string
    requires k.Struct?
    decreases k, 0, |k.fields| - i
  {
    if i >= |k.fields| then ""
    else
      var f := k.fields[i];
      (if i == 0 then "" else ",") + f.name + ":" + Dtype(f.kind) + FieldList(k, i + 1)
  }

  /** The test that puts a column in `flat_cols`. */
  predicate IsFlatDtype(d: string)
  {
    !StartsWith(d, "struct") && !StartsWith(d, "array")
  }

  /** The test that puts a column in `nested_cols`. */
  predicate IsNestedDtype(d: string)
  {
    StartsWith(d, "struct") || StartsWith(d, "array")
  }

  predicate IsFlatColumn(c: Field)
  {
    IsFlatDtype(Dtype(c.kind))
  }

  predicate IsNestedColumn(c: Field)
  {
    IsNestedDtype(Dtype(c.kind))
  }

  /** Every type string passes exactly one of the two tests. */
  lemma DtypeTestsComplementary(d: string)
    ensures IsFlatDtype(d) != IsNestedDtype(d)
  {
  }

  lemma {:induction false} StartsWithAppend(prefix: string, s: string)
    ensures StartsWith(prefix + s, prefix)
  {
    assert (prefix + s)[..|prefix|] == prefix;
  }

  /** A struct or array type string always starts with its keyword, so such a
      column is nested; a scalar's type string is its own name. */
  lemma {:induction false} NestedByKind(k: Kind)
    ensures k.Struct? ==> StartsWith(Dtype(k), "struct")
    ensures k.Array? ==> StartsWith(Dtype(k), "array")
    ensures k.Scalar? ==> Dtype(k) == k.typeName
    ensures IsNestedDtype(Dtype(k)) <==> (k.Struct? || k.Array? || IsNestedDtype(k.typeName))
  {
    match k
    case Scalar(_) =>
    case Struct(_) =>
      assert Dtype(k) == "struct" + ("<" + FieldList(k, 0) + ">");
      StartsWithAppend("struct", "<" + FieldList(k, 0) + ">");
    case Array(e) =>
      assert Dtype(k) == "array" + ("<" + Dtype(e) + ">");
      StartsWithAppend("array", "<" + Dtype(e) + ">");
  }

  /** The sub-fields `select(n + ".*")` yields for a column of kind `k`: a
      struct's fields in declared order, or, for an array of structs, the
      element struct's fields. Any other kind has nothing to expand. */
  function StarFields(k: Kind): Option<seq<Field>>
  {
    match k
    case Struct(fs) => Some(fs)
    case Array(Struct(fs)) => Some(fs)
    case _ => None
  }

  /** The sub-fields Spark's star expansion gives as the program runs: it
      resolves `n` and expands it only when it is a struct; on any other
      column, arrays included, the select raises. */
  function SparkStarFields(k: Kind): (r: Option<seq<Field>>)
    ensures r.Some? <==> k.Struct?
    ensures r.Some? ==> r == StarFields(k)
  {
    if k.Struct? then Some(k.fields) else None
  }

  /** As written, every array column is put among the nested columns and then
      cannot be star-expanded, so the program fails on any schema with an
      array column, arrays of structs included. */
  lemma ArrayColumnsRejected(c: Field)
    requires c.kind.Array?
    ensures IsNestedDtype(Dtype(c.kind))
    ensures SparkStarFields(c.kind).None?
  {
    NestedByKind(c.kind);
  }

  /** The kind of `col(n + "." + sub)`: the sub-field's own kind for a struct
      parent, and an array of it for an array-of-structs parent (the field is
      read from every element). */
  function DerivedKind(parent: Kind, sub: Field): Kind
  {
    if parent.Array? then Array(sub.kind) else sub.kind
  }

  /** `col(n + "." + sub).alias(n + "_" + sub)` */
  function Derive(parent: Field, sub: Field): Field
  {
    Field(parent.name + "_" + sub.name, DerivedKind(parent.kind, sub))
  }
}
