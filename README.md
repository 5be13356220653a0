# One-level dataframe flattening, modelled in Dafny

The Glue job in `Glue-Job/jon-kinesis-glue-job-script.py` reads JSON
records into a Spark dataframe, flattens it one level with `flatten_df` and
writes Parquet. This project models `flatten_df` and proves what it does.

- It reads the dataframe's `dtypes`, the `(name, type string)` pairs.
- A column whose type string starts with neither `struct` nor `array` is
  flat. One whose type string starts with either is nested.
- The output keeps the flat columns, in input order.
- After them, each nested column `n` contributes one column per immediate
  sub-field `sub` of `n.*`. That column is `col(n.sub)` renamed `n_sub`.
  The columns are grouped by parent, in parent order, and ordered by
  sub-field declaration.

The model has six modules:

- `Seqs`: the list comprehensions (`Filter`, `Concat`, `Map`) and an
  interleaving predicate `IsMerge`.
- `Schema`: Spark data types (`Kind`), columns (`Field`) and type strings
  (`Dtype`, rendered like `dtypes`: `struct<name:string,age:bigint>`,
  `array<bigint>`). It also holds the two prefix tests and the sub-fields
  `n.*` yields (`StarFields`).
- `Flattening`: `Flatten` on a schema, and its laws.
- `Rows`: cell values, rows and dataframes. A flattened row keeps the flat
  cells. A derived cell holds the parent value's sub-field, or null when the
  parent is null.
- `Names`: when output names are unique, and two inputs where they are not.
- `Scenarios`: small inputs written out: a struct, an array of structs, an
  empty struct and an array of scalars.

Spark's star expansion `select(n + ".*")` expands a struct column into its
fields and raises on any other column, arrays included (`SparkStarFields`).
Line 25 puts every array column among the nested columns, so the program as
written fails at line 29 on any schema with an array column
(`ArrayColumnsRejected`, and see "## Findings").

The model's `StarFields` follows the unwrap rule the transform evidently
intends:

- A struct column expands to its fields.
- An array of structs expands to the element struct's fields. The derived
  column is then an array of that field, read from every element.

Any other nested column (an array of scalars, an array of arrays, a scalar
type named `struct...`) has no sub-field list. For the first such nested
column, the model returns the explicit error
`CannotStarExpand(name, type string)`.

## Model

| member | source | states |
|---|---|---|
| Seqs.FilterMembers | Glue-Job/jon-kinesis-glue-job-script.py:24-25 | a comprehension `[x for x in s if p(x)]` keeps exactly the elements of `s` that pass the test |
| Seqs.FilterPartition | Glue-Job/jon-kinesis-glue-job-script.py:24-25 | two complementary tests split a list into an interleaving of the two results; their lengths add up to the list's |
| Seqs.MergeIsFilter | Glue-Job/jon-kinesis-glue-job-script.py:24-25 | any order-preserving split into a part passing the test and a part failing it is the pair of comprehensions |
| Seqs.ConcatMember | Glue-Job/jon-kinesis-glue-job-script.py:27-29 | every element of the nested comprehension comes from one of its runs |
| Seqs.ConcatIndex | Glue-Job/jon-kinesis-glue-job-script.py:27-29 | the `i`-th element of run `k` sits right after all elements of the runs before it |
| Schema.SparkStarFields | Glue-Job/jon-kinesis-glue-job-script.py:29 | Spark's `n.*` gives sub-fields exactly for a struct column, and then the same ones as the model's expansion |
| Schema.ArrayColumnsRejected | Glue-Job/jon-kinesis-glue-job-script.py:25-29 | every array column is nested by its type string and cannot be star-expanded by Spark, so the program as written fails on it |
| Schema.NestedByKind | Glue-Job/jon-kinesis-glue-job-script.py:24-25 | a struct's type string starts with `struct` and an array's with `array`; a column is nested exactly when it is a struct, an array, or a type whose own name starts with either |
| Schema.DtypeTestsComplementary | Glue-Job/jon-kinesis-glue-job-script.py:24-25 | every type string passes exactly one of the two tests |
| Flattening.Flatten | Glue-Job/jon-kinesis-glue-job-script.py:23-30 | succeeds exactly when every nested column can be star-expanded; on failure it names a nested column that cannot be, with its type string |
| Flattening.Partition | Glue-Job/jon-kinesis-glue-job-script.py:24-25 | every column lands in exactly one of `flat_cols` and `nested_cols`, by the prefix tests; the two interleave back into the input, each in input order |
| Flattening.PartitionUnique | Glue-Job/jon-kinesis-glue-job-script.py:24-25 | no other order-preserving split of flat and nested columns exists |
| Flattening.FlattenErrorIsFirst | Glue-Job/jon-kinesis-glue-job-script.py:28-29 | the reported column is the first nested column, in input order, that cannot be star-expanded |
| Flattening.RunsLength | Glue-Job/jon-kinesis-glue-job-script.py:27-29 | the derived columns number the sum of the nested columns' sub-field counts |
| Flattening.FlattenShape | Glue-Job/jon-kinesis-glue-job-script.py:24-29 | the output starts with exactly the flat columns, unchanged and in order; its length is the flat count plus the sum of sub-field counts |
| Flattening.RunLayout | Glue-Job/jon-kinesis-glue-job-script.py:27-29 | the `k`-th nested column contributes one contiguous run after the flat columns and the earlier runs; its `i`-th column is `parent_sub` for the `i`-th declared sub-field, with that sub-field's kind, not flattened further |
| Flattening.DerivedAreSubFields | Glue-Job/jon-kinesis-glue-job-script.py:27-29 | every column after the flat prefix is `parent_sub` for a nested input column and one of its immediate sub-fields |
| Flattening.NoNestedIsIdentity | Glue-Job/jon-kinesis-glue-job-script.py:24-27 | with no nested column the output is the input column list |
| Flattening.ScalarSchemaIsIdentity | Glue-Job/jon-kinesis-glue-job-script.py:24-27 | a schema of atomic types is left as it is |
| Flattening.EmptyNestedIsDropped | Glue-Job/jon-kinesis-glue-job-script.py:28-29 | a nested column with no sub-fields contributes nothing: the result equals that of the schema without it |
| Rows.Project | Glue-Job/jon-kinesis-glue-job-script.py:27 | `col(n.sub)` is null on a null parent, and for a struct parent it is the parent value's sub-field |
| Rows.ProjectHasKind | Glue-Job/jon-kinesis-glue-job-script.py:27 | a projected value has the kind the schema gives the derived column |
| Rows.SplitSchema | Glue-Job/jon-kinesis-glue-job-script.py:24-25 | splitting a row into flat and nested cells splits its columns into `flat_cols` and `nested_cols` |
| Rows.CellRunsSchema | Glue-Job/jon-kinesis-glue-job-script.py:27-29 | the derived cells carry exactly the derived columns of the schema |
| Rows.FlattenRow | Glue-Job/jon-kinesis-glue-job-script.py:27-30 | a flattened row's columns are the flattened schema |
| Rows.FlatCellsUnchanged | Glue-Job/jon-kinesis-glue-job-script.py:24-27 | the flattened row starts with the flat cells, each unchanged, in input order; flat and nested cells interleave back into the row |
| Rows.DerivedCellValue | Glue-Job/jon-kinesis-glue-job-script.py:27-29 | the `i`-th derived cell of the `k`-th nested cell sits after the flat cells and the earlier runs; it is named `parent_sub` and holds the parent value's sub-field, or null |
| Rows.CellRunWellTyped | Glue-Job/jon-kinesis-glue-job-script.py:27 | the derived cells of a well-typed cell are well typed |
| Rows.FlattenRowWellTyped | Glue-Job/jon-kinesis-glue-job-script.py:27-30 | flattening keeps every cell typed by its column |
| Rows.FlattenFrame | Glue-Job/jon-kinesis-glue-job-script.py:23-30 | on a dataframe: succeeds exactly when the schema does, with the same error; the columns are the flattened schema; it has the same number of rows, each as wide as the new schema |
| Rows.FrameRowIsFlattenedRow | Glue-Job/jon-kinesis-glue-job-script.py:27-30 | row `r` of the result is row `r` of the input flattened: same rows, same order |
| Rows.FlattenFramePreservesTyping | Glue-Job/jon-kinesis-glue-job-script.py:27-30 | a dataframe whose values match their column types flattens to one that does too |
| Names.FlattenNamesDistinct | Glue-Job/jon-kinesis-glue-job-script.py:27-29 | output names are unique under the no-collision condition: unique input names, unique sub-field names, no `_` in nested names, no flat column named like a derived one |
| Names.DerivedNamesCanCollide | Glue-Job/jon-kinesis-glue-job-script.py:27 | without that condition two derived columns can share a name: `a`.`b_c` and `a_b`.`c` both give `a_b_c` |
| Names.DerivedNameCanShadowFlat | Glue-Job/jon-kinesis-glue-job-script.py:27 | a derived column can share a flat column's name: `a_b` and `a`.`b` |
| Scenarios.UserSchema | Glue-Job/jon-kinesis-glue-job-script.py:23-30 | `{id, user: struct<name, age>}` flattens to `{id, user_name, user_age}` with the sub-fields' kinds |
| Scenarios.UserRow | Glue-Job/jon-kinesis-glue-job-script.py:27-30 | the row `{id: 1, user: {name: "A", age: 30}}` becomes `{id: 1, user_name: "A", user_age: 30}` |
| Scenarios.UserFrame | Glue-Job/jon-kinesis-glue-job-script.py:23-30 | the same on a one-row dataframe |
| Scenarios.TagsSchema | Glue-Job/jon-kinesis-glue-job-script.py:27-29 | `tags: array<struct<label>>` flattens to `tags_label: array<string>` |
| Scenarios.TagsRejectedAsWritten | Glue-Job/jon-kinesis-glue-job-script.py:25-29 | `tags: array<struct<label>>` is nested but has no sub-fields for Spark's `n.*`; the unwrap rule gives it `label` |
| Scenarios.TagsRow | Glue-Job/jon-kinesis-glue-job-script.py:27-29 | the row `{tags: [{label: "x"}]}` becomes `{tags_label: ["x"]}` |
| Scenarios.EmptyStructDropped | Glue-Job/jon-kinesis-glue-job-script.py:28-29 | an empty struct column contributes no output column, so its data is dropped |
| Scenarios.ArrayOfScalarsFails | Glue-Job/jon-kinesis-glue-job-script.py:25-29 | `nums: array<bigint>` is nested by its type string but has nothing to expand: flattening fails naming `nums` and `array<bigint>` |

## Left out

- Argument resolution, Spark and Glue context setup, `job.init` and `job.commit` (lines 8-13 and 41): framework lifecycle calls.
- The multiline JSON read from S3 and the Parquet overwrite (lines 16-20 and 39): I/O. JSON parsing, schema inference and the Parquet codec live in libraries that are not part of this model.
- Distributed execution: the transform has no concurrency of its own, and row order is modelled as a sequence.
- `explode` and `lit` (line 6) are imported but never used.
- Spark's own behaviour when star-expanding a nested column with no struct inside is not in the source. The model returns an explicit error for it instead.
- Schema.StarFields: the program as written raises at line 29 on every array column, because Spark expands `n.*` only on a struct. The model's array-of-structs case is the intended unwrap rule, not what the program does. That covers the `Array(Struct(fs))` case of `StarFields`, the array branch of `DerivedKind`, the list branch of `Rows.Project`, and `Scenarios.TagsSchema` and `Scenarios.TagsRow`. `SparkStarFields` and `ArrayColumnsRejected` state the program's behaviour.
- Flattening.Run: a derived column reads the parent's `i`-th sub-field by position, while `col(n + "." + sub)` looks the sub-field up by name, ignoring case by default. The two agree only when a struct's sub-field names are unique ignoring case. Otherwise the reference is ambiguous and the program raises, while `Flatten` returns `Ok` with repeated `n_sub` columns. That error path is not modelled.
- Rows.Project: reads the `i`-th field of the parent value by position. For the reason given under `Flattening.Run`, this matches the program only when the struct's sub-field names are unique ignoring case.
- Column names containing `.` or backticks: Spark's name parser re-reads `n + "." + sub` and the flat names in `select`. The model carries whole columns and does not parse names.
- `select` resolves flat columns by name. The model keeps the column itself, which matches the source when input names are unique ignoring case (Spark resolves names case-insensitively by default, and an ambiguous name raises). Spark also accepts duplicate output names and Parquet then rejects them; neither is modelled. `Names` states when names are unique.
- Scalar values are opaque `Atom`s: no numeric or string semantics are needed, since the transform copies values without reading them.
- Rows are positional, in column order, rather than maps from names to values. A missing field is a null.

- Flattening.Flatten: for an unflattenable schema the contract names some failing nested column. `FlattenErrorIsFirst` proves that it is the first one.

## Findings

| source | as written | input that shows it | evidently intended | confidence | as-written member | corrected member |
|---|---|---|---|---|---|---|
| Glue-Job/jon-kinesis-glue-job-script.py:25-29 | every column whose type string starts with `array` joins `nested_cols`, then `select(n + ".*")` raises on it | `tags: array<struct<label:string>>` | expand an array of structs through its element struct into `tags_label` | not executed | Scenarios.TagsRejectedAsWritten | Scenarios.TagsSchema |
