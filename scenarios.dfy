/** `flatten_df` on small inputs written out. */
module Scenarios {
  import opened Seqs
  import opened Schema
  import opened Flattening
  import opened Rows

  const Id := Field("id", Scalar("bigint"))
  const User := Field("user", Struct([Field("name", Scalar("string")), Field("age", Scalar("bigint"))]))
  const UserName := Field("user_name", Scalar("string"))
  const UserAge := Field("user_age", Scalar("bigint"))

  /** `id` is flat, `user` nested. */
  lemma UserPartition()
    ensures FlatColumns([Id, User]) == [Id]
    ensures NestedColumns([Id, User]) == [User]
    ensures Expandable(User)
  {
    NestedByKind(Id.kind);
    NestedByKind(User.kind);
    assert "bigint"[0] != "struct"[0] && "bigint"[0] != "array"[0];
    assert IsFlatColumn(Id) && !IsNestedColumn(Id);
    assert IsNestedColumn(User) && !IsFlatColumn(User);
    FilterCons(Id, [User], IsFlatColumn);
    FilterCons(User, [], IsFlatColumn);
    FilterCons(Id, [User], IsNestedColumn);
    FilterCons(User, [], IsNestedColumn);
    assert [Id] + [User] == [Id, User] && [User] + [] == [User];
  }

  /** `id` is kept, `user` becomes `user_name` and `user_age`. */
  lemma UserSchema()
    ensures Flatten([Id, User]) == Ok([Id, UserName, UserAge])
  {
    UserPartition();
    assert Flattenable([Id, User]);
    FlattenOk([Id, User]);
    assert "user" + "_" + "name" == "user_name" && "user" + "_" + "age" == "user_age";
    assert Run(User) == [UserName, UserAge];
    assert Runs([User]) == [Run(User)] + [];
    ConcatCons(Run(User), []);
    assert Flatten([Id, User]).value == [Id] + ([UserName, UserAge] + []);
    assert Flatten([Id, User]).value == [Id, UserName, UserAge];
  }

  /** The row `{id: 1, user: {name: "A", age: 30}}` becomes
      `{id: 1, user_name: "A", user_age: 30}`. */
  lemma UserRow()
    ensures Flattenable([Id, User])
    ensures var row := Cells([Id, User], [Atom("1"), Record([Atom("A"), Atom("30")])]);
            FlattenRow(row) == [Cell(Id, Atom("1")), Cell(UserName, Atom("A")), Cell(UserAge, Atom("30"))]
  {
    UserSchema();
    var id, user := Cell(Id, Atom("1")), Cell(User, Record([Atom("A"), Atom("30")]));
    var row := Cells([Id, User], [Atom("1"), Record([Atom("A"), Atom("30")])]);
    assert row == [id] + [user];
    assert [user] + [] == [user];
    NestedByKind(Id.kind);
    NestedByKind(User.kind);
    assert "bigint"[0] != "struct"[0] && "bigint"[0] != "array"[0];
    assert IsFlatCell(id) && !IsNestedCell(id);
    assert IsNestedCell(user) && !IsFlatCell(user);
    FilterCons(id, [user], IsFlatCell);
    FilterCons(user, [], IsFlatCell);
    FilterCons(id, [user], IsNestedCell);
    FilterCons(user, [], IsNestedCell);
    FlattenRowParts(row);
    assert "user" + "_" + "name" == "user_name" && "user" + "_" + "age" == "user_age";
    assert CellRun(user) == [Cell(UserName, Atom("A")), Cell(UserAge, Atom("30"))];
    assert CellRuns([user]) == [CellRun(user)] + [];
    ConcatCons(CellRun(user), []);
    assert FlattenRow(row) == [id] + (CellRun(user) + []);
  }

  /** The same on the whole dataframe. */
  lemma UserFrame()
    ensures var df := Frame([Id, User], [[Atom("1"), Record([Atom("A"), Atom("30")])]]);
            && WellFormed(df)
            && FlattenFrame(df) == Ok(Frame([Id, UserName, UserAge], [[Atom("1"), Atom("A"), Atom("30")]]))
  {
    var df := Frame([Id, User], [[Atom("1"), Record([Atom("A"), Atom("30")])]]);
    UserSchema();
    UserRow();
    var row := FlattenRow(Cells(df.columns, df.rows[0]));
    assert Values(row) == [Atom("1"), Atom("A"), Atom("30")];
    assert FlattenFrame(df).value.rows == [Values(row)];
  }

  const Tags := Field("tags", Array(Struct([Field("label", Scalar("string"))])))
  const TagsLabel := Field("tags_label", Array(Scalar("string")))

  /** Under the unwrap rule an array of structs is expanded through its
      element struct: `tags` becomes `tags_label`, an array of the labels. */
  lemma TagsSchema()
    ensures Flatten([Tags]) == Ok([TagsLabel])
  {
    NestedByKind(Tags.kind);
    assert IsNestedColumn(Tags) && !IsFlatColumn(Tags) && Expandable(Tags);
    FilterCons(Tags, [], IsFlatColumn);
    FilterCons(Tags, [], IsNestedColumn);
    assert [Tags] + [] == [Tags];
    assert FlatColumns([Tags]) == [] && NestedColumns([Tags]) == [Tags];
    FlattenOk([Tags]);
    assert "tags" + "_" + "label" == "tags_label";
    assert Run(Tags) == [TagsLabel];
    assert Runs([Tags]) == [Run(Tags)] + [];
    ConcatCons(Run(Tags), []);
    assert Flatten([Tags]).value == [] + ([TagsLabel] + []);
    assert Flatten([Tags]).value == [TagsLabel];
  }

  /** Under the unwrap rule the row `{tags: [{label: "x"}]}` becomes
      `{tags_label: ["x"]}`. */
  lemma TagsRow()
    ensures Flattenable([Tags])
    ensures FlattenRow([Cell(Tags, List([Record([Atom("x")])]))]) == [Cell(TagsLabel, List([Atom("x")]))]
  {
    TagsSchema();
    var tags := Cell(Tags, List([Record([Atom("x")])]));
    assert RowSchema([tags]) == [Tags];
    NestedByKind(Tags.kind);
    assert IsNestedCell(tags) && !IsFlatCell(tags);
    FilterCons(tags, [], IsFlatCell);
    FilterCons(tags, [], IsNestedCell);
    assert [tags] + [] == [tags];
    FlattenRowParts([tags]);
    assert "tags" + "_" + "label" == "tags_label";
    assert Project(Tags.kind, tags.val, 0) == List([Atom("x")]);
    assert CellRun(tags) == [Cell(TagsLabel, List([Atom("x")]))];
    assert CellRuns([tags]) == [CellRun(tags)] + [];
    ConcatCons(CellRun(tags), []);
    assert FlattenRow([tags]) == [] + (CellRun(tags) + []);
  }

  const Meta := Field("meta", Struct([]))

  /** A struct with no fields contributes no output column: its data is
      dropped. */
  lemma EmptyStructDropped()
    ensures Flatten([Id, Meta]) == Ok([Id])
  {
    NestedByKind(Id.kind);
    NestedByKind(Meta.kind);
    assert "bigint"[0] != "struct"[0] && "bigint"[0] != "array"[0];
    assert IsFlatColumn(Id) && !IsNestedColumn(Id);
    assert IsNestedColumn(Meta) && !IsFlatColumn(Meta) && Expandable(Meta);
    FilterCons(Id, [Meta], IsFlatColumn);
    FilterCons(Meta, [], IsFlatColumn);
    FilterCons(Id, [Meta], IsNestedColumn);
    FilterCons(Meta, [], IsNestedColumn);
    assert [Id] + [Meta] == [Id, Meta] && [Meta] + [] == [Meta];
    assert FlatColumns([Id, Meta]) == [Id] && NestedColumns([Id, Meta]) == [Meta];
    FlattenOk([Id, Meta]);
    assert Run(Meta) == [];
    assert Runs([Meta]) == [Run(Meta)] + [];
    ConcatCons(Run(Meta), []);
    assert Flatten([Id, Meta]).value == [Id] + ([] + []);
    assert Flatten([Id, Meta]).value == [Id];
  }

  const Nums := Field("nums", Array(Scalar("bigint")))

  /** An array of scalars is nested by its type string but has nothing to
      star-expand: flattening fails on it. */
  lemma ArrayOfScalarsFails()
    ensures Flatten([Id, Nums]) == Err(CannotStarExpand("nums", "array<bigint>"))
  {
    NestedByKind(Id.kind);
    NestedByKind(Nums.kind);
    assert "bigint"[0] != "struct"[0] && "bigint"[0] != "array"[0];
    assert IsFlatColumn(Id) && !IsNestedColumn(Id);
    assert IsNestedColumn(Nums) && !IsFlatColumn(Nums) && !Expandable(Nums);
    FilterCons(Id, [Nums], IsNestedColumn);
    FilterCons(Nums, [], IsNestedColumn);
    assert [Id] + [Nums] == [Id, Nums] && [Nums] + [] == [Nums];
    assert NestedColumns([Id, Nums]) == [Nums];
    FilterCons(Nums, [], NotExpandable);
    assert Filter([Nums], NotExpandable) == [Nums];
    assert Dtype(Nums.kind) == "array<" + "bigint" + ">" == "array<bigint>";
  }

  /** The program as written rejects `tags`: it is nested by its type string,
      and star expansion accepts only a struct. The unwrap rule expands it. */
  lemma TagsRejectedAsWritten()
    ensures IsNestedColumn(Tags) && SparkStarFields(Tags.kind).None?
    ensures StarFields(Tags.kind) == Some([Field("label", Scalar("string"))])
  {
    ArrayColumnsRejected(Tags);
  }
}
