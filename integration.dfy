/** How the pieces meet: a derived `ToRow` impl feeds the statement builders
    through the type-info table, and the `FromRow` impls of nested structs
    read their columns under concatenated prefixes. The structs are those of
    tests/integration.rs. */
module Integration {
  import opened Wrappers
  import opened Syntax
  import ToRowTrait
  import TypeInfo
  import FromRowDeriveToRow
  import MapperFields
  import MapperDeriveFromRow

  /** `sql_types()` of a generated impl: each entry's type resolved through
      the type-info table, paired with its primary-key flag; `None` when a
      type has no impl. */
  function ResolveSqlTypes(entries: seq<FromRowDeriveToRow.SqlTypeEntry>, env: TypeInfo.Env): (r: Option<seq<ToRowTrait.SqlType>>)
    ensures r.Some? <==> forall i | 0 <= i < |entries| :: TypeInfo.Lookup(entries[i].ty, env).Some?
    ensures r.Some? ==> |r.value| == |entries|
    ensures r.Some? ==> forall i | 0 <= i < |entries| ::
              var c := TypeInfo.Lookup(entries[i].ty, env).value;
              r.value[i] == ToRowTrait.SqlType(c.sqliteType, c.optional, entries[i].primaryKey)
  {
    if entries == [] then Some([])
    else
      match TypeInfo.Lookup(entries[0].ty, env)
      case None => None
      case Some(c) =>
        match ResolveSqlTypes(entries[1..], env)
        case None =>
          assert forall i | 0 <= i < |entries| - 1 :: entries[1..][i] == entries[i + 1];
          None
        case Some(rest) =>
          assert forall i | 0 <= i < |entries| - 1 :: entries[1..][i] == entries[i + 1];
          Some([ToRowTrait.SqlType(c.sqliteType, c.optional, entries[0].primaryKey)] + rest)
  }

  /** What the `ToRow` default methods see of a generated impl. */
  function Schema(impl: FromRowDeriveToRow.ToRowImpl, env: TypeInfo.Env): Option<ToRowTrait.TableSchema> {
    match ResolveSqlTypes(impl.sqlTypes, env)
    case None => None
    case Some(types) => Some(ToRowTrait.TableSchema(impl.tableName, impl.columnNames, types))
  }

  /** The CREATE TABLE statement of a derived struct has one definition per
      field, in order: the column name, the storage class, and PRIMARY KEY
      exactly when the field is marked `primary_key`, else NOT NULL exactly
      when its type is not `Option`. */
  lemma DerivedCreateTable(d: FromRowDeriveToRow.DeriveToRow, env: TypeInfo.Env)
    requires FromRowDeriveToRow.Generate(d).Ok?
    requires Schema(FromRowDeriveToRow.Generate(d).value, env).Some?
    ensures var s := Schema(FromRowDeriveToRow.Generate(d).value, env).value;
            var defs := ToRowTrait.ColumnDefinitions(s.columnNames, s.sqlTypes);
            && s.tableName == d.ident
            && |defs| == |d.fields|
            && forall i | 0 <= i < |d.fields| ::
                 var f := d.fields[i];
                 var c := TypeInfo.Lookup(f.ty, env).value;
                 && defs[i] == ToRowTrait.ColumnDefinition(FromRowDeriveToRow.ColumnName(f).value, s.sqlTypes[i])
                 && s.sqlTypes[i].name == c.sqliteType
                 && (s.sqlTypes[i].primaryKey <==> f.primaryKey.Some?)
                 && (s.sqlTypes[i].optional <==> LastSegment(f.ty).Some? && LastSegment(f.ty).value.ident == "Option")
  {
    var impl := FromRowDeriveToRow.Generate(d).value;
    assert ResolveSqlTypes(impl.sqlTypes, env).Some?;
    forall i | 0 <= i < |d.fields|
      ensures TypeInfo.Lookup(d.fields[i].ty, env).Some?
      ensures TypeInfo.Lookup(d.fields[i].ty, env).value.optional <==> LastSegment(d.fields[i].ty).Some? && LastSegment(d.fields[i].ty).value.ident == "Option"
    {
      assert impl.sqlTypes[i].ty == d.fields[i].ty;
      TypeInfo.OptionalExactlyForOption(d.fields[i].ty, env);
    }
  }

  // ---------------------------------------------------------------------
  // `Person` (tests/integration.rs)

  function Person(): FromRowDeriveToRow.DeriveToRow {
    FromRowDeriveToRow.DeriveToRow("Person", [
      FromRowDeriveToRow.ToRowField(Some("id"), Simple("i32"), None, Some(())),
      FromRowDeriveToRow.ToRowField(Some("name"), Simple("String"), None, None),
      FromRowDeriveToRow.ToRowField(Some("data"), Generic("Option", [Generic("Vec", [Simple("u8")])]), None, None)])
  }

  /** The table the `Person` impl describes. */
  function PersonTable(): ToRowTrait.TableSchema {
    ToRowTrait.TableSchema("Person", ["id", "name", "data"],
      [ToRowTrait.SqlType("INTEGER", false, true), ToRowTrait.SqlType("TEXT", false, false), ToRowTrait.SqlType("BLOB", true, false)])
  }

  function PersonData(): Type {
    Generic("Option", [Generic("Vec", [Simple("u8")])])
  }

  /** The lists the derive generates for `Person`. */
  lemma PersonImpl()
    ensures FromRowDeriveToRow.Generate(Person()).Ok?
    ensures FromRowDeriveToRow.Generate(Person()).value.tableName == "Person"
    ensures FromRowDeriveToRow.Generate(Person()).value.columnNames == ["id", "name", "data"]
    ensures FromRowDeriveToRow.Generate(Person()).value.sqlTypes == [
              FromRowDeriveToRow.SqlTypeEntry(Simple("i32"), true),
              FromRowDeriveToRow.SqlTypeEntry(Simple("String"), false),
              FromRowDeriveToRow.SqlTypeEntry(PersonData(), false)]
  {
  }

  /** `i32` is INTEGER, `String` TEXT and `Option<Vec<u8>>` a nullable BLOB. */
  lemma PersonLookups(env: TypeInfo.Env)
    ensures TypeInfo.Lookup(Simple("i32"), env) == Some(TypeInfo.ColumnType("INTEGER", false))
    ensures TypeInfo.Lookup(Simple("String"), env) == Some(TypeInfo.ColumnType("TEXT", false))
    ensures TypeInfo.Lookup(PersonData(), env) == Some(TypeInfo.ColumnType("BLOB", true))
  {
    TypeInfo.BuiltinRows("i32", env);
    TypeInfo.BuiltinRows("String", env);
    TypeInfo.WrappersForward("Option", Generic("Vec", [Simple("u8")]), env);
  }

  /** `Person`'s derived impl describes `PersonTable()`, whatever the
      enabled features and user types. */
  lemma PersonSchema(env: TypeInfo.Env)
    ensures FromRowDeriveToRow.Generate(Person()).Ok?
    ensures Schema(FromRowDeriveToRow.Generate(Person()).value, env) == Some(PersonTable())
  {
    PersonImpl();
    PersonLookups(env);
    var entries := FromRowDeriveToRow.Generate(Person()).value.sqlTypes;
    var r := ResolveSqlTypes(entries, env);
    assert r.Some?;
    assert r.value == PersonTable().sqlTypes;
  }

  /** Solver aid, modelling nothing: the three definitions, assembled from
      their parts, kept apart so that each literal equality is proved once. */
  lemma PersonDefinitionTexts()
    ensures "id" + " " + "INTEGER" + " PRIMARY KEY" == "id INTEGER PRIMARY KEY"
    ensures "name" + " " + "TEXT" + " NOT NULL" == "name TEXT NOT NULL"
    ensures "data" + " " + "BLOB" + "" == "data BLOB"
  {
  }

  /** `Person`'s column definitions. */
  lemma PersonDefinitions()
    ensures ToRowTrait.ColumnDefinitions(PersonTable().columnNames, PersonTable().sqlTypes)
            == ["id INTEGER PRIMARY KEY", "name TEXT NOT NULL", "data BLOB"]
  {
    var s := PersonTable();
    var defs := ToRowTrait.ColumnDefinitions(s.columnNames, s.sqlTypes);
    PersonDefinitionTexts();
    assert |defs| == 3;
    assert defs[0] == "id INTEGER PRIMARY KEY";
    assert defs[1] == "name TEXT NOT NULL";
    assert defs[2] == "data BLOB";
  }

  /** Solver aid, modelling nothing: the head of the CREATE TABLE text, up to
      the first definition. */
  lemma PersonCreateTableHead()
    ensures "CREATE TABLE " + "Person" + " (" == "CREATE TABLE Person ("
    ensures "CREATE TABLE Person (" + ("id INTEGER PRIMARY KEY" + ", ") == "CREATE TABLE Person (id INTEGER PRIMARY KEY, "
  {
  }

  /** Solver aid, modelling nothing: the CREATE TABLE text after the second
      definition. */
  lemma PersonCreateTableMiddle()
    ensures "CREATE TABLE Person (id INTEGER PRIMARY KEY, " + ("name TEXT NOT NULL" + ", ")
            == "CREATE TABLE Person (id INTEGER PRIMARY KEY, name TEXT NOT NULL, "
  {
  }

  /** Solver aid, modelling nothing: the whole CREATE TABLE text. */
  lemma PersonCreateTableEnd()
    ensures "CREATE TABLE Person (id INTEGER PRIMARY KEY, name TEXT NOT NULL, " + ("data BLOB" + ")")
            == "CREATE TABLE Person (id INTEGER PRIMARY KEY, name TEXT NOT NULL, data BLOB)"
  {
  }

  /** The CREATE TABLE statement the test executes for `Person`. */
  lemma PersonCreateTable()
    ensures ToRowTrait.CreateTableSql(PersonTable()) == "CREATE TABLE Person (id INTEGER PRIMARY KEY, name TEXT NOT NULL, data BLOB)"
  {
    var s := PersonTable();
    PersonDefinitions();
    var defs := ToRowTrait.ColumnDefinitions(s.columnNames, s.sqlTypes);
    assert defs[1..][1..] == [defs[2]];
    PersonCreateTableHead();
    PersonCreateTableMiddle();
    PersonCreateTableEnd();
    var d0, d1, d2 := defs[0], defs[1], defs[2];
    var head := "CREATE TABLE " + s.tableName + " (";
    calc {
      ToRowTrait.CreateTableSql(s);
      head + (d0 + ", " + (d1 + ", " + d2)) + ")";
      head + (d0 + ", ") + (d1 + ", ") + (d2 + ")");
    }
  }

  /** Solver aid, modelling nothing: the INSERT text, assembled from the
      statement's parts. */
  lemma PersonInsertText()
    ensures "INSERT INTO " + "Person" + " (" + "id, name, data" == "INSERT INTO Person (id, name, data"
    ensures "INSERT INTO Person (id, name, data" + ") VALUES (" + "?, ?, ?" + ")"
            == "INSERT INTO Person (id, name, data) VALUES (?, ?, ?)"
  {
  }

  /** The INSERT statement the test executes for `Person`. */
  lemma PersonInsert()
    ensures ToRowTrait.InsertSql(PersonTable()) == "INSERT INTO Person (id, name, data) VALUES (?, ?, ?)"
  {
    var s := PersonTable();
    assert ToRowTrait.Join(s.columnNames, ", ") == "id, name, data" by {
      assert s.columnNames[1..][1..] == ["data"];
      assert ToRowTrait.Join(s.columnNames[1..], ", ") == "name, data";
    }
    var marks := ToRowTrait.Placeholders(3);
    assert ToRowTrait.Join(marks, ", ") == "?, ?, ?" by {
      assert marks == ["?", "?", "?"];
      assert marks[1..][1..] == ["?"];
      assert ToRowTrait.Join(marks[1..], ", ") == "?, ?";
    }
    PersonInsertText();
  }

  // ---------------------------------------------------------------------
  // `Todo`, `User` and `Role` (tests/integration.rs)

  function ColumnField(ident: string, ty: Type): MapperFields.SqliteField {
    MapperFields.SqliteField(Some(ident), ty, false, None, None, None, None, None, None, None)
  }

  function FlattenField(ident: string, ty: Type, prefix: string): MapperFields.SqliteField {
    MapperFields.SqliteField(Some(ident), ty, true, Some(prefix), None, None, None, None, None, None)
  }

  function Role(): MapperFields.DeriveInput {
    MapperFields.DeriveInput("Role", [ColumnField("id", Simple("i32")), ColumnField("kind", Simple("String"))])
  }

  function User(): MapperFields.DeriveInput {
    MapperFields.DeriveInput("User", [
      ColumnField("id", Simple("i32")),
      ColumnField("name", Simple("String")),
      FlattenField("role", OptionalRole(), "role_")])
  }

  function Todo(): MapperFields.DeriveInput {
    MapperFields.DeriveInput("Todo", [
      ColumnField("id", Simple("i32")),
      ColumnField("text", Simple("String")),
      FlattenField("author", Simple("User"), "author_"),
      FlattenField("editor", Simple("User"), "editor_")])
  }

  function OptionalRole(): Type {
    Generic("Option", [Simple("Role")])
  }

  function ColumnInit(ident: string, ty: Type): MapperDeriveFromRow.FieldInit {
    MapperDeriveFromRow.FieldInit(ident, MapperDeriveFromRow.Converted(
      MapperDeriveFromRow.ColumnRead(ident, MapperDeriveFromRow.FieldTarget(ty)), MapperDeriveFromRow.Direct))
  }

  function NestedInit(ident: string, ty: Type, prefix: string): MapperDeriveFromRow.FieldInit {
    MapperDeriveFromRow.FieldInit(ident, MapperDeriveFromRow.Converted(
      MapperDeriveFromRow.NestedRead(MapperDeriveFromRow.FieldTarget(ty), MapperDeriveFromRow.Extended(prefix)), MapperDeriveFromRow.Direct))
  }

  /** A field with an identifier and none of `skip`, `from`, `try_from`
      or `rename`. */
  predicate Plain(f: MapperFields.SqliteField) {
    f.ident.Some? && f.skip.None? && f.from.None? && f.tryFrom.None? && f.rename.None?
  }

  /** What such a field's initialiser is: a nested or a column read of its
      own type, without conversion. */
  function PlainInit(f: MapperFields.SqliteField): MapperDeriveFromRow.FieldInit
    requires Plain(f)
  {
    var read := if f.flatten then MapperDeriveFromRow.NestedRead(MapperDeriveFromRow.FieldTarget(f.ty), MapperDeriveFromRow.PrefixArgOf(f))
                else MapperDeriveFromRow.ColumnRead(f.ident.value, MapperDeriveFromRow.FieldTarget(f.ty));
    MapperDeriveFromRow.FieldInit(f.ident.value, MapperDeriveFromRow.Converted(read, MapperDeriveFromRow.Direct))
  }

  /** A struct of plain fields always derives, and field i is initialised
      by `PlainInit`. */
  lemma PlainFieldsGenerate(d: MapperFields.DeriveInput)
    requires forall i | 0 <= i < |d.fields| :: Plain(d.fields[i])
    ensures MapperDeriveFromRow.Generated(d).Ok?
    ensures |MapperDeriveFromRow.Generated(d).value.fields| == |d.fields|
    ensures forall i | 0 <= i < |d.fields| :: MapperDeriveFromRow.Generated(d).value.fields[i] == PlainInit(d.fields[i])
  {
    MapperFields.UnskippedAll(d.fields);
    MapperDeriveFromRow.GeneratedSucceeds(d);
    MapperDeriveFromRow.GeneratedShape(d);
  }

  /** Every field of `Role` is plain, and what each one reads. */
  lemma RoleFieldsPlain()
    ensures forall i | 0 <= i < |Role().fields| :: Plain(Role().fields[i])
    ensures PlainInit(Role().fields[0]) == ColumnInit("id", Simple("i32"))
    ensures PlainInit(Role().fields[1]) == ColumnInit("kind", Simple("String"))
  {
    var fs := Role().fields;
    assert Plain(fs[0]) && Plain(fs[1]);
  }

  /** `Role` reads its two columns by name. */
  lemma RoleInits()
    ensures MapperDeriveFromRow.Generated(Role()).Ok?
    ensures MapperDeriveFromRow.Generated(Role()).value.fields == RoleInitList()
  {
    RoleFieldsPlain();
    PlainFieldsGenerate(Role());
    var g := MapperDeriveFromRow.Generated(Role()).value.fields;
    assert g == [g[0], g[1]];
  }

  /** Every field of `User` is plain, and what each one reads. */
  lemma UserFieldsPlain()
    ensures forall i | 0 <= i < |User().fields| :: Plain(User().fields[i])
    ensures PlainInit(User().fields[0]) == ColumnInit("id", Simple("i32"))
    ensures PlainInit(User().fields[1]) == ColumnInit("name", Simple("String"))
    ensures PlainInit(User().fields[2]) == NestedInit("role", OptionalRole(), "role_")
  {
    var fs := User().fields;
    assert Plain(fs[0]) && Plain(fs[1]) && Plain(fs[2]);
  }

  /** `User` reads two columns and its role through `Option<Role>`'s impl
      under `role_`. */
  lemma UserInits()
    ensures MapperDeriveFromRow.Generated(User()).Ok?
    ensures MapperDeriveFromRow.Generated(User()).value.fields == UserInitList()
  {
    UserFieldsPlain();
    PlainFieldsGenerate(User());
    var g := MapperDeriveFromRow.Generated(User()).value.fields;
    assert g == [g[0], g[1], g[2]];
  }

  /** Every field of `Todo` is plain, and what each one reads. */
  lemma TodoFieldsPlain()
    ensures forall i | 0 <= i < |Todo().fields| :: Plain(Todo().fields[i])
    ensures PlainInit(Todo().fields[0]) == ColumnInit("id", Simple("i32"))
    ensures PlainInit(Todo().fields[1]) == ColumnInit("text", Simple("String"))
    ensures PlainInit(Todo().fields[2]) == NestedInit("author", Simple("User"), "author_")
    ensures PlainInit(Todo().fields[3]) == NestedInit("editor", Simple("User"), "editor_")
  {
    var fs := Todo().fields;
    assert Plain(fs[0]) && Plain(fs[1]) && Plain(fs[2]) && Plain(fs[3]);
  }

  /** `Todo` reads two columns and two users, under `author_` and `editor_`. */
  lemma TodoInits()
    ensures MapperDeriveFromRow.Generated(Todo()).Ok?
    ensures MapperDeriveFromRow.Generated(Todo()).value.fields == TodoInitList()
  {
    TodoFieldsPlain();
    PlainFieldsGenerate(Todo());
    var g := MapperDeriveFromRow.Generated(Todo()).value.fields;
    assert g == [g[0], g[1], g[2], g[3]];
  }

  function RolePlan(): MapperDeriveFromRow.Plan {
    MapperDeriveFromRow.Column("id", MapperDeriveFromRow.Column("kind", MapperDeriveFromRow.Done))
  }

  function UserPlan(): MapperDeriveFromRow.Plan {
    MapperDeriveFromRow.Column("id", MapperDeriveFromRow.Column("name",
      MapperDeriveFromRow.Nested(MapperDeriveFromRow.Extended("role_"), RolePlan(), MapperDeriveFromRow.Done)))
  }

  function TodoPlan(): MapperDeriveFromRow.Plan {
    MapperDeriveFromRow.Column("id", MapperDeriveFromRow.Column("text",
      MapperDeriveFromRow.Nested(MapperDeriveFromRow.Extended("author_"), UserPlan(),
        MapperDeriveFromRow.Nested(MapperDeriveFromRow.Extended("editor_"), UserPlan(), MapperDeriveFromRow.Done))))
  }

  /** A column read adds its column in front of the rest of the plan. */
  lemma ColumnInitPlan(ident: string, ty: Type, rest: seq<MapperDeriveFromRow.FieldInit>, impls: map<MapperDeriveFromRow.Target, MapperDeriveFromRow.Plan>)
    ensures MapperDeriveFromRow.PlanOf([ColumnInit(ident, ty)] + rest, impls) == MapperDeriveFromRow.Column(ident, MapperDeriveFromRow.PlanOf(rest, impls))
  {
    assert ([ColumnInit(ident, ty)] + rest)[1..] == rest;
  }

  /** A nested read of a known type runs that type's plan under its prefix. */
  lemma NestedInitPlan(ident: string, ty: Type, prefix: string, rest: seq<MapperDeriveFromRow.FieldInit>,
                       impls: map<MapperDeriveFromRow.Target, MapperDeriveFromRow.Plan>)
    requires MapperDeriveFromRow.FieldTarget(ty) in impls
    ensures MapperDeriveFromRow.PlanOf([NestedInit(ident, ty, prefix)] + rest, impls)
            == MapperDeriveFromRow.Nested(MapperDeriveFromRow.Extended(prefix), impls[MapperDeriveFromRow.FieldTarget(ty)], MapperDeriveFromRow.PlanOf(rest, impls))
  {
    assert ([NestedInit(ident, ty, prefix)] + rest)[1..] == rest;
  }

  function RoleInitList(): seq<MapperDeriveFromRow.FieldInit> {
    [ColumnInit("id", Simple("i32")), ColumnInit("kind", Simple("String"))]
  }

  function UserInitList(): seq<MapperDeriveFromRow.FieldInit> {
    [ColumnInit("id", Simple("i32")), ColumnInit("name", Simple("String")), NestedInit("role", OptionalRole(), "role_")]
  }

  function TodoInitList(): seq<MapperDeriveFromRow.FieldInit> {
    [ColumnInit("id", Simple("i32")), ColumnInit("text", Simple("String")),
     NestedInit("author", Simple("User"), "author_"), NestedInit("editor", Simple("User"), "editor_")]
  }

  /** `Role`'s initialisers read its two columns. */
  lemma RoleInitPlan()
    ensures MapperDeriveFromRow.PlanOf(RoleInitList(), map[]) == RolePlan()
  {
    var c0, c1 := ColumnInit("id", Simple("i32")), ColumnInit("kind", Simple("String"));
    assert RoleInitList() == [c0] + ([c1] + []);
    ColumnInitPlan("kind", Simple("String"), [], map[]);
    ColumnInitPlan("id", Simple("i32"), [c1], map[]);
  }

  /** `User`'s initialisers read two columns, then `Role` under `role_`. */
  lemma UserInitPlan()
    ensures MapperDeriveFromRow.PlanOf(UserInitList(), map[MapperDeriveFromRow.FieldTarget(OptionalRole()) := RolePlan()]) == UserPlan()
  {
    var impls := map[MapperDeriveFromRow.FieldTarget(OptionalRole()) := RolePlan()];
    var c0, c1 := ColumnInit("id", Simple("i32")), ColumnInit("name", Simple("String"));
    var n2 := NestedInit("role", OptionalRole(), "role_");
    assert UserInitList() == [c0] + ([c1] + ([n2] + []));
    NestedInitPlan("role", OptionalRole(), "role_", [], impls);
    ColumnInitPlan("name", Simple("String"), [n2], impls);
    ColumnInitPlan("id", Simple("i32"), [c1, n2], impls);
  }

  /** `Todo`'s initialisers read two columns, then `User` twice. */
  lemma TodoInitPlan()
    ensures MapperDeriveFromRow.PlanOf(TodoInitList(), map[MapperDeriveFromRow.FieldTarget(Simple("User")) := UserPlan()]) == TodoPlan()
  {
    var impls := map[MapperDeriveFromRow.FieldTarget(Simple("User")) := UserPlan()];
    var c0, c1 := ColumnInit("id", Simple("i32")), ColumnInit("text", Simple("String"));
    var n2, n3 := NestedInit("author", Simple("User"), "author_"), NestedInit("editor", Simple("User"), "editor_");
    assert TodoInitList() == [c0] + ([c1] + ([n2] + ([n3] + [])));
    NestedInitPlan("editor", Simple("User"), "editor_", [], impls);
    NestedInitPlan("author", Simple("User"), "author_", [n3], impls);
    ColumnInitPlan("text", Simple("String"), [n2, n3], impls);
    ColumnInitPlan("id", Simple("i32"), [c1, n2, n3], impls);
  }

  /** The generated `Role` impl reads its two columns. */
  lemma RoleReads()
    ensures MapperDeriveFromRow.Generated(Role()).Ok?
    ensures MapperDeriveFromRow.PlanOf(MapperDeriveFromRow.Generated(Role()).value.fields, map[]) == RolePlan()
  {
    RoleInits();
    RoleInitPlan();
  }

  /** The generated `User` impl reads `UserPlan()`, when the `FromRow` impl
      of `Option<Role>` is taken to read `Role`'s plan (that impl is not
      generated by a derive). */
  lemma UserReads()
    ensures MapperDeriveFromRow.Generated(User()).Ok?
    ensures MapperDeriveFromRow.PlanOf(MapperDeriveFromRow.Generated(User()).value.fields,
              map[MapperDeriveFromRow.FieldTarget(OptionalRole()) := RolePlan()]) == UserPlan()
  {
    UserInits();
    UserInitPlan();
  }

  /** The generated `Todo` impl, run with `User`'s plan, reads `TodoPlan()`. */
  lemma TodoReads()
    ensures MapperDeriveFromRow.Generated(Todo()).Ok?
    ensures MapperDeriveFromRow.PlanOf(MapperDeriveFromRow.Generated(Todo()).value.fields,
              map[MapperDeriveFromRow.FieldTarget(Simple("User")) := UserPlan()]) == TodoPlan()
  {
    TodoInits();
    TodoInitPlan();
  }

  /** `Role` read under a prefix. */
  lemma RoleKeys(o: Option<string>)
    ensures MapperDeriveFromRow.Keys(RolePlan(), o) == [o.GetOr("") + "id", o.GetOr("") + "kind"]
  {
    assert MapperDeriveFromRow.Keys(MapperDeriveFromRow.Column("kind", MapperDeriveFromRow.Done), o) == [o.GetOr("") + "kind"];
  }

  /** `User` read under a prefix: its role's columns carry `role_` after it. */
  lemma UserKeys(o: Option<string>)
    ensures MapperDeriveFromRow.Keys(UserPlan(), o) ==
              [o.GetOr("") + "id", o.GetOr("") + "name", o.GetOr("") + "role_id", o.GetOr("") + "role_kind"]
  {
    var p := MapperDeriveFromRow.EffectivePrefix(o, MapperDeriveFromRow.Extended("role_"));
    RoleKeys(p);
    assert o.GetOr("") + "role_" + "id" == o.GetOr("") + "role_id";
    assert o.GetOr("") + "role_" + "kind" == o.GetOr("") + "role_kind";
    var nested := MapperDeriveFromRow.Nested(MapperDeriveFromRow.Extended("role_"), RolePlan(), MapperDeriveFromRow.Done);
    assert MapperDeriveFromRow.Keys(nested, o) == [o.GetOr("") + "role_id", o.GetOr("") + "role_kind"];
  }

  /** `User` read under `author_` and under `editor_`: the aliases the
      test's SELECT gives the two users' columns. */
  lemma AuthorEditorKeys()
    ensures MapperDeriveFromRow.Keys(UserPlan(), Some("author_")) == ["author_id", "author_name", "author_role_id", "author_role_kind"]
    ensures MapperDeriveFromRow.Keys(UserPlan(), Some("editor_")) == ["editor_id", "editor_name", "editor_role_id", "editor_role_kind"]
  {
    UserKeys(Some("author_"));
    assert "author_" + "id" == "author_id" && "author_" + "name" == "author_name";
    assert "author_" + "role_id" == "author_role_id" && "author_" + "role_kind" == "author_role_kind";
    UserKeys(Some("editor_"));
    assert "editor_" + "id" == "editor_id" && "editor_" + "name" == "editor_name";
    assert "editor_" + "role_id" == "editor_role_id" && "editor_" + "role_kind" == "editor_role_kind";
  }

  /** The keys `TodoPlan()` reads with no outer prefix. */
  lemma TodoPlanKeys()
    ensures MapperDeriveFromRow.Keys(TodoPlan(), None) ==
              ["id", "text", "author_id", "author_name", "author_role_id", "author_role_kind",
               "editor_id", "editor_name", "editor_role_id", "editor_role_kind"]
  {
    assert "" + "author_" == "author_" && "" + "editor_" == "editor_";
    AuthorEditorKeys();
    var a := ["author_id", "author_name", "author_role_id", "author_role_kind"];
    var e := ["editor_id", "editor_name", "editor_role_id", "editor_role_kind"];
    var rest := MapperDeriveFromRow.Nested(MapperDeriveFromRow.Extended("editor_"), UserPlan(), MapperDeriveFromRow.Done);
    assert MapperDeriveFromRow.Keys(rest, None) == e;
    var tail := MapperDeriveFromRow.Nested(MapperDeriveFromRow.Extended("author_"), UserPlan(), rest);
    assert MapperDeriveFromRow.Keys(tail, None) == a + e;
    assert MapperDeriveFromRow.ColumnKey(None, "id") == "id" && MapperDeriveFromRow.ColumnKey(None, "text") == "text";
    assert MapperDeriveFromRow.Keys(MapperDeriveFromRow.Column("text", tail), None) == ["text"] + a + e;
  }

  /** The column keys `Todo::try_from_row` reads are the aliases of the
      test's SELECT: nested prefixes concatenate. As in `UserReads`,
      `Option<Role>` is taken to read `Role`'s plan. */
  lemma TodoColumnKeys()
    ensures MapperDeriveFromRow.Generated(Role()).Ok?
    ensures MapperDeriveFromRow.Generated(User()).Ok?
    ensures MapperDeriveFromRow.Generated(Todo()).Ok?
    ensures
      var role := MapperDeriveFromRow.PlanOf(MapperDeriveFromRow.Generated(Role()).value.fields, map[]);
      var user := MapperDeriveFromRow.PlanOf(MapperDeriveFromRow.Generated(User()).value.fields,
                    map[MapperDeriveFromRow.FieldTarget(OptionalRole()) := role]);
      var todo := MapperDeriveFromRow.PlanOf(MapperDeriveFromRow.Generated(Todo()).value.fields,
                    map[MapperDeriveFromRow.FieldTarget(Simple("User")) := user]);
      MapperDeriveFromRow.Keys(todo, None) ==
        ["id", "text", "author_id", "author_name", "author_role_id", "author_role_kind",
         "editor_id", "editor_name", "editor_role_id", "editor_role_kind"]
  {
    RoleReads();
    UserReads();
    TodoReads();
    TodoPlanKeys();
  }
}
