# rusqlite-mapper, modelled in Dafny

rusqlite-mapper maps Rust structs to SQLite rows. It has two parts:

- **Procedural macros.** `ToRow` turns a struct into parameters and statements. `FromRow` reads a struct back from a row, including nested ("flattened") structs under column prefixes. `SqliteValue` stores a type as TEXT.
- **The `ToRow` trait.** Its default methods build the `CREATE TABLE`, `INSERT` and upsert statements from what a derived impl supplies.

The model keeps the decision logic and leaves out the tokens. A Rust type is a path of segments with generic arguments, or some other shape. A field is a record of its attribute options. What a derive generates is kept as values, not as source text:

- parameter types and expressions;
- column names and `(type, primary key)` entries;
- where-clause bounds;
- null tests and field initialisers.

The modules are:

- `Wrappers`: Option, Result, and the three kinds of failure a derive can end with. A failure is a panic in the macro, a compile error it reports, or an attribute string that does not tokenize.
- `Syntax`: types as the derives see them.
- `ToRowTrait`: the statement builders of src/to_row.rs. They are methods that push onto one string, each proved equal to a specification function. Lemmas then show the following:
  - the column and placeholder lists read back exactly;
  - there is one `?` per column;
  - an upsert extends the insert;
  - PRIMARY KEY wins over NOT NULL.
- `TypeInfo`: the `SqliteTypeInfo` impl table of src/to_row.rs, as a lookup on type syntax.
- `FromRowDeriveToRow`: the `ToRow` derive of the rusqlite-from-row-derive crate.
- `MapperFields`: the field attribute record of rusqlite-mapper-derive.
- `MapperDeriveToRow`, `MapperDeriveFromRow` and `MapperDeriveSqliteValue`: the three derives of rusqlite-mapper-derive.
  - `validate` and `predicates` loop over the fields and return early. Their loops are the methods `ValidateFields` and `PredicatesOf`, with loop invariants, proved against back-recursive specification functions; `Validate` and `Predicates` call them on the fields without `skip`.
  - `add_predicates` pushes onto a vector. It is a method without a loop, proved against the function that gives one field's bounds.
- `Integration`: how the pieces connect.
  - A derived impl feeds the statement builders through the type table.
  - Nested `FromRow` impls read their columns under concatenated prefixes.
  - The structs and SQL of tests/integration.rs are worked out in full.

## Model

| member | source | states |
|---|---|---|
| Wrappers.Collect | rusqlite-mapper-derive/src/derive_from_row.rs:78-82 | collecting into `Result<Vec<_>>` succeeds iff every element does, keeps their order and count, and otherwise yields the first failure |
| Syntax.LastSegment | rusqlite-from-row-derive/src/derive_to_row.rs:138-146 | the last segment exists exactly for a path type with segments, and is its final segment |
| ToRowTrait.ColumnDefinitions | src/to_row.rs:20-36 | names and types are zipped: as many definitions as the shorter list, definition i built from name i and type i |
| ToRowTrait.CreateTableStatement | src/to_row.rs:16-40 | the pushed string is `CREATE TABLE <table> (<definitions joined by ", ">)` |
| ToRowTrait.InsertStmt | src/to_row.rs:42-57 | the pushed string is `INSERT INTO <table> (<columns>) VALUES (<one ? per column>)` |
| ToRowTrait.UpsertStmt | src/to_row.rs:59-77 | the insert statement is a prefix of the result, which continues with the conflict clause and the assignments |
| ToRowTrait.SplitJoin | src/to_row.rs:35-36 | a list joined with ", " reads back as exactly its entries, in order, when no entry is empty or holds a comma |
| ToRowTrait.PlaceholderCount | src/to_row.rs:48-54 | the values list of n columns holds exactly n `?` |
| ToRowTrait.InsertPlaceholderCount | src/to_row.rs:42-57 | when no name contains `?`, the insert statement holds exactly one `?` per column |
| ToRowTrait.InsertLists | src/to_row.rs:42-57 | the column list of an insert reads back as the column names, and its values list as one `?` per column |
| ToRowTrait.UpsertExtendsInsert | src/to_row.rs:59-77 | the upsert starts with the insert, the rest is the conflict clause on `id`, and its update list reads back as `c = excluded.c` for every column c, in order |
| ToRowTrait.CreateTableColumns | src/to_row.rs:16-40 | the column list of CREATE TABLE reads back as exactly the zipped definitions |
| ToRowTrait.ColumnConstraint | src/to_row.rs:24-33 | a key column ends in PRIMARY KEY whatever its optional flag, a required non-key column in NOT NULL, an optional non-key column in nothing |
| ToRowTrait.DefinitionDeterminesConstraint | src/to_row.rs:24-33 | two definitions with the same text, name and type agree on the key flag, and on the optional flag for non-key columns |
| ToRowTrait.KeyColumnNotNullFree | src/to_row.rs:28-32 | a primary-key column's definition never ends in NOT NULL |
| TypeInfo.SoleTypeArgument | src/to_row.rs:94-101 | a position is found exactly when the segment's angle-bracketed arguments hold one type argument beside only lifetimes and other non-type arguments, and it is that argument's position |
| TypeInfo.ScalarType | src/to_row.rs:103-144 | an identifier a row claims (built-in, or feature-gated with its feature on) reports one of the five storage classes, integers INTEGER and String/str TEXT; any other identifier reports exactly the user's impl, or nothing |
| TypeInfo.RowsBeatUserImpls | src/to_row.rs:103-144 | what an identifier claimed by a row reports does not depend on the user's impls, so a user impl never overrides a row |
| TypeInfo.FeatureRows | src/to_row.rs:124-144 | with its feature on, serde `Value`, chrono `NaiveDate`/`NaiveTime`/`NaiveDateTime`, `Url` and `Uuid` are NOT NULL TEXT, whatever the user's impls |
| TypeInfo.DateTimeRows | src/to_row.rs:135-138 | with chrono on, `DateTime<Utc>` and `DateTime<FixedOffset>` are NOT NULL TEXT; without chrono, `DateTime` has no impl |
| TypeInfo.Lookup | src/to_row.rs:83-144 | the only non-path types with an impl are byte arrays and slices (BLOB); a path type has one only through its last segment: a wrapper, `Vec`, `DateTime`, or an argument-free identifier with a row |
| TypeInfo.StorageClassOnly | src/to_row.rs:94-123 | every type with an impl reports one of NULL, INTEGER, REAL, TEXT or BLOB, provided user impls do |
| TypeInfo.OptionalExactlyForOption | src/to_row.rs:83-101 | `optional()` is true exactly when the outermost type is `Option` |
| TypeInfo.WrappersForward | src/to_row.rs:94-101 | `Option<T>`, `Box<T>`, `Rc<T>`, `Arc<T>` and `Cow<T>` report T's storage class; only `Option` is optional; a lifetime before the type argument (`Cow<'a, T>`) changes nothing |
| TypeInfo.BuiltinRows | src/to_row.rs:103-123 | integers and bool are INTEGER, f32/f64 REAL, String/str TEXT, Null NULL, and `Vec<u8>`, `[u8]`, `[u8; N]` BLOB, all non-optional |
| FromRowDeriveToRow.TypeToParamTy | rusqlite-from-row-derive/src/derive_to_row.rs:195-260 | by value exactly for a one-segment primitive path; a slice of the first argument for a path ending in `Vec<T>`, panicking when there is none or it is not a type; a reference for any other path; unchanged for a non-path type |
| FromRowDeriveToRow.ParamTyOf | rusqlite-from-row-derive/src/derive_to_row.rs:127-129 | a field's parameter type is by value exactly for a one-segment primitive type, and panics only for a `Vec` path (the full classification is `TypeToParamTy`) |
| FromRowDeriveToRow.ParamRefOf | rusqlite-from-row-derive/src/derive_to_row.rs:131-172 | `()` exactly for an unnamed field, `self.f` exactly when the last path segment is a primitive, `&self.f` otherwise |
| FromRowDeriveToRow.ColumnName | rusqlite-from-row-derive/src/derive_to_row.rs:183-188 | the `rename` value, else the identifier; a panic exactly when both are missing |
| FromRowDeriveToRow.IsPrimaryKey | rusqlite-from-row-derive/src/derive_to_row.rs:190-192 | true exactly when `primary_key` is present |
| FromRowDeriveToRow.Generate | rusqlite-from-row-derive/src/derive_to_row.rs:34-108 | succeeds iff every field has a parameter type and a column name; the table is the struct identifier; the four lists have one entry per field, entry i describing field i |
| FromRowDeriveToRow.PassingModesAgree | rusqlite-from-row-derive/src/derive_to_row.rs:127-172 | the parameter type and expression agree on passing by value exactly for path types that are not multi-segment paths ending in a primitive |
| FromRowDeriveToRow.PassingModeMismatches | rusqlite-from-row-derive/src/derive_to_row.rs:138-169 | `std::primitive::i32` gets a reference type but a by-value expression; `[u8; 16]` a by-value type but a reference |
| MapperFields.ColumnName | rusqlite-mapper-derive/src/fields.rs:43-48 | the `rename` value, else the identifier; an unwrap panic exactly when both are missing |
| MapperFields.IsPrimaryKey | rusqlite-mapper-derive/src/fields.rs:50-52 | true exactly when `primary_key` is present |
| MapperFields.Fields | rusqlite-mapper-derive/src/derive_to_row.rs:31-40 | `fields()` of both derives (derive_from_row.rs:50-59 is the same filter): a field is kept exactly when it is in the struct and has no `skip` |
| MapperFields.Unskipped | rusqlite-mapper-derive/src/derive_to_row.rs:31-40 | the kept fields are no more than the given ones, and none of them is skipped |
| MapperFields.UnskippedConcat | rusqlite-mapper-derive/src/derive_to_row.rs:31-40 | filtering distributes over concatenation, so the kept fields keep their order |
| MapperFields.UnskippedSingle | rusqlite-mapper-derive/src/derive_to_row.rs:36 | one field is kept exactly when it has no `skip` |
| MapperFields.UnskippedAll | rusqlite-mapper-derive/src/derive_to_row.rs:31-40 | with no `skip` anywhere, every field is kept, in order |
| MapperFields.UnskippedMembers | rusqlite-mapper-derive/src/derive_from_row.rs:50-59 | a field is kept exactly when it is in the struct and has no `skip` |
| MapperDeriveToRow.TypeToParamTy | rusqlite-mapper-derive/src/derive_to_row.rs:175-229 | forced: the type unchanged; otherwise by value exactly for one-segment primitives, unchanged exactly for non-path types, a reference exactly for other non-`Vec` paths; an error only for an unforced `Vec` |
| MapperDeriveToRow.ParamTy | rusqlite-mapper-derive/src/derive_to_row.rs:122-124 | with `value`, the field's type unchanged; without it, exactly the rusqlite-from-row-derive crate's parameter type |
| MapperDeriveToRow.ParamRef | rusqlite-mapper-derive/src/derive_to_row.rs:127-172 | `()` exactly for an unnamed field; `self.f` with `value`; otherwise `self.f` exactly for a primitive last segment |
| MapperDeriveToRow.Generate | rusqlite-mapper-derive/src/derive_to_row.rs:43-117 | succeeds iff every kept field has a parameter type and a column name; the table is the snake-case identifier; the four lists have one entry per kept field, entry i describing kept field i |
| MapperDeriveToRow.AgreesWithFromRowCrate | rusqlite-mapper-derive/src/derive_to_row.rs:120-172 | without `value`, a field is passed exactly as the rusqlite-from-row-derive crate passes it |
| MapperDeriveToRow.ValueAttributePassesByValue | rusqlite-mapper-derive/src/derive_to_row.rs:122-138 | with `value`, the parameter type is the field type unchanged and the expression is `self.f`, both by value |
| MapperDeriveToRow.SkippedFieldIsInvisible | rusqlite-mapper-derive/src/derive_to_row.rs:31-40 | inserting a skipped field anywhere leaves the generated impl unchanged |
| MapperDeriveFromRow.ValidateField | rusqlite-mapper-derive/src/derive_from_row.rs:115-131 | fails iff `from` meets `try_from` or `rename` meets `flatten`, with the first rule's message taking precedence |
| MapperDeriveFromRow.ValidateAll | rusqlite-mapper-derive/src/derive_from_row.rs:30-36 | succeeds iff every field validates; otherwise it is the error of the first failing field |
| MapperDeriveFromRow.ValidateAllStopsAtError | rusqlite-mapper-derive/src/derive_from_row.rs:30-36 | once a prefix of the fields fails, later fields do not change the error |
| MapperDeriveFromRow.Validate | rusqlite-mapper-derive/src/derive_from_row.rs:30-36 | the loop over kept fields with early return yields `ValidateAll` of the kept fields |
| MapperDeriveFromRow.ValidateFields | rusqlite-mapper-derive/src/derive_from_row.rs:30-36 | the loop with early return over the given fields yields `ValidateAll` of them: the first field's error, or success |
| MapperDeriveFromRow.TargetTy | rusqlite-mapper-derive/src/derive_from_row.rs:135-143 | `from` if present, else `try_from`, else the field type; a string that does not tokenize is an error |
| MapperDeriveFromRow.FieldBounds | rusqlite-mapper-derive/src/derive_from_row.rs:176-198 | fails exactly with the target's error; otherwise 1 + (1 for `from`, 3 for `try_from`) bounds, the first FromRow or FromSql by `flatten`; after it `F: From<T>` for `from`, or `F: TryFrom<T>`, `rusqlite::Error: From<..::Error>` and `..::Error: Debug` for `try_from` |
| MapperDeriveFromRow.AddPredicates | rusqlite-mapper-derive/src/derive_from_row.rs:176-198 | pushing appends exactly the field's bounds to the caller's list, or returns the target's error |
| MapperDeriveFromRow.BoundsOfStopsAtError | rusqlite-mapper-derive/src/derive_from_row.rs:39-47 | once a prefix of the fields fails, later fields do not change the error |
| MapperDeriveFromRow.Predicates | rusqlite-mapper-derive/src/derive_from_row.rs:39-47 | the loop over kept fields yields their bounds in order, or the first error |
| MapperDeriveFromRow.PredicatesOf | rusqlite-mapper-derive/src/derive_from_row.rs:39-47 | the loop over the given fields, each pushing its bounds, yields `BoundsOf` of them: their bounds in order, or the first error |
| MapperDeriveFromRow.BoundsCount | rusqlite-mapper-derive/src/derive_from_row.rs:39-47 | the bounds succeed iff every target does, hold exactly one base bound per field, and number the fields plus 1 per `from` and 3 per `try_from` |
| MapperDeriveFromRow.IsAllNullTest | rusqlite-mapper-derive/src/derive_from_row.rs:145-167 | fails iff the column name or the target fails; a flattened field tests the nested impl under its prefix, any other its own column |
| MapperDeriveFromRow.TryFromRowInit | rusqlite-mapper-derive/src/derive_from_row.rs:201-231 | fails iff the field is unnamed or, when not skipped, its target fails; a skipped field is defaulted; otherwise a nested or column read by `flatten`, wrapped by `from`, else `try_from` |
| MapperDeriveFromRow.NullTests | rusqlite-mapper-derive/src/derive_from_row.rs:78-82 | one null test per field, in order, succeeding iff every field's does |
| MapperDeriveFromRow.Inits | rusqlite-mapper-derive/src/derive_from_row.rs:84-88 | one initialiser per field, in order, succeeding iff every field's does |
| MapperDeriveFromRow.GeneratedErrorOrder | rusqlite-mapper-derive/src/derive_from_row.rs:69-76 | a validation error is reported before any bound error, a bound error before any null-test or initialiser error; a generated impl is named after the struct and carries the bounds of the fields without `skip` |
| MapperDeriveFromRow.Generate | rusqlite-mapper-derive/src/derive_from_row.rs:69-110 | validation, bounds, null tests and initialisers in that order, each stopping at its first error |
| MapperDeriveFromRow.NullTestsSucceed | rusqlite-mapper-derive/src/derive_from_row.rs:145-147 | the null tests succeed iff every field has a column name and a target |
| MapperDeriveFromRow.InitsSucceed | rusqlite-mapper-derive/src/derive_from_row.rs:201-210 | the initialisers succeed iff every field is named and every unskipped field has a target |
| MapperDeriveFromRow.GeneratedSucceeds | rusqlite-mapper-derive/src/derive_from_row.rs:69-110 | generation succeeds iff every kept field is valid, has a target and a column name, and every field is named |
| MapperDeriveFromRow.GeneratedShape | rusqlite-mapper-derive/src/derive_from_row.rs:78-88 | `is_all_null` has one test per kept field and the struct literal one initialiser per field, skipped fields included, defaulted exactly when skipped |
| MapperDeriveFromRow.NestedKeysConcatenate | rusqlite-mapper-derive/src/derive_from_row.rs:212-221 | through a chain of flattened fields, a column is read under the outer prefix, every `prefix` along the chain in order, then its name |
| MapperDeriveFromRow.NullTestsReadInitColumns | rusqlite-mapper-derive/src/derive_from_row.rs:145-167 | `is_all_null` tests exactly the columns `try_from_row_prefixed` reads, in the same order and under the same prefixes, whatever the outer prefix |
| MapperDeriveFromRow.KeysUnderPrefix | rusqlite-mapper-derive/src/derive_from_row.rs:212-222 | called under a prefix, an impl reads the same columns in the same order, each under that prefix |
| MapperDeriveSqliteValue.Generate | rusqlite-mapper-derive/src/derive_sqlite_value.rs:31-101 | succeeds iff a marker is present; `string` gives Display/FromStr, else `json` gives JSON; both report TEXT; otherwise the "must specify one of" error |
| MapperDeriveSqliteValue.StringMarkerWins | rusqlite-mapper-derive/src/derive_sqlite_value.rs:32-34 | with `string`, adding or removing `json` changes nothing |
| MapperDeriveSqliteValue.DerivedTypeColumns | rusqlite-mapper-derive/src/derive_sqlite_value.rs:46-50 | a derived type whose name no built-in impl claims is a NOT NULL TEXT column, and `Option` of it a nullable TEXT column |
| Integration.ResolveSqlTypes | rusqlite-from-row-derive/src/derive_to_row.rs:62-74 | each `sql_types()` entry resolves through the type table to (storage class, optional, primary key), in order, or nothing when a type has no impl |
| Integration.DerivedCreateTable | src/to_row.rs:20-36 | a derived struct's CREATE TABLE has one definition per field with its column name and storage class; PRIMARY KEY exactly for `primary_key`, nullable exactly for `Option` |
| Integration.PersonImpl | tests/integration.rs:118-124 | the derive for `Person` yields table `Person`, columns id, name, data and their types with id the key |
| Integration.PersonLookups | src/to_row.rs:98-121 | `i32` is INTEGER, `String` TEXT and `Option<Vec<u8>>` nullable BLOB |
| Integration.PersonSchema | tests/integration.rs:118-124 | `Person`'s impl describes the table (id INTEGER key, name TEXT required, data BLOB nullable) under any features |
| Integration.PersonDefinitions | tests/integration.rs:118-124 | the column definitions are `id INTEGER PRIMARY KEY`, `name TEXT NOT NULL`, `data BLOB` |
| Integration.PersonCreateTable | tests/integration.rs:130-131 | the test's CREATE TABLE is `CREATE TABLE Person (id INTEGER PRIMARY KEY, name TEXT NOT NULL, data BLOB)` |
| Integration.PersonInsert | tests/integration.rs:139-140 | the test's INSERT is `INSERT INTO Person (id, name, data) VALUES (?, ?, ?)` |
| Integration.PlainFieldsGenerate | rusqlite-mapper-derive/src/derive_from_row.rs:201-231 | a struct of named fields without skip, from, try_from or rename always derives, each field read directly from its column or its nested impl |
| Integration.RoleInits | tests/integration.rs:25-29 | `Role` reads `id` and `kind` from their columns |
| Integration.UserInits | tests/integration.rs:16-23 | `User` reads `id` and `name`, then `Option<Role>` under `role_` |
| Integration.TodoInits | tests/integration.rs:5-14 | `Todo` reads `id` and `text`, then `User` under `author_` and under `editor_` |
| Integration.RoleReads | tests/integration.rs:25-29 | the generated `Role` impl reads columns id, kind |
| Integration.UserReads | tests/integration.rs:16-23 | the generated `User` impl reads id, name, then the role plan under `role_` |
| Integration.TodoReads | tests/integration.rs:5-14 | the generated `Todo` impl reads id, text, then the user plan under `author_` and `editor_` |
| Integration.RoleKeys | rusqlite-mapper-derive/src/derive_from_row.rs:212-222 | `Role` under a prefix p reads p+id, p+kind |
| Integration.UserKeys | rusqlite-mapper-derive/src/derive_from_row.rs:212-222 | `User` under p reads p+id, p+name, p+role_id, p+role_kind |
| Integration.AuthorEditorKeys | tests/integration.rs:88-95 | `User` under `author_` and under `editor_` reads the author and editor aliases of the test's SELECT |
| Integration.TodoPlanKeys | tests/integration.rs:85-95 | the `Todo` plan reads exactly the ten aliases of the SELECT, in order |
| Integration.TodoColumnKeys | tests/integration.rs:85-95 | with the impls the derive generates for Role, User and Todo, `Todo::try_from_row` reads exactly the ten aliases of the SELECT: nested prefixes concatenate |

## Left out

- Token emission, `syn` parsing and `darling` attribute extraction. Types and attributes are datatypes, and generated items are values, not source text. Whether an attribute string (`from = ".."`, `try_from = ".."`) tokenizes is a flag carried with the string.
- The generic parameters and where-clause of the input struct, which the derives copy through unchanged.
- `heck`'s snake-case conversion. `MapperDeriveToRow.Generate` takes it as a function parameter.
- MapperDeriveToRow.Generate: the table name is stated as `toSnakeCase(ident)`, with no property of the conversion itself, because that belongs to an external library.
- The "invalid shape" panic of `fields()`/`all_fields()` for enums and tuple structs. `supports(struct_named)` rejects those inputs before `generate` runs, so the model only has named-field structs. Identifiers stay optional so that the `unwrap` panics are still modelled.
- TypeInfo.Lookup: trait resolution is modelled on the type's syntax, by its last path segment. Type aliases, imports and user impls for generic types are not followed. User impls for plain identifiers come from a map.
- The runtime side: row access, `ToSql`/`FromSql`, serde_json, `Display`/`FromStr`, the evaluation of `is_all_null` and the error conversions. These are calls into rusqlite and other crates. The model gives the list of null tests and the column keys read, not their values.
- The proc-macro entry points in both lib.rs files and src/lib.rs. They only forward. rusqlite-mapper-derive/src/lib.rs registers the helper attribute `sqlite` for `SqliteValue`, while the derive reads `rusqlite_value`. The markers are therefore modelled as present or absent, without their attribute name.
- rusqlite-mapper-derive/src/derive_sqlite.rs, to_row.rs and from_row.rs are not part of this model. They are not declared as modules of their crate, so they are never compiled.
- The `FromRow` derive of the rusqlite-from-row crate is not part of this model. tests/integration.rs derives its structs with that crate's `from_row(flatten, prefix = ..)`. `Integration` derives the same structs with the rusqlite-mapper-derive `FromRow` derive, whose `flatten`/`prefix` rules are the ones modelled, and proves that the column keys match the aliases of the test's SELECT.
- MapperDeriveSqliteValue.DerivedTypeColumns: stated only for a name that no built-in impl, wrapper or feature-gated impl claims. For other names, the syntactic lookup cannot tell a user type from the built-in one.
- The two `ToRow` runtimes are taken to be one. The rusqlite-from-row-derive derive emits impls of `rusqlite_from_row::ToRow` and `SqliteTypeInfo`, while src/to_row.rs is the trait of the rusqlite_mapper crate. `Integration.DerivedCreateTable`, `PersonSchema`, `PersonCreateTable` and `PersonInsert` feed the first into the second, assuming the rusqlite-from-row runtime builds its statements and resolves its types the same way. That runtime is not part of this model.
- The `FromRow` impl of `Option<Role>` is not part of this model: no derive generates it. `Integration.UserReads` and `TodoColumnKeys` take it to read `Role`'s columns, under the same prefix.
