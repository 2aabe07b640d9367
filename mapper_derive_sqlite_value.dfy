/** The `SqliteValue` derive (rusqlite-mapper-derive/src/derive_sqlite_value.rs):
    a type is stored as TEXT, either through `Display`/`FromStr` or through
    serde_json, chosen by the marker attributes `string` and `json`. */
module MapperDeriveSqliteValue {
  import opened Wrappers
  import opened Syntax
  import TypeInfo

  /** `DeriveSqliteValue`: the type's identifier and the two markers. */
  datatype DeriveSqliteValue = DeriveSqliteValue(ident: string, asString: Option<()>, asJson: Option<()>)

  /** How the generated `ToSql`/`FromSql` impls convert the value. */
  datatype Encoding =
    | DisplayParse  // `to_string()` / `parse::<T>()`
    | Json          // `serde_json::to_string` / `serde_json::from_str`

  /** The three generated impls: `SqliteTypeInfo`, `ToSql` and `FromSql`. */
  datatype SqliteValueImpl = SqliteValueImpl(ident: string, sqliteType: string, encoding: Encoding)

  const MissingEncoding: string := "must specify one of `#[sqlite(as_string)]` or `#[sqlite(as_json)]`"

  /** `DeriveSqliteValue::generate` with `generate_as_string` and
      `generate_as_json`: `string` wins over `json`, both encodings declare
      TEXT, and with neither the derive is a compile error. */
  function Generate(d: DeriveSqliteValue): (r: Result<SqliteValueImpl>)
    ensures r.Ok? <==> d.asString.Some? || d.asJson.Some?
    ensures r.Err? ==> r.failure == CompileError(MissingEncoding)
    ensures r.Ok? ==> r.value.ident == d.ident && r.value.sqliteType == "TEXT"
    ensures r.Ok? ==> (r.value.encoding == DisplayParse <==> d.asString.Some?)
    ensures r.Ok? ==> (r.value.encoding == Json <==> d.asString.None? && d.asJson.Some?)
  {
    match (d.asString, d.asJson)
    case (Some(_), _) => Ok(SqliteValueImpl(d.ident, "TEXT", DisplayParse))
    case (_, Some(_)) => Ok(SqliteValueImpl(d.ident, "TEXT", Json))
    case _ => Err(CompileError(MissingEncoding))
  }

  /** Adding `json` to a type marked `string` changes nothing. */
  lemma StringMarkerWins(d: DeriveSqliteValue)
    requires d.asString.Some?
    ensures Generate(d.(asJson := Some(()))) == Generate(d.(asJson := None)) == Ok(SqliteValueImpl(d.ident, "TEXT", DisplayParse))
  {
  }

  /** A derived type, registered with the type-info table under the storage
      class its impl reports, is a NOT NULL TEXT column, and `Option` of it
      a nullable TEXT column, as long as no built-in row or generic wrapper
      of the table has its name. */
  lemma DerivedTypeColumns(d: DeriveSqliteValue, env: TypeInfo.Env)
    requires Generate(d).Ok?
    requires d.ident in env.userTypes && env.userTypes[d.ident] == Generate(d).value.sqliteType
    requires d.ident !in TypeInfo.Transparent && d.ident !in {"Option", "Vec", "DateTime"}
    requires TypeInfo.ScalarType(d.ident, env.(userTypes := map[])).None?
    ensures TypeInfo.Lookup(Simple(d.ident), env) == Some(TypeInfo.ColumnType("TEXT", false))
    ensures TypeInfo.Lookup(Generic("Option", [Simple(d.ident)]), env) == Some(TypeInfo.ColumnType("TEXT", true))
  {
    TypeInfo.WrappersForward("Option", Simple(d.ident), env);
  }
}
