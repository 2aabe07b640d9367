/** The `SqliteTypeInfo` table (src/to_row.rs): the SQLite storage class a
    Rust type is declared with, and whether a NULL is allowed in its column.
    The compiler picks an impl by the type itself; here a type is looked up
    by its syntax, by the identifier of its last path segment. */
module TypeInfo {
  import opened Wrappers
  import opened Syntax

  /** Cargo features that add impls for foreign types. */
  datatype Feature = Serde | Chrono | Url | Uuid

  /** What `sqlite_type()` and `optional()` report for one type. */
  datatype ColumnType = ColumnType(sqliteType: string, optional: bool)

  /** Impls that live outside the table: the enabled features, and the
      user's own types (those that derive `SqliteValue`, say) with the
      storage class their impl reports. */
  datatype Env = Env(features: set<Feature>, userTypes: map<string, string>)

  const StorageClasses: set<string> := {"NULL", "INTEGER", "REAL", "TEXT", "BLOB"}

  /** The identifiers whose impl reports INTEGER. */
  const IntegerTypes: set<string> :=
    {"bool", "i8", "i16", "i32", "i64", "isize", "u8", "u16", "u32", "u64", "usize"}

  /** Generic wrappers whose impl forwards `sqlite_type` to the wrapped type
      and keeps the default `optional`. */
  const Transparent: set<string> := {"Box", "Rc", "Arc", "Cow"}

  /** The position of the one type argument among a segment's angle-bracketed
      arguments (lifetimes may stand beside it), if there is exactly one. */
  function SoleTypeArgument(args: PathArguments): (k: Option<nat>)
    ensures k.Some? ==> args.AngleBracketed? && k.value < |args.args| && args.args[k.value].TypeArg?
    ensures k.Some? ==> forall j | 0 <= j < |args.args| && j != k.value :: args.args[j].OtherArg?
    ensures (args.AngleBracketed? && exists j | 0 <= j < |args.args| ::
               args.args[j].TypeArg? && forall i | 0 <= i < |args.args| && i != j :: args.args[i].OtherArg?)
            ==> k.Some?
  {
    if args.AngleBracketed? then SoleTypeIndex(args.args) else None
  }

  function SoleTypeIndex(args: seq<GenericArgument>): (k: Option<nat>)
    ensures k.Some? ==> k.value < |args| && args[k.value].TypeArg?
    ensures k.Some? ==> forall j | 0 <= j < |args| && j != k.value :: args[j].OtherArg?
    ensures (exists j | 0 <= j < |args| :: args[j].TypeArg? && forall i | 0 <= i < |args| && i != j :: args[i].OtherArg?)
            ==> k.Some?
  {
    if args == [] then None
    else if args[0].TypeArg? then
      if forall j | 1 <= j < |args| :: args[j].OtherArg? then Some(0) else None
    else
      match SoleTypeIndex(args[1..])
      case None => None
      case Some(i) => Some(i + 1)
  }

  /** `u8`, however qualified. */
  predicate IsU8(ty: Type) {
    LastSegment(ty).Some? && LastSegment(ty).value.ident == "u8" && LastSegment(ty).value.arguments.NoArguments?
  }

  /** The identifiers without type parameters that a row of the table
      claims: the built-in rows, and the feature-gated rows whose feature is
      enabled. */
  predicate RowClaims(ident: string, env: Env) {
    || ident == "Null" || ident in IntegerTypes || ident in {"f32", "f64", "String", "str"}
    || (Serde in env.features && ident == "Value")
    || (Chrono in env.features && ident in {"NaiveDate", "NaiveTime", "NaiveDateTime"})
    || (Url in env.features && ident == "Url")
    || (Uuid in env.features && ident == "Uuid")
  }

  /** The impls for types without type parameters: the table's own rows,
      the feature-gated ones, then the user's. A row of the table is never
      overridden by a user impl, and a user impl is found whenever no row
      claims the identifier. */
  function ScalarType(ident: string, env: Env): (r: Option<string>)
    ensures RowClaims(ident, env) ==> r.Some? && r.value in StorageClasses
    ensures !RowClaims(ident, env) ==> r == if ident in env.userTypes then Some(env.userTypes[ident]) else None
    ensures ident in IntegerTypes ==> r == Some("INTEGER")
    ensures ident in {"String", "str"} ==> r == Some("TEXT")
  {
    if ident == "Null" then Some("NULL")
    else if ident in IntegerTypes then Some("INTEGER")
    else if ident == "f32" || ident == "f64" then Some("REAL")
    else if ident == "String" || ident == "str" then Some("TEXT")
    else if Serde in env.features && ident == "Value" then Some("TEXT")
    else if Chrono in env.features && ident in {"NaiveDate", "NaiveTime", "NaiveDateTime"} then Some("TEXT")
    else if Url in env.features && ident == "Url" then Some("TEXT")
    else if Uuid in env.features && ident == "Uuid" then Some("TEXT")
    else if ident in env.userTypes then Some(env.userTypes[ident])
    else None
  }

  /** `(T::sqlite_type(), T::optional())`, or `None` when no impl applies
      (the generated `sql_types` then does not compile). The only non-path
      types with an impl are the byte arrays and slices; a path type has one
      only through its last segment: a wrapper, `Vec`, `DateTime`, or an
      identifier without arguments that has a row. */
  function Lookup(ty: Type, env: Env): (r: Option<ColumnType>)
    ensures r.Some? && ty.NonPath? ==> r == Some(ColumnType("BLOB", false)) && !ty.shape.Other? && IsU8(ty.shape.elem)
    ensures r.Some? && ty.Path? ==>
              && LastSegment(ty).Some?
              && (|| LastSegment(ty).value.ident in {"Option", "Vec", "DateTime"}
                  || LastSegment(ty).value.ident in Transparent
                  || (LastSegment(ty).value.arguments.NoArguments? && ScalarType(LastSegment(ty).value.ident, env).Some?))
    decreases ty
  {
    match ty
    case NonPath(Array(elem, _)) => if IsU8(elem) then Some(ColumnType("BLOB", false)) else None
    case NonPath(Slice(elem)) => if IsU8(elem) then Some(ColumnType("BLOB", false)) else None
    case NonPath(Other(_)) => None
    case Path(segments) =>
      if |segments| == 0 then None
      else
        var last := segments[|segments| - 1];
        var k := SoleTypeArgument(last.arguments);
        if last.ident == "Option" || last.ident in Transparent then
          if k.None? then None
          else
            match Lookup(last.arguments.args[k.value].ty, env)
            case None => None
            case Some(inner) => Some(ColumnType(inner.sqliteType, last.ident == "Option"))
        else if last.ident == "Vec" then
          if k.Some? && IsU8(last.arguments.args[k.value].ty) then Some(ColumnType("BLOB", false)) else None
        else if last.ident == "DateTime" then
          if Chrono in env.features && k.Some?
             && LastSegment(last.arguments.args[k.value].ty).Some?
             && LastSegment(last.arguments.args[k.value].ty).value.ident in {"Utc", "FixedOffset"}
          then Some(ColumnType("TEXT", false))
          else None
        else if last.arguments.NoArguments? then
          match ScalarType(last.ident, env)
          case None => None
          case Some(t) => Some(ColumnType(t, false))
        else None
  }

  // ---------------------------------------------------------------------
  // Properties

  /** Every type with an impl reports one of SQLite's five storage classes,
      provided the user's impls do. */
  lemma {:induction false} StorageClassOnly(ty: Type, env: Env)
    requires forall u | u in env.userTypes :: env.userTypes[u] in StorageClasses
    requires Lookup(ty, env).Some?
    ensures Lookup(ty, env).value.sqliteType in StorageClasses
  {
    if ty.Path? {
      var last := ty.segments[|ty.segments| - 1];
      var k := SoleTypeArgument(last.arguments);
      if last.ident == "Option" || last.ident in Transparent {
        StorageClassOnly(last.arguments.args[k.value].ty, env);
      }
    }
  }

  /** `optional()` is true exactly for `Option<T>`: the default is false and
      the forwarding wrappers do not override it. */
  lemma OptionalExactlyForOption(ty: Type, env: Env)
    requires Lookup(ty, env).Some?
    ensures Lookup(ty, env).value.optional <==> LastSegment(ty).Some? && LastSegment(ty).value.ident == "Option"
  {
  }

  /** `Option<T>` reports T's storage class and allows NULL; Box, Rc, Arc and
      Cow report the wrapped type's storage class but not its optional flag,
      so `Box<Option<T>>` is a NOT NULL column. A lifetime beside the type
      argument, as in the `Cow<'a, T>` a struct field must write, changes
      nothing. */
  lemma WrappersForward(w: string, t: Type, env: Env)
    requires w == "Option" || w in Transparent
    ensures Lookup(Generic(w, [t]), env)
            == match Lookup(t, env)
               case None => None
               case Some(inner) => Some(ColumnType(inner.sqliteType, w == "Option"))
    ensures Lookup(Path([PathSegment(w, AngleBracketed([OtherArg, TypeArg(t)]))]), env)
            == Lookup(Generic(w, [t]), env)
  {
    var g := Generic(w, [t]);
    assert SoleTypeArgument(g.segments[0].arguments) == Some(0);
    var args := [OtherArg, TypeArg(t)];
    assert args[1].TypeArg? && forall i | 0 <= i < |args| && i != 1 :: args[i].OtherArg?;
  }

  /** The rows of the table for plain identifiers and byte containers. */
  lemma BuiltinRows(ident: string, env: Env)
    ensures ident in IntegerTypes ==> Lookup(Simple(ident), env) == Some(ColumnType("INTEGER", false))
    ensures ident in {"f32", "f64"} ==> Lookup(Simple(ident), env) == Some(ColumnType("REAL", false))
    ensures ident in {"String", "str"} ==> Lookup(Simple(ident), env) == Some(ColumnType("TEXT", false))
    ensures ident == "Null" ==> Lookup(Simple(ident), env) == Some(ColumnType("NULL", false))
    ensures Lookup(Generic("Vec", [Simple("u8")]), env) == Some(ColumnType("BLOB", false))
    ensures Lookup(NonPath(Slice(Simple("u8"))), env) == Some(ColumnType("BLOB", false))
    ensures forall n: nat :: Lookup(NonPath(Array(Simple("u8"), n)), env) == Some(ColumnType("BLOB", false))
  {
    assert SoleTypeArgument(Generic("Vec", [Simple("u8")]).segments[0].arguments) == Some(0);
  }

  /** A row of the table wins over any user impl of the same name: what
      a claimed identifier reports does not depend on the user's impls. */
  lemma RowsBeatUserImpls(ident: string, env: Env, userTypes: map<string, string>)
    requires RowClaims(ident, env)
    ensures ScalarType(ident, env) == ScalarType(ident, env.(userTypes := userTypes))
  {
  }

  /** The feature-gated rows for plain identifiers: with its feature
      enabled, each type is a NOT NULL TEXT column, whatever the user's
      impls are. */
  lemma FeatureRows(env: Env)
    ensures Serde in env.features ==> Lookup(Simple("Value"), env) == Some(ColumnType("TEXT", false))
    ensures Chrono in env.features ==>
              forall ident | ident in {"NaiveDate", "NaiveTime", "NaiveDateTime"} ::
                Lookup(Simple(ident), env) == Some(ColumnType("TEXT", false))
    ensures Url in env.features ==> Lookup(Simple("Url"), env) == Some(ColumnType("TEXT", false))
    ensures Uuid in env.features ==> Lookup(Simple("Uuid"), env) == Some(ColumnType("TEXT", false))
  {
  }

  /** `DateTime<Tz>` is a NOT NULL TEXT column for the two time zones the
      table names, and has no impl without the chrono feature. */
  lemma DateTimeRows(env: Env, tz: string)
    ensures Chrono in env.features && tz in {"Utc", "FixedOffset"} ==>
              Lookup(Generic("DateTime", [Simple(tz)]), env) == Some(ColumnType("TEXT", false))
    ensures Chrono !in env.features ==> Lookup(Generic("DateTime", [Simple(tz)]), env).None?
  {
    assert SoleTypeArgument(Generic("DateTime", [Simple(tz)]).segments[0].arguments) == Some(0);
  }
}
