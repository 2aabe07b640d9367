/** The `ToRow` derive of the rusqlite-from-row-derive crate
    (rusqlite-from-row-derive/src/derive_to_row.rs). From a named struct it
    generates the parameter tuple type, the expressions that fill it, the
    column names and the (type, primary key) pairs behind `sql_types()`.
    Generated items are kept as values, not as token text. */
module FromRowDeriveToRow {
  import opened Wrappers
  import opened Syntax

  /** How a field is handed to the database as a parameter. */
  datatype ParamTy =
    | ByValue(ident: string)   // a primitive, `#ident`
    | SliceRef(elem: Type)     // `Vec<T>` as `&'a [T]`
    | Ref(ty: Type)            // any other path type as `&'a T`
    | Unchanged(ty: Type)      // the type as written, `#ty`

  /** The expression that fills the parameter. */
  datatype ParamRef =
    | Unit                     // `()`
    | SelfField(field: string)       // `self.f`
    | BorrowSelfField(field: string) // `&self.f`

  /** One entry of `sql_types()` before the type-info table resolves it:
      `(<ty>::sqlite_type(), <ty>::optional(), primary_key)`. */
  datatype SqlTypeEntry = SqlTypeEntry(ty: Type, primaryKey: bool)

  /** The generated `impl ToRow`. */
  datatype ToRowImpl = ToRowImpl(
    tableName: string,
    params: seq<ParamTy>,
    paramValues: seq<ParamRef>,
    columnNames: seq<string>,
    sqlTypes: seq<SqlTypeEntry>)

  /** A field with its `to_row` attributes; `primary_key` is a flag whose
      presence is all that matters. */
  datatype ToRowField = ToRowField(ident: Option<string>, ty: Type, rename: Option<string>, primaryKey: Option<()>)

  datatype DeriveToRow = DeriveToRow(ident: string, fields: seq<ToRowField>)

  const InvalidShape: string := "invalid shape"

  /** The last segment of a path type is `Vec`. */
  predicate LastIsVec(ty: Type) {
    LastSegment(ty).Some? && LastSegment(ty).value.ident == "Vec"
  }

  /** `type_to_param_ty`: a one-segment primitive path by value, a path
      ending in `Vec<T>` as a slice of its first argument (panicking when
      that argument is missing or not a type), any other path by reference,
      and a non-path type unchanged. */
  function TypeToParamTy(ty: Type): (r: Result<ParamTy>)
    ensures r.Ok? && r.value.ByValue? <==> IsSinglePrimitive(ty)
    ensures r.Ok? && r.value.ByValue? ==> r.value.ident == ty.segments[0].ident
    ensures r.Ok? && r.value.SliceRef? <==>
              !IsSinglePrimitive(ty) && LastIsVec(ty) && LastSegment(ty).value.arguments.AngleBracketed?
              && |LastSegment(ty).value.arguments.args| > 0 && LastSegment(ty).value.arguments.args[0].TypeArg?
    ensures r.Ok? && r.value.SliceRef? ==> r.value.elem == LastSegment(ty).value.arguments.args[0].ty
    ensures r.Ok? && r.value.Ref? <==> ty.Path? && !IsSinglePrimitive(ty) && !LastIsVec(ty)
    ensures r.Ok? && r.value.Unchanged? <==> ty.NonPath?
    ensures r.Ok? && (r.value.Ref? || r.value.Unchanged?) ==> r.value.ty == ty
    ensures r.Err? ==> r.failure.Panic? && !IsSinglePrimitive(ty) && LastIsVec(ty)
  {
    match ty
    case NonPath(_) => Ok(Unchanged(ty))
    case Path(segments) =>
      if |segments| == 1 && segments[0].ident in Primitives then Ok(ByValue(segments[0].ident))
      else if |segments| > 0 && segments[|segments| - 1].ident == "Vec" then
        match segments[|segments| - 1].arguments
        case AngleBracketed(args) =>
          if |args| == 0 then Err(Panic(UnwrapNone))
          else if args[0].TypeArg? then Ok(SliceRef(args[0].ty))
          else Err(Panic(InvalidShape))
        case _ => Err(Panic(InvalidShape))
      else Ok(Ref(ty))
  }

  /** `ToRowField::param_ty`: decided by the field's type alone; by value
      exactly for a one-segment primitive, and a panic only for a `Vec`
      path. */
  function ParamTyOf(f: ToRowField): (r: Result<ParamTy>)
    ensures r.Ok? && r.value.ByValue? <==> IsSinglePrimitive(f.ty)
    ensures r.Err? ==> r.failure.Panic? && LastIsVec(f.ty)
  {
    TypeToParamTy(f.ty)
  }

  /** `ToRowField::param_ref`: `()` for an unnamed field; `self.f` when the
      last path segment is a primitive; `&self.f` otherwise. */
  function ParamRefOf(f: ToRowField): (r: ParamRef)
    ensures r.Unit? <==> f.ident.None?
    ensures r.SelfField? <==> f.ident.Some? && LastIsPrimitive(f.ty)
    ensures !r.Unit? ==> r.field == f.ident.value
  {
    match f.ident
    case None => Unit
    case Some(id) => if LastIsPrimitive(f.ty) then SelfField(id) else BorrowSelfField(id)
  }

  /** `ToRowField::column_name`: the `rename` value, else the field's
      identifier; unwrapping a missing identifier panics. */
  function ColumnName(f: ToRowField): (r: Result<string>)
    ensures f.rename.Some? ==> r == Ok(f.rename.value)
    ensures f.rename.None? && f.ident.Some? ==> r == Ok(f.ident.value)
    ensures r.Err? <==> f.rename.None? && f.ident.None?
  {
    match f.rename
    case Some(name) => Ok(name)
    case None =>
      match f.ident
      case Some(id) => Ok(id)
      case None => Err(Panic(UnwrapNone))
  }

  /** `ToRowField::is_primary_key`. */
  function IsPrimaryKey(f: ToRowField): (r: bool)
    ensures r <==> f.primaryKey.Some?
  {
    f.primaryKey.Some?
  }

  function SqlTypeOf(f: ToRowField): SqlTypeEntry {
    SqlTypeEntry(f.ty, IsPrimaryKey(f))
  }

  /** `DeriveToRow::generate`: every list is built from all fields, in
      declaration order, and the table is named after the struct as written.
      The parameter types are collected first, then the column names; the
      first panic in that order is the outcome. */
  function Generate(d: DeriveToRow): (r: Result<ToRowImpl>)
    ensures r.Ok? <==> forall i | 0 <= i < |d.fields| :: ParamTyOf(d.fields[i]).Ok? && ColumnName(d.fields[i]).Ok?
    ensures r.Err? ==> r.failure.Panic?
    ensures r.Ok? ==> r.value.tableName == d.ident
    ensures r.Ok? ==> |r.value.params| == |r.value.paramValues| == |r.value.columnNames| == |r.value.sqlTypes| == |d.fields|
    ensures r.Ok? ==> forall i | 0 <= i < |d.fields| ::
              && r.value.params[i] == ParamTyOf(d.fields[i]).value
              && r.value.paramValues[i] == ParamRefOf(d.fields[i])
              && r.value.columnNames[i] == ColumnName(d.fields[i]).value
              && r.value.sqlTypes[i] == SqlTypeEntry(d.fields[i].ty, d.fields[i].primaryKey.Some?)
  {
    var fs := d.fields;
    var tys := seq(|fs|, i requires 0 <= i < |fs| => ParamTyOf(fs[i]));
    var names := seq(|fs|, i requires 0 <= i < |fs| => ColumnName(fs[i]));
    var params := Collect(tys);
    var columns := Collect(names);
    if params.Err? then Err(params.failure)
    else if columns.Err? then Err(columns.failure)
    else
      assert forall i | 0 <= i < |fs| :: tys[i] == ParamTyOf(fs[i]) && tys[i].Ok? && names[i] == ColumnName(fs[i]) && names[i].Ok?;
      Ok(ToRowImpl(
        d.ident,
        params.value,
        seq(|fs|, i requires 0 <= i < |fs| => ParamRefOf(fs[i])),
        columns.value,
        seq(|fs|, i requires 0 <= i < |fs| => SqlTypeOf(fs[i]))))
  }

  // ---------------------------------------------------------------------
  // Agreement between the parameter type and the parameter expression

  /** The parameter type holds the value itself rather than a reference. */
  predicate HoldsValue(p: ParamTy) {
    p.ByValue? || p.Unchanged?
  }

  /** For a named field, `param_ty` and `param_ref` choose the same passing
      mode exactly when the type is a path that is not a multi-segment path
      ending in a primitive: the two functions test "primitive" differently
      (one segment versus last segment), and a non-path type is written
      unchanged but referenced with `&`. */
  lemma PassingModesAgree(f: ToRowField)
    requires f.ident.Some?
    requires ParamTyOf(f).Ok?
    ensures (HoldsValue(ParamTyOf(f).value) <==> ParamRefOf(f).SelfField?)
            <==> f.ty.Path? && (LastIsPrimitive(f.ty) ==> IsSinglePrimitive(f.ty))
  {
    if f.ty.Path? && IsSinglePrimitive(f.ty) {
      assert LastSegment(f.ty).value == f.ty.segments[0];
    }
  }

  /** The two mismatches: `std::primitive::i32` gets a reference type but a
      by-value expression, `[u8; 16]` a by-value type but a reference. */
  lemma PassingModeMismatches()
    ensures var f := ToRowField(Some("id"), Path([PathSegment("std", NoArguments), PathSegment("primitive", NoArguments), PathSegment("i32", NoArguments)]), None, None);
            ParamTyOf(f).Ok? && ParamTyOf(f).value.Ref? && ParamRefOf(f).SelfField?
    ensures var f := ToRowField(Some("hash"), NonPath(Array(Simple("u8"), 16)), None, None);
            ParamTyOf(f) == Ok(Unchanged(f.ty)) && ParamRefOf(f).BorrowSelfField?
  {
  }
}
