/** The `ToRow` derive of the rusqlite-mapper-derive crate
    (rusqlite-mapper-derive/src/derive_to_row.rs). It generates what the
    rusqlite-from-row-derive version does, with two differences: fields
    marked `skip` take no part, and a field marked `value` is passed by value
    whatever its type. The table is named after the snake-case form of the
    struct identifier; that conversion belongs to a library and is a
    parameter here. */
module MapperDeriveToRow {
  import opened Wrappers
  import opened Syntax
  import opened MapperFields
  import Base = FromRowDeriveToRow

  /** `type_to_param_ty(ty, force_as_value)`: the type unchanged when forced,
      else the classification of the rusqlite-from-row-derive crate. */
  function TypeToParamTy(ty: Type, forceAsValue: bool): (r: Result<Base.ParamTy>)
    ensures forceAsValue ==> r == Ok(Base.Unchanged(ty))
    ensures !forceAsValue ==> (r.Ok? && r.value.ByValue? <==> IsSinglePrimitive(ty))
    ensures !forceAsValue ==> (r.Ok? && r.value.Unchanged? <==> ty.NonPath?)
    ensures !forceAsValue ==> (r.Ok? && r.value.Ref? <==> ty.Path? && !IsSinglePrimitive(ty) && !Base.LastIsVec(ty))
    ensures r.Err? ==> !forceAsValue && Base.LastIsVec(ty)
  {
    if forceAsValue then Ok(Base.Unchanged(ty))
    else
      match ty
      case NonPath(_) => Ok(Base.Unchanged(ty))
      case Path(segments) =>
        if |segments| == 1 && segments[0].ident in Primitives then Ok(Base.ByValue(segments[0].ident))
        else if |segments| > 0 && segments[|segments| - 1].ident == "Vec" then
          match segments[|segments| - 1].arguments
          case AngleBracketed(args) =>
            if |args| == 0 then Err(Panic(UnwrapNone))
            else if args[0].TypeArg? then Ok(Base.SliceRef(args[0].ty))
            else Err(Panic(Base.InvalidShape))
          case _ => Err(Panic(Base.InvalidShape))
        else Ok(Base.Ref(ty))
  }

  /** `SqliteField::param_ty`: with `value`, the field's type unchanged;
      without it, what the rusqlite-from-row-derive crate gives the type. */
  function ParamTy(f: SqliteField): (r: Result<Base.ParamTy>)
    ensures f.value.Some? ==> r == Ok(Base.Unchanged(f.ty))
    ensures f.value.None? ==> r == Base.TypeToParamTy(f.ty)
  {
    TypeToParamTy(f.ty, f.value.Some?)
  }

  /** `SqliteField::param_ref`: `()` for an unnamed field; `self.f` with the
      `value` attribute; otherwise `self.f` for a primitive last segment and
      `&self.f` for anything else. */
  function ParamRef(f: SqliteField): (r: Base.ParamRef)
    ensures r.Unit? <==> f.ident.None?
    ensures f.ident.Some? && f.value.Some? ==> r == Base.SelfField(f.ident.value)
    ensures f.ident.Some? && f.value.None? ==> (r.SelfField? <==> LastIsPrimitive(f.ty))
    ensures !r.Unit? ==> r.field == f.ident.value
  {
    match f.ident
    case None => Base.Unit
    case Some(id) =>
      if f.value.Some? then Base.SelfField(id)
      else if LastIsPrimitive(f.ty) then Base.SelfField(id)
      else Base.BorrowSelfField(id)
  }

  /** The same field seen by the other crate's derive. */
  function AsToRowField(f: SqliteField): Base.ToRowField {
    Base.ToRowField(f.ident, f.ty, f.rename, f.primaryKey)
  }

  /** `DeriveToRow::generate`: all four lists come from `fields()` in the
      same order, so entry i of each describes the i-th field without
      `skip`; the table is `toSnakeCase` of the struct identifier. */
  function Generate(d: DeriveInput, toSnakeCase: string -> string): (r: Result<Base.ToRowImpl>)
    ensures r.Ok? <==> forall i | 0 <= i < |Fields(d)| :: ParamTy(Fields(d)[i]).Ok? && ColumnName(Fields(d)[i]).Ok?
    ensures r.Err? ==> r.failure.Panic?
    ensures r.Ok? ==> r.value.tableName == toSnakeCase(d.ident)
    ensures r.Ok? ==> |r.value.params| == |r.value.paramValues| == |r.value.columnNames| == |r.value.sqlTypes| == |Fields(d)|
    ensures r.Ok? ==> forall i | 0 <= i < |Fields(d)| ::
              && r.value.params[i] == ParamTy(Fields(d)[i]).value
              && r.value.paramValues[i] == ParamRef(Fields(d)[i])
              && r.value.columnNames[i] == ColumnName(Fields(d)[i]).value
              && r.value.sqlTypes[i] == Base.SqlTypeEntry(Fields(d)[i].ty, IsPrimaryKey(Fields(d)[i]))
  {
    var fs := Fields(d);
    var tys := seq(|fs|, i requires 0 <= i < |fs| => ParamTy(fs[i]));
    var names := seq(|fs|, i requires 0 <= i < |fs| => ColumnName(fs[i]));
    var params := Collect(tys);
    var columns := Collect(names);
    if params.Err? then Err(params.failure)
    else if columns.Err? then Err(columns.failure)
    else
      assert forall i | 0 <= i < |fs| :: tys[i] == ParamTy(fs[i]) && tys[i].Ok? && names[i] == ColumnName(fs[i]) && names[i].Ok?;
      Ok(Base.ToRowImpl(
        toSnakeCase(d.ident),
        params.value,
        seq(|fs|, i requires 0 <= i < |fs| => ParamRef(fs[i])),
        columns.value,
        seq(|fs|, i requires 0 <= i < |fs| => Base.SqlTypeEntry(fs[i].ty, IsPrimaryKey(fs[i])))))
  }

  // ---------------------------------------------------------------------
  // Properties

  /** Without `value`, a field is passed exactly as the other crate passes it. */
  lemma AgreesWithFromRowCrate(f: SqliteField)
    requires f.value.None?
    ensures ParamTy(f) == Base.ParamTyOf(AsToRowField(f))
    ensures ParamRef(f) == Base.ParamRefOf(AsToRowField(f))
  {
  }

  /** With `value`, the parameter type is the field type unchanged and the
      expression is `self.f`: the two always agree on passing by value. */
  lemma ValueAttributePassesByValue(f: SqliteField)
    requires f.ident.Some? && f.value.Some?
    ensures ParamTy(f) == Ok(Base.Unchanged(f.ty))
    ensures ParamRef(f) == Base.SelfField(f.ident.value)
    ensures Base.HoldsValue(ParamTy(f).value) && ParamRef(f).SelfField?
  {
  }

  /** A skipped field, wherever it stands, changes nothing that is generated. */
  lemma SkippedFieldIsInvisible(d: DeriveInput, k: nat, g: SqliteField, toSnakeCase: string -> string)
    requires k <= |d.fields| && g.skip.Some?
    ensures Generate(d.(fields := d.fields[..k] + [g] + d.fields[k..]), toSnakeCase) == Generate(d, toSnakeCase)
  {
    var a, b := d.fields[..k], d.fields[k..];
    assert d.fields == a + b;
    UnskippedConcat(a + [g], b);
    UnskippedConcat(a, [g]);
    UnskippedConcat(a, b);
    UnskippedSingle(g);
    assert Unskipped(a + [g]) == Unskipped(a);
  }
}
