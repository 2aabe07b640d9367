/** The `FromRow` derive of the rusqlite-mapper-derive crate
    (rusqlite-mapper-derive/src/derive_from_row.rs). It validates each
    field's attributes, collects the where-clause bounds the fields need,
    and generates `is_all_null` (one null test per field without `skip`)
    and `try_from_row_prefixed` (one initialiser per field). Generated
    items are values; the last part of the module gives the column keys the
    generated code reads, under the prefix it is called with. */
module MapperDeriveFromRow {
  import opened Wrappers
  import opened Syntax
  import opened MapperFields

  const FromWithTryFrom: string := "can't combine `#[from_row(from = \"..\")]` with `#[from_row(try_from = \"..\")]`"
  const FlattenWithRename: string := "can't combine `#[from_row(flatten)]` with `#[from_row(rename = \"..\")]`"

  // ---------------------------------------------------------------------
  // Validation

  /** `SqliteField::validate`: `from` excludes `try_from`, and `flatten`
      excludes `rename`; the first rule is checked first. */
  function ValidateField(f: SqliteField): (r: Result<()>)
    ensures r.Err? <==> (f.from.Some? && f.tryFrom.Some?) || (f.rename.Some? && f.flatten)
    ensures f.from.Some? && f.tryFrom.Some? ==> r == Err(CompileError(FromWithTryFrom))
    ensures !(f.from.Some? && f.tryFrom.Some?) && f.rename.Some? && f.flatten ==> r == Err(CompileError(FlattenWithRename))
  {
    if f.from.Some? && f.tryFrom.Some? then Err(CompileError(FromWithTryFrom))
    else if f.rename.Some? && f.flatten then Err(CompileError(FlattenWithRename))
    else Ok(())
  }

  /** The outcome of validating `fs` in order: the first field's error. */
  function ValidateAll(fs: seq<SqliteField>): (r: Result<()>)
    ensures r.Ok? <==> forall i | 0 <= i < |fs| :: ValidateField(fs[i]).Ok?
    ensures r.Err? ==> exists k | 0 <= k < |fs| :: r == ValidateField(fs[k]) && forall j | 0 <= j < k :: ValidateField(fs[j]).Ok?
  {
    if fs == [] then Ok(())
    else
      var init := fs[..|fs| - 1];
      match ValidateAll(init)
      case Err(e) =>
        assert forall i | 0 <= i < |init| :: init[i] == fs[i];
        Err(e)
      case Ok(_) =>
        assert forall i | 0 <= i < |init| :: init[i] == fs[i];
        ValidateField(fs[|fs| - 1])
  }

  /** Once a prefix of the fields fails to validate, so does the whole list,
      with the same error. */
  lemma {:induction false} ValidateAllStopsAtError(fs: seq<SqliteField>, k: nat)
    requires k <= |fs| && ValidateAll(fs[..k]).Err?
    ensures ValidateAll(fs) == ValidateAll(fs[..k])
  {
    if k < |fs| {
      var init := fs[..|fs| - 1];
      assert init[..k] == fs[..k];
      ValidateAllStopsAtError(init, k);
    } else {
      assert fs[..k] == fs;
    }
  }

  /** `DeriveFromRow::validate`: every field without `skip`, in order,
      returning at the first error. */
  method Validate(d: DeriveInput) returns (r: Result<()>)
    ensures r == ValidateAll(Fields(d))
  {
    r := ValidateFields(Fields(d));
  }

  /** The loop of `validate`, over the fields it is given. */
  method ValidateFields(fs: seq<SqliteField>) returns (r: Result<()>)
    ensures r == ValidateAll(fs)
  {
    var i := 0;
    while i < |fs|
      invariant 0 <= i <= |fs|
      invariant ValidateAll(fs[..i]) == Ok(())
    {
      var v := ValidateField(fs[i]);
      assert fs[..i + 1][..i] == fs[..i];
      if v.Err? {
        ValidateAllStopsAtError(fs, i + 1);
        return v;
      }
      i := i + 1;
    }
    assert fs[..i] == fs;
    return Ok(());
  }

  // ---------------------------------------------------------------------
  // Target type and where-clause bounds

  /** The type read from the row before any conversion. */
  datatype Target = AttrTarget(text: string) | FieldTarget(ty: Type)

  /** `SqliteField::target_ty`: `from` if present, else `try_from`, else the
      field's own type; an attribute string that does not tokenize is an error. */
  function TargetTy(f: SqliteField): (r: Result<Target>)
    ensures f.from.Some? ==> r == if f.from.value.tokenizes then Ok(AttrTarget(f.from.value.text)) else Err(TokenizeError(f.from.value.text))
    ensures f.from.None? && f.tryFrom.Some? ==>
              r == if f.tryFrom.value.tokenizes then Ok(AttrTarget(f.tryFrom.value.text)) else Err(TokenizeError(f.tryFrom.value.text))
    ensures f.from.None? && f.tryFrom.None? ==> r == Ok(FieldTarget(f.ty))
  {
    match f.from
    case Some(a) => if a.tokenizes then Ok(AttrTarget(a.text)) else Err(TokenizeError(a.text))
    case None =>
      match f.tryFrom
      case Some(a) => if a.tokenizes then Ok(AttrTarget(a.text)) else Err(TokenizeError(a.text))
      case None => Ok(FieldTarget(f.ty))
  }

  /** A where-clause predicate of the generated impl. */
  datatype Bound =
    | TargetFromRow(target: Target)                       // `T: FromRow`
    | TargetFromSql(target: Target)                       // `T: FromSql`
    | FieldFrom(field: Type, target: Target)              // `F: From<T>`
    | FieldTryFrom(field: Type, target: Target)           // `F: TryFrom<T>`
    | ErrorFromTryFromError(field: Type, target: Target)  // `rusqlite::Error: From<<F as TryFrom<T>>::Error>`
    | TryFromErrorDebug(field: Type, target: Target)      // `<F as TryFrom<T>>::Error: Debug`
  {
    /** The one bound every field contributes: how the target is read. */
    predicate IsBase() { TargetFromRow? || TargetFromSql? }
  }

  /** The bounds beyond the base one: one for `from`, three for `try_from`. */
  function ExtraBounds(f: SqliteField): nat {
    if f.from.Some? then 1 else if f.tryFrom.Some? then 3 else 0
  }

  /** What `add_predicates` pushes for one field. */
  function FieldBounds(f: SqliteField): (r: Result<seq<Bound>>)
    ensures r.Err? <==> TargetTy(f).Err?
    ensures r.Err? ==> r.failure == TargetTy(f).failure
    ensures r.Ok? ==> |r.value| == 1 + ExtraBounds(f)
    ensures r.Ok? ==> r.value[0] == if f.flatten then TargetFromRow(TargetTy(f).value) else TargetFromSql(TargetTy(f).value)
    ensures r.Ok? ==> forall i | 1 <= i < |r.value| :: !r.value[i].IsBase()
    ensures r.Ok? && f.from.Some? ==> r.value[1..] == [FieldFrom(f.ty, TargetTy(f).value)]
    ensures r.Ok? && f.from.None? && f.tryFrom.Some? ==>
              var t := TargetTy(f).value;
              r.value[1..] == [FieldTryFrom(f.ty, t), ErrorFromTryFromError(f.ty, t), TryFromErrorDebug(f.ty, t)]
  {
    match TargetTy(f)
    case Err(e) => Err(e)
    case Ok(t) =>
      var base := if f.flatten then TargetFromRow(t) else TargetFromSql(t);
      if f.from.Some? then Ok([base, FieldFrom(f.ty, t)])
      else if f.tryFrom.Some? then Ok([base, FieldTryFrom(f.ty, t), ErrorFromTryFromError(f.ty, t), TryFromErrorDebug(f.ty, t)])
      else Ok([base])
  }

  /** `SqliteField::add_predicates`, pushing onto the caller's list. */
  method AddPredicates(f: SqliteField, predicates: seq<Bound>) returns (r: Result<seq<Bound>>)
    ensures r.Err? ==> TargetTy(f).Err? && r == Err(TargetTy(f).failure) && FieldBounds(f).Err?
    ensures r.Ok? ==> FieldBounds(f).Ok? && r.value == predicates + FieldBounds(f).value
  {
    var t := TargetTy(f);
    if t.Err? {
      return Err(t.failure);
    }
    var target := t.value;
    var ps := predicates;
    if f.flatten {
      ps := ps + [TargetFromRow(target)];
    } else {
      ps := ps + [TargetFromSql(target)];
    }
    if f.from.Some? {
      ps := ps + [FieldFrom(f.ty, target)];
    } else if f.tryFrom.Some? {
      ps := ps + [FieldTryFrom(f.ty, target)];
      ps := ps + [ErrorFromTryFromError(f.ty, target)];
      ps := ps + [TryFromErrorDebug(f.ty, target)];
    }
    return Ok(ps);
  }

  /** The bounds of `fs` in order, or the first field's error. */
  function BoundsOf(fs: seq<SqliteField>): Result<seq<Bound>> {
    if fs == [] then Ok([])
    else
      match BoundsOf(fs[..|fs| - 1])
      case Err(e) => Err(e)
      case Ok(p) =>
        match FieldBounds(fs[|fs| - 1])
        case Err(e) => Err(e)
        case Ok(b) => Ok(p + b)
  }

  lemma {:induction false} BoundsOfStopsAtError(fs: seq<SqliteField>, k: nat)
    requires k <= |fs| && BoundsOf(fs[..k]).Err?
    ensures BoundsOf(fs) == BoundsOf(fs[..k])
  {
    if k < |fs| {
      var init := fs[..|fs| - 1];
      assert init[..k] == fs[..k];
      BoundsOfStopsAtError(init, k);
    } else {
      assert fs[..k] == fs;
    }
  }

  /** `DeriveFromRow::predicates`: the fields without `skip`, in order, each
      pushing its bounds, returning at the first error. */
  method Predicates(d: DeriveInput) returns (r: Result<seq<Bound>>)
    ensures r == BoundsOf(Fields(d))
  {
    r := PredicatesOf(Fields(d));
  }

  /** The loop of `predicates`, over the fields it is given. */
  method PredicatesOf(fs: seq<SqliteField>) returns (r: Result<seq<Bound>>)
    ensures r == BoundsOf(fs)
  {
    var predicates: seq<Bound> := [];
    var i := 0;
    while i < |fs|
      invariant 0 <= i <= |fs|
      invariant BoundsOf(fs[..i]) == Ok(predicates)
    {
      var next := AddPredicates(fs[i], predicates);
      assert fs[..i + 1][..i] == fs[..i];
      if next.Err? {
        BoundsOfStopsAtError(fs, i + 1);
        return next;
      }
      predicates := next.value;
      i := i + 1;
    }
    assert fs[..i] == fs;
    return Ok(predicates);
  }

  /** The number of base bounds in a list. */
  function BaseCount(bs: seq<Bound>): nat {
    if bs == [] then 0 else BaseCount(bs[..|bs| - 1]) + (if bs[|bs| - 1].IsBase() then 1 else 0)
  }

  function TotalExtraBounds(fs: seq<SqliteField>): nat {
    if fs == [] then 0 else TotalExtraBounds(fs[..|fs| - 1]) + ExtraBounds(fs[|fs| - 1])
  }

  lemma {:induction false} BaseCountConcat(a: seq<Bound>, b: seq<Bound>)
    ensures BaseCount(a + b) == BaseCount(a) + BaseCount(b)
  {
    if b == [] {
      assert a + b == a;
    } else {
      assert (a + b)[..|a + b| - 1] == a + b[..|b| - 1];
      BaseCountConcat(a, b[..|b| - 1]);
    }
  }

  lemma {:induction false} FieldBaseCount(bs: seq<Bound>, n: nat)
    requires 0 < n <= |bs| && bs[0].IsBase() && forall i | 1 <= i < |bs| :: !bs[i].IsBase()
    ensures BaseCount(bs[..n]) == 1
  {
    if n > 1 {
      assert bs[..n][..n - 1] == bs[..n - 1];
      FieldBaseCount(bs, n - 1);
    } else {
      assert bs[..1][..0] == [];
    }
  }

  /** The bounds hold exactly one base bound per field (FromRow when it is
      flattened, FromSql otherwise), and 1 more per `from` field and 3 more
      per `try_from` field. The list succeeds exactly when every target type
      does. */
  lemma {:induction false} BoundsCount(fs: seq<SqliteField>)
    ensures BoundsOf(fs).Ok? <==> forall i | 0 <= i < |fs| :: TargetTy(fs[i]).Ok?
    ensures BoundsOf(fs).Ok? ==> BaseCount(BoundsOf(fs).value) == |fs|
    ensures BoundsOf(fs).Ok? ==> |BoundsOf(fs).value| == |fs| + TotalExtraBounds(fs)
  {
    if fs != [] {
      var init, last := fs[..|fs| - 1], fs[|fs| - 1];
      BoundsCount(init);
      assert forall i | 0 <= i < |init| :: init[i] == fs[i];
      if BoundsOf(fs).Ok? {
        var b := FieldBounds(last).value;
        BaseCountConcat(BoundsOf(init).value, b);
        FieldBaseCount(b, |b|);
        assert b[..|b|] == b;
      }
    }
  }

  // ---------------------------------------------------------------------
  // Generated null tests and field initialisers

  /** The prefix a flattened field hands to the nested `FromRow`: the outer
      `prefix` unchanged, or `Some(prefix.unwrap_or("") + p)`. */
  datatype PrefixArg = OuterPrefix | Extended(prefix: string)

  function PrefixArgOf(f: SqliteField): PrefixArg {
    match f.prefix
    case None => OuterPrefix
    case Some(p) => Extended(p)
  }

  /** One conjunct of `is_all_null`. */
  datatype NullTest =
    | NestedAllNull(target: Target, prefix: PrefixArg)  // `T::is_all_null(row, prefix')?`
    | ColumnIsNull(column: string)                      // the column under `prefix` is NULL

  /** `SqliteField::generate_is_all_null`: the column name is computed first
      (panicking for an unnamed field without `rename`), then the target. */
  function IsAllNullTest(f: SqliteField): (r: Result<NullTest>)
    ensures r.Err? <==> ColumnName(f).Err? || TargetTy(f).Err?
    ensures r.Ok? && f.flatten ==> r.value == NestedAllNull(TargetTy(f).value, PrefixArgOf(f))
    ensures r.Ok? && !f.flatten ==> r.value == ColumnIsNull(ColumnName(f).value)
  {
    match ColumnName(f)
    case Err(e) => Err(e)
    case Ok(column) =>
      match TargetTy(f)
      case Err(e) => Err(e)
      case Ok(t) => if f.flatten then Ok(NestedAllNull(t, PrefixArgOf(f))) else Ok(ColumnIsNull(column))
  }

  /** Where a field's value is read from. */
  datatype Read =
    | NestedRead(target: Target, prefix: PrefixArg)  // `T::try_from_row_prefixed(row, prefix')?`
    | ColumnRead(column: string, target: Target)     // `row.get::<&str, T>(prefix + column)?`

  /** What is applied to the value read. */
  datatype Conversion =
    | Direct
    | ViaFrom(field: Type, target: Target)     // `<F as From<T>>::from(..)`
    | ViaTryFrom(field: Type, target: Target)  // `<F as TryFrom<T>>::try_from(..)?`

  datatype Init = DefaultValue | Converted(read: Read, conversion: Conversion)

  /** One `ident: expr` of the struct literal. */
  datatype FieldInit = FieldInit(ident: string, init: Init)

  /** `SqliteField::generate_try_from_row`: the identifier is unwrapped
      first; a skipped field is `Default::default()`; otherwise the column
      name and the target are computed, the read is chosen by `flatten`, and
      `from` (else `try_from`) wraps it in a conversion. */
  function TryFromRowInit(f: SqliteField): (r: Result<FieldInit>)
    ensures r.Err? <==> f.ident.None? || (f.skip.None? && TargetTy(f).Err?)
    ensures r.Ok? ==> r.value.ident == f.ident.value
    ensures r.Ok? ==> (r.value.init.DefaultValue? <==> f.skip.Some?)
    ensures r.Ok? && f.skip.None? ==>
              r.value.init.read == if f.flatten then NestedRead(TargetTy(f).value, PrefixArgOf(f))
                                   else ColumnRead(ColumnName(f).value, TargetTy(f).value)
    ensures r.Ok? && f.skip.None? ==>
              r.value.init.conversion == if f.from.Some? then ViaFrom(f.ty, TargetTy(f).value)
                                         else if f.tryFrom.Some? then ViaTryFrom(f.ty, TargetTy(f).value)
                                         else Direct
  {
    match f.ident
    case None => Err(Panic(UnwrapNone))
    case Some(id) =>
      if f.skip.Some? then Ok(FieldInit(id, DefaultValue))
      else
        var column := ColumnName(f).value;
        match TargetTy(f)
        case Err(e) => Err(e)
        case Ok(t) =>
          var base := if f.flatten then NestedRead(t, PrefixArgOf(f)) else ColumnRead(column, t);
          var conversion := if f.from.Some? then ViaFrom(f.ty, t) else if f.tryFrom.Some? then ViaTryFrom(f.ty, t) else Direct;
          Ok(FieldInit(id, Converted(base, conversion)))
  }

  /** The generated `impl FromRow`. */
  datatype FromRowImpl = FromRowImpl(
    ident: string,
    predicates: seq<Bound>,
    isAllNull: seq<NullTest>,
    fields: seq<FieldInit>)

  /** The null tests of `fs`, in order, or the first field's error. */
  function NullTests(fs: seq<SqliteField>): (r: Result<seq<NullTest>>)
    ensures r.Ok? <==> forall i | 0 <= i < |fs| :: IsAllNullTest(fs[i]).Ok?
    ensures r.Ok? ==> |r.value| == |fs| && forall i | 0 <= i < |fs| :: r.value[i] == IsAllNullTest(fs[i]).value
  {
    var tests := seq(|fs|, i requires 0 <= i < |fs| => IsAllNullTest(fs[i]));
    assert forall i | 0 <= i < |fs| :: tests[i] == IsAllNullTest(fs[i]);
    Collect(tests)
  }

  /** The initialisers of `fs`, in order, or the first field's error. */
  function Inits(fs: seq<SqliteField>): (r: Result<seq<FieldInit>>)
    ensures r.Ok? <==> forall i | 0 <= i < |fs| :: TryFromRowInit(fs[i]).Ok?
    ensures r.Ok? ==> |r.value| == |fs| && forall i | 0 <= i < |fs| :: r.value[i] == TryFromRowInit(fs[i]).value
  {
    var inits := seq(|fs|, i requires 0 <= i < |fs| => TryFromRowInit(fs[i]));
    assert forall i | 0 <= i < |fs| :: inits[i] == TryFromRowInit(fs[i]);
    Collect(inits)
  }

  /** What `generate` produces: validation first, then the bounds, then the
      null tests of the fields without `skip`, then the initialisers of all
      fields; the first failure in that order is the outcome. */
  function Generated(d: DeriveInput): (r: Result<FromRowImpl>)
  {
    match ValidateAll(Fields(d))
    case Err(e) => Err(e)
    case Ok(_) =>
      match BoundsOf(Fields(d))
      case Err(e) => Err(e)
      case Ok(predicates) =>
        match NullTests(Fields(d))
        case Err(e) => Err(e)
        case Ok(tests) =>
          match Inits(d.fields)
          case Err(e) => Err(e)
          case Ok(inits) => Ok(FromRowImpl(d.ident, predicates, tests, inits))
  }

  /** `DeriveFromRow::generate`. */
  method Generate(d: DeriveInput) returns (r: Result<FromRowImpl>)
    ensures r == Generated(d)
  {
    var valid := Validate(d);
    if valid.Err? {
      return Err(valid.failure);
    }
    var predicates := Predicates(d);
    if predicates.Err? {
      return Err(predicates.failure);
    }
    var tests := NullTests(Fields(d));
    if tests.Err? {
      return Err(tests.failure);
    }
    var inits := Inits(d.fields);
    if inits.Err? {
      return Err(inits.failure);
    }
    return Ok(FromRowImpl(d.ident, predicates.value, tests.value, inits.value));
  }

  /** The null tests succeed exactly when every field has a column name and
      a target type. */
  lemma NullTestsSucceed(fs: seq<SqliteField>)
    ensures NullTests(fs).Ok? <==> forall i | 0 <= i < |fs| :: ColumnName(fs[i]).Ok? && TargetTy(fs[i]).Ok?
  {
  }

  /** The initialisers succeed exactly when every field is named and every
      field without `skip` has a target type. */
  lemma InitsSucceed(fs: seq<SqliteField>)
    ensures Inits(fs).Ok? <==> forall i | 0 <= i < |fs| :: fs[i].ident.Some? && (fs[i].skip.None? ==> TargetTy(fs[i]).Ok?)
  {
  }

  /** `generate` succeeds exactly when every field without `skip` is valid,
      has a target type and a column name, and every field is named. */
  lemma GeneratedSucceeds(d: DeriveInput)
    ensures Generated(d).Ok? <==>
              (forall i | 0 <= i < |Fields(d)| ::
                 ValidateField(Fields(d)[i]).Ok? && TargetTy(Fields(d)[i]).Ok? && ColumnName(Fields(d)[i]).Ok?)
              && (forall i | 0 <= i < |d.fields| :: d.fields[i].ident.Some?)
  {
    var fs := Fields(d);
    BoundsCount(fs);
    NullTestsSucceed(fs);
    InitsSucceed(d.fields);
    if (forall i | 0 <= i < |fs| :: TargetTy(fs[i]).Ok?) && (forall i | 0 <= i < |d.fields| :: d.fields[i].ident.Some?) {
      forall i | 0 <= i < |d.fields| && d.fields[i].skip.None? ensures TargetTy(d.fields[i]).Ok? {
        UnskippedMembers(d.fields, d.fields[i]);
      }
    }
  }

  /** The shape of a successful `generate`: one null test per field without
      `skip`, one initialiser per field, in declaration order; a skipped
      field is initialised with its default, any other is read. */
  lemma GeneratedShape(d: DeriveInput)
    requires Generated(d).Ok?
    ensures |Generated(d).value.isAllNull| == |Fields(d)|
    ensures forall i | 0 <= i < |Fields(d)| ::
              IsAllNullTest(Fields(d)[i]).Ok? && Generated(d).value.isAllNull[i] == IsAllNullTest(Fields(d)[i]).value
    ensures |Generated(d).value.fields| == |d.fields|
    ensures forall i | 0 <= i < |d.fields| ::
              && TryFromRowInit(d.fields[i]).Ok?
              && Generated(d).value.fields[i] == TryFromRowInit(d.fields[i]).value
              && Generated(d).value.fields[i].ident == d.fields[i].ident.value
              && (Generated(d).value.fields[i].init.DefaultValue? <==> d.fields[i].skip.Some?)
  {
  }

  /** The first failure decides: a validation error is reported before any
      bound error, and a bound error before any null-test or initialiser
      error; a generated impl is named after the struct and carries the
      bounds of the fields without `skip`. */
  lemma GeneratedErrorOrder(d: DeriveInput)
    ensures ValidateAll(Fields(d)).Err? ==> Generated(d) == Err(ValidateAll(Fields(d)).failure)
    ensures ValidateAll(Fields(d)).Ok? && BoundsOf(Fields(d)).Err? ==> Generated(d) == Err(BoundsOf(Fields(d)).failure)
    ensures Generated(d).Ok? ==> BoundsOf(Fields(d)) == Ok(Generated(d).value.predicates)
    ensures Generated(d).Ok? ==> Generated(d).value.ident == d.ident
  {
  }

  // ---------------------------------------------------------------------
  // Column keys at run time

  /** The prefix the nested call receives, given the one this call received. */
  function EffectivePrefix(outer: Option<string>, p: PrefixArg): Option<string> {
    match p
    case OuterPrefix => outer
    case Extended(s) => Some(outer.GetOr("") + s)
  }

  /** The key a column is read under: `prefix.unwrap_or("") + column`. */
  function ColumnKey(outer: Option<string>, column: string): string {
    outer.GetOr("") + column
  }

  /** The prefix reached through a chain of flattened fields. */
  function Nest(outer: Option<string>, chain: seq<PrefixArg>): Option<string>
    decreases |chain|
  {
    if chain == [] then outer else Nest(EffectivePrefix(outer, chain[0]), chain[1..])
  }

  /** The `prefix` attributes along a chain, concatenated. */
  function Extensions(chain: seq<PrefixArg>): string {
    if chain == [] then ""
    else (match chain[0] case OuterPrefix => "" case Extended(s) => s) + Extensions(chain[1..])
  }

  /** Nested prefixes concatenate: through a chain of flattened fields, a
      column is read under the outer prefix, then every `prefix` along the
      chain in order, then its own name; a flattened field without `prefix`
      adds nothing. */
  lemma {:induction false} NestedKeysConcatenate(outer: Option<string>, chain: seq<PrefixArg>, column: string)
    ensures Nest(outer, chain).GetOr("") == outer.GetOr("") + Extensions(chain)
    ensures ColumnKey(Nest(outer, chain), column) == outer.GetOr("") + Extensions(chain) + column
    decreases |chain|
  {
    if chain != [] {
      NestedKeysConcatenate(EffectivePrefix(outer, chain[0]), chain[1..], column);
    }
  }

  /** The reads of a generated `try_from_row_prefixed`, with the nested
      impls of flattened fields filled in. */
  datatype Plan =
    | Done
    | Column(column: string, rest: Plan)
    | Nested(prefix: PrefixArg, inner: Plan, rest: Plan)

  /** The column keys a plan reads, in order, when called with `outer`. */
  function Keys(plan: Plan, outer: Option<string>): seq<string> {
    match plan
    case Done => []
    case Column(c, rest) => [ColumnKey(outer, c)] + Keys(rest, outer)
    case Nested(p, inner, rest) => Keys(inner, EffectivePrefix(outer, p)) + Keys(rest, outer)
  }

  /** Calling with a prefix reads the same columns as calling without one,
      each under that prefix. */
  lemma {:induction false} KeysUnderPrefix(plan: Plan, outer: Option<string>)
    ensures |Keys(plan, outer)| == |Keys(plan, None)|
    ensures forall i | 0 <= i < |Keys(plan, outer)| :: Keys(plan, outer)[i] == outer.GetOr("") + Keys(plan, None)[i]
  {
    match plan
    case Done =>
    case Column(c, rest) =>
      KeysUnderPrefix(rest, outer);
    case Nested(p, inner, rest) =>
      KeysUnderPrefix(inner, EffectivePrefix(outer, p));
      KeysUnderPrefix(inner, EffectivePrefix(None, p));
      KeysUnderPrefix(rest, outer);
      assert EffectivePrefix(outer, p).GetOr("") == outer.GetOr("") + EffectivePrefix(None, p).GetOr("");
      var a, b := Keys(inner, EffectivePrefix(outer, p)), Keys(inner, EffectivePrefix(None, p));
      forall i | 0 <= i < |a| ensures a[i] == outer.GetOr("") + b[i] {
        var k := Keys(inner, None)[i];
        calc {
          a[i];
          EffectivePrefix(outer, p).GetOr("") + k;
          outer.GetOr("") + EffectivePrefix(None, p).GetOr("") + k;
          outer.GetOr("") + (EffectivePrefix(None, p).GetOr("") + k);
          outer.GetOr("") + b[i];
        }
      }
  }

  /** The plan of a generated initialiser list: skipped fields read nothing,
      a column read reads its column, and a flattened field runs the plan of
      its target's impl (`impls`; an unknown target reads nothing). */
  function PlanOf(inits: seq<FieldInit>, impls: map<Target, Plan>): Plan {
    if inits == [] then Done
    else
      var rest := PlanOf(inits[1..], impls);
      match inits[0].init
      case DefaultValue => rest
      case Converted(ColumnRead(c, _), _) => Column(c, rest)
      case Converted(NestedRead(t, p), _) => Nested(p, if t in impls then impls[t] else Done, rest)
  }

  /** The reads of a generated `is_all_null`: a column test reads its column
      under the prefix, and a nested test runs the `is_all_null` of the
      nested impl, whose reads `impls` gives (an unknown target reads
      nothing). */
  function NullPlanOf(tests: seq<NullTest>, impls: map<Target, Plan>): Plan {
    if tests == [] then Done
    else
      var rest := NullPlanOf(tests[1..], impls);
      match tests[0]
      case ColumnIsNull(c) => Column(c, rest)
      case NestedAllNull(t, p) => Nested(p, if t in impls then impls[t] else Done, rest)
  }

  lemma {:induction false} NullTestsFollowInits(fs: seq<SqliteField>, impls: map<Target, Plan>)
    requires NullTests(Unskipped(fs)).Ok? && Inits(fs).Ok?
    ensures NullPlanOf(NullTests(Unskipped(fs)).value, impls) == PlanOf(Inits(fs).value, impls)
  {
    if fs != [] {
      var f, tail := fs[0], fs[1..];
      assert forall i | 0 <= i < |tail| :: tail[i] == fs[i + 1];
      assert Inits(tail).value == Inits(fs).value[1..];
      if f.skip.Some? {
        assert Unskipped(fs) == Unskipped(tail);
      } else {
        var us, ut := Unskipped(fs), Unskipped(tail);
        assert us == [f] + ut;
        assert forall i | 0 <= i < |ut| :: ut[i] == us[i + 1];
        assert NullTests(ut).value == NullTests(us).value[1..];
      }
      NullTestsFollowInits(tail, impls);
    }
  }

  /** `is_all_null` tests exactly the columns `try_from_row_prefixed` reads
      (the two lists `generate` emits once both succeed), in the same order
      and under the same prefixes: skipped fields take part
      in neither, and a flattened field defers to the nested impl in both.
      With `impls` standing for the nested impls' reads, which this lemma
      makes the same for both functions, the keys coincide under any
      prefix. */
  lemma NullTestsReadInitColumns(d: DeriveInput, impls: map<Target, Plan>)
    requires NullTests(Fields(d)).Ok? && Inits(d.fields).Ok?
    ensures NullPlanOf(NullTests(Fields(d)).value, impls) == PlanOf(Inits(d.fields).value, impls)
    ensures forall outer: Option<string> ::
              Keys(NullPlanOf(NullTests(Fields(d)).value, impls), outer) == Keys(PlanOf(Inits(d.fields).value, impls), outer)
    ensures Generated(d).Ok? ==>
              NullPlanOf(Generated(d).value.isAllNull, impls) == PlanOf(Generated(d).value.fields, impls)
  {
    NullTestsFollowInits(d.fields, impls);
  }
}
