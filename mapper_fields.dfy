/** A struct field and its `#[rusqlite(..)]` attributes, as the
    rusqlite-mapper derives read them (rusqlite-mapper-derive/src/fields.rs). */
module MapperFields {
  import opened Wrappers
  import opened Syntax

  /** A type given as an attribute string (`from = ".."`, `try_from = ".."`),
      with whether parsing it into tokens succeeds. */
  datatype AttrType = AttrType(text: string, tokenizes: bool)

  /** `SqliteField`. `flatten` defaults to false; the marker attributes
      are present or absent. */
  datatype SqliteField = SqliteField(
    ident: Option<string>,
    ty: Type,
    flatten: bool,
    prefix: Option<string>,
    tryFrom: Option<AttrType>,
    from: Option<AttrType>,
    rename: Option<string>,
    primaryKey: Option<()>,
    skip: Option<()>,
    value: Option<()>)

  /** The struct a derive is applied to: its identifier and named fields. */
  datatype DeriveInput = DeriveInput(ident: string, fields: seq<SqliteField>)

  /** `column_name`: the `rename` value if set, else the field identifier;
      unwrapping a missing identifier panics. */
  function ColumnName(f: SqliteField): (r: Result<string>)
    ensures f.rename.Some? ==> r == Ok(f.rename.value)
    ensures f.rename.None? && f.ident.Some? ==> r == Ok(f.ident.value)
    ensures r.Err? <==> f.rename.None? && f.ident.None?
    ensures r.Err? ==> r.failure == Panic(UnwrapNone)
  {
    match f.rename
    case Some(name) => Ok(name)
    case None =>
      match f.ident
      case Some(id) => Ok(id)
      case None => Err(Panic(UnwrapNone))
  }

  /** `is_primary_key`. */
  function IsPrimaryKey(f: SqliteField): (r: bool)
    ensures r <==> f.primaryKey.Some?
  {
    f.primaryKey.Some?
  }

  /** `fields()` of both derives: the fields without `skip`, in order. */
  function Unskipped(fs: seq<SqliteField>): (r: seq<SqliteField>)
    ensures |r| <= |fs|
    ensures forall i | 0 <= i < |r| :: r[i].skip.None?
  {
    if fs == [] then []
    else (if fs[0].skip.None? then [fs[0]] else []) + Unskipped(fs[1..])
  }

  /** Filtering distributes over concatenation; with `UnskippedSingle` this
      pins `Unskipped` down as the order-preserving filter. */
  lemma {:induction false} UnskippedConcat(a: seq<SqliteField>, b: seq<SqliteField>)
    ensures Unskipped(a + b) == Unskipped(a) + Unskipped(b)
  {
    if a == [] {
      assert a + b == b;
    } else {
      var head := if a[0].skip.None? then [a[0]] else [];
      assert (a + b)[0] == a[0];
      assert (a + b)[1..] == a[1..] + b;
      UnskippedConcat(a[1..], b);
      calc {
        Unskipped(a + b);
        head + Unskipped(a[1..] + b);
        head + (Unskipped(a[1..]) + Unskipped(b));
        head + Unskipped(a[1..]) + Unskipped(b);
      }
    }
  }

  /** One field is kept exactly when it is not skipped. */
  lemma UnskippedSingle(f: SqliteField)
    ensures Unskipped([f]) == if f.skip.None? then [f] else []
  {
    assert [f][1..] == [];
  }

  /** With no `skip` anywhere, every field is kept. */
  lemma {:induction false} UnskippedAll(fs: seq<SqliteField>)
    requires forall i | 0 <= i < |fs| :: fs[i].skip.None?
    ensures Unskipped(fs) == fs
  {
    if fs != [] {
      UnskippedAll(fs[1..]);
      assert fs == [fs[0]] + fs[1..];
    }
  }

  /** A field is kept exactly when it is in the struct and not skipped. */
  lemma {:induction false} UnskippedMembers(fs: seq<SqliteField>, g: SqliteField)
    ensures g in Unskipped(fs) <==> g in fs && g.skip.None?
  {
    if fs != [] {
      UnskippedMembers(fs[1..], g);
      assert fs == [fs[0]] + fs[1..];
    }
  }

  /** `DeriveToRow::fields` and `DeriveFromRow::fields`, which are the same
      filter: the struct's fields without `skip`, in declaration order. */
  function Fields(d: DeriveInput): (r: seq<SqliteField>)
    ensures forall g :: g in r <==> g in d.fields && g.skip.None?
  {
    assert forall g :: g in Unskipped(d.fields) <==> g in d.fields && g.skip.None? by {
      forall g ensures g in Unskipped(d.fields) <==> g in d.fields && g.skip.None? {
        UnskippedMembers(d.fields, g);
      }
    }
    Unskipped(d.fields)
  }
}
