/** The statement builders of the `ToRow` trait (src/to_row.rs): given what
    an implementation supplies (table name, column names, and one
    (type name, optional, primary key) triple per column), they assemble
    `CREATE TABLE`, `INSERT` and upsert statements. */
module ToRowTrait {

  /** One entry of `sql_types()`. */
  datatype SqlType = SqlType(name: string, optional: bool, primaryKey: bool)

  /** What an implementation of the trait supplies to the builders. */
  datatype TableSchema = TableSchema(tableName: string, columnNames: seq<string>, sqlTypes: seq<SqlType>)

  const Separator: string := ", "

  /** `[..].join(sep)`. */
  function Join(parts: seq<string>, sep: string): string {
    if |parts| == 0 then ""
    else if |parts| == 1 then parts[0]
    else parts[0] + sep + Join(parts[1..], sep)
  }

  /** The definition of one column, as the closure of `create_table_statement`
      writes it: name, a space, the type, then the constraint. */
  function ColumnDefinition(name: string, t: SqlType): string {
    name + " " + t.name + (if t.primaryKey then " PRIMARY KEY" else if !t.optional then " NOT NULL" else "")
  }

  /** Column names zipped with their types: as many definitions as the
      shorter list has entries, in declaration order. */
  function ColumnDefinitions(names: seq<string>, types: seq<SqlType>): (defs: seq<string>)
    ensures |defs| == if |names| <= |types| then |names| else |types|
    ensures forall i | 0 <= i < |defs| :: defs[i] == ColumnDefinition(names[i], types[i])
  {
    if names == [] || types == [] then []
    else [ColumnDefinition(names[0], types[0])] + ColumnDefinitions(names[1..], types[1..])
  }

  function CreateTableSql(s: TableSchema): string {
    "CREATE TABLE " + s.tableName + " (" + Join(ColumnDefinitions(s.columnNames, s.sqlTypes), Separator) + ")"
  }

  /** One `?` per column. */
  function Placeholders(n: nat): seq<string> {
    seq(n, _ => "?")
  }

  function InsertSql(s: TableSchema): string {
    "INSERT INTO " + s.tableName + " (" + Join(s.columnNames, Separator) + ") VALUES ("
    + Join(Placeholders(|s.columnNames|), Separator) + ")"
  }

  /** `c = excluded.c`: on conflict, column c takes the value that was to be inserted. */
  function Assignment(column: string): string {
    column + " = excluded." + column
  }

  function Assignments(names: seq<string>): seq<string> {
    seq(|names|, i requires 0 <= i < |names| => Assignment(names[i]))
  }

  function UpsertSql(s: TableSchema, id: string): string {
    InsertSql(s) + " ON CONFLICT (" + id + ") DO UPDATE SET " + Join(Assignments(s.columnNames), Separator)
  }

  /** `create_table_statement`, pushing onto one string as the source does. */
  method CreateTableStatement(s: TableSchema) returns (stmt: string)
    ensures stmt == CreateTableSql(s)
  {
    stmt := "CREATE TABLE ";
    stmt := stmt + s.tableName;
    stmt := stmt + " (";
    stmt := stmt + Join(ColumnDefinitions(s.columnNames, s.sqlTypes), Separator);
    stmt := stmt + ")";
  }

  /** `insert_stmt`. */
  method InsertStmt(s: TableSchema) returns (stmt: string)
    ensures stmt == InsertSql(s)
  {
    stmt := "INSERT INTO ";
    stmt := stmt + s.tableName;
    stmt := stmt + " (";
    stmt := stmt + Join(s.columnNames, Separator);
    stmt := stmt + ") VALUES (";
    stmt := stmt + Join(Placeholders(|s.columnNames|), Separator);
    stmt := stmt + ")";
  }

  /** `upsert_stmt(id)`: the insert statement, extended in place. */
  method UpsertStmt(s: TableSchema, id: string) returns (stmt: string)
    ensures InsertSql(s) <= stmt
    ensures stmt == UpsertSql(s, id)
  {
    stmt := InsertStmt(s);
    stmt := stmt + " ON CONFLICT (";
    stmt := stmt + id;
    stmt := stmt + ") DO UPDATE SET ";
    stmt := stmt + Join(Assignments(s.columnNames), Separator);
  }

  // ---------------------------------------------------------------------
  // Reading a comma-separated list back

  /** The position of the first comma, or `|s|` when there is none. */
  function CommaIndex(s: string): (k: nat)
    ensures k <= |s|
    ensures k < |s| ==> s[k] == ','
    ensures forall j | 0 <= j < k :: s[j] != ','
  {
    if s == [] then 0
    else if s[0] == ',' then 0
    else 1 + CommaIndex(s[1..])
  }

  /** Cuts a list written with `Join(_, ", ")` back into its entries. */
  function SplitList(s: string): seq<string>
    decreases |s|
  {
    if s == [] then []
    else
      var k := CommaIndex(s);
      if k == |s| then [s]
      else [s[..k]] + SplitList(s[if k + 2 <= |s| then k + 2 else |s|..])
  }

  /** Entries that a `", "`-joined list can carry without ambiguity. */
  ghost predicate CommaFree(parts: seq<string>) {
    forall i | 0 <= i < |parts| :: parts[i] != [] && ',' !in parts[i]
  }

  /** The number of occurrences of `c` in `s`. */
  function Count(s: string, c: char): nat {
    if s == [] then 0 else (if s[0] == c then 1 else 0) + Count(s[1..], c)
  }

  // ---------------------------------------------------------------------
  // Properties

  /** Joining and splitting are inverse: the list in a statement carries
      exactly the given entries, in order. */
  lemma {:induction false} SplitJoin(parts: seq<string>)
    requires CommaFree(parts)
    ensures SplitList(Join(parts, Separator)) == parts
  {
    if |parts| == 1 {
      var p := parts[0];
      forall j | 0 <= j < |p| ensures p[j] != ',' { assert p[j] in p; }
    } else if |parts| > 1 {
      var p, rest := parts[0], Join(parts[1..], Separator);
      var s := p + Separator + rest;
      var k := CommaIndex(s);
      forall j | 0 <= j < |p| ensures s[j] != ',' { assert s[j] == p[j] && p[j] in p; }
      assert s[|p|] == ',';
      assert k == |p|;
      assert s[..k] == p;
      assert s[k + 2..] == rest;
      SplitJoin(parts[1..]);
    }
  }

  lemma {:induction false} CountConcat(a: string, b: string, c: char)
    ensures Count(a + b, c) == Count(a, c) + Count(b, c)
  {
    if a == [] {
      assert a + b == b;
    } else {
      assert (a + b)[0] == a[0];
      assert (a + b)[1..] == a[1..] + b;
      CountConcat(a[1..], b, c);
    }
  }

  lemma {:induction false} CountAbsent(s: string, c: char)
    requires c !in s
    ensures Count(s, c) == 0
  {
    if s != [] {
      assert forall x | x in s[1..] :: x in s;
      CountAbsent(s[1..], c);
    }
  }

  /** A joined list holds `c` only where its entries or separators do. */
  lemma {:induction false} JoinAbsent(parts: seq<string>, sep: string, c: char)
    requires c !in sep
    requires forall i | 0 <= i < |parts| :: c !in parts[i]
    ensures c !in Join(parts, sep)
  {
    if |parts| > 1 {
      JoinAbsent(parts[1..], sep, c);
    }
  }

  /** The values list holds exactly n placeholders. */
  lemma {:induction false} PlaceholderCount(n: nat)
    ensures Count(Join(Placeholders(n), Separator), '?') == n
  {
    if n == 1 {
      assert Join(Placeholders(1), Separator) == "?";
    } else if n > 1 {
      assert Placeholders(n)[1..] == Placeholders(n - 1);
      PlaceholderCount(n - 1);
      CountConcat("?" + Separator, Join(Placeholders(n - 1), Separator), '?');
      assert Count("?" + Separator, '?') == 1;
    }
  }

  /** When no name contains `?`, an insert statement has exactly one
      placeholder per column. */
  lemma InsertPlaceholderCount(s: TableSchema)
    requires '?' !in s.tableName
    requires forall i | 0 <= i < |s.columnNames| :: '?' !in s.columnNames[i]
    ensures Count(InsertSql(s), '?') == |s.columnNames|
  {
    var names := Join(s.columnNames, Separator);
    var marks := Join(Placeholders(|s.columnNames|), Separator);
    var middle := "INSERT INTO " + s.tableName + " (" + names + ") VALUES (";
    assert '?' !in middle by {
      JoinAbsent(s.columnNames, Separator, '?');
    }
    CountAbsent(middle, '?');
    PlaceholderCount(|s.columnNames|);
    CountConcat(middle, marks, '?');
    CountConcat(middle + marks, ")", '?');
  }

  /** The column list of an insert names the columns in order, and its values
      list is one `?` per column. */
  lemma InsertLists(s: TableSchema)
    requires CommaFree(s.columnNames)
    ensures SplitList(Join(s.columnNames, Separator)) == s.columnNames
    ensures SplitList(Join(Placeholders(|s.columnNames|), Separator)) == Placeholders(|s.columnNames|)
  {
    SplitJoin(s.columnNames);
    SplitJoin(Placeholders(|s.columnNames|));
  }

  /** An upsert is the insert statement followed by the conflict clause,
      whose update list assigns every column from `excluded`, in order. */
  lemma UpsertExtendsInsert(s: TableSchema, id: string)
    requires CommaFree(s.columnNames)
    ensures InsertSql(s) <= UpsertSql(s, id)
    ensures UpsertSql(s, id)[|InsertSql(s)|..] == " ON CONFLICT (" + id + ") DO UPDATE SET " + Join(Assignments(s.columnNames), Separator)
    ensures SplitList(Join(Assignments(s.columnNames), Separator)) == Assignments(s.columnNames)
    ensures forall i | 0 <= i < |s.columnNames| :: Assignments(s.columnNames)[i] == s.columnNames[i] + " = excluded." + s.columnNames[i]
  {
    var a := Assignments(s.columnNames);
    forall i | 0 <= i < |a| ensures a[i] != [] && ',' !in a[i] {
      var c := s.columnNames[i];
      assert a[i] == c + " = excluded." + c;
      forall j | 0 <= j < |a[i]| ensures a[i][j] != ',' {
        if j < |c| { assert a[i][j] == c[j] && c[j] in c; }
        else if j < |c| + 12 { assert a[i][j] == " = excluded."[j - |c|]; }
        else { assert a[i][j] == c[j - |c| - 12] && c[j - |c| - 12] in c; }
      }
    }
    SplitJoin(a);
  }

  /** The column list of `CREATE TABLE` holds the zipped definitions, in order. */
  lemma CreateTableColumns(s: TableSchema)
    requires CommaFree(s.columnNames)
    requires forall i | 0 <= i < |s.sqlTypes| :: ',' !in s.sqlTypes[i].name
    ensures SplitList(Join(ColumnDefinitions(s.columnNames, s.sqlTypes), Separator))
            == ColumnDefinitions(s.columnNames, s.sqlTypes)
  {
    var defs := ColumnDefinitions(s.columnNames, s.sqlTypes);
    forall i | 0 <= i < |defs| ensures defs[i] != [] && ',' !in defs[i] {
      var n, t := s.columnNames[i], s.sqlTypes[i];
      var suffix := if t.primaryKey then " PRIMARY KEY" else if !t.optional then " NOT NULL" else "";
      assert defs[i] == n + " " + t.name + suffix;
      assert n[0] == defs[i][0];
      forall j | 0 <= j < |defs[i]| ensures defs[i][j] != ',' {
        if j < |n| { assert defs[i][j] == n[j] && n[j] in n; }
        else if j == |n| { }
        else if j < |n| + 1 + |t.name| { assert defs[i][j] == t.name[j - |n| - 1] && t.name[j - |n| - 1] in t.name; }
        else { assert defs[i][j] == suffix[j - |n| - 1 - |t.name|]; }
      }
    }
    SplitJoin(defs);
  }

  /** The constraint of a column: PRIMARY KEY wins over NOT NULL, NOT NULL
      marks a required column, and an optional non-key column has none. */
  lemma ColumnConstraint(name: string, t: SqlType)
    ensures t.primaryKey ==> ColumnDefinition(name, t) == name + " " + t.name + " PRIMARY KEY"
    ensures !t.primaryKey && !t.optional ==> ColumnDefinition(name, t) == name + " " + t.name + " NOT NULL"
    ensures !t.primaryKey && t.optional ==> ColumnDefinition(name, t) == name + " " + t.name
    ensures t.primaryKey ==> ColumnDefinition(name, t) == ColumnDefinition(name, t.(optional := !t.optional))
  {
  }

  /** The text of a definition determines its column's constraint: two
      definitions of the same name and type agree on the key flag, and on
      the optional flag whenever the column is not a key. A key column's
      definition never ends in NOT NULL. */
  lemma DefinitionDeterminesConstraint(name: string, t1: SqlType, t2: SqlType)
    requires t1.name == t2.name
    requires ColumnDefinition(name, t1) == ColumnDefinition(name, t2)
    ensures t1.primaryKey == t2.primaryKey
    ensures !t1.primaryKey ==> t1.optional == t2.optional
  {
    var d := ColumnDefinition(name, t1);
    assert |d| == |name| + 1 + |t1.name| + (if t1.primaryKey then 12 else if !t1.optional then 9 else 0);
    assert |d| == |name| + 1 + |t2.name| + (if t2.primaryKey then 12 else if !t2.optional then 9 else 0);
  }

  lemma KeyColumnNotNullFree(name: string, t: SqlType)
    requires t.primaryKey
    ensures ColumnDefinition(name, t)[|ColumnDefinition(name, t)| - 9..] != " NOT NULL"
  {
    var d := ColumnDefinition(name, t);
    assert d[|d| - 9] == 'I';
  }
}
