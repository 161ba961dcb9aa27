/**
 * The SQL text generation of the SQL manager: the column type inferred from a Python value,
 * and the CREATE TABLE / INSERT INTO pair generated from a row dict.
 */
module Sql {
  import opened Wrappers
  import opened Text
  import opened PyDict

  /**
   * A Python value as far as the SQL text sees it. Floats and lists are carried with their
   * `str()` text, which the model does not compute; `Other` is any further type.
   */
  datatype PyValue =
    | PInt(i: int)
    | PBool(b: bool)
    | PFloat(floatText: string)
    | PStr(s: string)
    | PList(listText: string)
    | PNone
    | POther(typeName: string, otherText: string)

  datatype SqlError = UnsupportedType(typeName: string)

  /** A row: column names to values, in dict order. */
  type Row = Dict<string, PyValue>

  /**
   * `_infer_sql_type`. `bool` is a subclass of `int`, so the int test catches booleans first
   * and the BOOLEAN branch is never reached.
   */
  function InferSqlType(v: PyValue): (r: Result<string, SqlError>)
    ensures r.Err? <==> v.POther?
  {
    match v
    case PInt(_) => Ok("INT")
    case PBool(_) => Ok("INT")
    case PFloat(_) => Ok("REAL")
    case PStr(_) => Ok("VARCHAR(255)")
    case PList(_) => Ok("TEXT")
    case PNone => Ok("VARCHAR(255)")
    case POther(t, _) => Err(UnsupportedType(t))
  }

  /** No value ever gets a BOOLEAN column: booleans are INT columns. */
  lemma NoBooleanColumn(v: PyValue)
    ensures InferSqlType(v) != Ok("BOOLEAN")
    ensures v.PBool? ==> InferSqlType(v) == Ok("INT")
  {
  }

  /** `str(v)` for the values the INSERT prints unquoted. */
  function PyStr(v: PyValue): string
  {
    match v
    case PInt(i) => IntToString(i)
    case PBool(b) => if b then "True" else "False"
    case PFloat(t) => t
    case PStr(s) => s
    case PList(t) => t
    case PNone => "None"
    case POther(_, t) => t
  }

  /** One INSERT value (line 158): strings in single quotes with nothing escaped, None as NULL, anything else its `str()`. */
  function SqlLiteral(v: PyValue): (r: string)
    ensures v.PStr? ==> |r| == |v.s| + 2 && r[0] == '\'' && r[|r| - 1] == '\'' && r[1..|r| - 1] == v.s
    ensures v.PNone? ==> r == "NULL"
    ensures !v.PStr? && !v.PNone? ==> r == PyStr(v)
  {
    if v.PStr? then "'" + v.s + "'" else if v.PNone? then "NULL" else PyStr(v)
  }

  /** A string value with a quote in it ends the SQL literal early: its text holds more than the two enclosing quotes. */
  lemma QuoteIsNotEscaped(s: string, i: nat)
    requires i < |s| && s[i] == '\''
    ensures SqlLiteral(PStr(s))[i + 1] == '\'' && 0 < i + 1 < |SqlLiteral(PStr(s))| - 1
  {
  }

  /** The column definitions for the first columns of a row; the first unsupported value raises. */
  function ColumnDefs(row: Row): Result<seq<string>, SqlError>
  {
    if row == [] then Ok([])
    else
      var pre := ColumnDefs(row[..|row| - 1]);
      if pre.Err? then pre
      else
        var (k, v) := row[|row| - 1];
        match InferSqlType(v)
        case Err(e) => Err(e)
        case Ok(t) => Ok(pre.value + [k + " " + t])
  }

  /** The definitions exist exactly when every value is supported, and then there is one per column, in order: name, space, type. */
  lemma {:induction false} ColumnDefsFacts(row: Row)
    ensures ColumnDefs(row).Ok? <==> forall i :: 0 <= i < |row| ==> !row[i].1.POther?
    ensures ColumnDefs(row).Ok? ==>
              && |ColumnDefs(row).value| == |row|
              && forall i :: 0 <= i < |row| ==> ColumnDefs(row).value[i] == row[i].0 + " " + InferSqlType(row[i].1).value
  {
    if row != [] {
      var init := row[..|row| - 1];
      ColumnDefsFacts(init);
      assert forall i :: 0 <= i < |init| ==> init[i] == row[i];
    }
  }

  /** The loop of lines 150-153. */
  method ColumnDefinitions(row: Row) returns (r: Result<seq<string>, SqlError>)
    ensures r == ColumnDefs(row)
  {
    var defs: seq<string> := [];
    var i := 0;
    while i < |row|
      invariant 0 <= i <= |row|
      invariant ColumnDefs(row[..i]) == Ok(defs)
    {
      assert row[..i + 1][..i] == row[..i];
      var t := InferSqlType(row[i].1);
      if t.Err? {
        ColumnDefsErrSticks(row, i + 1);
        return Err(t.error);
      }
      defs := defs + [row[i].0 + " " + t.value];
      i := i + 1;
    }
    assert row[..i] == row;
    return Ok(defs);
  }

  /** Once a value is unsupported, the later columns do not matter. */
  lemma {:induction false} ColumnDefsErrSticks(row: Row, n: nat)
    requires n <= |row| && ColumnDefs(row[..n]).Err?
    ensures ColumnDefs(row) == ColumnDefs(row[..n])
    decreases |row| - n
  {
    if n < |row| {
      assert row[..n + 1][..n] == row[..n];
      ColumnDefsErrSticks(row, n + 1);
    } else {
      assert row[..n] == row;
    }
  }

  /** The values of a row as INSERT literals, in order. */
  function Literals(vs: seq<PyValue>): (r: seq<string>)
    ensures |r| == |vs|
    ensures forall i :: 0 <= i < |vs| ==> r[i] == SqlLiteral(vs[i])
  {
    if vs == [] then [] else [SqlLiteral(vs[0])] + Literals(vs[1..])
  }

  const CreateOpen: string := " (\n    "
  const ColumnSep: string := ",\n    "

  /** The INSERT statement of line 159. */
  function InsertStatement(table: string, row: Row): string
  {
    "INSERT INTO " + table + " (" + Join(", ", Keys(row)) + ") VALUES (" + Join(", ", Literals(Values(row))) + ");"
  }

  /** `generate_sql_statements`: the CREATE text, or the TypeError of the first unsupported value. */
  function Generate(table: string, row: Row): Result<(string, string), SqlError>
  {
    match ColumnDefs(row)
    case Err(e) => Err(e)
    case Ok(defs) => Ok(("CREATE TABLE IF NOT EXISTS " + table + CreateOpen + Join(ColumnSep, defs) + "\n);", InsertStatement(table, row)))
  }

  /** `generate_sql_statements` as the source computes it, with its loop. */
  method GenerateSqlStatements(table: string, row: Row) returns (r: Result<(string, string), SqlError>)
    ensures r == Generate(table, row)
  {
    var defs := ColumnDefinitions(row);
    if defs.Err? {
      return Err(defs.error);
    }
    var create := "CREATE TABLE IF NOT EXISTS " + table + CreateOpen + Join(ColumnSep, defs.value) + "\n);";
    return Ok((create, InsertStatement(table, row)));
  }

  /**
   * What the pair says: the statements exist exactly when every value has a type; the CREATE
   * text joins one "name TYPE" definition per column in dict order; the INSERT names the same
   * columns in the same order and has exactly one literal per column.
   */
  lemma GenerateFacts(table: string, row: Row)
    ensures Generate(table, row).Ok? <==> forall i :: 0 <= i < |row| ==> !row[i].1.POther?
    ensures Generate(table, row).Ok? ==>
              exists defs: seq<string> ::
                && |defs| == |row|
                && (forall i :: 0 <= i < |row| ==> defs[i] == row[i].0 + " " + InferSqlType(row[i].1).value)
                && Generate(table, row).value.0 == "CREATE TABLE IF NOT EXISTS " + table + CreateOpen + Join(ColumnSep, defs) + "\n);"
    ensures var lits := Literals(Values(row));
            && |lits| == |Keys(row)| == |row|
            && (forall i :: 0 <= i < |row| ==> Keys(row)[i] == row[i].0 && lits[i] == SqlLiteral(row[i].1))
  {
    ColumnDefsFacts(row);
    if Generate(table, row).Ok? {
      var defs := ColumnDefs(row).value;
      assert Generate(table, row).value.0 == "CREATE TABLE IF NOT EXISTS " + table + CreateOpen + Join(ColumnSep, defs) + "\n);";
    }
  }
}
