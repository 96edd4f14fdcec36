/** `internal/db/mysql/export.go` and `ident.go`: the texts that the dump is made of. */
module SqlPrinter {
  import opened Text

  /** A cell of a row.  Go's `[]byte` and `string` print alike, and so do the booleans and
      the integers 1 and 0. */
  datatype Value = Null | Int(n: int) | Bytes(s: string)

  function QuoteIdent(name: string): string {
    "`" + DoubleChar(name, '`') + "`"
  }

  function QualifiedName(schema: string, table: string): string {
    if schema == "" then QuoteIdent(table) else QuoteIdent(schema) + "." + QuoteIdent(table)
  }

  const SUBSTITUTE: char := 0x1a as char

  function EscapeChar(c: char): string {
    if c == '\\' then "\\\\"
    else if c == '\'' then "\\'"
    else if c == '\0' then "\\0"
    else if c == '\n' then "\\n"
    else if c == '\r' then "\\r"
    else if c == SUBSTITUTE then "\\Z"
    else [c]
  }

  function Escape(s: string): string {
    if s == [] then [] else EscapeChar(s[0]) + Escape(s[1..])
  }

  lemma {:induction false} EscapeSnoc(s: string, c: char)
    ensures Escape(s + [c]) == Escape(s) + EscapeChar(c)
  {
    hide EscapeChar;
    if s == [] {
      assert s + [c] == [c] && [c][1..] == [];
      assert EscapeChar(c) + [] == EscapeChar(c) && [] + EscapeChar(c) == EscapeChar(c);
    } else {
      SliceConcat(s, [c], 1);
      EscapeSnoc(s[1..], c);
      ConcatAssoc(EscapeChar(s[0]), Escape(s[1..]), EscapeChar(c));
    }
  }

  method EscapeMySQLString(s: string) returns (b: string)
    ensures b == Escape(s)
  {
    b := [];
    for i := 0 to |s|
      invariant b == Escape(s[..i])
    {
      var c := s[i];
      EscapeSnoc(s[..i], c);
      assert s[..i + 1] == s[..i] + [c];
      match c {
        case '\\' => b := b + "\\\\";
        case '\'' => b := b + "\\'";
        case '\0' => b := b + "\\0";
        case '\n' => b := b + "\\n";
        case '\r' => b := b + "\\r";
        case _ =>
          if c == SUBSTITUTE {
            b := b + "\\Z";
          } else {
            b := b + [c];
          }
      }
    }
    assert s[..|s|] == s;
  }

  /** `fmt.Sprint` of an integer. */
  function PrintInt(n: int): string {
    if n < 0 then "-" + Numeral(-n) else Numeral(n)
  }

  function Literal(v: Value): string {
    match v
    case Null => "NULL"
    case Int(n) => PrintInt(n)
    case Bytes(s) => "'" + Escape(s) + "'"
  }

  method AnyToSQLLiteral(v: Value) returns (r: string)
    ensures r == Literal(v)
  {
    match v {
      case Null => return "NULL";
      case Int(n) => return PrintInt(n);
      case Bytes(s) =>
        var e := EscapeMySQLString(s);
        return "'" + e + "'";
    }
  }

  /** A comma-separated list in the dump; `show` prints one element. */
  function NameList(names: seq<string>): string {
    if names == [] then []
    else if |names| == 1 then QuoteIdent(names[0])
    else QuoteIdent(names[0]) + ", " + NameList(names[1..])
  }

  function LiteralList(row: seq<Value>): string {
    if row == [] then []
    else if |row| == 1 then Literal(row[0])
    else Literal(row[0]) + ", " + LiteralList(row[1..])
  }

  function UseText(schema: string): string { "USE " + QuoteIdent(schema) }

  function DropText(table: string): string { "DROP TABLE IF EXISTS " + QuoteIdent(table) }

  function InsertText(schema: string, table: string, cols: seq<string>, row: seq<Value>): string {
    "INSERT INTO " + QualifiedName(schema, table) + " (" + NameList(cols) + ") VALUES (" + LiteralList(row) + ")"
  }

  /** One statement on its line. */
  function Line(statement: string): string { statement + ";\n" }

  function InsertLines(schema: string, table: string, cols: seq<string>, rows: seq<seq<Value>>): string {
    if rows == [] then []
    else Line(InsertText(schema, table, cols, rows[0])) + InsertLines(schema, table, cols, rows[1..])
  }

  /** The whole dump; `create` is the text that SHOW CREATE TABLE returned. */
  function Dump(schema: string, table: string, create: string, cols: seq<string>, rows: seq<seq<Value>>): string {
    (if schema == "" then [] else Line(UseText(schema))) + Line(DropText(table)) + Line(create)
    + InsertLines(schema, table, cols, rows)
  }

  /** What the database answers: an error, or the table with an error after its last row. */
  datatype Source =
    | NoCreate(error: string)
    | NoRows(create: string, error: string)
    | Table(create: string, cols: seq<string>, rows: seq<seq<Value>>, end: Option<string>)

  lemma NoLines(schema: string, table: string, cols: seq<string>)
    ensures InsertLines(schema, table, cols, []) == []
  {
  }

  lemma {:induction false} InsertLinesSnoc(schema: string, table: string, cols: seq<string>, rows: seq<seq<Value>>,
                                           row: seq<Value>)
    ensures InsertLines(schema, table, cols, rows + [row]) ==
            InsertLines(schema, table, cols, rows) + Line(InsertText(schema, table, cols, row))
  {
    hide InsertText;
    var last := Line(InsertText(schema, table, cols, row));
    if rows == [] {
      assert rows + [row] == [row] && [row][1..] == [];
      assert last + [] == last && [] + last == last;
    } else {
      assert (rows + [row])[1..] == rows[1..] + [row];
      InsertLinesSnoc(schema, table, cols, rows[1..], row);
      ConcatAssoc(Line(InsertText(schema, table, cols, rows[0])), InsertLines(schema, table, cols, rows[1..]), last);
    }
  }

  lemma {:induction false} JoinIsNameList(names: seq<string>, quoted: seq<string>)
    requires |quoted| == |names| && forall i :: 0 <= i < |names| ==> quoted[i] == QuoteIdent(names[i])
    ensures Join(quoted, ", ") == NameList(names)
  {
    hide QuoteIdent;
    if |names| > 1 {
      JoinIsNameList(names[1..], quoted[1..]);
    }
  }

  lemma {:induction false} JoinIsLiteralList(row: seq<Value>, printed: seq<string>)
    requires |printed| == |row| && forall i :: 0 <= i < |row| ==> printed[i] == Literal(row[i])
    ensures Join(printed, ", ") == LiteralList(row)
  {
    hide Literal;
    if |row| > 1 {
      JoinIsLiteralList(row[1..], printed[1..]);
    }
  }

  /** Writes the dump to `w`.  An error of the database ends it; what was written stays. */
  method ExportSQL(schema: string, table: string, source: Source) returns (w: string, err: Option<string>)
    ensures var head := (if schema == "" then [] else Line(UseText(schema))) + Line(DropText(table));
            match source
            case NoCreate(e) => w == head && err == Some(e)
            case NoRows(create, e) => w == head + Line(create) && err == Some(e)
            case Table(create, cols, rows, end) => w == Dump(schema, table, create, cols, rows) && err == end
  {
    hide Escape, DoubleChar, InsertLines, InsertText, NameList, LiteralList, Join, QuoteIdent, QualifiedName, Line;
    w := [];
    if schema != "" {
      w := w + Line(UseText(schema));
    }
    w := w + Line(DropText(table));
    if source.NoCreate? {
      return w, Some(source.error);
    }
    w := w + Line(source.create);
    if source.NoRows? {
      return w, Some(source.error);
    }
    var cols, rows := source.cols, source.rows;
    var quotedCols := QuoteNames(cols);
    var prefix := "INSERT INTO " + QualifiedName(schema, table) + " (" + Join(quotedCols, ", ") + ") VALUES ";
    ghost var head := w;
    NoLines(schema, table, cols);
    assert rows[..0] == [] && head + [] == head;
    for r := 0 to |rows|
      invariant w == head + InsertLines(schema, table, cols, rows[..r])
    {
      var literals := PrintRow(rows[r]);
      ghost var text := InsertText(schema, table, cols, rows[r]);
      InsertTextParts(schema, table, cols, rows[r], prefix);
      InsertLinesSnoc(schema, table, cols, rows[..r], rows[r]);
      assert rows[..r + 1] == rows[..r] + [rows[r]];
      ConcatAssoc(head, InsertLines(schema, table, cols, rows[..r]), Line(text));
      w := w + Line(prefix + "(" + Join(literals, ", ") + ")");
    }
    assert rows[..|rows|] == rows;
    return w, source.end;
  }

  method QuoteNames(cols: seq<string>) returns (quotedCols: seq<string>)
    ensures Join(quotedCols, ", ") == NameList(cols)
  {
    hide NameList, Join, QuoteIdent;
    quotedCols := [];
    for i := 0 to |cols|
      invariant |quotedCols| == i && forall j :: 0 <= j < i ==> quotedCols[j] == QuoteIdent(cols[j])
    {
      quotedCols := quotedCols + [QuoteIdent(cols[i])];
    }
    JoinIsNameList(cols, quotedCols);
  }

  method PrintRow(row: seq<Value>) returns (literals: seq<string>)
    ensures |literals| == |row| && forall i :: 0 <= i < |row| ==> literals[i] == Literal(row[i])
    ensures Join(literals, ", ") == LiteralList(row)
  {
    literals := [];
    for i := 0 to |row|
      invariant |literals| == i && forall j :: 0 <= j < i ==> literals[j] == Literal(row[j])
    {
      var l := AnyToSQLLiteral(row[i]);
      literals := literals + [l];
    }
    JoinIsLiteralList(row, literals);
  }

  lemma InsertTextParts(schema: string, table: string, cols: seq<string>, row: seq<Value>, prefix: string)
    requires prefix == "INSERT INTO " + QualifiedName(schema, table) + " (" + NameList(cols) + ") VALUES "
    ensures prefix + "(" + LiteralList(row) + ")" == InsertText(schema, table, cols, row)
  {
    hide QualifiedName, NameList, LiteralList;
    assert ") VALUES (" == ") VALUES " + "(";
  }
}
