/** What `ExportSQL` writes is what `splitSQL` and `stripComments` read. */
module DumpRestore {
  import opened Text
  import opened SqlLexer
  import opened SqlLaws
  import opened SqlPrinter
  import opened SqlReader

  // ---------- printed text has neither comments nor semicolons for the scanners ----------

  /** Read from mode `m`, the text is code to its end, which it reaches in normal mode. */
  predicate InertFrom(d: Dialect, m: Mode, s: string) {
    Strip(d, m, s) == s && End(d, m, s) == Normal && FirstCut(d, m, s) == |s|
  }

  predicate Inert(d: Dialect, s: string) { InertFrom(d, Normal, s) }

  lemma InertStep(d: Dialect, m: Mode, s: string)
    requires s != [] && Next(d, m, s).kind == Code
    requires var st := Next(d, m, s); InertFrom(d, st.mode, s[st.n..])
    ensures InertFrom(d, m, s)
  {
    hide Next, Strip, End, FirstCut;
    var st := Next(d, m, s);
    StripStep(d, m, s);
    EndStep(d, m, s);
    FirstCutStep(d, m, s);
    assert s == s[..st.n] + s[st.n..];
  }

  lemma InertAppend(d: Dialect, a: string, b: string)
    requires Inert(d, a) && Inert(d, b) && Seam(a, b)
    ensures Inert(d, a + b)
  {
    hide Next, Strip, End, FirstCut;
    StripAppend(d, Normal, a, b);
    EndAppend(d, Normal, a, b);
    CutAppend(d, Normal, a, b);
  }

  /** None of the characters that the lexers know. */
  predicate PlainChar(c: char) {
    c != '\'' && c != '"' && c != '`' && c != '[' && c != ';' && c != '-' && c != '/' && c != '*'
  }

  predicate PlainText(s: string) {
    forall i :: 0 <= i < |s| ==> PlainChar(s[i])
  }

  lemma {:induction false} PlainInert(d: Dialect, s: string)
    requires PlainText(s)
    ensures Inert(d, s)
  {
    if s != [] {
      PlainInert(d, s[1..]);
      InertStep(d, Normal, s);
    }
  }

  lemma CloserInert(d: Dialect, q: char)
    requires q == '\'' || q == '`'
    ensures InertFrom(d, Quoted(q), [q])
  {
    assert [q][1..] == [];
    InertStep(d, Quoted(q), [q]);
  }

  lemma {:induction false} NameInert(d: Dialect, name: string)
    ensures InertFrom(d, Quoted('`'), DoubleChar(name, '`') + "`")
  {
    var s := DoubleChar(name, '`') + "`";
    if name == [] {
      CloserInert(d, '`');
      assert s == "`";
    } else {
      NameInert(d, name[1..]);
      NameInertStep(d, name[0], DoubleChar(name[1..], '`') + "`");
      hide InertFrom;
      var e := if name[0] == '`' then "``" else [name[0]];
      ConcatAssoc(e, DoubleChar(name[1..], '`'), "`");
    }
  }

  lemma NameInertStep(d: Dialect, c: char, tail: string)
    requires InertFrom(d, Quoted('`'), tail)
    ensures InertFrom(d, Quoted('`'), (if c == '`' then "``" else [c]) + tail)
  {
    var s := (if c == '`' then "``" else [c]) + tail;
    if c == '`' {
      assert s[1..] == "`" + tail && ("`" + tail)[1..] == tail;
      InertStep(d, Normal, "`" + tail);
      InertStep(d, Quoted('`'), s);
    } else {
      assert s[1..] == tail;
      InertStep(d, Quoted('`'), s);
    }
  }

  lemma IdentInert(d: Dialect, name: string)
    ensures Inert(d, QuoteIdent(name))
    ensures var q := QuoteIdent(name); q != [] && q[0] == '`' && q[|q| - 1] == '`'
  {
    NameInert(d, name);
    var tail := DoubleChar(name, '`') + "`";
    assert QuoteIdent(name) == "`" + tail && ("`" + tail)[1..] == tail;
    hide InertFrom;
    InertStep(d, Normal, "`" + tail);
  }

  lemma {:induction false} EscapeInert(d: Dialect, s: string)
    requires d.backslash
    ensures InertFrom(d, Quoted('\''), Escape(s) + "'")
  {
    var t := Escape(s) + "'";
    if s == [] {
      CloserInert(d, '\'');
      assert t == "'";
    } else {
      EscapeInert(d, s[1..]);
      EscapeInertStep(d, s[0], Escape(s[1..]) + "'");
      hide InertFrom, EscapeChar;
      ConcatAssoc(EscapeChar(s[0]), Escape(s[1..]), "'");
    }
  }

  lemma NextEscaped(d: Dialect, c: char, tail: string)
    requires d.backslash
    ensures Next(d, Quoted('\''), EscapeChar(c) + tail) == Step(|EscapeChar(c)|, Code, Quoted('\''))
  {
  }

  lemma EscapeInertStep(d: Dialect, c: char, tail: string)
    requires d.backslash && InertFrom(d, Quoted('\''), tail)
    ensures InertFrom(d, Quoted('\''), EscapeChar(c) + tail)
  {
    var e := EscapeChar(c);
    NextEscaped(d, c, tail);
    hide Next, EscapeChar, InertFrom;
    SliceConcatPast(e, tail, 0);
    InertStep(d, Quoted('\''), e + tail);
  }

  /** Scanning a printed literal from normal mode ends in normal mode at its last
      character, with nothing cut and nothing dropped. */
  lemma LiteralInert(d: Dialect, v: Value)
    requires d.backslash
    ensures Inert(d, Literal(v))
    ensures var l := Literal(v);
            l != [] && l[0] != '*' && l[|l| - 1] != '-' && l[|l| - 1] != '/'
  {
    match v
    case Null => PlainInert(d, "NULL");
    case Int(n) => IntInert(d, n);
    case Bytes(s) =>
      EscapeInert(d, s);
      var tail := Escape(s) + "'";
      assert Literal(v) == "'" + tail && ("'" + tail)[1..] == tail;
      hide InertFrom;
      InertStep(d, Normal, "'" + tail);
  }

  lemma IntInert(d: Dialect, n: int)
    ensures Inert(d, PrintInt(n))
    ensures var l := PrintInt(n); l != [] && l[0] != '*' && l[|l| - 1] != '-' && l[|l| - 1] != '/'
  {
    var digits := Numeral(if n < 0 then -n else n);
    PlainInert(d, digits);
    if n < 0 {
      assert ("-" + digits)[1..] == digits;
      hide InertFrom;
      InertStep(d, Normal, "-" + digits);
    }
  }

  // ---------- the statements of a dump ----------

  /** `a` may be followed by anything that does not begin with a star or a minus. */
  lemma InertThen(d: Dialect, a: string, b: string)
    requires Inert(d, a) && Inert(d, b) && (b != [] ==> b[0] != '*' && b[0] != '-')
    ensures Inert(d, a + b)
  {
    hide Inert;
    InertAppend(d, a, b);
  }

  /** `b` may follow anything that does not end in a minus or a slash. */
  lemma ThenInert(d: Dialect, a: string, b: string)
    requires Inert(d, a) && Inert(d, b) && (a != [] ==> a[|a| - 1] != '-' && a[|a| - 1] != '/')
    ensures Inert(d, a + b)
  {
    hide Inert;
    InertAppend(d, a, b);
  }

  lemma {:induction false} NameListInert(d: Dialect, names: seq<string>)
    ensures Inert(d, NameList(names))
    ensures names != [] ==> NameList(names) != [] && NameList(names)[0] == '`'
  {
    hide InertFrom, QuoteIdent;
    if names == [] {
      PlainInert(d, []);
    } else {
      IdentInert(d, names[0]);
      if |names| > 1 {
        NameListInert(d, names[1..]);
        PlainInert(d, ", ");
        InertThen(d, QuoteIdent(names[0]), ", ");
        InertThen(d, QuoteIdent(names[0]) + ", ", NameList(names[1..]));
      }
    }
  }

  lemma {:induction false} LiteralListInert(d: Dialect, row: seq<Value>)
    requires d.backslash
    ensures Inert(d, LiteralList(row))
  {
    hide InertFrom, Literal;
    if row == [] {
      PlainInert(d, []);
    } else {
      LiteralInert(d, row[0]);
      if |row| > 1 {
        LiteralListInert(d, row[1..]);
        PlainInert(d, ", ");
        InertThen(d, Literal(row[0]), ", ");
        ThenInert(d, Literal(row[0]) + ", ", LiteralList(row[1..]));
      }
    }
  }

  lemma TargetInert(d: Dialect, schema: string, table: string)
    ensures Inert(d, QualifiedName(schema, table))
    ensures var q := QualifiedName(schema, table); q != [] && q[0] == '`'
  {
    hide InertFrom, QuoteIdent;
    IdentInert(d, table);
    if schema != "" {
      IdentInert(d, schema);
      PlainInert(d, ".");
      InertThen(d, QuoteIdent(schema), ".");
      InertThen(d, QuoteIdent(schema) + ".", QuoteIdent(table));
    }
  }

  lemma InsertInert(d: Dialect, schema: string, table: string, cols: seq<string>, row: seq<Value>)
    requires d.backslash
    ensures Inert(d, InsertText(schema, table, cols, row))
  {
    hide InertFrom, QualifiedName, NameList, LiteralList;
    var a := "INSERT INTO ";
    PlainInert(d, a);
    TargetInert(d, schema, table);
    InertThen(d, a, QualifiedName(schema, table));
    var b := a + QualifiedName(schema, table);
    PlainInert(d, " (");
    InertThen(d, b, " (");
    NameListInert(d, cols);
    ThenInert(d, b + " (", NameList(cols));
    var c := b + " (" + NameList(cols);
    PlainInert(d, ") VALUES (");
    InertThen(d, c, ") VALUES (");
    LiteralListInert(d, row);
    ThenInert(d, c + ") VALUES (", LiteralList(row));
    PlainInert(d, ")");
    InertThen(d, c + ") VALUES (" + LiteralList(row), ")");
  }

  lemma UseDropInert(d: Dialect, schema: string, table: string)
    ensures Inert(d, UseText(schema)) && Inert(d, DropText(table))
  {
    hide InertFrom, QuoteIdent;
    PlainInert(d, "USE ");
    PlainInert(d, "DROP TABLE IF EXISTS ");
    IdentInert(d, schema);
    IdentInert(d, table);
    InertThen(d, "USE ", QuoteIdent(schema));
    InertThen(d, "DROP TABLE IF EXISTS ", QuoteIdent(table));
  }

  /** Statements that are not blank and are read back as themselves. */
  predicate Whole(d: Dialect, w: Spaces, s: string) {
    s != [] && Tight(w, s) && Closed(d, s)
  }

  lemma WholeTexts(w: Spaces, schema: string, table: string, cols: seq<string>, row: seq<Value>)
    ensures Whole(IMPORT, w, UseText(schema)) && Whole(IMPORT, w, DropText(table))
    ensures Whole(IMPORT, w, InsertText(schema, table, cols, row))
  {
    hide Next, Strip, End, FirstCut, QualifiedName, NameList, LiteralList;
    UseDropInert(IMPORT, schema, table);
    InsertInert(IMPORT, schema, table, cols, row);
    assert InsertText(schema, table, cols, row)[0] == 'I';
  }

  lemma KeptWhole(d: Dialect, w: Spaces, s: string)
    requires Whole(d, w, s)
    ensures Statements(d, w, s) == [s]
  {
    hide Next, FirstCut, End, Statements;
    StatementsStep(d, w, s);
    TrimUnique(w, [], s, []);
    assert [] + s + [] == s && s[..|s|] == s;
  }

  /** A whole statement on its line is the first statement of what begins with the line. */
  lemma LineFirst(d: Dialect, w: Spaces, s: string, rest: string)
    requires Whole(d, w, s)
    ensures Statements(d, w, Line(s) + rest) == [s] + Statements(d, w, rest)
  {
    hide Next, FirstCut, Statements;
    assert Line(s) + rest == s + ";" + ("\n" + rest);
    StatementsJoin(d, w, s, "\n" + rest);
    KeptWhole(d, w, s);
    StatementsPadLeft(d, w, "\n", rest);
  }

  function Inserts(schema: string, table: string, cols: seq<string>, rows: seq<seq<Value>>): seq<string> {
    seq(|rows|, i requires 0 <= i < |rows| => InsertText(schema, table, cols, rows[i]))
  }

  lemma {:induction false} InsertsRestored(schema: string, table: string, cols: seq<string>, rows: seq<seq<Value>>)
    ensures Statements(IMPORT, SqlSpaces, InsertLines(schema, table, cols, rows)) ==
            Inserts(schema, table, cols, rows)
  {
    hide Statements, InsertText, Whole, Line;
    if rows == [] {
      StatementsStep(IMPORT, SqlSpaces, []);
    } else {
      var s := InsertText(schema, table, cols, rows[0]);
      WholeTexts(SqlSpaces, schema, table, cols, rows[0]);
      LineFirst(IMPORT, SqlSpaces, s, InsertLines(schema, table, cols, rows[1..]));
      InsertsRestored(schema, table, cols, rows[1..]);
      assert Inserts(schema, table, cols, rows) == [s] + Inserts(schema, table, cols, rows[1..]);
    }
  }

  /** The statements that a dump should be restored from. */
  function Expected(schema: string, table: string, create: string, cols: seq<string>,
                    rows: seq<seq<Value>>): seq<string> {
    (if schema == "" then [] else [UseText(schema)]) + [DropText(table)] + [create]
    + Inserts(schema, table, cols, rows)
  }

  // ---------- when the CREATE text survives ----------

  lemma {:induction false} StatementShape(d: Dialect, w: Spaces, s: string, x: string)
    requires x in Statements(d, w, s)
    ensures x != [] && Tight(w, x) && x[0] != ';'
    decreases |s|
  {
    hide Next, FirstCut, Statements, Kept, Tight;
    StatementsStep(d, w, s);
    if x in Kept(w, s[..FirstCut(d, Normal, s)]) {
      KeptShape(d, w, s, x);
    } else {
      StatementShape(d, w, s[FirstCut(d, Normal, s) + 1..], x);
    }
  }

  lemma KeptShape(d: Dialect, w: Spaces, s: string, x: string)
    requires x in Kept(w, s[..FirstCut(d, Normal, s)])
    ensures x != [] && Tight(w, x) && x[0] != ';'
  {
    hide Next, FirstCut, Trim;
    var k := FirstCut(d, Normal, s);
    var l, r := TrimParts(w, s[..k]);
    var rest := x + (r + s[k..]);
    assert s == l + rest by {
      assert s == s[..k] + s[k..];
      ConcatAssoc(l + x, r, s[k..]);
      ConcatAssoc(l, x, r + s[k..]);
    }
    WiderSpaces(w, l);
    CutPadLeft(d, l, rest);
    assert rest[0] == x[0];
    if rest[0] == ';' { SemicolonCuts(d, rest); }
  }

  lemma SemicolonCuts(d: Dialect, s: string)
    requires s != [] && s[0] == ';'
    ensures FirstCut(d, Normal, s) == 0
  {
  }

  /** If the first statement of `c`, a semicolon and more is `c`, the semicolon cuts. */
  lemma FirstIsWhole(d: Dialect, w: Spaces, c: string, rest: string)
    requires var stmts := Statements(d, w, c + ";" + rest); stmts != [] && stmts[0] == c
    ensures Whole(d, w, c)
  {
    hide Next, FirstCut, End, Statements;
    var t := c + ";" + rest;
    var k := FirstCut(d, Normal, t);
    StatementShape(d, w, t, c);
    StatementsStep(d, w, t);
    assert t[0] == c[0] && t[|c|] == ';';
    assert t[0] != ';' && k > 0;
    var x := t[..k];
    assert x[0] == t[0];
    var r := TrimHead(w, x);
    assert Kept(w, x) == [c] && x == c + r;
    CharBehind(t, k, c, r);
    assert !IsSpace(w, ';');
    assert r == [] && x == c;
    PrefixClosed(d, Normal, t);
  }

  lemma CharBehind(t: string, k: nat, c: string, r: string)
    requires k <= |t| && t[..k] == c + r && |c| < |t|
    ensures r != [] ==> r[0] == t[|c|]
  {
    assert r != [] ==> (c + r)[|c|] == r[0];
  }

  /** A text that does not start with white space is its trimmed form and what is behind. */
  lemma {:induction false} TrimHead(w: Spaces, x: string) returns (r: string)
    requires x != [] && !IsSpace(w, x[0])
    ensures x == Trim(w, x) + r && AllSpace(w, r) && Trim(w, x) != []
  {
    var n := |x| - 1;
    if IsSpace(w, x[n]) {
      r := TrimHead(w, x[..n]);
      assert x == x[..n] + [x[n]];
      ConcatAssoc(Trim(w, x[..n]), r, [x[n]]);
      r := r + [x[n]];
    } else {
      r := [];
      assert x + [] == x;
    }
  }

  lemma DumpHead(schema: string, table: string, rest: string)
    ensures Statements(IMPORT, SqlSpaces,
              (if schema == "" then [] else Line(UseText(schema))) + Line(DropText(table)) + rest) ==
            (if schema == "" then [] else [UseText(schema)]) + [DropText(table)]
            + Statements(IMPORT, SqlSpaces, rest)
  {
    hide Statements, UseText, DropText, Whole, Line;
    WholeTexts(SqlSpaces, schema, table, [], []);
    var tail := Line(DropText(table)) + rest;
    LineFirst(IMPORT, SqlSpaces, DropText(table), rest);
    var stmts := [DropText(table)] + Statements(IMPORT, SqlSpaces, rest);
    if schema == "" {
      assert [] + Line(DropText(table)) == Line(DropText(table)) && [] + [DropText(table)] == [DropText(table)];
    } else {
      LineFirst(IMPORT, SqlSpaces, UseText(schema), tail);
      ConcatAssoc(Line(UseText(schema)), Line(DropText(table)), rest);
      assert [UseText(schema)] + stmts == [UseText(schema)] + [DropText(table)] + Statements(IMPORT, SqlSpaces, rest);
    }
  }

  /** Restoring a dump gives USE (when there is a schema), DROP, the CREATE text and one
      INSERT per row, in order, exactly when the CREATE text is a whole statement:
      not blank, without white space around it, without a top-level semicolon, and ended
      outside quotes and comments. */
  lemma DumpRestored(schema: string, table: string, create: string, cols: seq<string>, rows: seq<seq<Value>>)
    ensures Statements(IMPORT, SqlSpaces, Dump(schema, table, create, cols, rows)) ==
            Expected(schema, table, create, cols, rows)
            <==> Whole(IMPORT, SqlSpaces, create)
  {
    hide Statements, Whole, UseText, DropText, InsertLines, Inserts;
    var head := (if schema == "" then [] else Line(UseText(schema))) + Line(DropText(table));
    var heads := (if schema == "" then [] else [UseText(schema)]) + [DropText(table)];
    var lines, inserts := InsertLines(schema, table, cols, rows), Inserts(schema, table, cols, rows);
    InsertsRestored(schema, table, cols, rows);
    ConcatAssoc(head, Line(create), lines);
    DumpHead(schema, table, Line(create) + lines);
    var stmts := Statements(IMPORT, SqlSpaces, Line(create) + lines);
    assert Statements(IMPORT, SqlSpaces, Dump(schema, table, create, cols, rows)) == heads + stmts;
    assert Expected(schema, table, create, cols, rows) == heads + ([create] + inserts);
    Cancel(heads, stmts, [create] + inserts);
    if Whole(IMPORT, SqlSpaces, create) {
      LineFirst(IMPORT, SqlSpaces, create, lines);
    } else if stmts == [create] + inserts {
      assert Line(create) + lines == create + ";" + ("\n" + lines);
      FirstIsWhole(IMPORT, SqlSpaces, create, "\n" + lines);
    }
  }

  /** Read by MySQL's own rules, the statements make the table again: the schema is chosen, if
      there is one; the table is dropped, if it is there; the CREATE text is run as it was
      given; and then comes one INSERT per row, into that table, of that row, in order. */
  predicate Remade(stmts: seq<string>, schema: string, table: string, create: string, cols: seq<string>,
                   rows: seq<seq<Value>>) {
    var n := if schema == "" then 0 else 1;
    && |stmts| == n + 2 + |rows|
    && (schema != "" ==> ReadUse(stmts[0]) == Some(schema))
    && ReadDrop(stmts[n]) == Some(("", table))
    && stmts[n + 1] == create
    && forall i :: 0 <= i < |rows| ==> ReadInsert(stmts[n + 2 + i]) == Some(Insert(schema, table, cols, rows[i]))
  }

  /** A dump makes its table again exactly when the CREATE text is a whole statement. */
  lemma DumpRemakes(schema: string, table: string, create: string, cols: seq<string>, rows: seq<seq<Value>>)
    ensures Remade(Statements(IMPORT, SqlSpaces, Dump(schema, table, create, cols, rows)), schema, table, create, cols,
                   rows)
            <==> Whole(IMPORT, SqlSpaces, create)
  {
    hide Statements, Whole, UseText, DropText, InsertText, ReadInsert, ReadUse, ReadDrop, Dump;
    var stmts := Statements(IMPORT, SqlSpaces, Dump(schema, table, create, cols, rows));
    DumpRestored(schema, table, create, cols, rows);
    UseRoundTrip(schema);
    DropRoundTrip(table);
    forall i | 0 <= i < |rows|
      ensures ReadInsert(InsertText(schema, table, cols, rows[i])) == Some(Insert(schema, table, cols, rows[i]))
    {
      InsertRoundTrip(schema, table, cols, rows[i]);
    }
    if Remade(stmts, schema, table, create, cols, rows) { RemadeIsWhole(schema, table, create, cols, rows); }
  }

  lemma RemadeIsWhole(schema: string, table: string, create: string, cols: seq<string>, rows: seq<seq<Value>>)
    requires var stmts := Statements(IMPORT, SqlSpaces, Dump(schema, table, create, cols, rows));
             var n := if schema == "" then 1 else 2; |stmts| > n && stmts[n] == create
    ensures Whole(IMPORT, SqlSpaces, create)
  {
    hide Statements, Whole, UseText, DropText, InsertLines;
    var head := (if schema == "" then [] else Line(UseText(schema))) + Line(DropText(table));
    var lines := InsertLines(schema, table, cols, rows);
    ConcatAssoc(head, Line(create), lines);
    DumpHead(schema, table, Line(create) + lines);
    assert Line(create) + lines == create + ";" + ("\n" + lines);
    FirstIsWhole(IMPORT, SqlSpaces, create, "\n" + lines);
  }

  /** A dump that is not restored: a CREATE text of two statements. */
  lemma DumpNotRestored(schema: string, table: string, cols: seq<string>, rows: seq<seq<Value>>)
    ensures var create := "CREATE TABLE t (c INT); SELECT 1";
            Statements(IMPORT, SqlSpaces, Dump(schema, table, create, cols, rows))
                != Expected(schema, table, create, cols, rows)
  {
    hide Statements, Expected, Dump, End;
    var a, create := "CREATE TABLE t (c INT)", "CREATE TABLE t (c INT); SELECT 1";
    assert create == a + ";" + " SELECT 1";
    PlainInert(IMPORT, a);
    CutPosition(IMPORT, a, " SELECT 1");
    DumpRestored(schema, table, create, cols, rows);
  }

  /** And each INSERT, read by the rules of MySQL, is its row again. */
  lemma RowsRestored(schema: string, table: string, create: string, cols: seq<string>, rows: seq<seq<Value>>, i: nat)
    requires Whole(IMPORT, SqlSpaces, create) && i < |rows|
    ensures var stmts := Statements(IMPORT, SqlSpaces, Dump(schema, table, create, cols, rows));
            var first := if schema == "" then 2 else 3;
            |stmts| == first + |rows| &&
            ReadInsert(stmts[first + i]) == Some(Insert(schema, table, cols, rows[i]))
  {
    hide Statements, Whole, UseText, DropText, InsertText, ReadInsert;
    DumpRestored(schema, table, create, cols, rows);
    InsertRoundTrip(schema, table, cols, rows[i]);
  }
}
