/** What the classifier says about a script, against `splitSQL` and against the dump. */
module ClassifierLaws {
  import opened Text
  import opened SqlLexer
  import opened SqlLaws
  import opened ScannerAgreement
  import opened MysqlClassifier
  import opened SqlPrinter
  import opened DumpRestore
  import opened StatementLeads
  import SqlReader

  // ---------- one statement or several ----------

  /** A statement that is more than comments and white space. */
  predicate HasCode(statement: string) {
    Trim(GoSpaces, Strip(MYSQL, Normal, statement)) != []
  }

  function WithCode(statements: seq<string>): seq<string> {
    if statements == [] then []
    else (if HasCode(statements[0]) then [statements[0]] else []) + WithCode(statements[1..])
  }

  lemma {:induction false} CodeOfWithCode(statements: seq<string>)
    ensures |CodeOf(statements)| == |WithCode(statements)|
    ensures WithCode(statements) != [] ==>
            CodeOf(statements)[0] == Trim(GoSpaces, Strip(MYSQL, Normal, WithCode(statements)[0]))
  {
    hide Strip, Trim;
    if statements != [] {
      CodeOfWithCode(statements[1..]);
    }
  }

  /** The classifier refuses a careful script exactly when none of the statements that
      `splitSQL` cuts has code; it reports several statements exactly when more than one
      has; and it classifies the code of the first of them. */
  lemma MultiAgrees(sql: string)
    requires Careful(Normal, sql)
    ensures var code := WithCode(Statements(IMPORT, SqlSpaces, sql));
            match Classify(sql)
            case EmptySQL => code == []
            case Ok(c) =>
              && code != []
              && (c.multi <==> |code| > 1)
              && var head := Trim(GoSpaces, Strip(MYSQL, Normal, code[0]));
                 c == ClassifyHead(head, Verb(head), |code| > 1)
  {
    hide Strip, Statements, Trim, Careful, CodeOf, WithCode, ClassifyHead, Verb;
    ScannersAgree(sql);
    CodeOfWithCode(Statements(IMPORT, SqlSpaces, sql));
    MultiIsMulti(Parts(sql));
  }

  lemma MultiIsMulti(parts: seq<string>)
    ensures parts != [] ==> ClassifyHead(parts[0], Verb(parts[0]), |parts| > 1).multi == (|parts| > 1)
  {
    hide Capture, CaptureBare, CaptureTruncate, AfterFrom, FirstTableRef, Verb;
  }

  // ---------- a write to a quoted table ----------

  lemma {:induction false} BacktickName(name: string, rest: string)
    requires rest == [] || rest[0] != '`'
    ensures BacktickLen(DoubleChar(name, '`') + ("`" + rest)) == Some(|DoubleChar(name, '`')| + 1)
  {
    hide BacktickLen;
    if name == [] {
      BacktickCloses(rest);
      assert DoubleChar(name, '`') + ("`" + rest) == "`" + rest;
    } else {
      BacktickName(name[1..], rest);
      var tail := DoubleChar(name[1..], '`') + ("`" + rest);
      var e := if name[0] == '`' then "``" else [name[0]];
      ConcatAssoc(e, DoubleChar(name[1..], '`'), "`" + rest);
      if name[0] == '`' {
        BacktickPair(tail);
      } else {
        BacktickOther(name[0], tail);
      }
    }
  }

  lemma BacktickCloses(rest: string)
    requires rest == [] || rest[0] != '`'
    ensures BacktickLen("`" + rest) == Some(1)
  {
    var s := "`" + rest;
    assert s[0] == '`' && (rest != [] ==> s[1] == rest[0]);
  }

  lemma BacktickPair(tail: string)
    requires BacktickLen(tail).Some?
    ensures BacktickLen("``" + tail) == Some(BacktickLen(tail).value + 2)
  {
    hide BacktickLen;
    BacktickUnfold("``" + tail);
    assert ("``" + tail)[2..] == tail;
  }

  lemma BacktickOther(c: char, tail: string)
    requires BacktickLen(tail).Some? && c != '`'
    ensures BacktickLen([c] + tail) == Some(BacktickLen(tail).value + 1)
  {
    hide BacktickLen;
    BacktickUnfold([c] + tail);
    assert ([c] + tail)[1..] == tail;
  }

  lemma BacktickUnfold(s: string)
    requires s != []
    ensures s[0] != '`' ==> BacktickLen(s) == Longer(BacktickLen(s[1..]), 1, None)
    ensures |s| >= 2 && s[0] == '`' && s[1] == '`' ==> BacktickLen(s) == Longer(BacktickLen(s[2..]), 2, Some(1))
  {
    hide Longer;
  }

  /** How a table is named in a statement: its schema, if there is one, with white space around
      the dot, and its own name. */
  datatype Ref = Ref(schemaText: string, before: string, after: string, tableText: string)

  function RefText(r: Ref): string {
    if r.schemaText == "" then r.tableText else r.schemaText + (r.before + ("." + (r.after + r.tableText)))
  }

  /** A name as it is, or in backticks. */
  predicate BareName(name: string) {
    name != [] && IdentStart(name[0]) && forall i :: 0 <= i < |name| ==> IdentChar(name[i])
  }

  predicate Written(text: string, name: string) {
    text == QuoteIdent(name) || (BareName(name) && text == name)
  }

  predicate Refers(r: Ref, schema: string, table: string) {
    && Written(r.tableText, table)
    && if r.schemaText == "" then schema == ""
       else Written(r.schemaText, schema) && AllSpace(SqlSpaces, r.before) && AllSpace(SqlSpaces, r.after)
  }

  /** `rest` does not run into the name in front of it. */
  predicate Stops(rest: string) { rest == [] || (rest[0] != '`' && !IdentChar(rest[0])) }

  lemma IdentFound(name: string, rest: string)
    requires rest == [] || rest[0] != '`'
    ensures var s := QuoteIdent(name) + rest;
            var n := |QuoteIdent(name)|;
            FindIdent(s) == Some((0, n)) && Unquote(s[0..n]) == name && s[n..] == rest
  {
    hide BacktickLen, DoubleChar, HalveChar;
    var body := DoubleChar(name, '`');
    var s := QuoteIdent(name) + rest;
    BacktickName(name, rest);
    assert s == "`" + (body + ("`" + rest)) && s[1..] == body + ("`" + rest);
    var q := QuoteIdent(name);
    SliceConcat(q, rest, |q|);
    assert q[..|q|] == q && q[|q|..] == [] && [] + rest == rest;
    assert q[1..|q| - 1] == body;
    HalveDouble(name, '`');
  }

  lemma {:induction false} RunOfName(name: string, rest: string)
    requires (forall i :: 0 <= i < |name| ==> IdentChar(name[i])) && (rest == [] || !IdentChar(rest[0]))
    ensures IdentRun(name + rest) == |name|
  {
    if name == [] {
      assert name + rest == rest;
    } else {
      assert (name + rest)[1..] == name[1..] + rest;
      RunOfName(name[1..], rest);
    }
  }

  /** A name at the front of a text is found there. */
  lemma NameFound(text: string, name: string, rest: string)
    requires Written(text, name) && Stops(rest)
    ensures FindIdent(text + rest) == Some((0, |text|)) && Unquote((text + rest)[0..|text|]) == name
    ensures (text + rest)[|text|..] == rest
  {
    hide BacktickLen, DoubleChar, HalveChar;
    if text == QuoteIdent(name) {
      IdentFound(name, rest);
    } else {
      var s := text + rest;
      assert s[1..] == name[1..] + rest;
      RunOfName(name[1..], rest);
      assert s[0..|text|] == name && s[|text|..] == rest;
    }
  }

  lemma NameSolid(text: string, name: string)
    requires Written(text, name)
    ensures text != [] && (text[0] == '`' || IdentStart(text[0]))
    ensures text[|text| - 1] == '`' || IdentChar(text[|text| - 1])
    ensures !IsSpace(GoSpaces, text[0]) && !IsSpace(GoSpaces, text[|text| - 1])
  {
    hide DoubleChar;
  }

  lemma PlainRef(s: string, n: nat)
    requires Trim(GoSpaces, s) == s && n <= |s| && FindIdent(s) == Some((0, n))
    requires TrimLeft(SqlSpaces, s[n..]) == [] || TrimLeft(SqlSpaces, s[n..])[0] != '.'
    ensures FirstTableRef(s) == ("", Unquote(s[0..n]))
  {
    hide FindIdent, Unquote, Trim, TrimLeft;
  }

  lemma DottedRef(s: string, n: nat, before: string, after: string, more: string, k: nat)
    requires Trim(GoSpaces, s) == s && n <= |s| && FindIdent(s) == Some((0, n))
    requires AllSpace(SqlSpaces, before) && AllSpace(SqlSpaces, after)
    requires s[n..] == before + ("." + (after + more)) && more != [] && !IsSpace(SqlSpaces, more[0])
    requires k <= |more| && FindIdent(more) == Some((0, k))
    ensures FirstTableRef(s) == (Unquote(s[0..n]), Unquote(more[0..k]))
  {
    TrimLeftPad(SqlSpaces, before, "." + (after + more));
    assert TrimLeft(SqlSpaces, "." + (after + more)) == "." + (after + more);
    TrimLeftPad(SqlSpaces, after, more);
    assert TrimLeft(SqlSpaces, more) == more;
    assert ("." + (after + more))[1..] == after + more;
    hide FindIdent, Unquote, Trim, TrimLeft;
  }

  /** What may stand behind the table of a statement: nothing, or text that does not run into
      its name, does not go on with a dot, and does not end in white space. */
  predicate After(rest: string) {
    rest == [] || (&& Stops(rest) && !IsSpace(GoSpaces, rest[|rest| - 1])
                   && (TrimLeft(SqlSpaces, rest) == [] || TrimLeft(SqlSpaces, rest)[0] != '.'))
  }

  /** The reference at the front of a text is the one written there. */
  lemma TargetFound(r: Ref, schema: string, table: string, rest: string)
    requires Refers(r, schema, table) && After(rest)
    ensures FirstTableRef(RefText(r) + rest) == (schema, table)
  {
    hide FindIdent, Unquote, Trim, TrimLeft, FirstTableRef, Written, Stops;
    TargetTight(r, schema, table, rest);
    NothingStops();
    NameFound(r.tableText, table, rest);
    if r.schemaText == "" {
      NothingTrimmed();
      PlainRef(r.tableText + rest, |r.tableText|);
    } else {
      var more := r.tableText + rest;
      var dotted := r.before + ("." + (r.after + more));
      assert RefText(r) + rest == r.schemaText + dotted by { RefJoin(r, rest); }
      DotStops(r.before, r.after + more);
      NameFound(r.schemaText, schema, dotted);
      NameSolid(r.tableText, table);
      DottedRef(r.schemaText + dotted, |r.schemaText|, r.before, r.after, more, |r.tableText|);
    }
  }

  lemma RefJoin(r: Ref, rest: string)
    requires r.schemaText != ""
    ensures RefText(r) + rest == r.schemaText + (r.before + ("." + (r.after + (r.tableText + rest))))
  {
    var a := r.after + r.tableText;
    ConcatAssoc(r.schemaText, r.before + ("." + a), rest);
    ConcatAssoc(r.before, "." + a, rest);
    ConcatAssoc(".", a, rest);
    ConcatAssoc(r.after, r.tableText, rest);
  }

  lemma NothingStops()
    ensures Stops([])
  {
  }

  lemma DotStops(before: string, tail: string)
    requires AllSpace(SqlSpaces, before)
    ensures Stops(before + ("." + tail))
  {
    assert (before + ("." + tail))[0] == if before == [] then '.' else before[0];
  }

  lemma NothingTrimmed()
    ensures TrimLeft(SqlSpaces, []) == []
  {
  }

  lemma TargetTight(r: Ref, schema: string, table: string, rest: string)
    requires Refers(r, schema, table) && (rest == [] || !IsSpace(GoSpaces, rest[|rest| - 1]))
    ensures var s := RefText(r) + rest; Trim(GoSpaces, s) == s && Solid(s)
  {
    hide DoubleChar, Written, IsSpace;
    var s := RefText(r) + rest;
    NameSolid(r.tableText, table);
    if r.schemaText != "" { NameSolid(r.schemaText, schema); }
    var first := if r.schemaText == "" then r.tableText[0] else r.schemaText[0];
    assert s[0] == first && s[|s| - 1] == if rest == [] then r.tableText[|r.tableText| - 1] else rest[|rest| - 1];
    FewerSpaces(first);
    TrimUnique(GoSpaces, [], s, []);
    assert [] + s + [] == s;
  }

  lemma FewerSpaces(c: char)
    ensures !IsSpace(GoSpaces, c) ==> !IsSpace(RegexpSpaces, c) && !IsSpace(SqlSpaces, c)
  {
  }

  /** Text whose only statement is `x`. */
  lemma PartsOfWhole(x: string, tail: string)
    requires Inert(MYSQL, x) && Whole(Bare(MYSQL), GoSpaces, x)
    requires tail == "" || tail == ";\n"
    ensures Parts(x + tail) == [x]
  {
    hide Next, Strip, End, FirstCut, Statements;
    if tail == "" {
      assert x + tail == x;
      KeptWhole(Bare(MYSQL), GoSpaces, x);
    } else {
      StripAppend(MYSQL, Normal, x, tail);
      TailStripped();
      LineFirst(Bare(MYSQL), GoSpaces, x, "");
      assert Line(x) + "" == x + tail;
      NothingLeft();
    }
  }

  lemma TailStripped()
    ensures Strip(MYSQL, Normal, ";\n") == ";\n"
  {
    assert ";\n"[1..] == "\n" && "\n"[1..] == "";
    assert Strip(MYSQL, Normal, "\n") == "\n";
  }

  lemma NothingLeft()
    ensures Statements(Bare(MYSQL), GoSpaces, "") == []
  {
    StatementsStep(Bare(MYSQL), GoSpaces, []);
  }

  /** A script is one statement `x` for the classifier, wherever its comments stand, when what
      they leave of it is `x`, with white space around it and perhaps a last semicolon. */
  lemma OnePart(sql: string, x: string)
    requires Whole(Bare(MYSQL), GoSpaces, x)
    requires Trim(GoSpaces, Strip(MYSQL, Normal, sql)) == x || Trim(GoSpaces, Strip(MYSQL, Normal, sql)) == x + ";"
    ensures Parts(sql) == [x]
  {
    hide Next, Strip, End, FirstCut, Statements, Trim;
    TrimmedParts(Strip(MYSQL, Normal, sql));
    KeptWhole(Bare(MYSQL), GoSpaces, x);
    StatementsJoin(Bare(MYSQL), GoSpaces, x, "");
    NothingLeft();
    assert x + ";" + "" == x + ";" && [x] + [] == [x];
  }

  /** In any letter case, with any white space and the optional words, with names in backticks
      or without, whatever they contain and whatever follows: a script whose first statement
      inserts, updates, deletes, truncates or alters is classified as that, on that
      statement's schema and table. */
  lemma WriteClassified(op: Op, l: Lead, r: Ref, schema: string, table: string, rest: string, sql: string)
    requires Leads(op, l) && Refers(r, schema, table) && After(rest) && Fresh(op, l, RefText(r) + rest)
    requires Parts(sql) != [] && Parts(sql)[0] == LeadText(l) + (RefText(r) + rest)
    ensures Classify(sql) == Ok(Classified(op, schema, table, |Parts(sql)| > 1))
  {
    hide Parts, ClassifyHead, Verb, FirstTableRef, After, LeadText, RefText, Refers;
    HeadCaptured(op, l, RefText(r) + rest, |Parts(sql)| > 1);
    TargetFound(r, schema, table, rest);
  }

  /** A script whose first statement is a SELECT, in any letter case, is classified as a read of
      the schema and table behind its first FROM. */
  lemma ReadClassified(verb: string, middle: string, from: string, gap: string, r: Ref, schema: string, table: string,
                       rest: string, sql: string)
    requires Selects(verb, middle) && !WordChar(middle[|middle| - 1]) && Spelled(from, "FROM") && Blank(gap)
    requires Refers(r, schema, table) && After(rest)
    requires Parts(sql) != [] && Parts(sql)[0] == (verb + middle) + (from + (gap + (RefText(r) + rest)))
    ensures Classify(sql) == Ok(Classified(OpSelect, schema, table, |Parts(sql)| > 1))
  {
    hide Parts, Verb, AfterFrom, FirstTableRef, RefText, Trim, Solid;
    TargetTight(r, schema, table, rest);
    ReadCaptured(verb, middle, from, gap, RefText(r) + rest);
    TargetFound(r, schema, table, rest);
  }

  /** And one without a FROM reads no table. */
  lemma NoTableClassified(verb: string, middle: string, sql: string)
    requires Selects(verb, middle) && Parts(sql) != [] && Parts(sql)[0] == verb + middle
    ensures Classify(sql) == Ok(Classified(OpSelect, "", "", |Parts(sql)| > 1))
  {
    hide Parts, Verb, AfterFrom, FirstTableRef;
    NothingCaptured(verb, middle);
  }

  /** What a statement does is told by its first word: each kind of write only by its own,
      everything that is forbidden and everything that reads by these, and any other word by
      nothing; a write that its pattern does not match is unknown too. */
  lemma VerbDecides(sql: string)
    requires Parts(sql) != []
    ensures Classify(sql).Ok?
    ensures var verb, op := Verb(Parts(sql)[0]), Classify(sql).c.op;
            && (op == OpSelect <==> verb == "SELECT")
            && (op == OpReadMeta <==> verb in {"SHOW", "DESCRIBE", "DESC", "EXPLAIN"})
            && (op == OpForbidden <==>
                  verb in {"CREATE", "DROP", "GRANT", "REVOKE", "REPLACE", "FLUSH", "RESET"})
            && (verb == "INSERT" ==> op == OpInsert || op == OpUnknown) && (op == OpInsert ==> verb == "INSERT")
            && (verb == "UPDATE" ==> op == OpUpdate || op == OpUnknown) && (op == OpUpdate ==> verb == "UPDATE")
            && (verb == "DELETE" ==> op == OpDelete || op == OpUnknown) && (op == OpDelete ==> verb == "DELETE")
            && (verb == "TRUNCATE" ==> op == OpTruncate || op == OpUnknown)
            && (op == OpTruncate ==> verb == "TRUNCATE")
            && (verb in {"ALTER", "RENAME"} ==> op == OpDDL || op == OpUnknown)
            && (op == OpDDL ==> verb in {"ALTER", "RENAME"})
  {
    hide Parts, Verb, AfterFrom, FirstTableRef, Capture, CaptureBare, CaptureTruncate;
  }

  /** Whatever the names and values contain, the INSERT that a dump prints for a row is
      classified as one INSERT into its own table. */
  lemma InsertClassified(schema: string, table: string, cols: seq<string>, row: seq<Value>, tail: string)
    requires tail == "" || tail == ";\n"
    ensures Classify(InsertText(schema, table, cols, row) + tail) == Ok(Classified(OpInsert, schema, table, false))
  {
    hide Next, Strip, End, FirstCut, InertFrom, Classify, Parts, InsertText, After, LeadText, Leads;
    var x := InsertText(schema, table, cols, row);
    InsertInert(MYSQL, schema, table, cols, row);
    InsertInert(Bare(MYSQL), schema, table, cols, row);
    var rest := InsertRest(schema, table, cols, row);
    InertParts(x);
    PartsOfWhole(x, tail);
    PlainLead();
    var r := PrintedRef(schema, table);
    TargetTight(r, schema, table, rest);
    WriteClassified(OpInsert, Lead("INSERT", " ", [], "INTO", " "), r, schema, table, rest, x + tail);
  }

  /** The reference that a dump prints. */
  lemma PrintedRef(schema: string, table: string) returns (r: Ref)
    ensures RefText(r) == QualifiedName(schema, table) && Refers(r, schema, table)
  {
    hide QuoteIdent;
    SqlReader.QuotedLength(schema);
    r := Ref(if schema == "" then "" else QuoteIdent(schema), "", "", QuoteIdent(table));
    assert QuoteIdent(schema) + ("" + ("." + ("" + QuoteIdent(table)))) == QuoteIdent(schema) + "." + QuoteIdent(table);
  }

  lemma InsertRest(schema: string, table: string, cols: seq<string>, row: seq<Value>) returns (rest: string)
    ensures After(rest) && InsertText(schema, table, cols, row)
        == "INSERT INTO " + (QualifiedName(schema, table) + rest)
    ensures var x := InsertText(schema, table, cols, row); x != [] && Tight(GoSpaces, x)
  {
    hide QualifiedName, NameList, LiteralList;
    rest := " (" + NameList(cols) + ") VALUES (" + LiteralList(row) + ")";
    assert rest[0] == ' ' && rest[1] == '(' && rest[|rest| - 1] == ')';
    assert TrimLeft(SqlSpaces, rest) == rest[1..];
    var x := InsertText(schema, table, cols, row);
    assert x[0] == 'I' && x[|x| - 1] == ')';
  }

  lemma PlainLead()
    ensures Leads(OpInsert, Lead("INSERT", " ", [], "INTO", " "))
        && LeadText(Lead("INSERT", " ", [], "INTO", " ")) == "INSERT INTO "
  {
  }

  lemma InertParts(x: string)
    requires Inert(Bare(MYSQL), x) && x != [] && Tight(GoSpaces, x)
    ensures Whole(Bare(MYSQL), GoSpaces, x)
  {
  }
}
