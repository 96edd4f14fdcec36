/** The `run_sql` tool of `internal/chat/execute.go`: what text it lets through, and when
    that is a single read. */
module ReadGate {
  import opened Text
  import opened SqlLexer
  import opened SqlLaws
  import opened ScannerAgreement
  import opened MysqlClassifier
  import opened ClassifierLaws
  import opened StatementLeads
  import opened DumpRestore
  import opened SqlPrinter

  datatype Gate = Missing | ReadOnly | OutOfScope(db: string) | Runs

  /** The checks in front of the executor. */
  method RunSQLGate(fold: char -> char, sql: string, defaultDB: string) returns (g: Gate)
    ensures g == GateOf(fold, sql, defaultDB)
  {
    if sql == "" {
      return Missing;
    }
    var cls := ClassifySQL(sql);
    if cls.EmptySQL? || (cls.c.op != OpSelect && cls.c.op != OpReadMeta) {
      return ReadOnly;
    }
    if defaultDB != "" && cls.c.db != "" && !EqualFold(fold, cls.c.db, defaultDB) {
      return OutOfScope(cls.c.db);
    }
    return Runs;
  }

  function GateOf(fold: char -> char, sql: string, defaultDB: string): Gate {
    if sql == "" then Missing
    else
      match Classify(sql)
      case EmptySQL => ReadOnly
      case Ok(c) =>
        if c.op != OpSelect && c.op != OpReadMeta then ReadOnly
        else if defaultDB != "" && c.db != "" && !EqualFold(fold, c.db, defaultDB) then OutOfScope(c.db)
        else Runs
  }

  /** A statement that begins like a read. */
  predicate IsRead(statement: string) { Verb(statement) in {"SELECT", "SHOW", "DESCRIBE", "DESC", "EXPLAIN"} }

  /** What the whole text should be: one statement, and a read. */
  predicate SingleRead(sql: string) { |Parts(sql)| == 1 && IsRead(Parts(sql)[0]) }

  lemma HeadReads(head: string, multi: bool)
    ensures var c := ClassifyHead(head, Verb(head), multi);
            && c.multi == multi && (c.op == OpSelect || c.op == OpReadMeta <==> IsRead(head))
  {
    hide Verb, Capture, CaptureBare, CaptureTruncate, AfterFrom, FirstTableRef;
  }

  /** `run_sql` lets a text through exactly when its first statement is a read that names no
      database but the pinned one; it does not look at the others. */
  lemma GateMeans(fold: char -> char, sql: string, defaultDB: string)
    ensures GateOf(fold, sql, defaultDB) == Runs <==>
              && sql != "" && Parts(sql) != [] && IsRead(Parts(sql)[0])
              && var c := Classify(sql).c; defaultDB == "" || c.db == "" || EqualFold(fold, c.db, defaultDB)
  {
    hide Parts, ClassifyHead, Verb, EqualFold;
    if Parts(sql) != [] { HeadReads(Parts(sql)[0], |Parts(sql)| > 1); }
  }

  /** A script whose first statement selects from a table that is written with its schema, or
      without one, is stopped exactly when the session has a pinned database, the schema is
      named and it is not the pinned one; and then the answer names the schema.  Otherwise
      it is let through. */
  lemma ReadScope(fold: char -> char, verb: string, middle: string, from: string, gap: string, r: Ref, schema: string,
                  table: string, rest: string, sql: string, defaultDB: string)
    requires Selects(verb, middle) && !WordChar(middle[|middle| - 1]) && Spelled(from, "FROM") && Blank(gap)
    requires Refers(r, schema, table) && After(rest)
    requires Parts(sql) != [] && Parts(sql)[0] == (verb + middle) + (from + (gap + (RefText(r) + rest)))
    ensures GateOf(fold, sql, defaultDB)
         == if defaultDB != "" && schema != "" && Folded(fold, schema) != Folded(fold, defaultDB)
            then OutOfScope(schema) else Runs
  {
    hide Parts, Classify, EqualFold, Folded, RefText, Refers, After;
    ReadClassified(verb, middle, from, gap, r, schema, table, rest, sql);
    EqualFoldMeans(fold, schema, defaultDB);
    NoParts();
  }

  lemma NoParts()
    ensures Parts("") == []
  {
    NothingLeft();
  }

  /** One that selects from no table is let through whatever database is pinned. */
  lemma NoTableRuns(fold: char -> char, verb: string, middle: string, sql: string, defaultDB: string)
    requires Selects(verb, middle) && Parts(sql) != [] && Parts(sql)[0] == verb + middle
    ensures GateOf(fold, sql, defaultDB) == Runs
  {
    hide Parts, Classify, EqualFold;
    NoTableClassified(verb, middle, sql);
    NoParts();
  }

  /** A read of a table of another database than the pinned one. */
  lemma OtherDatabase(fold: char -> char)
    ensures GateOf(fold, "SELECT name FROM other.users", "app") == OutOfScope("other")
  {
    hide *;
    var r := Ref("other", "", "", "users");
    OtherPart();
    OtherUsers();
    SelectsName();
    SmallFacts();
    Folds(fold);
    ReadScope(fold, "SELECT", " name ", "FROM", " ", r, "other", "users", "", "SELECT name FROM other.users", "app");
  }

  lemma OtherPart()
    ensures Parts("SELECT name FROM other.users")
         == [("SELECT" + " name ") + ("FROM" + (" " + (RefText(Ref("other", "", "", "users")) + "")))]
  {
    hide *;
    OtherUsers();
    OtherIsWhole();
    PartsOfWhole("SELECT name FROM other.users", "");
    NothingMore("SELECT name FROM other.users");
    OtherText();
  }

  lemma NothingMore(s: string)
    ensures s + "" == s
  {
  }

  lemma OtherIsWhole()
    ensures Inert(MYSQL, "SELECT name FROM other.users")
    ensures Whole(Bare(MYSQL), GoSpaces, "SELECT name FROM other.users")
  {
    hide End, Strip, FirstCut;
    PlainInert(MYSQL, "SELECT name FROM other.users");
    PlainInert(Bare(MYSQL), "SELECT name FROM other.users");
  }

  lemma OtherText()
    ensures ("SELECT" + " name ") + ("FROM" + (" " + ("other.users" + ""))) == "SELECT name FROM other.users"
  {
  }

  lemma SmallFacts()
    ensures !WordChar(' ') && Spelled("FROM", "FROM") && Blank(" ") && After("")
    ensures " name "[|" name "| - 1] == ' '
  {
  }

  lemma OtherUsers()
    ensures var r := Ref("other", "", "", "users"); Refers(r, "other", "users") && RefText(r) == "other.users"
  {
    BareNames();
    hide BareName, QuoteIdent;
    assert "other" + ("" + ("." + ("" + "users"))) == "other.users";
  }

  lemma BareNames()
    ensures BareName("other") && BareName("users")
  {
  }

  lemma SelectsName()
    ensures Selects("SELECT", " name ")
  {
    var s := "SELECT" + " name ";
    assert s == "SELECT name ";
    forall i | 0 <= i < |s| ensures !FromAt(s, i) {
      if i + 4 < |s| {
        assert s[i..i + 4][0] == s[i];
        assert !FoldsTo(s[i], 'F');
      }
    }
  }

  lemma Folds(fold: char -> char)
    ensures Folded(fold, "other") != Folded(fold, "app")
  {
    assert |Folded(fold, "other")| == 5 && |Folded(fold, "app")| == 3;
  }

  /** So a text that is let through is a single read exactly when the classifier does not
      report several statements. */
  lemma SingleReadExactly(fold: char -> char, sql: string, defaultDB: string)
    requires GateOf(fold, sql, defaultDB) == Runs
    ensures Classify(sql).Ok? && (SingleRead(sql) <==> !Classify(sql).c.multi)
  {
    hide Parts, ClassifyHead, Verb, EqualFold;
    GateMeans(fold, sql, defaultDB);
    HeadReads(Parts(sql)[0], |Parts(sql)| > 1);
  }

  /** The same in the terms of `splitSQL`: exactly when it cuts one statement with code. */
  lemma SingleReadIsOneStatement(fold: char -> char, sql: string, defaultDB: string)
    requires GateOf(fold, sql, defaultDB) == Runs && Careful(Normal, sql)
    ensures SingleRead(sql) <==> |WithCode(Statements(IMPORT, SqlSpaces, sql))| == 1
  {
    hide Parts, ClassifyHead, Statements, WithCode, Careful, GateOf, SingleRead;
    SingleReadExactly(fold, sql, defaultDB);
    MultiAgrees(sql);
  }

  /** A text that is let through and is not a single read: two of them. */
  lemma TwoReads(fold: char -> char)
    ensures var sql := "SHOW TABLES" + ";" + "SHOW TABLES";
            GateOf(fold, sql, "") == Runs && !SingleRead(sql) && |Parts(sql)| == 2
  {
    hide Parts, GateOf, Verb, Statements, End;
    var x := "SHOW TABLES";
    ShowIsWhole();
    TwoParts(x);
    ShowIsRead();
    GateMeans(fold, x + ";" + x, "");
  }

  lemma ShowIsWhole()
    ensures Inert(MYSQL, "SHOW TABLES") && Whole(Bare(MYSQL), GoSpaces, "SHOW TABLES")
  {
    hide End, Strip, FirstCut;
    PlainInert(MYSQL, "SHOW TABLES");
    PlainInert(Bare(MYSQL), "SHOW TABLES");
  }

  lemma ShowIsRead()
    ensures IsRead("SHOW TABLES")
  {
    hide Verb;
    VerbAt("SHOW", "SHOW", " ", "TABLES");
    assert "SHOW" + (" " + "TABLES") == "SHOW TABLES";
  }

  lemma TwoParts(x: string)
    requires Inert(MYSQL, x) && Whole(Bare(MYSQL), GoSpaces, x)
    requires x != [] && x[|x| - 1] != '-' && x[|x| - 1] != '/'
    ensures Parts(x + ";" + x) == [x, x]
  {
    hide Next, Strip, End, FirstCut, Statements;
    SemicolonKept();
    StripAppend(MYSQL, Normal, x, ";");
    EndAppend(MYSQL, Normal, x, ";");
    StripAppend(MYSQL, Normal, x + ";", x);
    StatementsJoin(Bare(MYSQL), GoSpaces, x, x);
    KeptWhole(Bare(MYSQL), GoSpaces, x);
    assert [x] + [x] == [x, x];
  }

  lemma SemicolonKept()
    ensures Strip(MYSQL, Normal, ";") == ";" && End(MYSQL, Normal, ";") == Normal
  {
    assert ";"[1..] == "";
  }
}
