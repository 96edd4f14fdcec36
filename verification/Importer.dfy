/** `importSQL` of `internal/api/sql_import.go`: a script is cut into statements, and these
    are run one after another on one connection. */
module Importer {
  import opened Text
  import opened SqlLexer
  import opened SqlPrinter
  import SqlImport
  import DumpRestore
  import SqlReader

  /** What the reader and the database answer; `exec(i)` is the error of statement `i`. */
  datatype Server = Server(read: Option<string>, connect: Option<string>, use: Option<string>,
                           exec: nat -> Option<string>)

  /** The errors of the first `n` statements, numbered from one. */
  function Errors(exec: nat -> Option<string>, n: nat): seq<string> {
    if n == 0 then []
    else Errors(exec, n - 1) + if exec(n - 1).Some? then ["#" + Numeral(n) + ": " + exec(n - 1).value] else []
  }

  /** All that is run for a script, when nothing fatal happens. */
  function Script(text: string, defaultDB: string): seq<string> {
    var stmts := Statements(IMPORT, SqlSpaces, text);
    if stmts == [] then [] else (if defaultDB != "" then ["USE " + QuoteIdent(defaultDB)] else []) + stmts
  }

  /** `ran` is what reaches the connection: after the database is chosen, every statement of
      the script, in order, whatever the ones before it come to.  Each is counted or reported,
      the failing ones under their numbers; a fatal error comes before the first. */
  method ImportSQL(text: string, defaultDB: string, server: Server)
    returns (executed: nat, errs: seq<string>, fatal: Option<string>, ran: seq<string>)
    ensures var n := |Statements(IMPORT, SqlSpaces, text)|;
            fatal == if server.read.Some? then server.read
                     else if n == 0 then None
                     else if server.connect.Some? then server.connect
                     else if defaultDB != "" && server.use.Some? then Some("USE " + defaultDB + ": " + server.use.value)
                     else None
    ensures fatal == None ==>
              var n := |Statements(IMPORT, SqlSpaces, text)|;
              && ran == Script(text, defaultDB) && executed + |errs| == n
              && errs == Errors(server.exec, n) == Failures(server.exec, 0, n)
    ensures fatal != None ==>
              && executed == 0 && errs == []
              && ran == if server.read.Some? || server.connect.Some? then [] else ["USE " + QuoteIdent(defaultDB)]
  {
    hide Statements, Failures;
    executed, errs, ran := 0, [], [];
    if server.read.Some? {
      return 0, [], server.read, [];
    }
    var stmts := SqlImport.SplitSQL(text);
    if |stmts| == 0 {
      ErrorsTell(server.exec, 0, 0);
      return 0, [], None, [];
    }
    if server.connect.Some? {
      return 0, [], server.connect, [];
    }
    if defaultDB != "" {
      ran := ran + ["USE " + QuoteIdent(defaultDB)];
      if server.use.Some? {
        return 0, [], Some("USE " + defaultDB + ": " + server.use.value), ran;
      }
    }
    ghost var head := ran;
    for i := 0 to |stmts|
      invariant ran == head + stmts[..i] && executed + |errs| == i && errs == Errors(server.exec, i)
    {
      ran := ran + [stmts[i]];
      var err := server.exec(i);
      if err.Some? {
        errs := errs + ["#" + Numeral(i + 1) + ": " + err.value];
        continue;
      }
      executed := executed + 1;
    }
    assert stmts[..|stmts|] == stmts;
    ErrorsTell(server.exec, 0, |stmts|);
    fatal := None;
  }

  /** The errors of the statements from number `i` on, each under its number, counted from one. */
  function Failures(exec: nat -> Option<string>, i: nat, n: nat): seq<string>
    requires i <= n
    decreases n - i
  {
    if i == n then []
    else
      (match exec(i) case None => [] case Some(error) => ["#" + Numeral(i + 1) + ": " + error])
      + Failures(exec, i + 1, n)
  }

  /** What is reported is the error of every statement that fails, in order. */
  lemma {:induction false} ErrorsTell(exec: nat -> Option<string>, i: nat, n: nat)
    requires i <= n
    ensures Errors(exec, n) == Errors(exec, i) + Failures(exec, i, n)
    ensures i == 0 ==> Errors(exec, n) == Failures(exec, 0, n)
    decreases n - i
  {
    hide Numeral;
    if i < n {
      ErrorsTell(exec, i + 1, n);
    }
  }

  /** Importing a dump into a database chooses that database, if one is given, and then runs
      the dump's own statements, one by one, which make the table again, if the CREATE text
      is a whole statement. */
  lemma DumpImported(schema: string, table: string, create: string, cols: seq<string>, rows: seq<seq<Value>>,
                     defaultDB: string)
    requires DumpRestore.Whole(IMPORT, SqlSpaces, create)
    ensures var ran := Script(Dump(schema, table, create, cols, rows), defaultDB);
            var n := if defaultDB == "" then 0 else 1;
            && |ran| > n && (defaultDB != "" ==> SqlReader.ReadUse(ran[0]) == Some(defaultDB))
            && DumpRestore.Remade(ran[n..], schema, table, create, cols, rows)
  {
    hide Statements, DumpRestore.Whole, Dump, SqlReader.ReadUse, DumpRestore.Remade, QuoteIdent;
    DumpRestore.DumpRemakes(schema, table, create, cols, rows);
    SqlReader.UseRoundTrip(defaultDB);
    var stmts := Statements(IMPORT, SqlSpaces, Dump(schema, table, create, cols, rows));
    NotEmpty(stmts, schema, table, create, cols, rows);
    assert ([UseText(defaultDB)] + stmts)[1..] == stmts && stmts[0..] == stmts && [] + stmts == stmts;
  }

  lemma NotEmpty(stmts: seq<string>, schema: string, table: string, create: string, cols: seq<string>,
                 rows: seq<seq<Value>>)
    requires DumpRestore.Remade(stmts, schema, table, create, cols, rows)
    ensures stmts != []
  {
  }
}
