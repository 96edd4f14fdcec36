/** `internal/db/mysql/sqlclass.go`: which operation on which table a statement is. */
module MysqlClassifier {
  import opened Text
  import opened SqlLexer
  import MysqlScanners
  import SqlLaws

  datatype Op = OpSelect | OpInsert | OpUpdate | OpDelete | OpTruncate | OpDDL | OpForbidden | OpReadMeta | OpUnknown

  datatype Classified = Classified(op: Op, db: string, table: string, multi: bool)

  datatype Outcome = Ok(c: Classified) | EmptySQL

  // ---------- the identifier pattern ----------

  predicate IdentStart(c: char) { 'A' <= c <= 'Z' || 'a' <= c <= 'z' || c == '_' }

  predicate IdentChar(c: char) { IdentStart(c) || IsDigit(c) || c == '$' }

  /** Behind an opening backtick: the length of the name and its closer.  A doubled
      backtick belongs to the name unless only taking it apart leaves a closer. */
  function BacktickLen(s: string): (r: Option<nat>)
    ensures r.Some? ==> 1 <= r.value <= |s|
  {
    if s == [] then None
    else if s[0] != '`' then Longer(BacktickLen(s[1..]), 1, None)
    else if |s| >= 2 && s[1] == '`' then Longer(BacktickLen(s[2..]), 2, Some(1))
    else Some(1)
  }

  function Longer(r: Option<nat>, n: nat, otherwise: Option<nat>): Option<nat> {
    if r.Some? then Some(r.value + n) else otherwise
  }

  function IdentRun(s: string): (n: nat)
    ensures n <= |s|
  {
    if s != [] && IdentChar(s[0]) then 1 + IdentRun(s[1..]) else 0
  }

  function MatchIdent(s: string): (r: Option<nat>)
    ensures r.Some? ==> 1 <= r.value <= |s|
  {
    if s == [] then None
    else if s[0] == '`' then
      match BacktickLen(s[1..]) case None => None case Some(n) => Some(n + 1)
    else if IdentStart(s[0]) then Some(1 + IdentRun(s[1..]))
    else None
  }

  /** Start and end of the leftmost identifier. */
  function FindIdent(s: string): (r: Option<(nat, nat)>)
    ensures r.Some? ==> r.value.0 < r.value.1 <= |s|
  {
    if s == [] then None
    else
      match MatchIdent(s)
      case Some(n) => Some((0, n))
      case None =>
        match FindIdent(s[1..]) case None => None case Some((i, j)) => Some((i + 1, j + 1))
  }

  function Unquote(s: string): string {
    if |s| >= 2 && s[0] == '`' && s[|s| - 1] == '`' then HalveChar(s[1..|s| - 1], '`') else s
  }

  function FirstTableRef(text: string): (string, string) {
    var s := Trim(GoSpaces, text);
    match FindIdent(s)
    case None => ("", "")
    case Some((i, j)) =>
      var first := Unquote(s[i..j]);
      var rest := TrimLeft(SqlSpaces, s[j..]);
      if rest != [] && rest[0] == '.' then
        var more := TrimLeft(SqlSpaces, rest[1..]);
        match FindIdent(more)
        case Some((k, l)) => (first, Unquote(more[k..l]))
        case None => ("", first)
      else ("", first)
  }

  // ---------- the statement patterns ----------

  /** Case-insensitive match of a character with an upper-case letter or an underscore;
      under Go's folding the Kelvin sign is a K and the long s an S. */
  predicate FoldsTo(c: char, u: char) {
    || c == u
    || ('A' <= u <= 'Z' && c as int == u as int + 32)
    || (u == 'K' && c as int == 0x212a)
    || (u == 'S' && c as int == 0x17f)
  }

  function Word(s: string, w: string): Option<string> {
    if |w| <= |s| && forall i :: 0 <= i < |w| ==> FoldsTo(s[i], w[i]) then Some(s[|w|..]) else None
  }

  /** White space, at least one, in front of something else. */
  function Gap(s: string): (r: Option<string>)
    ensures r.Some? ==> |r.value| < |s|
  {
    var t := TrimLeft(RegexpSpaces, s);
    TrimLeftLength(RegexpSpaces, s);
    if |t| < |s| then Some(t) else None
  }

  lemma {:induction false} TrimLeftLength(w: Spaces, s: string)
    ensures |TrimLeft(w, s)| <= |s|
  {
    if s != [] {
      TrimLeftLength(w, s[1..]);
    }
  }

  /** White space, at least one, and then everything that is left, at least one character:
      of nothing but white space the pattern gives the last character back. */
  function Rest(s: string): Option<string> {
    match Gap(s)
    case None => None
    case Some(t) => if t != [] then Some(t) else if |s| >= 2 then Some(s[|s| - 1..]) else None
  }

  function WordGap(s: string, w: string): (r: Option<string>)
    ensures r.Some? ==> |r.value| < |s|
  {
    match Word(s, w) case None => None case Some(t) => Gap(t)
  }

  function AnyWordGap(s: string, ws: seq<string>): (r: Option<string>)
    ensures r.Some? ==> |r.value| < |s|
  {
    if ws == [] then None
    else match WordGap(s, ws[0]) case Some(t) => Some(t) case None => AnyWordGap(s, ws[1..])
  }

  /** As many of the optional words as there are. */
  function SkipWords(s: string, ws: seq<string>): string
    decreases |s|
  {
    match AnyWordGap(s, ws) case Some(t) => SkipWords(t, ws) case None => s
  }

  /** A verb, optional words, a keyword, and the captured rest. */
  function Capture(head: string, verb: string, optional: seq<string>, keyword: string): Option<string> {
    match WordGap(head, verb)
    case None => None
    case Some(t) =>
      match Word(SkipWords(t, optional), keyword) case None => None case Some(u) => Rest(u)
  }

  /** A verb, optional words, and the captured rest; a head is trimmed, so there is one. */
  function CaptureBare(head: string, verb: string, optional: seq<string>): Option<string> {
    match WordGap(head, verb)
    case None => None
    case Some(t) => var u := SkipWords(t, optional); if u == [] then None else Some(u)
  }

  predicate WordChar(c: char) { 'A' <= c <= 'Z' || 'a' <= c <= 'z' || c == '_' || IsDigit(c) }

  /** What follows the leftmost FROM that stands at a word boundary. */
  function AfterFrom(s: string, inWord: bool): Option<string> {
    if s == [] then None
    else
      var here := if inWord then None else match Word(s, "FROM") case None => None case Some(t) => Rest(t);
      if here.Some? then here else AfterFrom(s[1..], WordChar(s[0]))
  }

  function Letters(s: string): (n: nat)
    ensures n <= |s|
  {
    if s != [] && ('A' <= s[0] <= 'Z' || 'a' <= s[0] <= 'z') then 1 + Letters(s[1..]) else 0
  }

  function ToUpper(s: string): string {
    if s == [] then []
    else [if 'a' <= s[0] <= 'z' then (s[0] as int - 32) as char else s[0]] + ToUpper(s[1..])
  }

  function Verb(stmt: string): string {
    var t := TrimLeft(SqlSpaces, stmt);
    ToUpper(t[..Letters(t)])
  }

  method FirstVerb(stmt: string) returns (r: string)
    ensures r == Verb(stmt)
  {
    var i := 0;
    while i < |stmt| && (stmt[i] == ' ' || stmt[i] == '\t' || stmt[i] == '\n' || stmt[i] == '\r')
      invariant 0 <= i <= |stmt|
      invariant TrimLeft(SqlSpaces, stmt[i..]) == TrimLeft(SqlSpaces, stmt)
    {
      i := i + 1;
    }
    ghost var t := TrimLeft(SqlSpaces, stmt);
    assert t == stmt[i..];
    var j := i;
    while j < |stmt| && (('A' <= stmt[j] <= 'Z') || ('a' <= stmt[j] <= 'z'))
      invariant i <= j <= |stmt|
      invariant Letters(t) == j - i + Letters(stmt[j..])
    {
      assert stmt[j..][1..] == stmt[j + 1..];
      j := j + 1;
    }
    assert Letters(stmt[j..]) == 0;
    assert t[..j - i] == stmt[i..j];
    r := ToUpper(stmt[i..j]);
  }

  const INSERT_WORDS := ["LOW_PRIORITY", "DELAYED", "HIGH_PRIORITY", "IGNORE"]
  const UPDATE_WORDS := ["LOW_PRIORITY", "IGNORE"]
  const DELETE_WORDS := ["LOW_PRIORITY", "QUICK", "IGNORE"]

  function Targeted(op: Op, capture: Option<string>, multi: bool): Classified {
    match capture
    case Some(m) => var (db, table) := FirstTableRef(m); Classified(op, db, table, multi)
    case None => Classified(OpUnknown, "", "", multi)
  }

  function ClassifyHead(head: string, verb: string, multi: bool): Classified {
    if verb == "SELECT" then
      match AfterFrom(head, false)
      case Some(m) => var (db, table) := FirstTableRef(m); Classified(OpSelect, db, table, multi)
      case None => Classified(OpSelect, "", "", multi)
    else if verb == "INSERT" then Targeted(OpInsert, Capture(head, "INSERT", INSERT_WORDS, "INTO"), multi)
    else if verb == "UPDATE" then Targeted(OpUpdate, CaptureBare(head, "UPDATE", UPDATE_WORDS), multi)
    else if verb == "DELETE" then Targeted(OpDelete, Capture(head, "DELETE", DELETE_WORDS, "FROM"), multi)
    else if verb == "TRUNCATE" then Targeted(OpTruncate, CaptureTruncate(head), multi)
    else if verb == "ALTER" then Targeted(OpDDL, Capture(head, "ALTER", [], "TABLE"), multi)
    else if verb == "RENAME" then Targeted(OpDDL, Capture(head, "RENAME", [], "TABLE"), multi)
    else if verb in ["CREATE", "DROP", "GRANT", "REVOKE", "REPLACE", "FLUSH", "RESET"] then
      Classified(OpForbidden, "", "", multi)
    else if verb in ["SHOW", "DESCRIBE", "DESC", "EXPLAIN"] then Classified(OpReadMeta, "", "", multi)
    else Classified(OpUnknown, "", "", multi)
  }

  /** At most one TABLE. */
  function CaptureTruncate(head: string): Option<string> {
    match WordGap(head, "TRUNCATE")
    case None => None
    case Some(t) =>
      match WordGap(t, "TABLE")
      case Some(u) => if u == [] then None else Some(u)
      case None => if t == [] then None else Some(t)
  }

  /** The statements that the classifier sees. */
  function Parts(sql: string): seq<string> {
    Statements(Bare(MYSQL), GoSpaces, Strip(MYSQL, Normal, sql))
  }

  function Classify(sql: string): Outcome {
    var parts := Parts(sql);
    if parts == [] then EmptySQL else Ok(ClassifyHead(parts[0], Verb(parts[0]), |parts| > 1))
  }

  method ClassifySQL(sql: string) returns (r: Outcome)
    ensures r == Classify(sql)
  {
    hide Strip, Statements, Trim, ClassifyHead, Verb;
    var stripped := MysqlScanners.StripComments(sql);
    var cleaned := Trim(GoSpaces, stripped);
    TrimmedParts(stripped);
    if cleaned == "" {
      return EmptySQL;
    }
    var parts := MysqlScanners.SplitTopLevel(cleaned);
    if |parts| == 0 {
      return EmptySQL;
    }
    var multi := |parts| > 1;
    var head := parts[0];
    var verb := FirstVerb(head);
    return Ok(ClassifyHead(head, verb, multi));
  }

  lemma TrimmedParts(stripped: string)
    ensures Statements(Bare(MYSQL), GoSpaces, Trim(GoSpaces, stripped)) == Statements(Bare(MYSQL), GoSpaces, stripped)
    ensures Trim(GoSpaces, stripped) == [] ==> Statements(Bare(MYSQL), GoSpaces, stripped) == []
  {
    SqlLaws.StatementsTrim(Bare(MYSQL), stripped);
    if Trim(GoSpaces, stripped) == [] {
      StatementsStep(Bare(MYSQL), GoSpaces, []);
    }
  }
}
