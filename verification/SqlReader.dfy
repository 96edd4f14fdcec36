/** A reader for the statements of a dump, written from the rules of MySQL and not from
    the printer: string literals follow section 9.1.1 of the MySQL 8.0 Reference Manual,
    quoted names section 9.2. */
module SqlReader {
  import opened Text
  import opened SqlPrinter

  /** The character that a backslash followed by `c` stands for, or both where the manual
      keeps both. */
  function Unescaped(c: char): string {
    if c == '0' then "\0"
    else if c == 'b' then [0x08 as char]
    else if c == 'n' then "\n"
    else if c == 'r' then "\r"
    else if c == 't' then "\t"
    else if c == 'Z' then [0x1a as char]
    else if c == '%' || c == '_' then ['\\', c]
    else [c]
  }

  /** Reads the body of a string literal and its closing quote; a doubled quote is a quote. */
  function ReadString(s: string): Option<(string, string)> {
    if s == [] then None
    else if s[0] == '\\' then
      if |s| == 1 then None
      else match ReadString(s[2..]) case None => None case Some((v, rest)) => Some((Unescaped(s[1]) + v, rest))
    else if s[0] == '\'' then
      if |s| >= 2 && s[1] == '\'' then
        match ReadString(s[2..]) case None => None case Some((v, rest)) => Some(("'" + v, rest))
      else Some(([], s[1..]))
    else match ReadString(s[1..]) case None => None case Some((v, rest)) => Some(([s[0]] + v, rest))
  }

  /** Reads the body of a quoted name and its closing backtick. */
  function ReadName(s: string): Option<(string, string)> {
    if s == [] then None
    else if s[0] == '`' then
      if |s| >= 2 && s[1] == '`' then
        match ReadName(s[2..]) case None => None case Some((v, rest)) => Some(("`" + v, rest))
      else Some(([], s[1..]))
    else match ReadName(s[1..]) case None => None case Some((v, rest)) => Some(([s[0]] + v, rest))
  }

  function ReadIdent(s: string): Option<(string, string)> {
    match Expect(s, "`") case None => None case Some(rest) => ReadName(rest)
  }

  function ReadInt(s: string): Option<(int, string)> {
    var negative := s != [] && s[0] == '-';
    var digits := if negative then s[1..] else s;
    var n := DigitRun(digits);
    if n == 0 then None
    else
      var v: int := NumeralValue(digits[..n]);
      Some((if negative then -v else v, digits[n..]))
  }

  function ReadValue(s: string): Option<(Value, string)> {
    if s == [] then None
    else if s[0] == '\'' then
      match ReadString(s[1..]) case None => None case Some((v, rest)) => Some((Bytes(v), rest))
    else if s[0] == 'N' then
      match Expect(s, "NULL") case None => None case Some(rest) => Some((Null, rest))
    else match ReadInt(s) case None => None case Some((n, rest)) => Some((Int(n), rest))
  }

  /** Reads list elements up to the closing parenthesis, the first one already due. */
  function ReadIdents(s: string): Option<(seq<string>, string)>
    decreases |s|
  {
    match ReadIdent(s)
    case None => None
    case Some((name, rest)) =>
      match Expect(rest, ", ")
      case Some(more) =>
        if |more| >= |s| then None
        else (match ReadIdents(more) case None => None case Some((names, end)) => Some(([name] + names, end)))
      case None =>
        match Expect(rest, ")") case None => None case Some(end) => Some(([name], end))
  }

  function ReadValues(s: string): Option<(seq<Value>, string)>
    decreases |s|
  {
    match ReadValue(s)
    case None => None
    case Some((v, rest)) =>
      match Expect(rest, ", ")
      case Some(more) =>
        if |more| >= |s| then None
        else (match ReadValues(more) case None => None case Some((vs, end)) => Some(([v] + vs, end)))
      case None =>
        match Expect(rest, ")") case None => None case Some(end) => Some(([v], end))
  }

  function ReadIdentList(s: string): Option<(seq<string>, string)> {
    match Expect(s, ")") case Some(end) => Some(([], end)) case None => ReadIdents(s)
  }

  function ReadValueList(s: string): Option<(seq<Value>, string)> {
    match Expect(s, ")") case Some(end) => Some(([], end)) case None => ReadValues(s)
  }

  datatype Insert = Insert(schema: string, table: string, cols: seq<string>, row: seq<Value>)

  /** `name` or `schema`.`name`. */
  function ReadTarget(s: string): Option<(string, string, string)> {
    match ReadIdent(s)
    case None => None
    case Some((first, rest)) =>
      match Expect(rest, ".")
      case None => Some(("", first, rest))
      case Some(more) =>
        match ReadIdent(more) case None => None case Some((second, end)) => Some((first, second, end))
  }

  function ReadInsert(s: string): Option<Insert> {
    match Expect(s, "INSERT INTO ")
    case None => None
    case Some(a) =>
      match ReadTarget(a)
      case None => None
      case Some((schema, table, b)) =>
        match Expect(b, " (")
        case None => None
        case Some(c) =>
          match ReadIdentList(c)
          case None => None
          case Some((cols, e)) =>
            match Expect(e, " VALUES (")
            case None => None
            case Some(f) =>
              match ReadValueList(f)
              case Some((row, end)) => if end == [] then Some(Insert(schema, table, cols, row)) else None
              case None => None
  }

  /** `USE name`: the database chosen. */
  function ReadUse(s: string): Option<string> {
    match Expect(s, "USE ")
    case None => None
    case Some(a) =>
      match ReadIdent(a)
      case None => None
      case Some((name, end)) => if end == [] then Some(name) else None
  }

  /** `DROP TABLE IF EXISTS target`: schema, if one is named, and table. */
  function ReadDrop(s: string): Option<(string, string)> {
    match Expect(s, "DROP TABLE IF EXISTS ")
    case None => None
    case Some(a) =>
      match ReadTarget(a)
      case None => None
      case Some((schema, table, end)) => if end == [] then Some((schema, table)) else None
  }

  // ---------- what is printed is read back ----------

  /** `rest` cannot be taken for more of the literal or name in front of it. */
  predicate Ends(rest: string) {
    rest != [] ==> rest[0] != '\'' && rest[0] != '`' && !IsDigit(rest[0])
  }

  lemma ReadEscaped(c: char, tail: string)
    ensures ReadString(EscapeChar(c) + tail) ==
            match ReadString(tail) case None => None case Some((v, rest)) => Some(([c] + v, rest))
  {
    var e := EscapeChar(c);
    SliceConcat(e, tail, |e|);
    assert e[|e|..] == [] && [] + tail == tail;
  }

  /** Decoding the escaped string gives the string back, and stops at its closing quote. */
  lemma {:induction false} StringRoundTrip(s: string, rest: string)
    requires Ends(rest)
    ensures ReadString(Escape(s) + "'" + rest) == Some((s, rest))
  {
    if s == [] {
      assert Escape(s) + "'" + rest == "'" + rest;
      assert ("'" + rest)[1..] == rest;
    } else {
      hide EscapeChar, ReadString;
      StringRoundTrip(s[1..], rest);
      var e, tail := EscapeChar(s[0]), Escape(s[1..]) + "'" + rest;
      ReadEscaped(s[0], tail);
      assert Escape(s) + "'" + rest == e + tail;
      assert s == [s[0]] + s[1..];
    }
  }

  /** Hence no two strings are escaped alike. */
  lemma EscapeInjective(a: string, b: string)
    requires Escape(a) == Escape(b)
    ensures a == b
  {
    StringRoundTrip(a, []);
    StringRoundTrip(b, []);
  }

  lemma ReadDoubled(c: char, tail: string)
    ensures ReadName((if c == '`' then "``" else [c]) + tail) ==
            match ReadName(tail) case None => None case Some((v, rest)) => Some(([c] + v, rest))
  {
    var e := if c == '`' then "``" else [c];
    SliceConcat(e, tail, |e|);
    assert e[|e|..] == [] && [] + tail == tail;
  }

  lemma {:induction false} NameRoundTrip(s: string, rest: string)
    requires Ends(rest)
    ensures ReadName(DoubleChar(s, '`') + "`" + rest) == Some((s, rest))
  {
    if s == [] {
      assert DoubleChar(s, '`') + "`" + rest == "`" + rest;
      assert ("`" + rest)[1..] == rest;
    } else {
      hide ReadName;
      NameRoundTrip(s[1..], rest);
      var e, tail := if s[0] == '`' then "``" else [s[0]], DoubleChar(s[1..], '`') + "`" + rest;
      ReadDoubled(s[0], tail);
      assert DoubleChar(s, '`') + "`" + rest == e + tail;
      assert s == [s[0]] + s[1..];
    }
  }

  lemma IdentRoundTrip(name: string, rest: string)
    requires Ends(rest)
    ensures ReadIdent(QuoteIdent(name) + rest) == Some((name, rest))
  {
    hide ReadName, DoubleChar, Expect;
    var tail := DoubleChar(name, '`') + "`" + rest;
    assert QuoteIdent(name) + rest == "`" + tail;
    ExpectIt("`", tail);
    NameRoundTrip(name, rest);
  }

  lemma DigitsRoundTrip(k: nat, rest: string)
    requires Ends(rest)
    ensures var digits := Numeral(k) + rest;
            var n := DigitRun(digits);
            n == |Numeral(k)| > 0 && NumeralValue(digits[..n]) == k && digits[n..] == rest
            && IsDigit(digits[0])
  {
    hide DigitRun, NumeralValue, Numeral;
    var digits := Numeral(k);
    DigitRunStops(digits, rest);
    NumeralRoundTrip(k);
    SliceConcat(digits, rest, |digits|);
    assert digits[..|digits|] == digits && digits[|digits|..] == [] && [] + rest == rest;
    assert (digits + rest)[0] == digits[0];
  }

  lemma IntRoundTrip(n: int, rest: string)
    requires Ends(rest)
    ensures ReadInt(PrintInt(n) + rest) == Some((n, rest))
  {
    hide DigitRun, NumeralValue, Numeral;
    if n < 0 {
      DigitsRoundTrip(-n, rest);
      var digits := Numeral(-n) + rest;
      assert PrintInt(n) + rest == "-" + digits;
      assert ("-" + digits)[1..] == digits;
    } else {
      DigitsRoundTrip(n, rest);
    }
  }

  lemma IntStarts(n: int)
    ensures PrintInt(n) != [] && (PrintInt(n)[0] == '-' || IsDigit(PrintInt(n)[0]))
  {
  }

  lemma ValueRoundTrip(v: Value, rest: string)
    requires Ends(rest)
    ensures ReadValue(Literal(v) + rest) == Some((v, rest))
  {
    hide ReadString, ReadInt, Escape, PrintInt, Expect;
    match v
    case Null => ExpectIt("NULL", rest);
    case Int(n) =>
      IntRoundTrip(n, rest);
      IntStarts(n);
    case Bytes(s) =>
      StringRoundTrip(s, rest);
      var tail := Escape(s) + "'" + rest;
      assert Literal(v) + rest == "'" + tail;
      assert ("'" + tail)[1..] == tail;
  }

  lemma LiteralStarts(v: Value)
    ensures Literal(v) != [] && Literal(v)[0] != ')' && Literal(v)[0] != ','
  {
    match v
    case Int(n) => IntStarts(n);
    case _ =>
  }

  lemma ListSeams(rest: string)
    ensures Expect(")" + rest, ", ") == None && Ends(")" + rest) && Ends(", " + rest)
  {
  }

  lemma {:induction false} ValuesRoundTrip(row: seq<Value>, rest: string)
    requires row != []
    ensures ReadValues(LiteralList(row) + (")" + rest)) == Some((row, rest))
  {
    hide ReadValue, Literal, Expect, Ends;
    ListSeams(rest);
    var v := row[0];
    if |row| == 1 {
      ValueRoundTrip(v, ")" + rest);
      ExpectIt(")", rest);
      assert row == [v];
    } else {
      var more := LiteralList(row[1..]) + (")" + rest);
      ListSeams(more);
      ValueRoundTrip(v, ", " + more);
      ExpectIt(", ", more);
      assert LiteralList(row) + (")" + rest) == Literal(v) + (", " + more);
      ValuesRoundTrip(row[1..], rest);
      assert row == [v] + row[1..];
    }
  }

  lemma ValueListRoundTrip(row: seq<Value>, rest: string)
    ensures ReadValueList(LiteralList(row) + (")" + rest)) == Some((row, rest))
  {
    if row == [] {
      ExpectIt(")", rest);
      assert LiteralList(row) + (")" + rest) == ")" + rest;
    } else {
      hide ReadValues, Literal;
      ValuesRoundTrip(row, rest);
      LiteralStarts(row[0]);
      assert LiteralList(row)[0] == Literal(row[0])[0];
      assert (LiteralList(row) + (")" + rest))[0] == Literal(row[0])[0];
    }
  }

  lemma {:induction false} IdentsRoundTrip(names: seq<string>, rest: string)
    requires names != []
    ensures ReadIdents(NameList(names) + (")" + rest)) == Some((names, rest))
  {
    hide ReadIdent, QuoteIdent, Expect, Ends;
    ListSeams(rest);
    var v := names[0];
    if |names| == 1 {
      IdentRoundTrip(v, ")" + rest);
      ExpectIt(")", rest);
      assert names == [v];
    } else {
      var more := NameList(names[1..]) + (")" + rest);
      ListSeams(more);
      IdentRoundTrip(v, ", " + more);
      ExpectIt(", ", more);
      assert NameList(names) + (")" + rest) == QuoteIdent(v) + (", " + more);
      QuotedLength(v);
      IdentsRoundTrip(names[1..], rest);
      assert names == [v] + names[1..];
    }
  }

  lemma QuotedLength(name: string)
    ensures |QuoteIdent(name)| >= 2 && QuoteIdent(name)[0] == '`'
  {
  }

  lemma IdentListRoundTrip(names: seq<string>, rest: string)
    ensures ReadIdentList(NameList(names) + (")" + rest)) == Some((names, rest))
  {
    if names == [] {
      ExpectIt(")", rest);
      assert NameList(names) + (")" + rest) == ")" + rest;
    } else {
      hide ReadIdents, QuoteIdent;
      IdentsRoundTrip(names, rest);
      QuotedLength(names[0]);
      assert NameList(names)[0] == QuoteIdent(names[0])[0];
      assert (NameList(names) + (")" + rest))[0] == '`';
    }
  }

  lemma TargetRoundTrip(schema: string, table: string, rest: string)
    requires Ends(rest) && (rest != [] ==> rest[0] != '.')
    ensures ReadTarget(QualifiedName(schema, table) + rest) == Some((schema, table, rest))
  {
    hide ReadIdent, QuoteIdent;
    if schema == "" {
      IdentRoundTrip(table, rest);
    } else {
      var more := QuoteIdent(table) + rest;
      IdentRoundTrip(schema, "." + more);
      IdentRoundTrip(table, rest);
      ExpectIt(".", more);
      assert QualifiedName(schema, table) + rest == QuoteIdent(schema) + ("." + more);
    }
  }

  /** The INSERT of a row says where the row goes and what is in it. */
  lemma InsertRoundTrip(schema: string, table: string, cols: seq<string>, row: seq<Value>)
    ensures ReadInsert(InsertText(schema, table, cols, row)) == Some(Insert(schema, table, cols, row))
  {
    hide ReadTarget, ReadIdentList, ReadValueList, QualifiedName, NameList, LiteralList;
    var f := LiteralList(row) + (")" + "");
    var e := " VALUES (" + f;
    var c := NameList(cols) + (")" + e);
    var b := " (" + c;
    var a := QualifiedName(schema, table) + b;
    assert InsertText(schema, table, cols, row) == "INSERT INTO " + a by {
      assert ") VALUES (" == ")" + " VALUES (" && ")" + "" == ")";
    }
    ExpectIt("INSERT INTO ", a);
    TargetRoundTrip(schema, table, b);
    ExpectIt(" (", c);
    IdentListRoundTrip(cols, e);
    ExpectIt(" VALUES (", f);
    ValueListRoundTrip(row, "");
  }

  lemma UseRoundTrip(schema: string)
    ensures ReadUse(UseText(schema)) == Some(schema)
  {
    hide ReadIdent, QuoteIdent, Expect;
    ExpectIt("USE ", QuoteIdent(schema));
    IdentRoundTrip(schema, []);
    assert QuoteIdent(schema) + [] == QuoteIdent(schema);
  }

  lemma DropRoundTrip(table: string)
    ensures ReadDrop(DropText(table)) == Some(("", table))
  {
    hide ReadTarget, QuoteIdent, Expect;
    ExpectIt("DROP TABLE IF EXISTS ", QuoteIdent(table));
    TargetRoundTrip("", table, []);
    assert QuoteIdent(table) + [] == QuoteIdent(table);
  }
}
