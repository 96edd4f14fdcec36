/** The query for one page of a table: `FetchTableRows` of `internal/db/pg/browse.go` and
    `fetchTableRowsViaExecutor` of `internal/api/agent_read.go` (for PostgreSQL), up to the
    point where each is run. */
module PageQuery {
  import opened Text
  import opened Lists
  import opened ClauseToks
  import opened WhereClause
  import opened WhereLaws
  import opened ClauseReader

  datatype RowsOpts = RowsOpts(schema: string, table: string, page: int, perPage: int,
                               sortCol: string, sortDir: string, filters: seq<Filter>)

  const MAX_ROWS_PER_PAGE := 10000

  /** The page size that is used: at least one, 50 where none is given, and bounded. */
  function PerPage(o: RowsOpts): (n: nat)
    ensures 1 <= n <= MAX_ROWS_PER_PAGE && (1 <= o.perPage <= MAX_ROWS_PER_PAGE ==> n == o.perPage)
  {
    if o.perPage < 1 then 50 else if o.perPage > MAX_ROWS_PER_PAGE then MAX_ROWS_PER_PAGE else o.perPage
  }

  function Offset(o: RowsOpts): nat { if o.page < 1 then 0 else (o.page - 1) * PerPage(o) }

  function Head(schema: string, table: string): seq<Tok> {
    [Plain("SELECT * FROM "), Ident(schema), Plain("."), Ident(table)]
  }

  function Order(col: string, desc: bool): seq<Tok> {
    if col == "" then [] else [Plain(" ORDER BY "), Ident(col), Plain(if desc then " DESC" else " ASC")]
  }

  function Bounds(perPage: nat, offset: nat): seq<Tok> {
    [Plain(" LIMIT "), Val(Int(perPage)), Plain(" OFFSET "), Val(Int(offset))]
  }

  /** The page of a table in a schema, sorted one way or the other. */
  function Page(schema: string, o: RowsOpts, desc: bool): seq<Tok> {
    Head(schema, o.table) + (Where(o.filters) + (Order(o.sortCol, desc) + Bounds(PerPage(o), Offset(o))))
  }

  // ---------- what is printed of it ----------

  function Sorting(col: string, desc: bool): string {
    if col == "" then "" else " ORDER BY " + QuoteIdent(col) + " " + if desc then "DESC" else "ASC"
  }

  lemma HeadText(schema: string, table: string, n: nat)
    ensures var h := Head(schema, table);
            && Print(h) == "SELECT * FROM " + QuoteIdent(schema) + "." + QuoteIdent(table)
            && Numbered(h, n) == h && Values(h) == [] && Spaced(h)
  {
    hide FlatMap, QuoteIdent, Numbered;
    var a, b, c, d := Plain("SELECT * FROM "), Ident(schema), Plain("."), Ident(table);
    assert Head(schema, table) == [a, b] + [c, d];
    PlainPair(a, b, n);
    PlainPair(c, d, n);
    Pairs([a, b], [c, d], n);
    assert "SELECT * FROM " + QuoteIdent(schema) + ("." + QuoteIdent(table))
        == "SELECT * FROM " + QuoteIdent(schema) + "." + QuoteIdent(table);
  }

  lemma PlainPair(a: Tok, b: Tok, n: nat)
    ensures Print([a, b]) == PrintTok(a) + PrintTok(b) && Values([a, b]) == ValueOf(a) + ValueOf(b)
    ensures a.Plain? ==> Numbered([a, b], n) == [a, if b.Val? then Param(n) else b]
    ensures a.Plain? && Ordinary(a.text) && !b.Plain? && !b.Param? ==> Spaced([a, b])
  {
    hide FlatMap, Numbered;
    PrintThree(a, b, b);
    ValuesOfThree(a, b, b);
    assert [a, b] == [a] + [b];
    NumberOne(a, n);
    NumberOne(b, n);
    NumberedAppend([a], [b], n);
    SpacedThree(a, b, b);
  }

  lemma Pairs(a: seq<Tok>, b: seq<Tok>, n: nat)
    ensures Print(a + b) == Print(a) + Print(b) && Values(a + b) == Values(a) + Values(b)
    ensures Numbered(a + b, n) == Numbered(a, n) + Numbered(b, n + |Values(a)|)
    ensures Print(Numbered(a + b, n)) == Print(Numbered(a, n)) + Print(Numbered(b, n + |Values(a)|))
    ensures Spaced(a) && Spaced(b) && Meet(a, b) ==> Spaced(a + b)
  {
    hide FlatMap, Numbered, Print, Values, Spaced;
    PrintAppend(a, b);
    ValuesAppend(a, b);
    NumberedAppend(a, b, n);
    PrintAppend(Numbered(a, n), Numbered(b, n + |Values(a)|));
    if Spaced(a) && Spaced(b) && Meet(a, b) { SpacedAppend(a, b); }
  }

  lemma OrderText(col: string, desc: bool, n: nat)
    ensures var t := Order(col, desc);
            && Print(t) == Sorting(col, desc)
            && Numbered(t, n) == t && Values(t) == [] && Spaced(t) && (t != [] ==> t[0].Plain?)
  {
    if col == "" {
      WhereNone();
      NumberedNone(n);
    } else {
      hide FlatMap, QuoteIdent, Numbered, Ordinary;
      var dir := if desc then " DESC" else " ASC";
      Directions(" ORDER BY " + QuoteIdent(col));
      SortToks(col, dir, n);
    }
  }

  lemma Directions(s: string)
    ensures Ordinary(" DESC") && Ordinary(" ASC") && Ordinary(" ORDER BY ")
    ensures s + " DESC" == s + " " + "DESC" && s + " ASC" == s + " " + "ASC"
  {
  }

  lemma SortToks(col: string, dir: string, n: nat)
    requires Ordinary(dir) && Ordinary(" ORDER BY ")
    ensures var t := [Plain(" ORDER BY "), Ident(col), Plain(dir)];
            Print(t) == " ORDER BY " + QuoteIdent(col) + dir && Numbered(t, n) == t && Values(t) == [] && Spaced(t)
  {
    hide FlatMap, QuoteIdent, Numbered, Ordinary;
    var a, b, c := Plain(" ORDER BY "), Ident(col), Plain(dir);
    PrintThree(a, b, c);
    ValuesOfThree(a, b, c);
    PlainPair(a, b, n);
    NumberOne(c, n);
    NumberedAppend([a, b], [c], n);
    assert [a, b] + [c] == [a, b, c];
    SpacedThree(a, b, c);
  }

  lemma BoundsText(perPage: nat, offset: nat, n: nat)
    ensures var t := Bounds(perPage, offset);
            && Print(t) == " LIMIT " + Numeral(perPage) + " OFFSET " + Numeral(offset)
            && Print(Numbered(t, n)) == " LIMIT " + Placeholder(n) + " OFFSET " + Placeholder(n + 1)
            && Values(t) == [Int(perPage), Int(offset)] && Spaced(t)
  {
    hide FlatMap, Numeral, Placeholder, Numbered, Ordinary;
    var a, b, c, d := Plain(" LIMIT "), Val(Int(perPage)), Plain(" OFFSET "), Val(Int(offset));
    BoundsWords();
    PlainPair(a, b, n);
    PlainPair(c, d, n + 1);
    Pairs([a, b], [c, d], n);
    assert Bounds(perPage, offset) == [a, b] + [c, d];
    PlainPair(a, Param(n), n);
    PlainPair(c, Param(n + 1), n + 1);
    ConcatAssoc(" LIMIT " + Placeholder(n), " OFFSET ", Placeholder(n + 1));
    ConcatAssoc(" LIMIT " + Numeral(perPage), " OFFSET ", Numeral(offset));
  }

  lemma BoundsWords()
    ensures Ordinary(" LIMIT ") && Ordinary(" OFFSET ")
  {
  }

  /** All of the page, bound and written out. */
  lemma PageText(schema: string, o: RowsOpts, desc: bool)
    ensures var p := Page(schema, o, desc);
            var n := |Values(Where(o.filters))|;
            var qualified := QuoteIdent(schema) + "." + QuoteIdent(o.table);
            var order := Sorting(o.sortCol, desc);
            && Print(p) == "SELECT * FROM " + qualified + Print(Where(o.filters)) + order + " LIMIT "
                + Numeral(PerPage(o)) + " OFFSET " + Numeral(Offset(o))
            && Print(Numbered(p, 1)) == "SELECT * FROM " + qualified + Print(Numbered(Where(o.filters), 1)) + order
                + " LIMIT " + Placeholder(n + 1) + " OFFSET " + Placeholder(n + 2)
            && Values(p) == Values(Where(o.filters)) + [Int(PerPage(o)), Int(Offset(o))]
            && Spaced(p)
  {
    hide FlatMap, QuoteIdent, Numeral, Placeholder, Numbered, Print, Values, Where, PerPage, Offset, Spaced;
    var head, where, order, bounds := Head(schema, o.table), Where(o.filters), Order(o.sortCol, desc),
        Bounds(PerPage(o), Offset(o));
    var n := |Values(where)|;
    HeadText(schema, o.table, 1);
    OrderText(o.sortCol, desc, 1 + n);
    BoundsText(PerPage(o), Offset(o), 1 + n);
    WhereSpaced(o.filters);
    assert Meet(order, bounds) && Meet(where, order + bounds) && Meet(head, where + (order + bounds));
    Pairs(order, bounds, 1 + n);
    Pairs(where, order + bounds, 1);
    Pairs(head, where + (order + bounds), 1);
    var s := Print(order);
    Regroup(QuoteIdent(schema), QuoteIdent(o.table), Print(where), s, Numeral(PerPage(o)), Numeral(Offset(o)));
    Regroup(QuoteIdent(schema), QuoteIdent(o.table), Print(Numbered(where, 1)), s, Placeholder(n + 1),
        Placeholder(n + 2));
  }

  lemma Regroup(schema: string, table: string, where: string, order: string, limit: string, offset: string)
    ensures ("SELECT * FROM " + schema + "." + table) + (where + (order + (" LIMIT " + limit + " OFFSET " + offset)))
         == "SELECT * FROM " + (schema + "." + table) + where + order + " LIMIT " + limit + " OFFSET " + offset
  {
    var q := schema + "." + table;
    ConcatAssoc3("SELECT * FROM ", schema, ".", table);
    var a := "SELECT * FROM " + q;
    assert "SELECT * FROM " + schema + "." + table == a;
    var tail := " LIMIT " + limit + " OFFSET " + offset;
    assert a + (where + (order + tail)) == ((a + where) + order) + tail;
    assert ((a + where) + order) + tail == a + where + order + " LIMIT " + limit + " OFFSET " + offset;
  }

  // ---------- what is printed reads back ----------

  /** What a page's query asks for; `desc` is there when it is sorted. */
  datatype Asked = Asked(schema: string, table: string, conds: seq<Cond>, order: Option<(string, bool)>, limit: nat,
                         offset: nat)

  /** What an argument stands for in a text. */
  function ArgText(v: Value): seq<string> { [if v.Str? then v.s else Numeral(v.n)] }
  function ArgTexts(args: seq<Value>): seq<string> { FlatMap(ArgText, args) }

  /** A number, or the argument that `$n` stands for. */
  function ReadNumber(s: string, args: seq<string>): Option<(nat, string)> {
    match Expect(s, "$")
    case None =>
      var k := DigitRun(s);
      if k == 0 then None else Some((NumeralValue(s[..k]), s[k..]))
    case Some(t) =>
      match ReadOperand(s, args)
      case None => None
      case Some((v, rest)) => if DigitRun(v) == |v| > 0 then Some((NumeralValue(v[..DigitRun(v)]), rest)) else None
  }

  function ReadOrder(s: string): Option<(Option<(string, bool)>, string)> {
    match Expect(s, " ORDER BY ")
    case None => Some((None, s))
    case Some(a) =>
      match ReadQuoted(a, '"')
      case None => None
      case Some((column, b)) =>
        match Expect(b, " DESC")
        case Some(c) => Some((Some((column, true)), c))
        case None => match Expect(b, " ASC") case None => None case Some(c) => Some((Some((column, false)), c))
  }

  function ReadBounds(s: string, args: seq<string>): Option<(nat, nat)> {
    match Expect(s, " LIMIT ")
    case None => None
    case Some(a) =>
      match ReadNumber(a, args)
      case None => None
      case Some((limit, b)) =>
        match Expect(b, " OFFSET ")
        case None => None
        case Some(c) =>
          match ReadNumber(c, args)
          case None => None
          case Some((offset, end)) => if end == "" then Some((limit, offset)) else None
  }

  function ReadTable(s: string): Option<(string, string, string)> {
    match Expect(s, "SELECT * FROM ")
    case None => None
    case Some(a) =>
      match ReadQuoted(a, '"')
      case None => None
      case Some((schema, b)) =>
        match Expect(b, ".")
        case None => None
        case Some(c) => match ReadQuoted(c, '"') case None => None case Some((table, d)) => Some((schema, table, d))
  }

  function ReadPage(s: string, args: seq<string>): Option<Asked> {
    match ReadTable(s)
    case None => None
    case Some((schema, table, a)) =>
      match ReadClause(a, args)
      case None => None
      case Some((conds, b)) =>
        match ReadOrder(b)
        case None => None
        case Some((order, c)) =>
          match ReadBounds(c, args)
          case None => None
          case Some((limit, offset)) => Some(Asked(schema, table, conds, order, limit, offset))
  }

  /** The page that the options stand for. */
  function PageAsked(schema: string, o: RowsOpts, desc: bool): Asked {
    var limit := if o.perPage < 1 then 50 else if o.perPage > 10000 then 10000 else o.perPage;
    Asked(schema, o.table, AllMeant(o.filters), if o.sortCol == "" then None else Some((o.sortCol, desc)), limit,
          if o.page <= 1 then 0 else (o.page - 1) * limit)
  }

  lemma TableReads(schema: string, table: string, rest: string)
    requires rest != [] && rest[0] != '"'
    ensures ReadTable("SELECT * FROM " + QuoteIdent(schema) + "." + QuoteIdent(table) + rest)
         == Some((schema, table, rest))
  {
    hide ReadQuoted, DoubleChar, Expect;
    var c := QuoteIdent(table) + rest;
    var b := "." + c;
    var a := QuoteIdent(schema) + b;
    assert "SELECT * FROM " + QuoteIdent(schema) + "." + QuoteIdent(table) + rest == "SELECT * FROM " + a;
    ExpectIt("SELECT * FROM ", a);
    QuotedReads(schema, '"', b);
    ExpectIt(".", c);
    QuotedReads(table, '"', rest);
  }

  lemma OrderReads(col: string, desc: bool, rest: string)
    requires Expect(rest, " ORDER BY ").None?
    ensures var order := Sorting(col, desc);
            ReadOrder(order + rest) == Some((if col == "" then None else Some((col, desc)), rest))
  {
    hide ReadQuoted, DoubleChar;
    if col == "" {
      assert "" + rest == rest;
    } else {
      hide Expect;
      var b := (if desc then " DESC" else " ASC") + rest;
      assert (" ORDER BY " + QuoteIdent(col) + " " + if desc then "DESC" else "ASC") + rest
          == " ORDER BY " + (QuoteIdent(col) + b);
      ExpectIt(" ORDER BY ", QuoteIdent(col) + b);
      QuotedReads(col, '"', b);
      ExpectIt(if desc then " DESC" else " ASC", rest);
      NotDesc(rest);
    }
  }

  lemma NotDesc(rest: string)
    ensures Expect(" ASC" + rest, " DESC") == None
  {
    assert (" ASC" + rest)[1] == 'A';
  }

  /** A number in full or in its place. */
  function NumberText(bound: bool, n: nat, v: nat): string { if bound then Placeholder(n) else Numeral(v) }

  lemma NumberReads(bound: bool, n: nat, v: nat, rest: string, args: seq<string>)
    requires Given(bound, n, Numeral(v), args) && (rest == "" || rest[0] == ' ')
    ensures ReadNumber(NumberText(bound, n, v) + rest, args) == Some((v, rest))
  {
    hide DigitRun, NumeralValue, Numeral, ReadOperand;
    var d := Numeral(v);
    DigitRunStops(d, "");
    assert d + "" == d && d[..|d|] == d;
    NumeralRoundTrip(v);
    if bound {
      OperandReads(true, n, d, rest, args);
      assert (Placeholder(n) + rest)[0] == '$';
    } else {
      DigitRunStops(d, rest);
      SliceConcat(d, rest, |d|);
      assert d[|d|..] == [] && [] + rest == rest && (d + rest)[0] == d[0];
    }
  }

  lemma BoundsRead(bound: bool, n: nat, limit: nat, offset: nat, args: seq<string>)
    requires Given(bound, n, Numeral(limit), args) && Given(bound, n + 1, Numeral(offset), args)
    ensures ReadBounds(" LIMIT " + NumberText(bound, n, limit) + " OFFSET " + NumberText(bound, n + 1, offset), args)
         == Some((limit, offset))
  {
    hide Expect, ReadNumber, NumberText, Given;
    var l, o := NumberText(bound, n, limit), NumberText(bound, n + 1, offset);
    var b := " OFFSET " + o;
    assert " LIMIT " + l + " OFFSET " + o == " LIMIT " + (l + b);
    ExpectIt(" LIMIT ", l + b);
    NumberReads(bound, n, limit, b, args);
    ExpectIt(" OFFSET ", o);
    NumberReads(bound, n + 1, offset, "", args);
    assert o + "" == o;
  }

  lemma BoundsBehind(l: string, o: string)
    ensures var s := " LIMIT " + l + " OFFSET " + o;
            Behind(s) && Expect(s, " ORDER BY ").None? && s != [] && s[0] == ' '
  {
    var s := " LIMIT " + l + " OFFSET " + o;
    assert s[1] == 'L';
  }

  lemma OrderBehind(col: string, desc: bool, bounds: string)
    requires Behind(bounds) && bounds != [] && bounds[0] == ' '
    ensures var order := Sorting(col, desc);
            Behind(order + bounds) && order + bounds != [] && (order + bounds)[0] == ' '
  {
    hide QuoteIdent;
    if col == "" {
      assert "" + bounds == bounds;
    } else {
      var s := (" ORDER BY " + QuoteIdent(col) + " " + if desc then "DESC" else "ASC") + bounds;
      assert s[0] == ' ' && s[1] == 'O';
    }
  }

  /** Both forms read as the page that is asked for. */
  lemma PageReads(schema: string, o: RowsOpts, desc: bool, bound: bool)
    ensures var p := Page(schema, o, desc);
            ReadPage(TextOf(p, bound, 0), if bound then ArgTexts(Values(p)) else []) == Some(PageAsked(schema, o, desc))
  {
    hide FlatMap, QuoteIdent, Print, Numbered, Values, Where, Operands, AllMeant, Given, NumberText, PerPage, Offset,
        Placeholder, Numeral, TextOf, Page, ReadTable, ReadClause, ReadOrder, ReadBounds, ArgTexts, Behind, Strs;
    var p := Page(schema, o, desc);
    var operands, limit, offset := Operands(AllMeant(o.filters)), PerPage(o), Offset(o);
    var args := if bound then ArgTexts(Values(p)) else [];
    var n := |operands|;
    ArgsOfPage(schema, o, desc);
    PageParts(schema, o, desc, bound);
    assert Given(bound, n + 1, Numeral(limit), args) && Given(bound, n + 2, Numeral(offset), args) by {
      PlacesGiven(bound, operands, Numeral(limit), Numeral(offset));
    }
    var bounds := " LIMIT " + NumberText(bound, n + 1, limit) + " OFFSET " + NumberText(bound, n + 2, offset);
    BoundsRead(bound, n + 1, limit, offset, args);
    BoundsBehind(NumberText(bound, n + 1, limit), NumberText(bound, n + 2, offset));
    var order := Sorting(o.sortCol, desc);
    OrderReads(o.sortCol, desc, bounds);
    OrderBehind(o.sortCol, desc, bounds);
    ClauseMeans(o.filters, bound, order + bounds, args);
    var tail := TextOf(Where(o.filters), bound, 0) + (order + bounds);
    assert tail != [] && tail[0] == ' ' by { ClauseStarts(o.filters, bound, order + bounds); }
    TableReads(schema, o.table, tail);
    OffsetIs(o);
  }

  lemma OffsetIs(o: RowsOpts)
    ensures PerPage(o) == (if o.perPage < 1 then 50 else if o.perPage > 10000 then 10000 else o.perPage)
    ensures Offset(o) == if o.page <= 1 then 0 else (o.page - 1) * PerPage(o)
  {
  }

  lemma ClauseStarts(fs: seq<Filter>, bound: bool, rest: string)
    requires rest != [] && rest[0] == ' '
    ensures var s := TextOf(Where(fs), bound, 0) + rest; s != [] && s[0] == ' '
  {
    hide Conditions, Texts, Join, Print, Numbered, Where;
    if Conditions(fs) == [] {
      NoClause(fs, bound);
    } else {
      WherePrinted(fs, bound);
    }
  }

  lemma PlacesGiven(bound: bool, operands: seq<string>, limit: string, offset: string)
    ensures var args := if bound then operands + [limit, offset] else [];
            Given(bound, |operands| + 1, limit, args) && Given(bound, |operands| + 2, offset, args)
  {
  }

  lemma {:induction false} StrTexts(items: seq<string>)
    ensures ArgTexts(Strs(items)) == items
  {
    if items == [] {
    } else {
      var n := |items| - 1;
      StrTexts(items[..n]);
      hide FlatMap;
      assert items[..n + 1] == items;
      FlatMapStep(StrOf, items, n);
      FlatMapAppend(ArgText, Strs(items[..n]), [Str(items[n])]);
      FlatMapOne(ArgText, Str(items[n]));
    }
  }

  lemma ArgsOfPage(schema: string, o: RowsOpts, desc: bool)
    ensures var operands := Operands(AllMeant(o.filters));
            && Values(Where(o.filters)) == Strs(operands) && |Values(Where(o.filters))| == |operands|
            && ArgTexts(Values(Page(schema, o, desc)))
                == operands + [Numeral(PerPage(o)), Numeral(Offset(o))]
  {
    hide FlatMap, Print, Numbered, Values, Where, Operands, AllMeant, Strs, Numeral, Page, QuoteIdent, Placeholder;
    var operands := Operands(AllMeant(o.filters));
    NothingBehind();
    ClauseMeans(o.filters, false, "", []);
    PageText(schema, o, desc);
    StrTexts(operands);
    StrsCount(operands);
    var a, b := Int(PerPage(o)), Int(Offset(o));
    FlatMapAppend(ArgText, Values(Where(o.filters)), [a, b]);
    assert [a, b] == [a] + [b];
    FlatMapAppend(ArgText, [a], [b]);
    FlatMapOne(ArgText, a);
    FlatMapOne(ArgText, b);
  }

  lemma PageParts(schema: string, o: RowsOpts, desc: bool, bound: bool)
    requires |Values(Where(o.filters))| == |Operands(AllMeant(o.filters))|
    ensures var n := |Operands(AllMeant(o.filters))|;
            var bounds := " LIMIT " + NumberText(bound, n + 1, PerPage(o)) + " OFFSET "
                + NumberText(bound, n + 2, Offset(o));
            var order := Sorting(o.sortCol, desc);
            TextOf(Page(schema, o, desc), bound, 0)
                == "SELECT * FROM " + QuoteIdent(schema) + "." + QuoteIdent(o.table)
                    + (TextOf(Where(o.filters), bound, 0) + (order + bounds))
  {
    hide FlatMap, Print, Numbered, Values, Where, Operands, AllMeant, Numeral, Page, QuoteIdent, Placeholder;
    PageText(schema, o, desc);
    var n := |Operands(AllMeant(o.filters))|;
    var order := Sorting(o.sortCol, desc);
    Regroup(QuoteIdent(schema), QuoteIdent(o.table), TextOf(Where(o.filters), bound, 0), order,
        NumberText(bound, n + 1, PerPage(o)), NumberText(bound, n + 2, Offset(o)));
  }

  // ---------- the two functions ----------

  method FetchQuery(fold: char -> char, o: RowsOpts) returns (query: string, args: seq<Value>)
    ensures var p := Page(o.schema, o, EqualFold(fold, o.sortDir, "desc"));
            query == Print(Numbered(p, 1)) && args == Values(p)
    ensures ReadPage(query, ArgTexts(args)) == Some(PageAsked(o.schema, o, EqualFold(fold, o.sortDir, "desc")))
  {
    hide QuoteIdent, Print, Numbered, Values, Where, EqualFold, Placeholder, ReadPage, PageAsked, ArgTexts,
        ReadClause, Operands, AllMeant, Strs, Page, PerPage, Offset;
    ClampIs(o);
    var page := if o.page < 1 then 1 else o.page;
    var perPage := if o.perPage < 1 then 50 else o.perPage;
    if perPage > MAX_ROWS_PER_PAGE {
      perPage := MAX_ROWS_PER_PAGE;
    }
    var offset := (page - 1) * perPage;
    assert perPage == PerPage(o) && offset == Offset(o);
    var qualified := QuoteIdent(o.schema) + "." + QuoteIdent(o.table);
    var whereClause, whereArgs := BuildPGWhere(o.filters);
    var orderBy := "";
    if o.sortCol != "" {
      var dir := "ASC";
      if EqualFold(fold, o.sortDir, "desc") {
        dir := "DESC";
      }
      orderBy := " ORDER BY " + QuoteIdent(o.sortCol) + " " + dir;
    }
    var n := |whereArgs|;
    var limitPH, offsetPH := Placeholder(n + 1), Placeholder(n + 2);
    args := whereArgs + [Int(perPage), Int(offset)];
    query := "SELECT * FROM " + qualified + whereClause + orderBy + " LIMIT " + limitPH + " OFFSET " + offsetPH;
    PageText(o.schema, o, EqualFold(fold, o.sortDir, "desc"));
    PageReads(o.schema, o, EqualFold(fold, o.sortDir, "desc"), true);
  }

  lemma ClampIs(o: RowsOpts)
    ensures PerPage(o) == if o.perPage < 1 then 50 else if o.perPage > MAX_ROWS_PER_PAGE then MAX_ROWS_PER_PAGE
                          else o.perPage
    ensures Offset(o) == ((if o.page < 1 then 1 else o.page) - 1) * PerPage(o)
  {
  }

  /** The agent asks for the schema `public`, whatever schema is named, and knows only the
      lower-case `desc`. */
  method AgentQuery(o: RowsOpts) returns (sql: string)
    ensures sql == Print(Page("public", o, o.sortDir == "desc"))
    ensures ReadPage(sql, []) == Some(PageAsked("public", o, o.sortDir == "desc"))
  {
    hide QuoteIdent, Print, Numbered, Values, Where, Numeral, ReadPage, PageAsked, ReadClause, AllMeant, Page, PerPage,
        Offset;
    ClampIs(o);
    var page := if o.page < 1 then 1 else o.page;
    var perPage := if o.perPage < 1 then 50 else o.perPage;
    if perPage > MAX_ROWS_PER_PAGE {
      perPage := MAX_ROWS_PER_PAGE;
    }
    var offset := (page - 1) * perPage;
    assert perPage == PerPage(o) && offset == Offset(o);
    var qualified := QuoteIdent("public") + "." + QuoteIdent(o.table);
    var whereSQL := BuildWhere(o.filters);
    var orderBy := "";
    if o.sortCol != "" {
      var dir := "ASC";
      if o.sortDir == "desc" {
        dir := "DESC";
      }
      orderBy := " ORDER BY " + QuoteIdent(o.sortCol) + " " + dir;
    }
    sql := "SELECT * FROM " + qualified + whereSQL + orderBy + " LIMIT " + Numeral(perPage) + " OFFSET "
        + Numeral(offset);
    PageText("public", o, o.sortDir == "desc");
    PageReads("public", o, o.sortDir == "desc", false);
  }

  // ---------- they agree ----------

  /** A quoted name can be told from what follows it. */
  lemma NameReads(a: string, b: string, x: string, y: string)
    requires x != [] && x[0] != '"' && y != [] && y[0] != '"'
    requires QuoteIdent(a) + x == QuoteIdent(b) + y
    ensures a == b && x == y
  {
    hide DoubleChar, HalveChar, Closing;
    var d, e := DoubleChar(a, '"'), DoubleChar(b, '"');
    assert QuoteIdent(a) + x == "\"" + (d + (['"'] + x)) && QuoteIdent(b) + y == "\"" + (e + (['"'] + y));
    assert ("\"" + (d + (['"'] + x)))[1..] == d + (['"'] + x) && ("\"" + (e + (['"'] + y)))[1..] == e + (['"'] + y);
    DoubledClosing(a, '"', x);
    DoubledClosing(b, '"', y);
    assert |d| == |e|;
    assert d == (d + (['"'] + x))[..|d|] && e == (e + (['"'] + y))[..|e|];
    assert ['"'] + x == (d + (['"'] + x))[|d|..] && ['"'] + y == (e + (['"'] + y))[|e|..];
    assert x == (['"'] + x)[1..] && y == (['"'] + y)[1..];
    HalveDouble(a, '"');
    HalveDouble(b, '"');
  }

  lemma SameHead(a: string, x: string, y: string)
    requires a + x == a + y
    ensures x == y
  {
    assert (a + x)[|a|..] == x && (a + y)[|a|..] == y;
  }

  /** The text behind the schema's name. */
  function AfterSchema(o: RowsOpts, desc: bool): string {
    "." + QuoteIdent(o.table) + Print(Where(o.filters)) + Print(Order(o.sortCol, desc))
        + Print(Bounds(PerPage(o), Offset(o)))
  }

  lemma PageSplit(schema: string, o: RowsOpts, desc: bool)
    ensures Print(Page(schema, o, desc)) == "SELECT * FROM " + (QuoteIdent(schema) + AfterSchema(o, desc))
    ensures AfterSchema(o, desc)[0] == '.'
  {
    hide FlatMap, QuoteIdent, Print, Where, Order, Bounds;
    HeadText(schema, o.table, 1);
    var where, order, bounds := Where(o.filters), Order(o.sortCol, desc), Bounds(PerPage(o), Offset(o));
    PrintAppend(order, bounds);
    PrintAppend(where, order + bounds);
    PrintAppend(Head(schema, o.table), where + (order + bounds));
    var t := "." + QuoteIdent(o.table);
    assert ("SELECT * FROM " + QuoteIdent(schema) + "." + QuoteIdent(o.table))
        == "SELECT * FROM " + (QuoteIdent(schema) + t);
    assert ("SELECT * FROM " + (QuoteIdent(schema) + t)) + (Print(where) + (Print(order) + Print(bounds)))
        == "SELECT * FROM " + (QuoteIdent(schema) + (t + Print(where) + Print(order) + Print(bounds)));
  }

  lemma OrderTells(o: RowsOpts, d: bool, e: bool)
    requires AfterSchema(o, d) == AfterSchema(o, e) && o.sortCol != ""
    ensures d == e
  {
    hide QuoteIdent, Print, Where, Bounds, FlatMap;
    var p := "." + QuoteIdent(o.table) + Print(Where(o.filters));
    var rest := Print(Bounds(PerPage(o), Offset(o)));
    OrderText(o.sortCol, d, 1);
    OrderText(o.sortCol, e, 1);
    var q := " ORDER BY " + QuoteIdent(o.sortCol) + " ";
    Assemble(p, q, if d then "DESC" else "ASC", rest);
    Assemble(p, q, if e then "DESC" else "ASC", rest);
    SameHead(p + q, (if d then "DESC" else "ASC") + rest, (if e then "DESC" else "ASC") + rest);
    assert ("DESC" + rest)[0] == 'D' && ("ASC" + rest)[0] == 'A';
  }

  lemma Assemble(p: string, q: string, dir: string, rest: string)
    ensures p + (q + dir) + rest == (p + q) + (dir + rest)
  {
  }

  /** With its arguments put in their places the bound query is the agent's query exactly
      when the schema asked for is `public` and, where the page is sorted, the direction is
      written as both read it. */
  lemma PagesAgree(fold: char -> char, o: RowsOpts)
    ensures var p := Page(o.schema, o, EqualFold(fold, o.sortDir, "desc"));
            Subst(Print(Numbered(p, 1)), Rendered(Values(p)), None)
                == Print(Page("public", o, o.sortDir == "desc")) <==>
              o.schema == "public" && (o.sortCol == "" || (EqualFold(fold, o.sortDir, "desc") <==> o.sortDir == "desc"))
  {
    hide Print, Numbered, Values, Subst, Rendered, Render, AfterSchema, QuoteIdent, EqualFold, Spaced, Where;
    var d := EqualFold(fold, o.sortDir, "desc");
    var p := Page(o.schema, o, d);
    var agent := Page("public", o, o.sortDir == "desc");
    PageText(o.schema, o, d);
    RenderedAre(Values(p));
    Filled(p, 1, Rendered(Values(p)));
    assert Subst(Print(Numbered(p, 1)), Rendered(Values(p)), None) == Print(p);
    if Print(p) == Print(agent) {
      PageSplit(o.schema, o, d);
      PageSplit("public", o, o.sortDir == "desc");
      SameHead("SELECT * FROM ", QuoteIdent(o.schema) + AfterSchema(o, d), QuoteIdent("public")
          + AfterSchema(o, o.sortDir == "desc"));
      AfterNotEmpty(o, d);
      AfterNotEmpty(o, o.sortDir == "desc");
      NameReads(o.schema, "public", AfterSchema(o, d), AfterSchema(o, o.sortDir == "desc"));
      if o.sortCol != "" { OrderTells(o, d, o.sortDir == "desc"); }
    }
  }

  lemma AfterNotEmpty(o: RowsOpts, desc: bool)
    ensures AfterSchema(o, desc) != [] && AfterSchema(o, desc)[0] == '.'
  {
    hide FlatMap;
  }

  /** A page on which they differ: any schema but `public`. */
  lemma PagesDiffer(fold: char -> char)
    ensures var o := RowsOpts("sales", "orders", 1, 50, "", "", []);
            var p := Page(o.schema, o, EqualFold(fold, o.sortDir, "desc"));
            Subst(Print(Numbered(p, 1)), Rendered(Values(p)), None) != Print(Page("public", o, o.sortDir == "desc"))
  {
    hide Print, Numbered, Values, Subst, Rendered, Page, EqualFold;
    PagesAgree(fold, RowsOpts("sales", "orders", 1, 50, "", "", []));
    assert "sales"[0] != "public"[0];
  }
}
