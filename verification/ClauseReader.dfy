/** A reader of WHERE clauses, written from the grammar of SQL (the comparison, between, in,
    like and null predicates of section 8 of ISO/IEC 9075-2) and not from the builders; what
    the user's filters mean; and that the clauses of both builders read as that. */
module ClauseReader {
  import opened Text
  import opened Lists
  import opened ClauseToks
  import opened WhereLaws

  // ---------- the reader ----------

  datatype Cond = Cond(column: string, operator: string, operands: seq<string>)

  /** A name or a character string in its quotes. */
  function ReadQuoted(s: string, q: char): Option<(string, string)> {
    if s == [] || s[0] != q then None
    else
      var k := Closing(s[1..], q);
      if k.None? || k.value >= |s[1..]| then None
      else Some((HalveChar(s[1..][..k.value], q), s[1..][k.value..][1..]))
  }

  /** A character string, or the argument that `$n` stands for. */
  function ReadOperand(s: string, args: seq<string>): Option<(string, string)> {
    match Expect(s, "$")
    case None => ReadQuoted(s, '\'')
    case Some(t) =>
      var k := DigitRun(t);
      var n := NumeralValue(t[..k]);
      if k > 0 && 1 <= n <= |args| then Some((args[n - 1], t[k..])) else None
  }

  /** Operands up to the closing parenthesis. */
  function ReadOperands(s: string, args: seq<string>): Option<(seq<string>, string)>
    decreases |s|
  {
    match ReadOperand(s, args)
    case None => None
    case Some((v, rest)) =>
      match Expect(rest, ", ")
      case Some(more) =>
        if |more| >= |s| then None
        else (match ReadOperands(more, args) case None => None case Some((vs, end)) => Some(([v] + vs, end)))
      case None =>
        match Expect(rest, ")") case None => None case Some(end) => Some(([v], end))
  }

  function WordLength(s: string): (n: nat)
    ensures n <= |s|
  {
    if s == [] || s[0] == ' ' then 0 else 1 + WordLength(s[1..])
  }

  /** An operator of one to three words. */
  function ReadOperator(before: string, s: string): Option<(string, string)>
    decreases |s|
  {
    match Expect(s, " ")
    case None => None
    case Some(t) =>
      var n := WordLength(t);
      var phrase := before + t[..n];
      if phrase in {"IS", "NOT", "IS NOT"} && |t[n..]| < |s| then ReadOperator(phrase + " ", t[n..])
      else Some((phrase, t[n..]))
  }

  function ReadCond(s: string, args: seq<string>): Option<(Cond, string)> {
    match ReadQuoted(s, '"')
    case None => None
    case Some((column, a)) =>
      match ReadOperator("", a)
      case None => None
      case Some((op, b)) =>
        if op in {"IS NULL", "IS NOT NULL"} then Some((Cond(column, op, []), b))
        else if op in {"IN", "NOT IN"} then
          match Expect(b, " (")
          case None => None
          case Some(c) =>
            (match ReadOperands(c, args) case None => None case Some((vs, e)) => Some((Cond(column, op, vs), e)))
        else if op in {"BETWEEN", "NOT BETWEEN"} then ReadRange(column, op, b, args)
        else if op in {"=", "<>", "<", ">", "<=", ">=", "LIKE", "NOT LIKE"} then
          match Expect(b, " ")
          case None => None
          case Some(c) =>
            (match ReadOperand(c, args) case None => None case Some((v, e)) => Some((Cond(column, op, [v]), e)))
        else None
  }

  function ReadRange(column: string, op: string, s: string, args: seq<string>): Option<(Cond, string)> {
    match Expect(s, " ")
    case None => None
    case Some(a) =>
      match ReadOperand(a, args)
      case None => None
      case Some((low, b)) =>
        match Expect(b, " AND ")
        case None => None
        case Some(c) =>
          match ReadOperand(c, args) case None => None case Some((high, e)) => Some((Cond(column, op, [low, high]), e))
  }

  /** Conditions with AND between them, and what is behind the last one. */
  function ReadConds(s: string, args: seq<string>): Option<(seq<Cond>, string)>
    decreases |s|
  {
    match ReadCond(s, args)
    case None => None
    case Some((c, rest)) =>
      match Expect(rest, " AND ")
      case None => Some(([c], rest))
      case Some(more) =>
        if |more| >= |s| then None
        else match ReadConds(more, args) case None => None case Some((cs, end)) => Some(([c] + cs, end))
  }

  /** A clause, if there is one, and what is behind it. */
  function ReadClause(s: string, args: seq<string>): Option<(seq<Cond>, string)> {
    match Expect(s, " WHERE ") case None => Some(([], s)) case Some(t) => ReadConds(t, args)
  }

  // ---------- what the filters mean ----------

  function CommaAt(s: string): (n: nat)
    ensures n <= |s|
  {
    if s == [] || s[0] == ',' then 0 else 1 + CommaAt(s[1..])
  }

  /** What stands between the commas, trimmed, where anything does. */
  function CommaItems(s: string): seq<string>
    decreases |s|
  {
    var k := CommaAt(s);
    var item := Trim(GoSpaces, s[..k]);
    (if item == "" then [] else [item]) + if k == |s| then [] else CommaItems(s[k + 1..])
  }

  /** The condition of a filter.  It is passed over if it names no column, if its operator is
      none of these, or if its value lacks the items that the operator needs. */
  function Meant(f: Filter): seq<Cond> {
    var items := CommaItems(f.value);
    if f.column == "" then []
    else if f.operator in {"=", "<>", "<", ">", "<=", ">=", "LIKE"} then [Cond(f.column, f.operator, [f.value])]
    else if f.operator == "Contains" then [Cond(f.column, "LIKE", ["%" + f.value + "%"])]
    else if f.operator == "Not contains" then [Cond(f.column, "NOT LIKE", ["%" + f.value + "%"])]
    else if f.operator == "Has prefix" then [Cond(f.column, "LIKE", [f.value + "%"])]
    else if f.operator == "Has suffix" then [Cond(f.column, "LIKE", ["%" + f.value])]
    else if f.operator in {"IS NULL", "IS NOT NULL"} then [Cond(f.column, f.operator, [])]
    else if f.operator in {"IN", "NOT IN"} && items != [] then [Cond(f.column, f.operator, items)]
    else if f.operator in {"BETWEEN", "NOT BETWEEN"} && |items| == 2 then [Cond(f.column, f.operator, items)]
    else []
  }

  function AllMeant(fs: seq<Filter>): seq<Cond> { FlatMap(Meant, fs) }

  // ---------- what is printed is read back ----------

  lemma {:induction false} ItemsAre(s: string)
    ensures Items(s) == CommaItems(s)
    decreases |s|
  {
    var k := CommaAt(s);
    SplitAtComma(s);
    hide FlatMap, SplitOn, Trim;
    if k == |s| {
      assert s[..k] == s;
      FlatMapOne(Trimmed, s);
    } else {
      ItemsAre(s[k + 1..]);
      FlatMapCons(Trimmed, SplitOn(s, ','));
    }
  }

  lemma {:induction false} SplitAtComma(s: string)
    ensures var k := CommaAt(s);
            SplitOn(s, ',') == if k == |s| then [s] else [s[..k]] + SplitOn(s[k + 1..], ',')
  {
    if s != [] && s[0] != ',' {
      SplitAtComma(s[1..]);
      var k := CommaAt(s[1..]);
      assert s[..k + 1] == [s[0]] + s[1..][..k];
      if k < |s[1..]| {
        assert s[1..][k + 1..] == s[k + 2..];
        assert ([s[1..][..k]] + SplitOn(s[k + 2..], ','))[1..] == SplitOn(s[k + 2..], ',');
      } else {
        assert [s[1..]][1..] == [] && [s[0]] + s[1..] == s;
      }
    }
  }

  lemma QuotedReads(body: string, q: char, rest: string)
    requires rest == [] || rest[0] != q
    ensures ReadQuoted([q] + DoubleChar(body, q) + [q] + rest, q) == Some((body, rest))
  {
    hide Closing, DoubleChar, HalveChar;
    var d := DoubleChar(body, q);
    var text := [q] + d + [q] + rest;
    DoubledClosing(body, q, rest);
    HalveDouble(body, q);
    assert text == [q] + (d + ([q] + rest)) && text[1..] == d + ([q] + rest);
    SliceConcat(d, [q] + rest, |d|);
    assert d[|d|..] == [] && d[..|d|] == d && [] + ([q] + rest) == [q] + rest && ([q] + rest)[1..] == rest;
  }

  /** How a value is written: in its place or in full. */
  function OperandText(bound: bool, n: nat, s: string): string { if bound then Placeholder(n) else SqlString(s) }

  predicate Given(bound: bool, n: nat, s: string, args: seq<string>) {
    bound ==> 1 <= n <= |args| && args[n - 1] == s
  }

  predicate Parts(rest: string) { rest == "" || rest[0] == ' ' || rest[0] == ',' || rest[0] == ')' }

  lemma OperandReads(bound: bool, n: nat, s: string, rest: string, args: seq<string>)
    requires Given(bound, n, s, args) && Parts(rest)
    ensures ReadOperand(OperandText(bound, n, s) + rest, args) == Some((s, rest))
  {
    hide NumeralValue, DigitRun, Numeral, ReadQuoted, DoubleChar;
    if bound {
      var digits := Numeral(n);
      assert Placeholder(n) + rest == "$" + (digits + rest);
      ExpectIt("$", digits + rest);
      DigitRunStops(digits, rest);
      SliceConcat(digits, rest, |digits|);
      assert digits[|digits|..] == [] && [] + rest == rest && digits[..|digits|] == digits;
      NumeralRoundTrip(n);
    } else {
      QuotedReads(s, '\'', rest);
      var text := SqlString(s) + rest;
      assert text == ['\''] + DoubleChar(s, '\'') + ['\''] + rest && text[0] == '\'';
    }
  }

  lemma {:induction false} WordEnds(w: string, rest: string)
    requires ' ' !in w && (rest == "" || rest[0] == ' ')
    ensures WordLength(w + rest) == |w|
  {
    if w == [] {
      assert w + rest == rest;
    } else {
      assert (w + rest)[1..] == w[1..] + rest;
      WordEnds(w[1..], rest);
    }
  }

  predicate Apart(rest: string) { rest == "" || rest[0] == ' ' }

  lemma OperatorStep(before: string, w: string, rest: string)
    requires ' ' !in w && Apart(rest)
    ensures ReadOperator(before, " " + w + rest)
         == if before + w in {"IS", "NOT", "IS NOT"} then ReadOperator(before + w + " ", rest)
            else Some((before + w, rest))
  {
    hide WordLength, Expect;
    assert " " + w + rest == " " + (w + rest);
    ExpectIt(" ", w + rest);
    WordEnds(w, rest);
    SliceConcat(w, rest, |w|);
    assert w[..|w|] == w && w[|w|..] == [] && [] + rest == rest;
  }

  /** An operator of one word. */
  lemma OneWord(op: string, rest: string)
    requires ' ' !in op && op != "IS" && op != "NOT" && Apart(rest)
    ensures ReadOperator("", " " + op + rest) == Some((op, rest))
  {
    hide ReadOperator;
    OperatorStep("", op, rest);
    assert "" + op == op;
    assert "IS NOT"[2] == ' ';
  }

  lemma TwoWords(a: string, b: string, rest: string)
    requires (a == "NOT" && (b == "LIKE" || b == "IN" || b == "BETWEEN")) || (a == "IS" && b == "NULL")
    requires Apart(rest)
    ensures ReadOperator("", " " + (a + " " + b) + rest) == Some((a + " " + b, rest))
  {
    hide ReadOperator;
    assert " " + (a + " " + b) + rest == " " + a + (" " + b + rest);
    OperatorStep("", a, " " + b + rest);
    assert "" + a == a;
    OperatorStep(a + " ", b, rest);
    assert (a + " " + b)[0] == a[0] && (a == "IS" ==> |a + " " + b| == 7);
  }

  lemma ThreeWords(rest: string)
    requires Apart(rest)
    ensures ReadOperator("", " " + "IS NOT NULL" + rest) == Some(("IS NOT NULL", rest))
  {
    hide ReadOperator;
    assert " " + "IS NOT NULL" + rest == " " + "IS" + (" " + "NOT" + (" " + "NULL" + rest));
    OperatorStep("", "IS", " " + "NOT" + (" " + "NULL" + rest));
    OperatorStep("IS ", "NOT", " " + "NULL" + rest);
    OperatorStep("IS NOT ", "NULL", rest);
    assert "" + "IS" == "IS" && "IS" + " " == "IS " && "IS " + "NOT" == "IS NOT" && "IS NOT" + " " == "IS NOT ";
    assert "IS NOT " + "NULL" == "IS NOT NULL";
  }

  predicate Operator(op: string) {
    op in {"=", "<>", "<", ">", "<=", ">=", "LIKE", "NOT LIKE", "IS NULL", "IS NOT NULL", "IN", "NOT IN", "BETWEEN",
      "NOT BETWEEN"}
  }

  lemma OperatorReads(op: string, rest: string)
    requires Operator(op) && Apart(rest)
    ensures ReadOperator("", " " + op + rest) == Some((op, rest))
  {
    hide ReadOperator;
    if op == "NOT LIKE" {
      assert "NOT" + " " + "LIKE" == op;
      TwoWords("NOT", "LIKE", rest);
    } else if op == "NOT IN" {
      assert "NOT" + " " + "IN" == op;
      TwoWords("NOT", "IN", rest);
    } else if op == "NOT BETWEEN" {
      assert "NOT" + " " + "BETWEEN" == op;
      TwoWords("NOT", "BETWEEN", rest);
    } else if op == "IS NULL" {
      assert "IS" + " " + "NULL" == op;
      TwoWords("IS", "NULL", rest);
    } else if op == "IS NOT NULL" {
      ThreeWords(rest);
    } else {
      OneWord(op, rest);
    }
  }

  /** Name and operator. */
  lemma HeadReads(column: string, op: string, rest: string)
    requires Operator(op) && Apart(rest)
    ensures ReadQuoted(QuoteIdent(column) + " " + op + rest, '"') == Some((column, " " + op + rest))
    ensures ReadOperator("", " " + op + rest) == Some((op, rest))
  {
    hide ReadQuoted, ReadOperator, DoubleChar, Operator;
    var tail := " " + op + rest;
    QuotedReads(column, '"', tail);
    assert QuoteIdent(column) + " " + op + rest == ['"'] + DoubleChar(column, '"') + ['"'] + tail;
    OperatorReads(op, rest);
  }

  lemma LikeReads(column: string, op: string, bound: bool, n: nat, v: string, rest: string, args: seq<string>)
    requires op in {"=", "<>", "<", ">", "<=", ">=", "LIKE", "NOT LIKE"} && Given(bound, n, v, args) && Apart(rest)
    ensures ReadCond(QuoteIdent(column) + " " + op + " " + OperandText(bound, n, v) + rest, args)
         == Some((Cond(column, op, [v]), rest))
  {
    hide ReadQuoted, ReadOperator, ReadOperand, Expect, QuoteIdent, OperandText;
    var t := OperandText(bound, n, v) + rest;
    HeadReads(column, op, " " + t);
    ConcatAssoc3(QuoteIdent(column) + " " + op, " ", OperandText(bound, n, v), rest);
    ConcatAssoc(" ", OperandText(bound, n, v), rest);
    ExpectIt(" ", t);
    OperandReads(bound, n, v, rest, args);
  }

  lemma NullReads(column: string, op: string, rest: string, args: seq<string>)
    requires op in {"IS NULL", "IS NOT NULL"} && Apart(rest)
    ensures ReadCond(QuoteIdent(column) + " " + op + rest, args) == Some((Cond(column, op, []), rest))
  {
    hide ReadQuoted, ReadOperator, ReadOperand, Expect, QuoteIdent;
    HeadReads(column, op, rest);
  }

  lemma RangeReads(column: string, op: string, bound: bool, n: nat, low: string, high: string, rest: string,
                   args: seq<string>)
    requires op in {"BETWEEN", "NOT BETWEEN"} && Apart(rest)
    requires Given(bound, n, low, args) && Given(bound, n + 1, high, args)
    ensures ReadCond(QuoteIdent(column) + " " + op + " " + OperandText(bound, n, low) + " AND "
                       + OperandText(bound, n + 1, high) + rest, args)
         == Some((Cond(column, op, [low, high]), rest))
  {
    hide ReadQuoted, ReadOperator, ReadOperand, Expect, QuoteIdent, OperandText;
    var l, h := OperandText(bound, n, low), OperandText(bound, n + 1, high);
    var c := h + rest;
    var b := " AND " + c;
    var a := l + b;
    HeadReads(column, op, " " + a);
    var head := QuoteIdent(column) + " " + op;
    assert head + " " + l + " AND " + h + rest == head + (" " + a);
    ExpectIt(" ", a);
    OperandReads(bound, n, low, b, args);
    ExpectIt(" AND ", c);
    OperandReads(bound, n + 1, high, rest, args);
  }

  function OperandTexts(bound: bool, n: nat, items: seq<string>): string
    decreases |items|
  {
    if items == [] then []
    else if |items| == 1 then OperandText(bound, n, items[0])
    else OperandText(bound, n, items[0]) + ", " + OperandTexts(bound, n + 1, items[1..])
  }

  predicate AllGiven(bound: bool, n: nat, items: seq<string>, args: seq<string>) {
    forall k :: 0 <= k < |items| ==> Given(bound, n + k, items[k], args)
  }

  lemma Seams(rest: string)
    ensures Expect(")" + rest, ", ") == None && Parts(")" + rest) && Parts(", " + rest)
  {
  }

  lemma {:induction false} OperandsRead(bound: bool, n: nat, items: seq<string>, rest: string, args: seq<string>)
    requires items != [] && AllGiven(bound, n, items, args)
    ensures ReadOperands(OperandTexts(bound, n, items) + (")" + rest), args) == Some((items, rest))
    decreases |items|
  {
    hide ReadOperand, OperandText, Expect, Given, Parts;
    assert Given(bound, n + 0, items[0], args);
    Seams(rest);
    if |items| == 1 {
      OperandReads(bound, n, items[0], ")" + rest, args);
      ExpectIt(")", rest);
      assert items == [items[0]];
    } else {
      var more := OperandTexts(bound, n + 1, items[1..]) + (")" + rest);
      Seams(more);
      OperandReads(bound, n, items[0], ", " + more, args);
      ExpectIt(", ", more);
      assert OperandTexts(bound, n, items) + (")" + rest) == OperandText(bound, n, items[0]) + (", " + more);
      forall k | 0 <= k < |items[1..]| ensures Given(bound, n + 1 + k, items[1..][k], args) {
        assert Given(bound, n + (k + 1), items[k + 1], args);
      }
      OperandsRead(bound, n + 1, items[1..], rest, args);
      assert items == [items[0]] + items[1..];
    }
  }

  lemma ListReads(column: string, op: string, bound: bool, n: nat, items: seq<string>, rest: string,
                  args: seq<string>)
    requires op in {"IN", "NOT IN"} && Apart(rest) && items != [] && AllGiven(bound, n, items, args)
    ensures ReadCond(QuoteIdent(column) + " " + op + " (" + OperandTexts(bound, n, items) + ")" + rest, args)
         == Some((Cond(column, op, items), rest))
  {
    hide ReadQuoted, ReadOperator, ReadOperands, Expect, QuoteIdent, OperandTexts, AllGiven;
    var c := OperandTexts(bound, n, items) + (")" + rest);
    var b := " (" + c;
    HeadReads(column, op, b);
    var head := QuoteIdent(column) + " " + op;
    assert head + " (" + OperandTexts(bound, n, items) + ")" + rest == head + b;
    ExpectIt(" (", c);
    OperandsRead(bound, n, items, rest, args);
  }

  /** The builders' lists, which are joined from the back, read from the front. */
  lemma {:induction false} JoinedOperands(bound: bool, n: nat, items: seq<string>)
    ensures Join(ListTexts(items, bound, n), ", ") == OperandTexts(bound, n, items)
    decreases |items|
  {
    ListTextsCount(items, bound, n);
    if |items| > 0 {
      JoinedOperands(bound, n + 1, items[1..]);
      ListTextsFront(bound, n, items);
      hide ListTexts, Placeholder, SqlString;
      ListTextsCount(items[1..], bound, n + 1);
      var all := ListTexts(items, bound, n);
      assert all[1..] == ListTexts(items[1..], bound, n + 1);
    }
  }

  lemma {:induction false} ListTextsFront(bound: bool, n: nat, items: seq<string>)
    requires items != []
    ensures ListTexts(items, bound, n) == [OperandText(bound, n, items[0])] + ListTexts(items[1..], bound, n + 1)
  {
    hide Placeholder, SqlString;
    var k := |items| - 1;
    if k > 0 {
      ListTextsFront(bound, n, items[..k]);
      assert items[..k][1..] == items[1..][..k - 1];
      assert ListTexts(items[1..], bound, n + 1) == ListTexts(items[1..][..k - 1], bound, n + 1)
          + [OperandText(bound, n + k, items[k])];
    } else {
      assert items[..0] == [] && items[1..] == [];
    }
  }

  // ---------- one condition ----------

  /** In front of the end or of a space, the text reads as the condition. */
  ghost predicate Reads(text: string, c: Cond, args: seq<string>) {
    forall rest :: Apart(rest) ==> ReadCond(text + rest, args) == Some((c, rest))
  }

  lemma MeantOrNot(f: Filter)
    ensures |Meant(f)| == if Condition(f).Some? then 1 else 0
  {
    hide CommaItems, Items, ListToks;
    ItemsAre(f.value);
  }

  lemma ConditionReads(f: Filter, bound: bool, n: nat, args: seq<string>)
    requires Condition(f).Some? && n > 0 && |Meant(f)| == 1 && AllGiven(bound, n, Meant(f)[0].operands, args)
    ensures Reads(TextOf(Condition(f).value, bound, n - 1), Meant(f)[0], args)
    ensures Values(Condition(f).value) == Strs(Meant(f)[0].operands)
  {
    hide FlatMap, Print, Numbered, Values, ReadCond, Reads, CommaItems, Items, AllGiven, Given, Strs;
    if f.operator in {"IN", "NOT IN"} {
      ListConditionReads(f, bound, n, args);
    } else if f.operator in {"BETWEEN", "NOT BETWEEN"} {
      RangeConditionReads(f, bound, n, args);
    } else if f.operator in {"IS NULL", "IS NOT NULL"} {
      NullConditionReads(f, bound, n, args);
    } else {
      LikeConditionReads(f, bound, n, args);
    }
  }

  lemma OneGiven(bound: bool, n: nat, v: string, args: seq<string>)
    requires AllGiven(bound, n, [v], args)
    ensures Given(bound, n, v, args) && Strs([v]) == [Str(v)]
  {
    assert Given(bound, n + 0, [v][0], args);
    FlatMapOne(StrOf, v);
  }

  lemma LikeConditionReads(f: Filter, bound: bool, n: nat, args: seq<string>)
    requires f.operator !in {"IN", "NOT IN", "BETWEEN", "NOT BETWEEN", "IS NULL", "IS NOT NULL"}
    requires Condition(f).Some? && n > 0 && |Meant(f)| == 1 && AllGiven(bound, n, Meant(f)[0].operands, args)
    ensures Reads(TextOf(Condition(f).value, bound, n - 1), Meant(f)[0], args)
    ensures Values(Condition(f).value) == Strs(Meant(f)[0].operands)
  {
    var c := Meant(f)[0];
    MeantLike(f);
    var v := c.operands[0];
    OneGiven(bound, n, v, args);
    LikeText(f, c.operator, v, n);
    hide FlatMap, Print, Numbered, Values, ReadCond, Items, QuoteIdent, SqlString, Placeholder, Condition, Meant, Strs,
        AllGiven, Given;
    forall rest | Apart(rest)
      ensures ReadCond(TextOf(Condition(f).value, bound, n - 1) + rest, args) == Some((c, rest))
    {
      LikeReads(f.column, c.operator, bound, n, v, rest, args);
    }
  }

  /** The filters with one value. */
  lemma MeantLike(f: Filter)
    requires f.operator !in {"IN", "NOT IN", "BETWEEN", "NOT BETWEEN", "IS NULL", "IS NOT NULL"}
    requires Condition(f).Some? && |Meant(f)| == 1
    ensures var c := Meant(f)[0];
            && c.column == f.column && |c.operands| == 1
            && c.operator in {"=", "<>", "<", ">", "<=", ">=", "LIKE", "NOT LIKE"}
            && Condition(f) == Some(Like(f, c.operator, c.operands[0]))
            && c == Cond(f.column, c.operator, [c.operands[0]])
  {
    hide CommaItems, Items, Like;
  }

  lemma NullConditionReads(f: Filter, bound: bool, n: nat, args: seq<string>)
    requires f.operator in {"IS NULL", "IS NOT NULL"}
    requires Condition(f).Some? && n > 0
    ensures |Meant(f)| == 1 && Reads(TextOf(Condition(f).value, bound, n - 1), Meant(f)[0], args)
    ensures Values(Condition(f).value) == Strs(Meant(f)[0].operands)
  {
    NullShape(f);
    NullText(f, " " + f.operator, n);
    hide FlatMap, Print, Numbered, Values, ReadCond, QuoteIdent, Condition, Meant;
    ConcatAssoc(QuoteIdent(f.column), " ", f.operator);
    forall rest | Apart(rest)
      ensures ReadCond(TextOf(Condition(f).value, bound, n - 1) + rest, args) == Some((Meant(f)[0], rest))
    {
      NullReads(f.column, f.operator, rest, args);
    }
  }

  lemma NullShape(f: Filter)
    requires f.operator in {"IS NULL", "IS NOT NULL"} && Condition(f).Some?
    ensures Meant(f) == [Cond(f.column, f.operator, [])] && Strs([]) == []
    ensures Condition(f).value == [Ident(f.column), Plain(" " + f.operator)]
  {
    hide CommaItems, Items;
    assert " IS NULL" == " " + "IS NULL" && " IS NOT NULL" == " " + "IS NOT NULL";
  }

  lemma ListConditionReads(f: Filter, bound: bool, n: nat, args: seq<string>)
    requires f.operator in {"IN", "NOT IN"}
    requires Condition(f).Some? && n > 0 && |Meant(f)| == 1 && AllGiven(bound, n, Meant(f)[0].operands, args)
    ensures Reads(TextOf(Condition(f).value, bound, n - 1), Meant(f)[0], args)
    ensures Values(Condition(f).value) == Strs(Meant(f)[0].operands)
  {
    var items := Items(f.value);
    ListShape(f);
    InText(f, f.operator, items, n);
    JoinedOperands(bound, n, items);
    hide FlatMap, Print, Numbered, Values, ReadCond, Items, QuoteIdent, ListToks, ListTexts, Join, OperandTexts,
        AllGiven, Strs, Condition, Meant;
    forall rest | Apart(rest)
      ensures ReadCond(TextOf(Condition(f).value, bound, n - 1) + rest, args) == Some((Meant(f)[0], rest))
    {
      ListReads(f.column, f.operator, bound, n, items, rest, args);
    }
  }

  lemma ListShape(f: Filter)
    requires f.operator in {"IN", "NOT IN"} && Condition(f).Some?
    ensures var items := Items(f.value);
            && items != [] && Meant(f) == [Cond(f.column, f.operator, items)]
            && Condition(f).value
                == [Ident(f.column), Plain(" " + f.operator + " (")] + ListToks(items) + [Plain(")")]
  {
    hide CommaItems, Items, ListToks;
    ItemsAre(f.value);
  }

  lemma RangeConditionReads(f: Filter, bound: bool, n: nat, args: seq<string>)
    requires f.operator in {"BETWEEN", "NOT BETWEEN"}
    requires Condition(f).Some? && n > 0 && |Meant(f)| == 1 && AllGiven(bound, n, Meant(f)[0].operands, args)
    ensures Reads(TextOf(Condition(f).value, bound, n - 1), Meant(f)[0], args)
    ensures Values(Condition(f).value) == Strs(Meant(f)[0].operands)
  {
    var items := Items(f.value);
    RangeShape(f);
    var low, high := items[0], items[1];
    assert Given(bound, n + 0, [low, high][0], args) && Given(bound, n + 1, [low, high][1], args);
    BetweenText(f, f.operator, low, high, n);
    TwoStrs(low, high);
    hide FlatMap, Print, Numbered, Values, ReadCond, Items, QuoteIdent, Strs, AllGiven, Given, Condition, Meant;
    forall rest | Apart(rest)
      ensures ReadCond(TextOf(Condition(f).value, bound, n - 1) + rest, args) == Some((Meant(f)[0], rest))
    {
      RangeReads(f.column, f.operator, bound, n, low, high, rest, args);
    }
  }

  lemma RangeShape(f: Filter)
    requires f.operator in {"BETWEEN", "NOT BETWEEN"} && Condition(f).Some?
    ensures var items := Items(f.value);
            && |items| == 2 && Meant(f) == [Cond(f.column, f.operator, [items[0], items[1]])]
            && Condition(f).value
                == [Ident(f.column), Plain(" " + f.operator + " "), Val(Str(items[0])), Plain(" AND "),
                    Val(Str(items[1]))]
  {
    hide CommaItems, Items;
    ItemsAre(f.value);
    assert |Items(f.value)| == 2;
    assert Items(f.value) == [Items(f.value)[0], Items(f.value)[1]];
  }

  lemma TwoStrs(a: string, b: string)
    ensures Strs([a, b]) == [Str(a), Str(b)]
  {
    assert [a, b] == [a] + [b];
    FlatMapAppend(StrOf, [a], [b]);
    FlatMapOne(StrOf, a);
    FlatMapOne(StrOf, b);
  }

  // ---------- the whole clause ----------

  /** What may stand behind a clause. */
  predicate Behind(rest: string) { Apart(rest) && Expect(rest, " AND ").None? && Expect(rest, " WHERE ").None? }

  lemma ReadsLast(text: string, c: Cond, rest: string, args: seq<string>)
    requires Reads(text, c, args) && Behind(rest)
    ensures ReadConds(text + rest, args) == Some(([c], rest))
  {
    hide ReadCond, Expect;
    assert ReadCond(text + rest, args) == Some((c, rest));
  }

  lemma ReadsMore(text: string, c: Cond, more: string, cs: seq<Cond>, rest: string, args: seq<string>)
    requires Reads(text, c, args) && ReadConds(more, args) == Some((cs, rest))
    ensures ReadConds(text + (" AND " + more), args) == Some(([c] + cs, rest))
  {
    hide ReadCond, Expect;
    var tail := " AND " + more;
    assert tail[0] == ' ';
    assert ReadCond(text + tail, args) == Some((c, tail));
    ExpectIt(" AND ", more);
  }

  lemma {:induction false} JoinReads(texts: seq<string>, conds: seq<Cond>, rest: string, args: seq<string>)
    requires texts != [] && |texts| == |conds| && forall k :: 0 <= k < |texts| ==> Reads(texts[k], conds[k], args)
    requires Behind(rest)
    ensures ReadConds(Join(texts, " AND ") + rest, args) == Some((conds, rest))
  {
    hide ReadConds, Reads, Behind;
    if |texts| == 1 {
      ReadsLast(texts[0], conds[0], rest, args);
      assert conds == [conds[0]];
    } else {
      var more := Join(texts[1..], " AND ");
      ConcatAssoc(texts[0], " AND ", more);
      ConcatAssoc(texts[0], " AND " + more, rest);
      ConcatAssoc(" AND ", more, rest);
      JoinReads(texts[1..], conds[1..], rest, args);
      ReadsMore(texts[0], conds[0], more + rest, conds[1..], rest, args);
      assert conds == [conds[0]] + conds[1..];
    }
  }

  /** The operands of all conditions, in order. */
  function Operands(cs: seq<Cond>): seq<string> { FlatMap(OperandsOf, cs) }
  function OperandsOf(c: Cond): seq<string> { c.operands }

  lemma StrsJoin(a: seq<string>, b: seq<string>)
    ensures Strs(a + b) == Strs(a) + Strs(b)
  {
    FlatMapAppend(StrOf, a, b);
  }

  /** The texts of the conditions read one by one; their values are the operands. */
  lemma {:induction false} TextsRead(fs: seq<Filter>, bound: bool, args: seq<string>)
    requires bound ==> Operands(AllMeant(fs)) <= args
    ensures var texts := Texts(Conditions(fs), bound);
            && |texts| == |Conditions(fs)| == |AllMeant(fs)|
            && forall k :: 0 <= k < |texts| ==> Reads(texts[k], AllMeant(fs)[k], args)
    ensures Values(Flat(Conditions(fs))) == Strs(Operands(AllMeant(fs)))
    ensures |Values(Flat(Conditions(fs)))| == |Operands(AllMeant(fs))|
  {
    hide FlatMap, Reads, Texts, Condition, Meant, Values, Strs, Print, Numbered;
    if fs == [] {
      TextsNone(bound);
      NothingMeant();
    } else {
      var n := |fs| - 1;
      var f := fs[n];
      assert fs[..n + 1] == fs;
      FlatMapStep(ConditionOf, fs, n);
      FlatMapStep(Meant, fs, n);
      MeantOrNot(f);
      FlatMapAppend(OperandsOf, AllMeant(fs[..n]), Meant(f));
      TextsRead(fs[..n], bound, args);
      if Condition(f).Some? {
        var c := Meant(f)[0];
        var before := |Operands(AllMeant(fs[..n]))|;
        assert Meant(f) == [c];
        FlatMapOne(OperandsOf, c);
        OperandsGiven(Operands(AllMeant(fs[..n])), c.operands, bound, args);
        ConditionReads(f, bound, before + 1, args);
        TextsMore(Conditions(fs[..n]), Condition(f).value, bound);
        FlatMore(Conditions(fs[..n]), Condition(f).value);
        StrsJoin(Operands(AllMeant(fs[..n])), c.operands);
        StrsCount(Operands(AllMeant(fs)));
      } else {
        assert Meant(f) == [];
        FlatMapEmpty(OperandsOf);
        assert AllMeant(fs) == AllMeant(fs[..n]) && Conditions(fs) == Conditions(fs[..n]);
      }
    }
  }

  lemma NothingMeant()
    ensures AllMeant([]) == [] && Operands([]) == [] && Strs([]) == []
  {
  }

  lemma {:induction false} StrsCount(items: seq<string>)
    ensures |Strs(items)| == |items|
  {
    ListValues(items);
  }

  lemma OperandsGiven(before: seq<string>, operands: seq<string>, bound: bool, args: seq<string>)
    requires bound ==> before + operands <= args
    ensures bound ==> before <= args
    ensures AllGiven(bound, |before| + 1, operands, args)
  {
    forall k | 0 <= k < |operands| ensures Given(bound, |before| + 1 + k, operands[k], args) {
      if bound {
        assert (before + operands)[|before| + k] == operands[k];
      }
    }
  }

  /** For every list of filters both clauses, the bound one with its arguments, read as the
      conditions that the filters stand for: all of them, in order, and nothing else. */
  lemma ClauseMeans(fs: seq<Filter>, bound: bool, rest: string, args: seq<string>)
    requires (bound ==> Operands(AllMeant(fs)) <= args) && Behind(rest)
    ensures ReadClause(TextOf(Where(fs), bound, 0) + rest, args) == Some((AllMeant(fs), rest))
    ensures Values(Where(fs)) == Strs(Operands(AllMeant(fs)))
  {
    hide FlatMap, Reads, Texts, Condition, Meant, Values, Strs, Print, Numbered, ReadConds, Join, Expect, Conditions,
        AllMeant, TextOf, Where;
    TextsRead(fs, bound, args);
    if Conditions(fs) == [] {
      NoClause(fs, bound);
      assert "" + rest == rest;
    } else {
      WherePrinted(fs, bound);
      WhereValues(fs);
      var t := Join(Texts(Conditions(fs), bound), " AND ");
      ConcatAssoc(" WHERE ", t, rest);
      ExpectIt(" WHERE ", t + rest);
      JoinReads(Texts(Conditions(fs), bound), AllMeant(fs), rest, args);
    }
  }

  lemma NoClause(fs: seq<Filter>, bound: bool)
    requires Conditions(fs) == []
    ensures TextOf(Where(fs), bound, 0) == "" && Values(Where(fs)) == []
    ensures Values(Flat([])) == []
  {
    hide Conditions;
    WhereNone();
  }

  lemma NothingBehind()
    ensures Behind("")
  {
  }
}
