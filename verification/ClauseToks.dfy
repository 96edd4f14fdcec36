/** The pieces that the WHERE clause and the query of a table page are made of, for both
    builders: `internal/db/pg/browse.go` and `internal/api/agent_read.go`. */
module ClauseToks {
  import opened Text
  import opened Lists

  datatype Filter = Filter(column: string, operator: string, value: string)

  datatype Value = Str(s: string) | Int(n: nat)

  // ---------- what both write ----------

  /** A piece of a query: words, a quoted name, a value, or the place of value number `n`. */
  datatype Tok = Plain(text: string) | Ident(name: string) | Val(v: Value) | Param(n: nat)

  /** `QuoteIdent` of `internal/db/pg/ident.go`. */
  function QuoteIdent(name: string): string { "\"" + DoubleChar(name, '"') + "\"" }

  /** `sqlString`. */
  function SqlString(s: string): string { "'" + DoubleChar(s, '\'') + "'" }

  function Placeholder(n: nat): string { "$" + Numeral(n) }

  function Render(v: Value): string {
    match v
    case Str(s) => SqlString(s)
    case Int(n) => Numeral(n)
  }

  function PrintTok(t: Tok): string {
    match t
    case Plain(text) => text
    case Ident(name) => QuoteIdent(name)
    case Val(v) => Render(v)
    case Param(n) => Placeholder(n)
  }

  function Print(toks: seq<Tok>): string { FlatMap(PrintTok, toks) }

  function ValueOf(t: Tok): seq<Value> { if t.Val? then [t.v] else [] }
  function Values(toks: seq<Tok>): seq<Value> { FlatMap(ValueOf, toks) }

  /** The values taken out, the `k`-th replaced by the place of value `n + k`. */
  function Numbered(toks: seq<Tok>, n: nat): seq<Tok> {
    if toks == [] then []
    else
      var last := toks[|toks| - 1];
      Numbered(toks[..|toks| - 1], n) + [if last.Val? then Param(n + |Values(toks[..|toks| - 1])|) else last]
  }

  // ---------- the condition of one filter ----------

  predicate Comparison(op: string) { op in {"=", "<>", "<", ">", "<=", ">="} }

  function SplitOn(s: string, c: char): (parts: seq<string>)
    ensures parts != []
  {
    if s == [] then [""]
    else if s[0] == c then [""] + SplitOn(s[1..], c)
    else [[s[0]] + SplitOn(s[1..], c)[0]] + SplitOn(s[1..], c)[1..]
  }

  function Trimmed(part: string): seq<string> {
    if Trim(GoSpaces, part) == "" then [] else [Trim(GoSpaces, part)]
  }

  /** The items of a comma-separated list, trimmed, without the empty ones. */
  function Items(s: string): seq<string> { FlatMap(Trimmed, SplitOn(s, ',')) }

  function ListToks(items: seq<string>): seq<Tok> {
    if items == [] then []
    else if |items| == 1 then [Val(Str(items[0]))]
    else ListToks(items[..|items| - 1]) + [Plain(", "), Val(Str(items[|items| - 1]))]
  }

  function Like(f: Filter, op: string, pattern: string): seq<Tok> {
    [Ident(f.column), Plain(" " + op + " "), Val(Str(pattern))]
  }

  /** The condition that a filter stands for; none if it names no column, has an operator
      that is not known, or lacks the values its operator needs. */
  function Condition(f: Filter): Option<seq<Tok>> {
    if f.column == "" then None
    else if Comparison(f.operator) then Some(Like(f, f.operator, f.value))
    else if f.operator == "LIKE" then Some(Like(f, "LIKE", f.value))
    else if f.operator == "Contains" then Some(Like(f, "LIKE", "%" + f.value + "%"))
    else if f.operator == "Not contains" then Some(Like(f, "NOT LIKE", "%" + f.value + "%"))
    else if f.operator == "Has prefix" then Some(Like(f, "LIKE", f.value + "%"))
    else if f.operator == "Has suffix" then Some(Like(f, "LIKE", "%" + f.value))
    else if f.operator == "IS NULL" then Some([Ident(f.column), Plain(" IS NULL")])
    else if f.operator == "IS NOT NULL" then Some([Ident(f.column), Plain(" IS NOT NULL")])
    else if f.operator == "IN" || f.operator == "NOT IN" then
      var items := Items(f.value);
      if items == [] then None
      else Some([Ident(f.column), Plain(" " + f.operator + " (")] + ListToks(items) + [Plain(")")])
    else if f.operator == "BETWEEN" || f.operator == "NOT BETWEEN" then
      var items := Items(f.value);
      if |items| != 2 then None
      else Some([Ident(f.column), Plain(" " + f.operator + " "), Val(Str(items[0])), Plain(" AND "),
          Val(Str(items[1]))])
    else None
  }

  function ConditionOf(f: Filter): seq<seq<Tok>> { if Condition(f).Some? then [Condition(f).value] else [] }
  function Conditions(fs: seq<Filter>): seq<seq<Tok>> { FlatMap(ConditionOf, fs) }

  /** The conditions with AND between them. */
  function Joined(conds: seq<seq<Tok>>): seq<Tok> {
    if conds == [] then []
    else if |conds| == 1 then conds[0]
    else Joined(conds[..|conds| - 1]) + [Plain(" AND ")] + conds[|conds| - 1]
  }

  /** The whole clause. */
  function Where(fs: seq<Filter>): seq<Tok> {
    if Conditions(fs) == [] then [] else [Plain(" WHERE ")] + Joined(Conditions(fs))
  }

  // ---------- joining texts as the code does ----------

  lemma {:induction false} JoinMore(parts: seq<string>, last: string, sep: string)
    ensures Join(parts + [last], sep) == if parts == [] then last else Join(parts, sep) + sep + last
  {
    if |parts| > 1 {
      assert (parts + [last])[1..] == parts[1..] + [last];
      JoinMore(parts[1..], last, sep);
      ConcatAssoc(parts[0] + sep, Join(parts[1..], sep), sep + last);
      ConcatAssoc(parts[0] + sep + Join(parts[1..], sep), sep, last);
      assert (parts[0] + sep + Join(parts[1..], sep)) + (sep + last) == Join(parts, sep) + sep + last;
      assert (parts[0] + sep) + (Join(parts[1..], sep) + sep + last)
          == (parts[0] + sep) + (Join(parts[1..], sep) + (sep + last));
    } else if |parts| == 1 {
      assert (parts + [last])[1..] == [last];
    } else {
      assert parts + [last] == [last];
    }
  }

  lemma PrintAppend(a: seq<Tok>, b: seq<Tok>)
    ensures Print(a + b) == Print(a) + Print(b)
  {
    FlatMapAppend(PrintTok, a, b);
  }

  lemma {:induction false} NumberedAppend(a: seq<Tok>, b: seq<Tok>, n: nat)
    ensures Numbered(a + b, n) == Numbered(a, n) + Numbered(b, n + |Values(a)|)
  {
    if b == [] {
      assert a + b == a;
    } else {
      var k := |b| - 1;
      assert (a + b)[..|a + b| - 1] == a + b[..k];
      NumberedAppend(a, b[..k], n);
      FlatMapAppend(ValueOf, a, b[..k]);
    }
  }

  // ---------- the texts of the conditions ----------

  /** The texts that one printer makes of the conditions: `conds[k]` is the `k`-th, with
      its values numbered from where the ones before it end, or written in. */
  function Texts(conds: seq<seq<Tok>>, bound: bool): seq<string> {
    if conds == [] then []
    else Texts(conds[..|conds| - 1], bound) + [TextOf(conds[|conds| - 1], bound, |Values(Flat(conds[..|conds| - 1]))|)]
  }

  function TextOf(cond: seq<Tok>, bound: bool, before: nat): string {
    if bound then Print(Numbered(cond, before + 1)) else Print(cond)
  }

  function Self(cond: seq<Tok>): seq<Tok> { cond }
  function Flat(conds: seq<seq<Tok>>): seq<Tok> { FlatMap(Self, conds) }

  lemma WhereNone()
    ensures Where([]) == [] && Print([]) == "" && Numbered([], 1) == [] && Values([]) == []
  {
  }

  lemma TextsNone(bound: bool)
    ensures Texts(Conditions([]), bound) == [] && Values(Flat(Conditions([]))) == [] && Conditions([]) == []
  {
  }

  lemma {:induction false} TextsCount(conds: seq<seq<Tok>>, bound: bool)
    ensures |Texts(conds, bound)| == |conds|
  {
    if conds != [] { TextsCount(conds[..|conds| - 1], bound); }
  }

  lemma TextsMore(conds: seq<seq<Tok>>, cond: seq<Tok>, bound: bool)
    ensures Texts(conds + [cond], bound) == Texts(conds, bound) + [TextOf(cond, bound, |Values(Flat(conds))|)]
  {
    assert (conds + [cond])[..|conds|] == conds;
  }

  lemma FlatMore(conds: seq<seq<Tok>>, cond: seq<Tok>)
    ensures Values(Flat(conds + [cond])) == Values(Flat(conds)) + Values(cond)
  {
    FlatMapAppend(Self, conds, [cond]);
    FlatMapOne(Self, cond);
    FlatMapAppend(ValueOf, Flat(conds), cond);
  }

  lemma {:induction false} JoinedValues(conds: seq<seq<Tok>>)
    ensures Values(Joined(conds)) == Values(Flat(conds))
  {
    if conds == [] {
    } else {
      var n := |conds| - 1;
      JoinedValues(conds[..n]);
      hide FlatMap;
      assert conds[..n] + [conds[n]] == conds;
      FlatMore(conds[..n], conds[n]);
      if n == 0 {
        FlatMapEmpty(Self);
        FlatMapEmpty(ValueOf);
      } else {
        FlatMapAppend(ValueOf, Joined(conds[..n]) + [Plain(" AND ")], conds[n]);
        FlatMapAppend(ValueOf, Joined(conds[..n]), [Plain(" AND ")]);
        FlatMapOne(ValueOf, Plain(" AND "));
      }
    }
  }

  lemma WhereValues(fs: seq<Filter>)
    requires Conditions(fs) != []
    ensures Values(Where(fs)) == Values(Flat(Conditions(fs)))
  {
    hide FlatMap;
    JoinedValues(Conditions(fs));
    FlatMapAppend(ValueOf, [Plain(" WHERE ")], Joined(Conditions(fs)));
    FlatMapOne(ValueOf, Plain(" WHERE "));
  }

  lemma PrintPlain(text: string, n: nat)
    ensures Print([Plain(text)]) == text && Numbered([Plain(text)], n) == [Plain(text)] && Values([Plain(text)]) == []
  {
    FlatMapOne(PrintTok, Plain(text));
    FlatMapOne(ValueOf, Plain(text));
    assert [Plain(text)][..0] == [];
  }

  lemma {:induction false} JoinedPrinted(conds: seq<seq<Tok>>, bound: bool)
    ensures TextOf(Joined(conds), bound, 0) == Join(Texts(conds, bound), " AND ")
  {
    hide FlatMap;
    if conds == [] {
      FlatMapEmpty(PrintTok);
    } else {
      var n := |conds| - 1;
      JoinedPrinted(conds[..n], bound);
      JoinedValues(conds[..n]);
      TextsCount(conds[..n], bound);
      JoinMore(Texts(conds[..n], bound), TextOf(conds[n], bound, |Values(Flat(conds[..n]))|), " AND ");
      if n == 0 {
        FlatMapEmpty(Self);
        FlatMapEmpty(ValueOf);
      } else {
        hide Joined, Join, Texts;
        JoinedStep(Joined(conds[..n]), conds[n], bound);
        assert Joined(conds) == Joined(conds[..n]) + [Plain(" AND ")] + conds[n] by { JoinedIs(conds); }
      }
    }
  }

  lemma JoinedIs(conds: seq<seq<Tok>>)
    requires |conds| > 1
    ensures Joined(conds) == Joined(conds[..|conds| - 1]) + [Plain(" AND ")] + conds[|conds| - 1]
  {
  }

  lemma JoinedStep(a: seq<Tok>, b: seq<Tok>, bound: bool)
    ensures TextOf(a + [Plain(" AND ")] + b, bound, 0) == TextOf(a, bound, 0) + " AND " + TextOf(b, bound, |Values(a)|)
  {
    hide FlatMap, Numbered, Print, Values;
    var sep := [Plain(" AND ")];
    PrintPlain(" AND ", 1 + |Values(a)|);
    if bound {
      NumberedAppend(a + sep, b, 1);
      NumberedAppend(a, sep, 1);
      ValuesAppend(a, sep);
      PrintAppend(Numbered(a, 1) + sep, Numbered(b, 1 + |Values(a)|));
      PrintAppend(Numbered(a, 1), sep);
    } else {
      PrintAppend(a + sep, b);
      PrintAppend(a, sep);
    }
  }

  lemma ValuesAppend(a: seq<Tok>, b: seq<Tok>)
    ensures Values(a + b) == Values(a) + Values(b)
  {
    FlatMapAppend(ValueOf, a, b);
  }

  lemma WherePrinted(fs: seq<Filter>, bound: bool)
    requires Conditions(fs) != []
    ensures TextOf(Where(fs), bound, 0) == " WHERE " + Join(Texts(Conditions(fs), bound), " AND ")
    ensures bound ==> TextOf(Where(fs), bound, 0) == Print(Numbered(Where(fs), 1))
    ensures !bound ==> TextOf(Where(fs), bound, 0) == Print(Where(fs))
  {
    hide FlatMap, Numbered, Print, Values, Conditions;
    JoinedPrinted(Conditions(fs), bound);
    var head, tail := [Plain(" WHERE ")], Joined(Conditions(fs));
    PrintPlain(" WHERE ", 1);
    if bound {
      NumberedAppend(head, tail, 1);
      PrintAppend(head, Numbered(tail, 1));
    } else {
      PrintAppend(head, tail);
    }
  }

  // ---------- one filter ----------

  /** The texts of a short list of pieces. */
  lemma PrintThree(a: Tok, b: Tok, c: Tok)
    ensures Print([a]) == PrintTok(a)
    ensures Print([a, b]) == PrintTok(a) + PrintTok(b)
    ensures Print([a, b, c]) == PrintTok(a) + PrintTok(b) + PrintTok(c)
  {
    hide PrintTok;
    FlatMapOne(PrintTok, a);
    assert [a, b] == [a] + [b] && [a, b, c] == [a, b] + [c];
    FlatMapAppend(PrintTok, [a], [b]);
    FlatMapOne(PrintTok, b);
    FlatMapAppend(PrintTok, [a, b], [c]);
    FlatMapOne(PrintTok, c);
  }

  /** The texts of the values of a list, one by one. */
  function ListTexts(items: seq<string>, bound: bool, n: nat): seq<string> {
    if items == [] then []
    else
      var k := |items| - 1;
      ListTexts(items[..k], bound, n) + [if bound then Placeholder(n + k) else SqlString(items[k])]
  }

  function Strs(items: seq<string>): seq<Value> { FlatMap(StrOf, items) }
  function StrOf(s: string): seq<Value> { [Str(s)] }

  lemma {:induction false} ListValues(items: seq<string>)
    ensures Values(ListToks(items)) == Strs(items) && |Strs(items)| == |items|
  {
    if |items| > 1 {
      var k := |items| - 1;
      ListValues(items[..k]);
      var tail := [Plain(", "), Val(Str(items[k]))];
      ValuesAppend(ListToks(items[..k]), tail);
      assert tail == [tail[0]] + [tail[1]];
      ValuesAppend([tail[0]], [tail[1]]);
      FlatMapOne(ValueOf, tail[0]);
      FlatMapOne(ValueOf, tail[1]);
    } else if |items| == 1 {
      FlatMapOne(ValueOf, Val(Str(items[0])));
      FlatMapOne(StrOf, items[0]);
      assert items == [items[0]];
    }
  }

  lemma {:induction false} ListTextsCount(items: seq<string>, bound: bool, n: nat)
    ensures |ListTexts(items, bound, n)| == |items|
  {
    if items != [] { ListTextsCount(items[..|items| - 1], bound, n); }
  }

  lemma NumberOne(t: Tok, n: nat)
    ensures Numbered([t], n) == [if t.Val? then Param(n) else t]
  {
    assert [t][..0] == [];
    assert Values([t][..0]) == [];
  }

  lemma {:induction false} ListPrinted(items: seq<string>, bound: bool, n: nat)
    requires n > 0
    ensures TextOf(ListToks(items), bound, n - 1) == Join(ListTexts(items, bound, n), ", ")
  {
    hide FlatMap, Numbered, Print, Placeholder, SqlString;
    var k := |items| - 1;
    if items == [] {
      WhereNone();
      NumberedNone(n);
    } else {
      var last := if bound then Placeholder(n + k) else SqlString(items[k]);
      var v := Val(Str(items[k]));
      ListPrinted(items[..k], bound, n);
      ListTextsCount(items[..k], bound, n);
      JoinMore(ListTexts(items[..k], bound, n), last, ", ");
      NumberOne(v, n);
      PrintThree(v, v, v);
      PrintThree(Param(n), v, v);
      if k > 0 {
        hide Join, ListTexts;
        ListValues(items[..k]);
        ListStep(ListToks(items[..k]), v, n);
        assert ListTexts(items, bound, n) == ListTexts(items[..k], bound, n)
            + [last] by { ListTextsIs(items, bound, n); }
      }
    }
  }

  lemma NumberedNone(n: nat)
    ensures Numbered([], n) == []
  {
  }

  lemma ListTextsIs(items: seq<string>, bound: bool, n: nat)
    requires items != []
    ensures var k := |items| - 1;
            ListTexts(items, bound, n) == ListTexts(items[..k], bound, n)
                + [if bound then Placeholder(n + k) else SqlString(items[k])]
  {
  }

  lemma ListStep(a: seq<Tok>, v: Tok, n: nat)
    requires v.Val?
    ensures var all := a + [Plain(", "), v];
            Print(all) == Print(a) + ", " + Render(v.v)
                && Print(Numbered(all, n)) == Print(Numbered(a, n)) + ", " + Placeholder(n + |Values(a)|)
  {
    hide FlatMap, Numbered, Print, Placeholder, Render, Values;
    var sep, m := Plain(", "), n + |Values(a)|;
    NumberOne(v, m);
    NumberOne(sep, m);
    assert [sep] + [v] == [sep, v] && [sep] + [Param(m)] == [sep, Param(m)];
    PrintPlain(", ", m);
    NumberedAppend([sep], [v], m);
    NumberedAppend(a, [sep, v], n);
    PrintThree(sep, v, v);
    PrintThree(sep, Param(m), v);
    PrintAppend(a, [sep, v]);
    PrintAppend(Numbered(a, n), [sep, Param(m)]);
  }

  lemma LikeText(f: Filter, op: string, pattern: string, n: nat)
    ensures Print(Like(f, op, pattern)) == QuoteIdent(f.column) + " " + op + " " + SqlString(pattern)
    ensures Print(Numbered(Like(f, op, pattern), n)) == QuoteIdent(f.column) + " " + op + " " + Placeholder(n)
    ensures Values(Like(f, op, pattern)) == [Str(pattern)]
  {
    hide FlatMap, QuoteIdent, SqlString, Placeholder, Numbered;
    var id, word, v := Ident(f.column), Plain(" " + op + " "), Val(Str(pattern));
    assert Like(f, op, pattern) == [id] + [word] + [v];
    PrintThree(id, word, v);
    PrintThree(id, word, Param(n));
    ValuesOfThree(id, word, v);
    NumberOne(id, n);
    NumberOne(word, n);
    NumberOne(v, n);
    NumberedAppend([id], [word], n);
    NumberedAppend([id] + [word], [v], n);
    assert [id] + [word] + [Param(n)] == [id, word, Param(n)];
    assert [id] + [word] == [id, word];
  }

  lemma ValuesOfThree(a: Tok, b: Tok, c: Tok)
    ensures Values([a]) == ValueOf(a)
    ensures Values([a, b]) == ValueOf(a) + ValueOf(b)
    ensures Values([a, b, c]) == ValueOf(a) + ValueOf(b) + ValueOf(c)
  {
    hide ValueOf;
    FlatMapOne(ValueOf, a);
    assert [a, b] == [a] + [b] && [a, b, c] == [a, b] + [c];
    FlatMapAppend(ValueOf, [a], [b]);
    FlatMapOne(ValueOf, b);
    FlatMapAppend(ValueOf, [a, b], [c]);
    FlatMapOne(ValueOf, c);
  }

  lemma NullText(f: Filter, words: string, n: nat)
    ensures var c := [Ident(f.column), Plain(words)];
            Print(c) == QuoteIdent(f.column) + words && Numbered(c, n) == c && Values(c) == []
  {
    hide FlatMap, QuoteIdent, Numbered;
    var id, word := Ident(f.column), Plain(words);
    assert [id, word] == [id] + [word];
    PrintThree(id, word, word);
    ValuesOfThree(id, word, word);
    NumberOne(id, n);
    NumberOne(word, n);
    NumberedAppend([id], [word], n);
  }

  lemma InText(f: Filter, op: string, items: seq<string>, n: nat)
    requires n > 0
    ensures var c := [Ident(f.column), Plain(" " + op + " (")] + ListToks(items) + [Plain(")")];
            && Print(c) == QuoteIdent(f.column) + " " + op + " (" + Join(ListTexts(items, false, n), ", ") + ")"
            && Print(Numbered(c, n)) == QuoteIdent(f.column) + " " + op + " (" + Join(ListTexts(items, true, n), ", ")
                + ")"
            && Values(c) == Strs(items)
  {
    hide FlatMap, QuoteIdent, Numbered, ListToks, Join, ListTexts, Strs;
    var head, list, tail := [Ident(f.column), Plain(" " + op + " (")], ListToks(items), [Plain(")")];
    NullText(f, " " + op + " (", n);
    ListPrinted(items, false, n);
    ListPrinted(items, true, n);
    ListValues(items);
    PrintPlain(")", n + |Values(head + list)|);
    PrintAppend(head + list, tail);
    PrintAppend(head, list);
    NumberedAppend(head + list, tail, n);
    NumberedAppend(head, list, n);
    PrintAppend(Numbered(head, n) + Numbered(list, n), tail);
    PrintAppend(Numbered(head, n), Numbered(list, n));
    ValuesAppend(head + list, tail);
    ValuesAppend(head, list);
    assert QuoteIdent(f.column) + (" " + op + " (") == QuoteIdent(f.column) + " " + op + " (";
  }

  lemma BetweenText(f: Filter, op: string, low: string, high: string, n: nat)
    ensures var c := [Ident(f.column), Plain(" " + op + " "), Val(Str(low)), Plain(" AND "), Val(Str(high))];
            && Print(c) == QuoteIdent(f.column) + " " + op + " " + SqlString(low) + " AND " + SqlString(high)
            && Print(Numbered(c, n)) == QuoteIdent(f.column) + " " + op + " " + Placeholder(n) + " AND "
                + Placeholder(n + 1)
            && Values(c) == [Str(low), Str(high)]
  {
    hide FlatMap, QuoteIdent, SqlString, Placeholder, Numbered;
    var c := [Ident(f.column), Plain(" " + op + " "), Val(Str(low)), Plain(" AND "), Val(Str(high))];
    var and, v := Plain(" AND "), Val(Str(high));
    LikeText(f, op, low, n);
    assert [and, v] == [and] + [v];
    assert c == Like(f, op, low) + [and, v];
    NumberOne(and, n + 1);
    NumberOne(v, n + 1);
    ValuesOfThree(and, v, v);
    NumberedAppend([and], [v], n + 1);
    NumberedAppend(Like(f, op, low), [and, v], n);
    PrintThree(and, v, v);
    PrintThree(and, Param(n + 1), v);
    assert [and] + [Param(n + 1)] == [and, Param(n + 1)];
    PrintAppend(Like(f, op, low), [and, v]);
    PrintAppend(Numbered(Like(f, op, low), n), [and, Param(n + 1)]);
    ValuesAppend(Like(f, op, low), [and, v]);
  }

  lemma StrsMore(items: seq<string>, s: string)
    ensures Strs(items + [s]) == Strs(items) + [Str(s)] && Strs([]) == []
  {
    FlatMapAppend(StrOf, items, [s]);
    FlatMapOne(StrOf, s);
  }
}
