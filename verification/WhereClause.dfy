/** The two builders of a table page's query: with placeholders, for the connection that
    runs in this process (`buildPGWhereClause` and `FetchTableRows` of
    `internal/db/pg/browse.go`), and with the values written in, for the agent
    (`buildWhereSQLForDialect` and `fetchTableRowsViaExecutor` of
    `internal/api/agent_read.go`, for PostgreSQL). */
module WhereClause {
  import opened Text
  import opened Lists
  import opened ClauseToks
  import opened ClauseReader

  /** `pgSplitCSV`, and `splitFilterCSV`, which is the same. */
  method SplitCSV(s: string) returns (out: seq<string>)
    ensures out == Items(s) && out == CommaItems(s)
  {
    hide FlatMap, CommaItems;
    ItemsAre(s);
    out := [];
    FlatMapEmpty(Trimmed);
    if s == "" {
      FlatMapOne(Trimmed, "");
      assert SplitOn(s, ',') == [""];
      return;
    }
    var parts := SplitOn(s, ',');
    for i := 0 to |parts|
      invariant out == FlatMap(Trimmed, parts[..i])
    {
      FlatMapStep(Trimmed, parts, i);
      var trimmed := Trim(GoSpaces, parts[i]);
      if trimmed != "" {
        out := out + [trimmed];
      }
    }
    assert parts[..|parts|] == parts;
  }

  method BuildWhere(filters: seq<Filter>) returns (where: string)
    ensures where == Print(Where(filters))
    ensures ReadClause(where, []) == Some((AllMeant(filters), ""))
  {
    hide FlatMap, Condition, Texts, Print, Numbered, Values, Flat, AllMeant, ReadClause, Operands;
    NothingBehind();
    ClauseMeans(filters, false, "", []);
    assert Print(Where(filters)) + "" == Print(Where(filters));
    if |filters| == 0 {
      WhereNone();
      return "";
    }
    var conds: seq<string> := [];
    TextsNone(false);
    for i := 0 to |filters|
      invariant conds == Texts(Conditions(filters[..i]), false)
    {
      FlatMapStep(ConditionOf, filters, i);
      assert Conditions(filters[..i]) + [] == Conditions(filters[..i]);
      var cond := InlineCondition(filters[i]);
      if cond.Some? {
        TextsMore(Conditions(filters[..i]), Condition(filters[i]).value, false);
        conds := conds + [cond.value];
      }
    }
    assert filters[..|filters|] == filters;
    TextsCount(Conditions(filters), false);
    if |conds| == 0 {
      WhereNone();
      return "";
    }
    WherePrinted(filters, false);
    return " WHERE " + Join(conds, " AND ");
  }

  method BuildPGWhere(filters: seq<Filter>) returns (clause: string, args: seq<Value>)
    ensures clause == Print(Numbered(Where(filters), 1)) && args == Values(Where(filters))
    ensures ReadClause(clause, Operands(AllMeant(filters))) == Some((AllMeant(filters), ""))
    ensures args == Strs(Operands(AllMeant(filters)))
  {
    hide FlatMap, Condition, Texts, Print, Numbered, Values, Flat, AllMeant, ReadClause, Operands, Strs;
    NothingBehind();
    ClauseMeans(filters, true, "", Operands(AllMeant(filters)));
    assert Print(Numbered(Where(filters), 1)) + "" == Print(Numbered(Where(filters), 1));
    if |filters| == 0 {
      WhereNone();
      return "", [];
    }
    var conds: seq<string> := [];
    args := [];
    TextsNone(true);
    for i := 0 to |filters|
      invariant conds == Texts(Conditions(filters[..i]), true)
      invariant args == Values(Flat(Conditions(filters[..i])))
    {
      FlatMapStep(ConditionOf, filters, i);
      assert Conditions(filters[..i]) + [] == Conditions(filters[..i]);
      var cond, more := BoundCondition(filters[i], |args| + 1);
      if cond.Some? {
        TextsMore(Conditions(filters[..i]), Condition(filters[i]).value, true);
        FlatMore(Conditions(filters[..i]), Condition(filters[i]).value);
        conds := conds + [cond.value];
        args := args + more;
      }
    }
    assert filters[..|filters|] == filters;
    TextsCount(Conditions(filters), true);
    if |conds| == 0 {
      WhereNone();
      return "", [];
    }
    WherePrinted(filters, true);
    WhereValues(filters);
    return " WHERE " + Join(conds, " AND "), args;
  }

  /** The body of the loop in `buildWhereSQLForDialect`. */
  method InlineCondition(f: Filter) returns (cond: Option<string>)
    ensures cond == if Condition(f).Some? then Some(Print(Condition(f).value)) else None
    ensures cond.None? <==> Meant(f) == []
    ensures cond.Some? ==> ReadCond(cond.value, []) == Some((Meant(f)[0], ""))
  {
    hide FlatMap, QuoteIdent, SqlString, Placeholder, Numbered, Print, Values, ListToks, Items, CommaItems, Meant,
        ReadCond, Strs, ListTexts, Join, Like;
    InlineMeans(f);
    cond := None;
    if f.column == "" {
      return;
    }
    var col := QuoteIdent(f.column);
    assert col + " LIKE " == col + " " + "LIKE" + " " && col + " NOT LIKE " == col + " " + "NOT LIKE" + " ";
    if Comparison(f.operator) {
      LikeText(f, f.operator, f.value, 1);
      cond := Some(col + " " + f.operator + " " + SqlString(f.value));
    } else if f.operator == "LIKE" {
      LikeText(f, "LIKE", f.value, 1);
      cond := Some(col + " LIKE " + SqlString(f.value));
    } else if f.operator == "Contains" {
      LikeText(f, "LIKE", "%" + f.value + "%", 1);
      cond := Some(col + " LIKE " + SqlString("%" + f.value + "%"));
    } else if f.operator == "Not contains" {
      LikeText(f, "NOT LIKE", "%" + f.value + "%", 1);
      cond := Some(col + " NOT LIKE " + SqlString("%" + f.value + "%"));
    } else if f.operator == "Has prefix" {
      LikeText(f, "LIKE", f.value + "%", 1);
      cond := Some(col + " LIKE " + SqlString(f.value + "%"));
    } else if f.operator == "Has suffix" {
      LikeText(f, "LIKE", "%" + f.value, 1);
      cond := Some(col + " LIKE " + SqlString("%" + f.value));
    } else if f.operator == "IS NULL" {
      NullText(f, " IS NULL", 1);
      cond := Some(col + " IS NULL");
    } else if f.operator == "IS NOT NULL" {
      NullText(f, " IS NOT NULL", 1);
      cond := Some(col + " IS NOT NULL");
    } else if f.operator == "IN" || f.operator == "NOT IN" {
      var parts := SplitCSV(f.value);
      if |parts| == 0 {
        return;
      }
      var vals := InlineList(parts);
      var op := "IN";
      if f.operator == "NOT IN" {
        op := "NOT IN";
      }
      InText(f, op, parts, 1);
      cond := Some(col + " " + op + " (" + Join(vals, ", ") + ")");
    } else if f.operator == "BETWEEN" || f.operator == "NOT BETWEEN" {
      var parts := SplitCSV(f.value);
      if |parts| != 2 {
        return;
      }
      var op := "BETWEEN";
      if f.operator == "NOT BETWEEN" {
        op := "NOT BETWEEN";
      }
      BetweenText(f, op, parts[0], parts[1], 1);
      cond := Some(col + " " + op + " " + SqlString(parts[0]) + " AND " + SqlString(parts[1]));
    }
  }

  /** The loop over the items of a list. */
  method InlineList(parts: seq<string>) returns (vals: seq<string>)
    ensures vals == ListTexts(parts, false, 1)
  {
    hide SqlString;
    vals := [];
    for i := 0 to |parts|
      invariant vals == ListTexts(parts[..i], false, 1)
    {
      assert parts[..i + 1][..i] == parts[..i];
      vals := vals + [SqlString(parts[i])];
    }
    assert parts[..|parts|] == parts;
  }

  lemma InlineMeans(f: Filter)
    ensures Condition(f).None? <==> Meant(f) == []
    ensures Condition(f).Some? ==> ReadCond(Print(Condition(f).value), []) == Some((Meant(f)[0], ""))
  {
    hide Condition, Meant, ReadCond, Print, Numbered;
    MeantOrNot(f);
    if Condition(f).Some? {
      ConditionReads(f, false, 1, []);
      var text := Print(Condition(f).value);
      assert text + "" == text;
      assert ReadCond(text + "", []) == Some((Meant(f)[0], ""));
    }
  }

  /** The body of the loop in `buildPGWhereClause`: `n` is the number of the next value. */
  method BoundCondition(f: Filter, n: nat) returns (cond: Option<string>, args: seq<Value>)
    requires n > 0
    ensures cond == if Condition(f).Some? then Some(Print(Numbered(Condition(f).value, n))) else None
    ensures args == if Condition(f).Some? then Values(Condition(f).value) else []
    ensures cond.None? <==> Meant(f) == []
    ensures cond.Some? ==>
              && args == Strs(Meant(f)[0].operands)
              && forall all :: AllGiven(true, n, Meant(f)[0].operands, all) ==>
                   ReadCond(cond.value, all) == Some((Meant(f)[0], ""))
  {
    hide FlatMap, QuoteIdent, Placeholder, Numbered, Print, Values, ListToks, Items, Strs, CommaItems, Meant, ReadCond,
        AllGiven, Like;
    BoundMeans(f, n);
    cond, args := None, [];
    if f.column == "" {
      return;
    }
    var col := QuoteIdent(f.column);
    assert col + " LIKE " == col + " " + "LIKE" + " " && col + " NOT LIKE " == col + " " + "NOT LIKE" + " ";
    if Comparison(f.operator) {
      LikeText(f, f.operator, f.value, n);
      cond, args := Some(col + " " + f.operator + " " + Placeholder(n)), [Str(f.value)];
    } else if f.operator == "LIKE" {
      LikeText(f, "LIKE", f.value, n);
      cond, args := Some(col + " LIKE " + Placeholder(n)), [Str(f.value)];
    } else if f.operator == "Contains" {
      LikeText(f, "LIKE", "%" + f.value + "%", n);
      cond, args := Some(col + " LIKE " + Placeholder(n)), [Str("%" + f.value + "%")];
    } else if f.operator == "Not contains" {
      LikeText(f, "NOT LIKE", "%" + f.value + "%", n);
      cond, args := Some(col + " NOT LIKE " + Placeholder(n)), [Str("%" + f.value + "%")];
    } else if f.operator == "Has prefix" {
      LikeText(f, "LIKE", f.value + "%", n);
      cond, args := Some(col + " LIKE " + Placeholder(n)), [Str(f.value + "%")];
    } else if f.operator == "Has suffix" {
      LikeText(f, "LIKE", "%" + f.value, n);
      cond, args := Some(col + " LIKE " + Placeholder(n)), [Str("%" + f.value)];
    } else if f.operator == "IS NULL" {
      NullText(f, " IS NULL", n);
      cond, args := Some(col + " IS NULL"), [];
    } else if f.operator == "IS NOT NULL" {
      NullText(f, " IS NOT NULL", n);
      cond, args := Some(col + " IS NOT NULL"), [];
    } else if f.operator == "IN" || f.operator == "NOT IN" {
      var parts := SplitCSV(f.value);
      if |parts| == 0 {
        return;
      }
      var placeholders, values := BoundList(parts, n);
      var op := "IN";
      if f.operator == "NOT IN" {
        op := "NOT IN";
      }
      InText(f, op, parts, n);
      cond, args := Some(col + " " + op + " (" + Join(placeholders, ", ") + ")"), values;
    } else if f.operator == "BETWEEN" || f.operator == "NOT BETWEEN" {
      var parts := SplitCSV(f.value);
      if |parts| != 2 {
        return;
      }
      var op := "BETWEEN";
      if f.operator == "NOT BETWEEN" {
        op := "NOT BETWEEN";
      }
      BetweenText(f, op, parts[0], parts[1], n);
      cond := Some(col + " " + op + " " + Placeholder(n) + " AND " + Placeholder(n + 1));
      args := [Str(parts[0]), Str(parts[1])];
    }
  }

  /** The loop over the items of a list. */
  method BoundList(parts: seq<string>, n: nat) returns (placeholders: seq<string>, args: seq<Value>)
    ensures placeholders == ListTexts(parts, true, n) && args == Strs(parts)
  {
    hide Placeholder, Strs;
    placeholders, args := [], [];
    StrsMore([], "");
    for i := 0 to |parts|
      invariant placeholders == ListTexts(parts[..i], true, n)
      invariant args == Strs(parts[..i])
    {
      assert parts[..i + 1][..i] == parts[..i] && parts[..i] + [parts[i]] == parts[..i + 1];
      StrsMore(parts[..i], parts[i]);
      placeholders := placeholders + [Placeholder(n + i)];
      args := args + [Str(parts[i])];
    }
    assert parts[..|parts|] == parts;
  }

  lemma BoundMeans(f: Filter, n: nat)
    requires n > 0
    ensures Condition(f).None? <==> Meant(f) == []
    ensures Condition(f).Some? ==>
              var operands := Meant(f)[0].operands;
              && Values(Condition(f).value) == Strs(operands)
              && forall all :: AllGiven(true, n, operands, all) ==>
                   ReadCond(Print(Numbered(Condition(f).value, n)), all) == Some((Meant(f)[0], ""))
  {
    hide Condition, Meant, ReadCond, Print, Numbered, Values, Strs, AllGiven;
    MeantOrNot(f);
    if Condition(f).Some? {
      var text := Print(Numbered(Condition(f).value, n));
      assert text + "" == text;
      NoneGiven(n, Meant(f)[0].operands);
      ConditionReads(f, false, n, []);
      forall all | AllGiven(true, n, Meant(f)[0].operands, all) ensures ReadCond(text, all) == Some((Meant(f)[0], "")) {
        ConditionReads(f, true, n, all);
        assert ReadCond(text + "", all) == Some((Meant(f)[0], ""));
      }
    }
  }

  lemma NoneGiven(n: nat, operands: seq<string>)
    ensures AllGiven(false, n, operands, [])
  {
  }
}
