/** The two forms of a page query are one query: values put in the places of the bound form
    give the written-out form, which reads back to the same values. */
module WhereLaws {
  import opened Text
  import opened Lists
  import opened ClauseToks

  // ---------- comma-separated lists ----------

  /** The parts are what stands between the commas. */
  lemma {:induction false} SplitIsJoin(s: string, c: char)
    ensures Join(SplitOn(s, c), [c]) == s
    ensures forall i :: 0 <= i < |SplitOn(s, c)| ==> c !in SplitOn(s, c)[i]
  {
    if s != [] {
      SplitIsJoin(s[1..], c);
      var parts := SplitOn(s[1..], c);
      if s[0] == c {
        assert ([""] + parts)[1..] == parts;
      } else {
        assert ([[s[0]] + parts[0]] + parts[1..])[1..] == parts[1..];
        assert s == [s[0]] + s[1..];
        JoinFirst(s[0], parts, c);
      }
    }
  }

  lemma JoinFirst(x: char, parts: seq<string>, c: char)
    requires parts != []
    ensures Join([[x] + parts[0]] + parts[1..], [c]) == [x] + Join(parts, [c])
  {
    assert ([[x] + parts[0]] + parts[1..])[1..] == parts[1..];
    if |parts| > 1 {
      ConcatAssoc([x], parts[0], [c]);
      ConcatAssoc([x], parts[0] + [c], Join(parts[1..], [c]));
    }
  }

  // ---------- readers ----------

  predicate IsQuote(c: char) { c == '"' || c == '\'' }

  /** Puts the values in the places `$1`, `$2`, ... of a text, but not within quotes. */
  function Subst(text: string, values: seq<string>, quote: Option<char>): string
    decreases |text|
  {
    if text == [] then []
    else if quote.Some? then [text[0]] + Subst(text[1..], values, if text[0] == quote.value then None else quote)
    else if IsQuote(text[0]) then [text[0]] + Subst(text[1..], values, Some(text[0]))
    else
      var k := DigitRun(text[1..]);
      if text[0] == '$' && k > 0 then Chosen(text[..1 + k], NumeralValue(text[1..][..k]), values)
          + Subst(text[1..][k..], values, None)
      else [text[0]] + Subst(text[1..], values, None)
  }

  /** Value number `n`, if there is one. */
  function Chosen(place: string, n: nat, values: seq<string>): string {
    if 1 <= n <= |values| then values[n - 1] else place
  }

  /** Where the quotes close that stand open; a doubled quote stands for itself. */
  function Closing(s: string, q: char): Option<nat> {
    if s == [] then None
    else if s[0] != q then
      var k := Closing(s[1..], q);
      if k.Some? then Some(k.value + 1) else None
    else if |s| > 1 && s[1] == q then
      var k := Closing(s[2..], q);
      if k.Some? then Some(k.value + 2) else None
    else Some(0)
  }

  /** The character strings of a text, in order, by the rules for <character string
      literal> and <delimited identifier> in section 5.3 and 5.2 of ISO/IEC 9075-2. */
  function Strings(text: string): seq<string>
    decreases |text|
  {
    if text == [] then []
    else if !IsQuote(text[0]) then Strings(text[1..])
    else
      var k := Closing(text[1..], text[0]);
      if k.None? || k.value >= |text[1..]| then []
      else
        var here := if text[0] == '\'' then [HalveChar(text[1..][..k.value], '\'')] else [];
        here + Strings(text[1..][k.value..][1..])
  }

  // ---------- well-spaced pieces ----------

  predicate Ordinary(text: string) {
    text != [] && !IsDigit(text[0]) && forall i :: 0 <= i < |text| ==> !IsQuote(text[i]) && text[i] != '$'
  }

  /** Words are ordinary, and there are words between any two other pieces. */
  predicate Spaced(toks: seq<Tok>) {
    if toks == [] then true
    else
      && (toks[0].Plain? ==> Ordinary(toks[0].text))
      && !toks[0].Param?
      && (toks[0].Plain? || |toks| == 1 || toks[1].Plain?)
      && Spaced(toks[1..])
  }

  predicate Meet(a: seq<Tok>, b: seq<Tok>) {
    a == [] || b == [] || a[|a| - 1].Plain? || b[0].Plain?
  }

  lemma {:induction false} SpacedAppend(a: seq<Tok>, b: seq<Tok>)
    requires Spaced(a) && Spaced(b) && Meet(a, b)
    ensures Spaced(a + b)
  {
    if a == [] {
      assert a + b == b;
    } else {
      assert (a + b)[1..] == a[1..] + b;
      assert a[1..] != [] ==> a[1..][|a[1..]| - 1] == a[|a| - 1];
      SpacedAppend(a[1..], b);
      if |a| > 1 {
        assert (a + b)[1] == a[1];
      } else if b != [] {
        assert (a + b)[1] == b[0];
      }
    }
  }

  /** A list of pieces that starts with a name and ends in anything. */
  predicate Clause(toks: seq<Tok>) { toks != [] && Spaced(toks) && !toks[0].Plain? }

  lemma InSpaced(f: Filter, op: string, items: seq<string>)
    requires items != [] && (op == "IN" || op == "NOT IN")
    ensures Clause([Ident(f.column), Plain(" " + op + " (")] + ListToks(items) + [Plain(")")])
  {
    var word, close := Plain(" " + op + " ("), Plain(")");
    ListSpaced(items);
    SpacedThree(Ident(f.column), word, close);
    assert Spaced([Ident(f.column), word]) && Spaced([close]);
    hide Spaced, ListToks;
    SpacedAppend(ListToks(items), [close]);
    SpacedAppend([Ident(f.column), word], ListToks(items) + [close]);
    assert [Ident(f.column), word] + ListToks(items) + [close] == [Ident(f.column), word] + (ListToks(items) + [close]);
  }

  lemma BetweenSpaced(f: Filter, op: string, low: Tok, high: Tok)
    requires (op == "BETWEEN" || op == "NOT BETWEEN") && low.Val? && high.Val?
    ensures Clause([Ident(f.column), Plain(" " + op + " "), low, Plain(" AND "), high])
  {
    var word, and := Plain(" " + op + " "), Plain(" AND ");
    SpacedThree(Ident(f.column), word, low);
    SpacedThree(and, high, word);
    SpacedAppend([Ident(f.column), word, low], [and, high]);
    assert [Ident(f.column), word, low, and, high] == [Ident(f.column), word, low] + [and, high];
  }

  lemma ConditionSpaced(f: Filter)
    requires Condition(f).Some?
    ensures Clause(Condition(f).value)
  {
    hide Items, ListToks;
    var c := Condition(f).value;
    if f.operator == "IN" || f.operator == "NOT IN" {
      InSpaced(f, f.operator, Items(f.value));
    } else if f.operator == "BETWEEN" || f.operator == "NOT BETWEEN" {
      BetweenSpaced(f, f.operator, c[2], c[4]);
    } else if f.operator == "IS NULL" || f.operator == "IS NOT NULL" {
      SpacedThree(c[0], c[1], c[1]);
      assert c == [c[0], c[1]];
    } else {
      OperatorsOrdinary(f);
      SpacedThree(c[0], c[1], c[2]);
      assert c == [c[0], c[1], c[2]];
    }
  }

  lemma OperatorsOrdinary(f: Filter)
    requires Condition(f).Some? && f.operator !in {"IN", "NOT IN", "BETWEEN", "NOT BETWEEN", "IS NULL", "IS NOT NULL"}
    ensures |Condition(f).value| == 3 && Condition(f).value[1].Plain? && Ordinary(Condition(f).value[1].text)
    ensures Condition(f).value[0].Ident? && Condition(f).value[2].Val?
  {
    hide Items;
    assert Ordinary(" = ") && Ordinary(" <> ") && Ordinary(" < ") && Ordinary(" > ") && Ordinary(" <= ")
        && Ordinary(" >= ");
    assert " " + "=" + " " == " = " && " " + "<>" + " " == " <> " && " " + "<" + " " == " < ";
    assert " " + ">" + " " == " > " && " " + "<=" + " " == " <= " && " " + ">=" + " " == " >= ";
    assert Ordinary(" " + "LIKE" + " ") && Ordinary(" " + "NOT LIKE" + " ");
  }

  lemma SpacedThree(a: Tok, b: Tok, c: Tok)
    ensures (a.Plain? ==> Ordinary(a.text)) && !a.Param? ==> Spaced([a])
    ensures Spaced([a]) && Spaced([b]) && (a.Plain? || b.Plain?) ==> Spaced([a, b])
    ensures Spaced([a]) && Spaced([b]) && Spaced([c]) && (a.Plain? || b.Plain?) && (b.Plain? || c.Plain?) ==>
        Spaced([a, b, c])
    ensures (b.Plain? ==> Ordinary(b.text)) && !b.Param? ==> Spaced([b])
    ensures (c.Plain? ==> Ordinary(c.text)) && !c.Param? ==> Spaced([c])
  {
    assert [a, b][1..] == [b] && [a, b, c][1..] == [b, c] && [b, c][1..] == [c] && [a][1..] == [] && [b][1..] == []
        && [c][1..] == [];
  }

  lemma {:induction false} ListSpaced(items: seq<string>)
    requires items != []
    ensures Spaced(ListToks(items)) && ListToks(items) != [] && ListToks(items)[0].Val?
  {
    var k := |items| - 1;
    var sep, v := Plain(", "), Val(Str(items[k]));
    SpacedThree(sep, v, v);
    SpacedThree(v, v, v);
    if k > 0 {
      ListSpaced(items[..k]);
      SpacedAppend(ListToks(items[..k]), [sep, v]);
    }
  }

  lemma {:induction false} JoinedSpaced(conds: seq<seq<Tok>>)
    requires conds != [] && forall c :: c in conds ==> Clause(c)
    ensures Clause(Joined(conds))
  {
    var k := |conds| - 1;
    assert conds[k] in conds;
    if k > 0 {
      hide Spaced;
      JoinedSpaced(conds[..k]);
      var and := Plain(" AND ");
      SpacedThree(and, and, and);
      SpacedAppend([and], conds[k]);
      SpacedAppend(Joined(conds[..k]), [and] + conds[k]);
      assert Joined(conds) == Joined(conds[..k]) + ([and] + conds[k]);
    }
  }

  lemma {:induction false} ConditionsSpaced(fs: seq<Filter>)
    ensures forall c :: c in Conditions(fs) ==> Clause(c)
  {
    hide Clause, Condition;
    if fs != [] {
      ConditionsSpaced(fs[..|fs| - 1]);
      if Condition(fs[|fs| - 1]).Some? { ConditionSpaced(fs[|fs| - 1]); }
    }
  }

  lemma WhereSpaced(fs: seq<Filter>)
    ensures Spaced(Where(fs)) && (Where(fs) != [] ==> Where(fs)[0].Plain?)
  {
    hide Conditions, Joined;
    if Conditions(fs) != [] {
      ConditionsSpaced(fs);
      JoinedSpaced(Conditions(fs));
      var where := Plain(" WHERE ");
      SpacedThree(where, where, where);
      SpacedAppend([where], Joined(Conditions(fs)));
    }
  }

  // ---------- putting the values in ----------

  lemma {:induction false} PlainCopied(text: string, rest: string, values: seq<string>)
    requires forall i :: 0 <= i < |text| ==> !IsQuote(text[i]) && text[i] != '$'
    ensures Subst(text + rest, values, None) == text + Subst(rest, values, None)
  {
    if text == [] {
      assert text + rest == rest;
    } else {
      assert (text + rest)[1..] == text[1..] + rest;
      PlainCopied(text[1..], rest, values);
    }
  }

  lemma {:induction false} QuotedCopied(body: string, q: char, rest: string, values: seq<string>)
    requires IsQuote(q)
    ensures Subst(DoubleChar(body, q) + ([q] + rest), values, Some(q))
        == DoubleChar(body, q) + ([q] + Subst(rest, values, None))
  {
    if body == [] {
      assert DoubleChar(body, q) + ([q] + rest) == [q] + rest;
      assert ([q] + rest)[1..] == rest;
    } else {
      hide Subst;
      var tail := DoubleChar(body[1..], q) + ([q] + rest);
      QuotedCopied(body[1..], q, rest, values);
      if body[0] == q {
        ConcatAssoc([q, q], DoubleChar(body[1..], q), [q] + rest);
        TwoQuotes(q, tail, values);
        ConcatAssoc([q, q], DoubleChar(body[1..], q), [q] + Subst(rest, values, None));
      } else {
        ConcatAssoc([body[0]], DoubleChar(body[1..], q), [q] + rest);
        OneInside(body[0], q, tail, values);
        ConcatAssoc([body[0]], DoubleChar(body[1..], q), [q] + Subst(rest, values, None));
      }
    }
  }

  lemma OneInside(c: char, q: char, tail: string, values: seq<string>)
    requires c != q
    ensures Subst([c] + tail, values, Some(q)) == [c] + Subst(tail, values, Some(q))
  {
    assert ([c] + tail)[1..] == tail;
  }

  lemma TwoQuotes(q: char, tail: string, values: seq<string>)
    requires IsQuote(q)
    ensures Subst([q, q] + tail, values, Some(q)) == [q, q] + Subst(tail, values, Some(q))
  {
    assert ([q, q] + tail)[1..] == [q] + tail && ([q] + tail)[1..] == tail;
    assert [q] + ([q] + Subst(tail, values, Some(q))) == [q, q] + Subst(tail, values, Some(q));
  }

  lemma NameCopied(body: string, q: char, rest: string, values: seq<string>)
    requires IsQuote(q)
    ensures var text := [q] + DoubleChar(body, q) + [q];
            Subst(text + rest, values, None) == text + Subst(rest, values, None)
  {
    hide DoubleChar, Subst;
    var d, after := DoubleChar(body, q), Subst(rest, values, None);
    ConcatAssoc3([q], d, [q], rest);
    ConcatAssoc(d, [q], rest);
    QuoteOpened(q, d + ([q] + rest), values);
    QuotedCopied(body, q, rest, values);
    ConcatAssoc3([q], d, [q], after);
    ConcatAssoc(d, [q], after);
  }

  lemma QuoteOpened(q: char, tail: string, values: seq<string>)
    requires IsQuote(q)
    ensures Subst([q] + tail, values, None) == [q] + Subst(tail, values, Some(q))
  {
    assert ([q] + tail)[1..] == tail;
  }

  lemma ValuePut(n: nat, rest: string, values: seq<string>)
    requires 1 <= n <= |values| && (rest == [] || !IsDigit(rest[0]))
    ensures Subst(Placeholder(n) + rest, values, None) == values[n - 1] + Subst(rest, values, None)
  {
    hide NumeralValue, Subst;
    var digits := Numeral(n);
    assert Placeholder(n) + rest == "$" + (digits + rest);
    DigitRunStops(digits, rest);
    SliceConcat(digits, rest, |digits|);
    assert digits[|digits|..] == [] && [] + rest == rest && digits[..|digits|] == digits;
    NumeralRoundTrip(n);
    PlaceStep(digits + rest, |digits|, values);
  }

  lemma PlaceStep(tail: string, k: nat, values: seq<string>)
    requires k == DigitRun(tail) && k > 0
    ensures Subst("$" + tail, values, None)
        == Chosen("$" + tail[..k], NumeralValue(tail[..k]), values) + Subst(tail[k..], values, None)
  {
    hide DigitRun, NumeralValue;
    assert ("$" + tail)[1..] == tail && ("$" + tail)[..1 + k] == "$" + tail[..k];
  }

  predicate Fits(toks: seq<Tok>, n: nat, values: seq<string>) {
    n >= 1 && n - 1 + |Values(toks)| <= |values| && forall k :: 0 <= k < |Values(toks)| ==>
        values[n - 1 + k] == Render(Values(toks)[k])
  }

  lemma DigitsOrdinary(n: nat)
    ensures forall i :: 0 <= i < |Numeral(n)| ==> !IsQuote(Numeral(n)[i]) && Numeral(n)[i] != '$'
  {
    forall i | 0 <= i < |Numeral(n)| ensures !IsQuote(Numeral(n)[i]) && Numeral(n)[i] != '$' {
      assert IsDigit(Numeral(n)[i]);
    }
  }

  /** One piece of the bound form. */
  lemma PieceFilled(t: Tok, n: nat, rest: string, values: seq<string>)
    requires (t.Plain? ==> Ordinary(t.text)) && !t.Param?
    requires t.Val? ==> 1 <= n <= |values| && values[n - 1] == Render(t.v) && (rest == [] || !IsDigit(rest[0]))
    ensures Subst(PrintTok(if t.Val? then Param(n) else t) + rest, values, None)
        == PrintTok(t) + Subst(rest, values, None)
  {
    hide Subst, DoubleChar, Numeral;
    match t
    case Plain(text) => PlainCopied(text, rest, values);
    case Ident(name) => NameCopied(name, '"', rest, values);
    case Val(v) => ValuePut(n, rest, values);
  }

  lemma PrintHead(t: Tok, rest: seq<Tok>, n: nat)
    ensures Print([t] + rest) == PrintTok(t) + Print(rest)
    ensures Numbered([t] + rest, n) == [if t.Val? then Param(n) else t] + Numbered(rest, n + |ValueOf(t)|)
    ensures Values([t] + rest) == ValueOf(t) + Values(rest)
  {
    hide FlatMap, Numbered;
    FlatMapOne(PrintTok, t);
    FlatMapOne(ValueOf, t);
    PrintAppend([t], rest);
    NumberedAppend([t], rest, n);
    NumberOne(t, n);
    ValuesAppend([t], rest);
  }

  lemma FitsRest(t: Tok, rest: seq<Tok>, n: nat, values: seq<string>)
    requires Fits([t] + rest, n, values)
    ensures Fits(rest, n + |ValueOf(t)|, values) && (t.Val? ==> n <= |values| && values[n - 1] == Render(t.v))
  {
    hide FlatMap, Render;
    PrintHead(t, rest, n);
    forall k | 0 <= k < |Values(rest)| ensures values[n + |ValueOf(t)| - 1 + k] == Render(Values(rest)[k]) {
      assert Values([t] + rest)[|ValueOf(t)| + k] == Values(rest)[k];
    }
    if t.Val? { assert Values([t] + rest)[0] == t.v; }
  }

  /** The text of the rest starts with no digit and no quote where a piece ends. */
  lemma RestStarts(toks: seq<Tok>, n: nat)
    requires Spaced(toks) && toks != [] && !toks[0].Plain?
    ensures var text := Print(Numbered(toks[1..], n)); text == [] || (!IsDigit(text[0]) && !IsQuote(text[0]))
    ensures var text := Print(toks[1..]); text == [] || (!IsDigit(text[0]) && !IsQuote(text[0]))
  {
    var rest := toks[1..];
    if rest == [] {
      assert Print(rest) == [] && Numbered(rest, n) == [];
    } else {
      hide FlatMap, Numbered;
      assert rest[0] == toks[1] && rest[0].Plain? && Ordinary(rest[0].text);
      assert [rest[0]] + rest[1..] == rest;
      PrintHead(rest[0], rest[1..], n);
      assert [rest[0]] + Numbered(rest[1..], n + 0) == Numbered(rest, n);
      PrintAppend([rest[0]], Numbered(rest[1..], n));
      FlatMapOne(PrintTok, rest[0]);
    }
  }

  /** Putting the values in their places gives the written-out text. */
  lemma {:induction false} Filled(toks: seq<Tok>, n: nat, values: seq<string>)
    requires Spaced(toks) && Fits(toks, n, values)
    ensures Subst(Print(Numbered(toks, n)), values, None) == Print(toks)
    decreases |toks|
  {
    hide FlatMap, Subst, Numbered, Render, Placeholder, QuoteIdent;
    if toks == [] {
      WhereNone();
      NumberedNone(n);
      SubstNone(values);
    } else {
      var t, rest := toks[0], toks[1..];
      assert [t] + rest == toks;
      PrintHead(t, rest, n);
      FitsRest(t, rest, n, values);
      var m := n + |ValueOf(t)|;
      Filled(rest, m, values);
      if !t.Plain? { RestStarts(toks, m); }
      hide Spaced, Fits;
      PieceFilled(t, n, Print(Numbered(rest, m)), values);
      var p := if t.Val? then Param(n) else t;
      FlatMapOne(PrintTok, p);
      PrintAppend([p], Numbered(rest, m));
    }
  }

  lemma SubstNone(values: seq<string>)
    ensures Subst([], values, None) == []
  {
  }

  function Rendered(values: seq<Value>): seq<string> { FlatMap(RenderOne, values) }
  function RenderOne(v: Value): seq<string> { [Render(v)] }

  lemma {:induction false} RenderedAre(values: seq<Value>)
    ensures |Rendered(values)| == |values| && forall k :: 0 <= k < |values| ==> Rendered(values)[k] == Render(values[k])
  {
    hide Render;
    if values != [] { RenderedAre(values[..|values| - 1]); }
  }

  /** For every list of filters: the bound clause with its arguments put in their places,
      as `sqlString` writes them, is the agent's clause. */
  lemma FormsAgree(fs: seq<Filter>)
    ensures Subst(Print(Numbered(Where(fs), 1)), Rendered(Values(Where(fs))), None) == Print(Where(fs))
  {
    hide Where, Print, Numbered, Values, Subst, Rendered, Render;
    WhereSpaced(fs);
    RenderedAre(Values(Where(fs)));
    Filled(Where(fs), 1, Rendered(Values(Where(fs))));
  }

  // ---------- reading the values back ----------

  lemma {:induction false} DoubledClosing(body: string, q: char, rest: string)
    requires rest == [] || rest[0] != q
    ensures Closing(DoubleChar(body, q) + ([q] + rest), q) == Some(|DoubleChar(body, q)|)
  {
    if body == [] {
      assert DoubleChar(body, q) + ([q] + rest) == [q] + rest;
      assert rest != [] ==> ([q] + rest)[1] == rest[0];
    } else {
      hide Closing;
      DoubledClosing(body[1..], q, rest);
      var e := if body[0] == q then [q, q] else [body[0]];
      ConcatAssoc(e, DoubleChar(body[1..], q), [q] + rest);
      ClosingStep(body[0], q, DoubleChar(body[1..], q) + ([q] + rest));
    }
  }

  lemma ClosingStep(c: char, q: char, tail: string)
    requires Closing(tail, q).Some?
    ensures var e := if c == q then [q, q] else [c];
            Closing(e + tail, q) == Some(Closing(tail, q).value + |e|)
  {
    if c == q {
      assert ([q, q] + tail)[2..] == tail;
    } else {
      assert ([c] + tail)[1..] == tail;
    }
  }

  lemma QuotedRead(body: string, q: char, rest: string)
    requires IsQuote(q) && (rest == [] || rest[0] != q)
    ensures Strings([q] + DoubleChar(body, q) + [q] + rest) == (if q == '\'' then [body] else []) + Strings(rest)
  {
    hide Closing, DoubleChar, HalveChar;
    var d := DoubleChar(body, q);
    var text := [q] + d + [q] + rest;
    DoubledClosing(body, q, rest);
    HalveDouble(body, q);
    assert text == [q] + (d + ([q] + rest)) && text[1..] == d + ([q] + rest);
    SliceConcat(d, [q] + rest, |d|);
    assert d[|d|..] == [] && d[..|d|] == d && [] + ([q] + rest) == [q] + rest && ([q] + rest)[1..] == rest;
  }

  lemma {:induction false} WordsRead(text: string, rest: string)
    requires forall i :: 0 <= i < |text| ==> !IsQuote(text[i])
    ensures Strings(text + rest) == Strings(rest)
  {
    if text == [] {
      assert text + rest == rest;
    } else {
      assert (text + rest)[1..] == text[1..] + rest;
      WordsRead(text[1..], rest);
    }
  }

  function StringOf(v: Value): seq<string> { if v.Str? then [v.s] else [] }

  lemma PieceRead(t: Tok, rest: string)
    requires (t.Plain? ==> Ordinary(t.text)) && !t.Param? && (!t.Plain? ==> rest == [] || !IsQuote(rest[0]))
    ensures Strings(PrintTok(t) + rest) == FlatMap(StringOf, ValueOf(t)) + Strings(rest)
  {
    hide Strings, DoubleChar, FlatMap;
    FlatMapEmpty(StringOf);
    match t
    case Plain(text) => WordsRead(text, rest);
    case Ident(name) => QuotedRead(name, '"', rest);
    case Val(v) =>
      FlatMapOne(StringOf, v);
      match v
      case Str(s) => QuotedRead(s, '\'', rest);
      case Int(n) => DigitsOrdinary(n); WordsRead(Numeral(n), rest);
  }

  lemma {:induction false} ReadBack(toks: seq<Tok>)
    requires Spaced(toks)
    ensures Strings(Print(toks)) == FlatMap(StringOf, Values(toks))
    decreases |toks|
  {
    hide FlatMap, Strings, Render, Placeholder, QuoteIdent;
    if toks == [] {
      WhereNone();
      FlatMapEmpty(StringOf);
      StringsNone();
    } else {
      var t, rest := toks[0], toks[1..];
      assert [t] + rest == toks;
      PrintHead(t, rest, 1);
      ReadBack(rest);
      if !t.Plain? { RestStarts(toks, 1); }
      hide Spaced;
      PieceRead(t, Print(rest));
      FlatMapAppend(StringOf, ValueOf(t), Values(rest));
    }
  }

  lemma StringsNone()
    ensures Strings([]) == []
  {
  }

  /** Whatever quotes the values and names contain, the agent's clause has exactly the bound
      form's arguments as its character strings, in order. */
  lemma ArgumentsRecovered(fs: seq<Filter>)
    ensures Strings(Print(Where(fs))) == FlatMap(StringOf, Values(Where(fs)))
  {
    hide Where, Print, Values, Strings;
    WhereSpaced(fs);
    ReadBack(Where(fs));
  }
}
