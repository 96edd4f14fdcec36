/** The lexical rules that the SQL scanners share, as one small-step machine.

    The five scanners of the program differ in four switches: whether comments are
    known, whether a backslash escapes inside `'` and `"`, whether `[` opens a quoted
    name, and whether the star that opens a block comment may also close it. */
module SqlLexer {
  import opened Text

  datatype Dialect = Dialect(comments: bool, backslash: bool, brackets: bool, hasty: bool)

  const IMPORT := Dialect(true, true, false, true)
  const MYSQL := Dialect(true, true, false, false)
  const SQLITE := Dialect(true, false, true, false)

  /** The same dialect for text whose comments are already gone. */
  function Bare(d: Dialect): Dialect { d.(comments := false, hasty := false) }

  datatype Mode = Normal | Quoted(open: char) | LineRemark | BlockRemark
  datatype Kind = Code | Remark | Cut
  datatype Step = Step(n: nat, kind: Kind, mode: Mode)

  predicate Opens(d: Dialect, c: char) {
    c == '\'' || c == '"' || c == '`' || (d.brackets && c == '[')
  }

  function Closer(open: char): char { if open == '[' then ']' else open }

  /** Does a backslash protect the next character inside this kind of quote? */
  predicate Escapes(d: Dialect, open: char) {
    d.backslash && (open == '\'' || open == '"')
  }

  predicate At2(s: string, a: char, b: char) { |s| >= 2 && s[0] == a && s[1] == b }

  /** One step: how many characters it takes, what they are, and the mode after them. */
  function Next(d: Dialect, m: Mode, s: string): (st: Step)
    requires s != []
    ensures 1 <= st.n <= |s|
    ensures st.kind.Cut? ==> st.n == 1 && st.mode == Normal
  {
    match m
    case Normal =>
      if d.comments && At2(s, '-', '-') then Step(2, Remark, LineRemark)
      else if d.comments && At2(s, '/', '*') then
        if d.hasty && |s| >= 3 && s[2] == '/' then Step(3, Remark, Normal) else Step(2, Remark, BlockRemark)
      else if s[0] == ';' then Step(1, Cut, Normal)
      else if Opens(d, s[0]) then Step(1, Code, Quoted(s[0]))
      else Step(1, Code, Normal)
    case Quoted(open) =>
      if Escapes(d, open) && s[0] == '\\' && |s| >= 2 then Step(2, Code, m)
      else if s[0] == Closer(open) then Step(1, Code, Normal)
      else Step(1, Code, m)
    case LineRemark =>
      if s[0] == '\n' then Step(1, Code, Normal) else Step(1, Remark, LineRemark)
    case BlockRemark =>
      if At2(s, '*', '/') then Step(2, Remark, Normal) else Step(1, Remark, BlockRemark)
  }

  /** A step looks no further than the characters it takes, up to one more that it may
      find missing: it is the same on every prefix that still holds what it takes. */
  lemma NextLocal(d: Dialect, m: Mode, s: string, n: nat)
    requires s != [] && Next(d, m, s).n <= n <= |s|
    ensures Next(d, m, s[..n]) == Next(d, m, s)
  {
    assert s[..n] != [];
  }

  /** The mode in which the text ends. */
  function End(d: Dialect, m: Mode, s: string): Mode
    decreases |s|
  {
    if s == [] then m else var st := Next(d, m, s); End(d, st.mode, s[st.n..])
  }

  /** The text without its comments. */
  function Strip(d: Dialect, m: Mode, s: string): string
    decreases |s|
  {
    if s == [] then []
    else
      var st := Next(d, m, s);
      if st.kind == Remark then Strip(d, st.mode, s[st.n..]) else s[..st.n] + Strip(d, st.mode, s[st.n..])
  }

  lemma StripStep(d: Dialect, m: Mode, s: string)
    requires s != []
    ensures var st := Next(d, m, s);
            var rest := Strip(d, st.mode, s[st.n..]);
            Strip(d, m, s) == if st.kind == Remark then rest else s[..st.n] + rest
  {
  }

  /** Where the first top-level semicolon stands; `|s|` if there is none. */
  function FirstCut(d: Dialect, m: Mode, s: string): (k: nat)
    ensures k <= |s| && (k < |s| ==> s[k] == ';')
    decreases |s|
  {
    if s == [] then 0
    else
      var st := Next(d, m, s);
      if st.kind == Cut then 0 else st.n + FirstCut(d, st.mode, s[st.n..])
  }

  /** The stretches of text between top-level semicolons. */
  datatype Cuts = Last(seg: string) | More(seg: string, rest: Cuts)

  function Segments(d: Dialect, m: Mode, s: string): Cuts
    decreases |s|
  {
    var k := FirstCut(d, m, s);
    if k == |s| then Last(s) else More(s[..k], Segments(d, Normal, s[k + 1..]))
  }

  /** The statement that a segment holds, if it holds any. */
  function Kept(w: Spaces, seg: string): seq<string> {
    var t := Trim(w, seg);
    if t == [] then [] else [t]
  }

  /** Each segment trimmed, the empty ones left out. */
  function NonBlank(w: Spaces, c: Cuts): seq<string> {
    match c
    case Last(x) => Kept(w, x)
    case More(x, rest) => Kept(w, x) + NonBlank(w, rest)
  }

  /** The statements of a script. */
  function Statements(d: Dialect, w: Spaces, s: string): seq<string> {
    NonBlank(w, Segments(d, Normal, s))
  }

  // ---------- the same two results, as a scanner with a buffer builds them ----------

  /** Does a scanner that has written `b` end with `out` when `s` is still to come? */
  predicate StripsTo(d: Dialect, m: Mode, s: string, b: string, out: string)
    decreases |s|
  {
    if s == [] then b == out
    else
      var st := Next(d, m, s);
      StripsTo(d, st.mode, s[st.n..], if st.kind == Remark then b else b + s[..st.n], out)
  }

  /** The statements still to come when `cur` is collected of the current one. */
  function StatementsOnto(d: Dialect, w: Spaces, m: Mode, s: string, cur: string): seq<string>
    decreases |s|
  {
    if s == [] then Kept(w, cur)
    else
      var st := Next(d, m, s);
      if st.kind == Cut then Kept(w, cur) + StatementsOnto(d, w, Normal, s[1..], [])
      else StatementsOnto(d, w, st.mode, s[st.n..], cur + s[..st.n])
  }

  lemma {:induction false} StripsToStrip(d: Dialect, m: Mode, s: string, b: string, out: string)
    ensures StripsTo(d, m, s, b, out) <==> out == b + Strip(d, m, s)
    decreases |s|
  {
    hide Next;
    if s == [] {
      assert b + Strip(d, m, s) == b;
    } else {
      var st := Next(d, m, s);
      var b' := if st.kind == Remark then b else b + s[..st.n];
      StripsToStrip(d, st.mode, s[st.n..], b', out);
      assert b' + Strip(d, st.mode, s[st.n..]) == b + Strip(d, m, s);
    }
  }

  lemma FirstCutStep(d: Dialect, m: Mode, s: string)
    requires s != []
    ensures var st := Next(d, m, s);
            FirstCut(d, m, s) == if st.kind == Cut then 0 else st.n + FirstCut(d, st.mode, s[st.n..])
  {
  }

  lemma StatementsOntoStep(d: Dialect, w: Spaces, m: Mode, s: string, cur: string)
    requires s != []
    ensures var st := Next(d, m, s);
            StatementsOnto(d, w, m, s, cur) ==
            if st.kind == Cut then Kept(w, cur) + StatementsOnto(d, w, Normal, s[1..], [])
            else StatementsOnto(d, w, st.mode, s[st.n..], cur + s[..st.n])
  {
  }

  lemma StatementsStep(d: Dialect, w: Spaces, s: string)
    ensures var k := FirstCut(d, Normal, s);
            Statements(d, w, s) == Kept(w, s[..k]) + if k == |s| then [] else Statements(d, w, s[k + 1..])
  {
    hide Next, FirstCut, Kept;
    var k := FirstCut(d, Normal, s);
    if k == |s| {
      assert s[..k] == s && Kept(w, s) + [] == Kept(w, s);
    }
  }

  lemma {:induction false} StatementsOntoSplit(d: Dialect, w: Spaces, m: Mode, s: string, cur: string)
    ensures var k := FirstCut(d, m, s);
            StatementsOnto(d, w, m, s, cur) ==
            Kept(w, cur + s[..k]) + if k == |s| then [] else Statements(d, w, s[k + 1..])
    decreases |s|, 0
  {
    hide Next, Kept, NonBlank, Segments, Statements;
    var k := FirstCut(d, m, s);
    if s == [] {
      assert cur + s[..k] == cur;
    } else {
      FirstCutStep(d, m, s);
      StatementsOntoStep(d, w, m, s, cur);
      var st := Next(d, m, s);
      if st.kind == Cut {
        assert cur + s[..k] == cur;
        StatementsOntoIsStatements(d, w, s[1..]);
      } else {
        StatementsOntoSplit(d, w, st.mode, s[st.n..], cur + s[..st.n]);
        TakeTake(cur, s, st.n, k);
        if k < |s| {
          assert s[st.n..][k - st.n + 1..] == s[k + 1..];
        }
      }
    }
  }

  lemma TakeTake(x: string, s: string, n: nat, k: nat)
    requires n <= k <= |s|
    ensures x + s[..n] + s[n..][..k - n] == x + s[..k]
  {
    assert s[..n] + s[n..][..k - n] == s[..k];
  }

  lemma {:induction false} StatementsOntoIsStatements(d: Dialect, w: Spaces, s: string)
    ensures StatementsOnto(d, w, Normal, s, []) == Statements(d, w, s)
    decreases |s|, 1
  {
    hide *;
    StatementsOntoSplit(d, w, Normal, s, []);
    StatementsStep(d, w, s);
    assert [] + s[..FirstCut(d, Normal, s)] == s[..FirstCut(d, Normal, s)];
  }

  // ---------- the steps of a scanner that stands at index `i` of the text ----------

  lemma StripOne(d: Dialect, m: Mode, s: string, i: nat, b: string, out: string)
    requires i < |s| && Next(d, m, s[i..]).n == 1
    ensures var st := Next(d, m, s[i..]);
            StripsTo(d, m, s[i..], b, out) ==
            StripsTo(d, st.mode, s[i + 1..], if st.kind == Remark then b else b + [s[i]], out)
  {
    assert s[i..][..1] == [s[i]] && s[i..][1..] == s[i + 1..];
  }

  lemma StripTwo(d: Dialect, m: Mode, s: string, i: nat, b: string, out: string)
    requires i + 1 < |s| && Next(d, m, s[i..]).n == 2
    ensures var st := Next(d, m, s[i..]);
            StripsTo(d, m, s[i..], b, out) ==
            StripsTo(d, st.mode, s[i + 2..], if st.kind == Remark then b else b + [s[i]] + [s[i + 1]], out)
  {
    assert b + s[i..][..2] == b + [s[i]] + [s[i + 1]] && s[i..][2..] == s[i + 2..];
  }

  /** Where the body of a line comment ends: at its newline, or at the end of the text. */
  function LineEnd(s: string, i: nat): (j: nat)
    requires i <= |s|
    ensures i <= j <= |s|
    decreases |s| - i
  {
    if i == |s| || s[i] == '\n' then i else LineEnd(s, i + 1)
  }

  /** Where the closer of a block comment begins; the last index or `|s|` if there is none. */
  function BlockEnd(s: string, i: nat): (j: nat)
    requires i <= |s|
    ensures i <= j <= |s|
    decreases |s| - i
  {
    if i + 1 < |s| && !(s[i] == '*' && s[i + 1] == '/') then BlockEnd(s, i + 1) else i
  }

  lemma {:induction false} StripLine(d: Dialect, s: string, i: nat, b: string, out: string)
    requires i <= |s|
    ensures StripsTo(d, LineRemark, s[i..], b, out) == StripsTo(d, Normal, s[LineEnd(s, i)..], b, out)
    decreases |s| - i
  {
    if i == |s| {
      assert s[i..] == [];
    } else if s[i] == '\n' {
      StripOne(d, LineRemark, s, i, b, out);
      StripOne(d, Normal, s, i, b, out);
    } else {
      StripOne(d, LineRemark, s, i, b, out);
      StripLine(d, s, i + 1, b, out);
    }
  }

  lemma {:induction false} StripBlock(d: Dialect, s: string, i: nat, b: string, out: string)
    requires i <= |s|
    ensures var j := BlockEnd(s, i) + 2;
            StripsTo(d, BlockRemark, s[i..], b, out) == StripsTo(d, Normal, s[if j <= |s| then j else |s|..], b, out)
    decreases |s| - i
  {
    assert s[|s|..] == [];
    if i + 1 < |s| && s[i] == '*' && s[i + 1] == '/' {
      StripTwo(d, BlockRemark, s, i, b, out);
    } else if i < |s| {
      StripOne(d, BlockRemark, s, i, b, out);
      if i + 1 < |s| {
        StripBlock(d, s, i + 1, b, out);
      }
    }
  }

  /** Does doubling the closer put it inside this kind of quote?  Between quotes that are
      closed and opened again nothing can be cut or dropped, so `Next` need not know. */
  predicate Doubles(d: Dialect, open: char) {
    !Escapes(d, open) && open != '['
  }

  /** How many characters one round of the scanner's loop takes inside quotes. */
  function QuoteRound(d: Dialect, open: char, s: string, i: nat): (n: nat)
    requires i < |s|
    ensures 1 <= n <= |s| - i
  {
    if Escapes(d, open) && s[i] == '\\' && i + 1 < |s| then 2
    else if Doubles(d, open) && s[i] == open && i + 1 < |s| && s[i + 1] == open then 2
    else 1
  }

  /** Where the quoted text that is entered at `i` ends, its closer included. */
  function QuoteEnd(d: Dialect, open: char, s: string, i: nat): (j: nat)
    requires i <= |s|
    ensures i <= j <= |s|
    decreases |s| - i
  {
    if i == |s| then i
    else
      var n := QuoteRound(d, open, s, i);
      if n == 1 && s[i] == Closer(open) then i + 1 else QuoteEnd(d, open, s, i + n)
  }

  /** One round of the scanner's loop inside quotes, as the lexer goes through it. */
  lemma StripInQuotes(d: Dialect, open: char, s: string, i: nat, b: string, out: string)
    requires i < |s| && Opens(d, open)
    ensures var n := QuoteRound(d, open, s, i);
            StripsTo(d, Quoted(open), s[i..], b, out) ==
            var next := if n == 1 && s[i] == Closer(open) then Normal else Quoted(open);
            StripsTo(d, next, s[i + n..], b + s[i..i + n], out)
  {
    hide StripsTo;
    if QuoteRound(d, open, s, i) == 1 {
      assert s[i..i + 1] == [s[i]];
      StripOne(d, Quoted(open), s, i, b, out);
    } else {
      assert b + s[i..i + 2] == b + [s[i]] + [s[i + 1]];
      if Escapes(d, open) {
        StripTwo(d, Quoted(open), s, i, b, out);
      } else {
        StripOne(d, Quoted(open), s, i, b, out);
        StripOne(d, Normal, s, i + 1, b + [s[i]], out);
      }
    }
  }

  lemma {:induction false} StripQuoted(d: Dialect, open: char, s: string, i: nat, b: string, out: string)
    requires i <= |s| && Opens(d, open)
    ensures var j := QuoteEnd(d, open, s, i);
            StripsTo(d, Quoted(open), s[i..], b, out) == StripsTo(d, Normal, s[j..], b + s[i..j], out)
    decreases |s| - i
  {
    hide Next;
    var j := QuoteEnd(d, open, s, i);
    if i == |s| {
      assert s[i..] == [] && b + s[i..j] == b;
    } else {
      var n := QuoteRound(d, open, s, i);
      StripInQuotes(d, open, s, i, b, out);
      if !(n == 1 && s[i] == Closer(open)) {
        StripQuoted(d, open, s, i + n, b + s[i..i + n], out);
        SliceJoin(b, s, i, i + n, j);
      }
    }
  }

  /** A line comment that opens at `i`. */
  lemma StripLineComment(d: Dialect, s: string, i: nat, b: string, out: string)
    requires d.comments && i + 1 < |s| && s[i] == '-' && s[i + 1] == '-'
    ensures StripsTo(d, Normal, s[i..], b, out) == StripsTo(d, Normal, s[LineEnd(s, i + 2)..], b, out)
  {
    hide StripsTo;
    StripTwo(d, Normal, s, i, b, out);
    StripLine(d, s, i + 2, b, out);
  }

  /** A block comment that opens at `i`. */
  lemma StripBlockComment(d: Dialect, s: string, i: nat, b: string, out: string)
    requires d.comments && !d.hasty && i + 1 < |s| && s[i] == '/' && s[i + 1] == '*'
    ensures var j := BlockEnd(s, i + 2) + 2;
            StripsTo(d, Normal, s[i..], b, out) == StripsTo(d, Normal, s[if j <= |s| then j else |s|..], b, out)
  {
    hide StripsTo;
    StripTwo(d, Normal, s, i, b, out);
    StripBlock(d, s, i + 2, b, out);
  }

  /** A quoted token that opens at `i`. */
  lemma StripQuotedToken(d: Dialect, s: string, i: nat, b: string, out: string)
    requires i < |s| && Opens(d, s[i])
    ensures var j := QuoteEnd(d, s[i], s, i + 1);
            StripsTo(d, Normal, s[i..], b, out) == StripsTo(d, Normal, s[j..], b + [s[i]] + s[i + 1..j], out)
  {
    hide StripsTo;
    StripOne(d, Normal, s, i, b, out);
    StripQuoted(d, s[i], s, i + 1, b + [s[i]], out);
  }

  lemma StripPlain(d: Dialect, s: string, i: nat, b: string, out: string)
    requires i < |s| && !Opens(d, s[i])
    requires !(i + 1 < |s| && s[i] == '-' && s[i + 1] == '-') && !(i + 1 < |s| && s[i] == '/' && s[i + 1] == '*')
    ensures StripsTo(d, Normal, s[i..], b, out) == StripsTo(d, Normal, s[i + 1..], b + [s[i]], out)
  {
    hide StripsTo;
    StripOne(d, Normal, s, i, b, out);
  }

  lemma StatementsOne(d: Dialect, w: Spaces, m: Mode, s: string, i: nat, cur: string)
    requires i < |s| && Next(d, m, s[i..]).n == 1
    ensures var st := Next(d, m, s[i..]);
            StatementsOnto(d, w, m, s[i..], cur) ==
            if st.kind == Cut then Kept(w, cur) + StatementsOnto(d, w, Normal, s[i + 1..], [])
            else StatementsOnto(d, w, st.mode, s[i + 1..], cur + [s[i]])
  {
    assert s[i..][..1] == [s[i]] && s[i..][1..] == s[i + 1..];
  }

  lemma StatementsTwo(d: Dialect, w: Spaces, m: Mode, s: string, i: nat, cur: string)
    requires i + 1 < |s| && Next(d, m, s[i..]).n == 2
    ensures var st := Next(d, m, s[i..]);
            StatementsOnto(d, w, m, s[i..], cur) ==
            StatementsOnto(d, w, st.mode, s[i + 2..], cur + [s[i]] + [s[i + 1]])
  {
    assert cur + s[i..][..2] == cur + [s[i]] + [s[i + 1]] && s[i..][2..] == s[i + 2..];
  }

  /** One round of the scanner's loop inside quotes, as the lexer goes through it. */
  lemma StatementsInQuotes(d: Dialect, w: Spaces, open: char, s: string, i: nat, cur: string)
    requires i < |s| && Opens(d, open)
    ensures var n := QuoteRound(d, open, s, i);
            StatementsOnto(d, w, Quoted(open), s[i..], cur) ==
            StatementsOnto(d, w, if n == 1 && s[i] == Closer(open) then Normal else Quoted(open),
                           s[i + n..], cur + s[i..i + n])
  {
    hide StatementsOnto;
    if QuoteRound(d, open, s, i) == 1 {
      assert s[i..i + 1] == [s[i]];
      StatementsOne(d, w, Quoted(open), s, i, cur);
    } else {
      assert cur + s[i..i + 2] == cur + [s[i]] + [s[i + 1]];
      if Escapes(d, open) {
        StatementsTwo(d, w, Quoted(open), s, i, cur);
      } else {
        StatementsOne(d, w, Quoted(open), s, i, cur);
        StatementsOne(d, w, Normal, s, i + 1, cur + [s[i]]);
      }
    }
  }

  lemma {:induction false} StatementsQuoted(d: Dialect, w: Spaces, open: char, s: string, i: nat, cur: string)
    requires i <= |s| && Opens(d, open)
    ensures var j := QuoteEnd(d, open, s, i);
            StatementsOnto(d, w, Quoted(open), s[i..], cur) == StatementsOnto(d, w, Normal, s[j..], cur + s[i..j])
    decreases |s| - i
  {
    hide Next;
    var j := QuoteEnd(d, open, s, i);
    if i == |s| {
      assert s[i..] == [] && cur + s[i..j] == cur;
    } else {
      var n := QuoteRound(d, open, s, i);
      StatementsInQuotes(d, w, open, s, i, cur);
      if !(n == 1 && s[i] == Closer(open)) {
        StatementsQuoted(d, w, open, s, i + n, cur + s[i..i + n]);
        SliceJoin(cur, s, i, i + n, j);
      }
    }
  }

  lemma StatementsNormal(d: Dialect, w: Spaces, s: string, i: nat, cur: string)
    requires i < |s| && !(d.comments && (At2(s[i..], '-', '-') || At2(s[i..], '/', '*')))
    ensures StatementsOnto(d, w, Normal, s[i..], cur) ==
            if s[i] == ';' then Kept(w, cur) + StatementsOnto(d, w, Normal, s[i + 1..], [])
            else StatementsOnto(d, w, if Opens(d, s[i]) then Quoted(s[i]) else Normal, s[i + 1..], cur + [s[i]])
  {
    hide StatementsOnto;
    StatementsOne(d, w, Normal, s, i, cur);
  }

  lemma StripNothing(d: Dialect)
    ensures Strip(d, Normal, []) == []
  {
  }

  lemma StatementsEnd(d: Dialect, w: Spaces, s: string, cur: string)
    ensures StatementsOnto(d, w, Normal, s[|s|..], cur) == Kept(w, cur)
  {
    assert s[|s|..] == [];
  }

  /** A statement moves from what is to come to what is there. */
  lemma Moved(parts: seq<string>, kept: seq<string>, rest: seq<string>)
    ensures parts + (kept + rest) == (parts + kept) + rest
  {
  }
}
