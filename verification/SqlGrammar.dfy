/** The scanners' grammar, stated without any scanning: a script is a list of tokens.

    The lexer in `SqlLexer` is a machine; this module says what texts it accepts as
    comments and quoted tokens, and shows that stripping and cutting a script are what
    removing its comment tokens and breaking at its semicolon tokens would be. */
module SqlGrammar {
  import opened Text
  import opened SqlLexer
  import opened SqlLaws

  /** `closed` is false only for a token that the end of the text cut short. */
  datatype Token =
    | Plain(c: char)
    | Literal(open: char, body: string, closed: bool)
    | LineComment(body: string)
    | BlockComment(body: string, closed: bool)

  function Write(t: Token): string {
    match t
    case Plain(c) => [c]
    case Literal(open, body, closed) => [open] + body + if closed then [Closer(open)] else []
    case LineComment(body) => "--" + body
    case BlockComment(body, closed) => "/*" + body + if closed then "*/" else ""
  }

  function WriteAll(ts: seq<Token>): string {
    if ts == [] then [] else Write(ts[0]) + WriteAll(ts[1..])
  }

  predicate IsComment(t: Token) { t.LineComment? || t.BlockComment? }

  /** A quoted body: characters other than the closer, and protected pairs. */
  predicate Body(d: Dialect, open: char, s: string, closed: bool) {
    s == [] ||
    if Escapes(d, open) && s[0] == '\\' then (if |s| == 1 then !closed else Body(d, open, s[2..], closed))
    else if s[0] == Closer(open) then Doubles(d, open) && |s| >= 2 && s[1] == open && Body(d, open, s[2..], closed)
    else Body(d, open, s[1..], closed)
  }

  /** The closer of a block comment does not occur in its body. */
  predicate NoCloser(s: string) {
    s == [] || (!At2(s, '*', '/') && NoCloser(s[1..]))
  }

  predicate WellFormed(d: Dialect, t: Token) {
    match t
    case Plain(c) => !Opens(d, c)
    case Literal(open, body, closed) => Opens(d, open) && Body(d, open, body, closed)
    case LineComment(body) => '\n' !in body
    case BlockComment(body, closed) => NoCloser(body)
  }

  /** What may come next, so that the token ends where it ends. */
  predicate Follows(d: Dialect, t: Token, rest: string) {
    match t
    case Plain(c) => rest != [] ==> !(c == '-' && rest[0] == '-') && !(c == '/' && rest[0] == '*')
    case Literal(open, body, closed) =>
      if closed then Doubles(d, open) && rest != [] ==> rest[0] != open else rest == []
    case LineComment(body) => rest != [] ==> rest[0] == '\n'
    case BlockComment(body, closed) => !closed ==> rest == []
  }

  /** A list of tokens that is the reading of the text it writes. */
  predicate Sentence(d: Dialect, ts: seq<Token>) {
    ts == [] ||
    (WellFormed(d, ts[0]) && Follows(d, ts[0], WriteAll(ts[1..])) && Sentence(d, ts[1..]))
  }

  function DropComments(ts: seq<Token>): seq<Token> {
    if ts == [] then []
    else (if IsComment(ts[0]) then [] else [ts[0]]) + DropComments(ts[1..])
  }

  /** The text of the tokens in front of the first semicolon token. */
  function BeforeSemicolon(ts: seq<Token>): string {
    if ts == [] || ts[0] == Plain(';') then [] else Write(ts[0]) + BeforeSemicolon(ts[1..])
  }

  // ---------- one token ----------

  /** What the lexer makes of a token in front of `rest`. */
  predicate Read(d: Dialect, m: Mode, text: string, kept: string, rest: string) {
    Strip(d, m, text + rest) == kept + Strip(d, Normal, rest)
    && FirstCut(d, m, text + rest) == |text| + FirstCut(d, Normal, rest)
  }

  /** `n` characters, read in one step to mode `m'`, in front of text already read. */
  lemma ReadStep(d: Dialect, m: Mode, n: nat, m': Mode, text: string, kept: string, rest: string)
    requires n <= |text| && text != []
    requires Next(d, m, text + rest) == Step(n, Code, m') || Next(d, m, text + rest) == Step(n, Remark, m')
    requires Read(d, m', text[n..], kept, rest)
    ensures Read(d, m, text, (if Next(d, m, text + rest).kind == Code then text[..n] + kept else kept), rest)
  {
    hide Next, Strip, FirstCut;
    var s := text + rest;
    StripStep(d, m, s);
    FirstCutStep(d, m, s);
    SliceConcat(text, rest, n);
    ConcatAssoc(text[..n], kept, Strip(d, Normal, rest));
  }

  lemma ReadNothing(d: Dialect, rest: string)
    ensures Read(d, Normal, [], [], rest)
  {
    assert [] + rest == rest && [] + Strip(d, Normal, rest) == Strip(d, Normal, rest);
  }

  lemma {:induction false} ReadLine(d: Dialect, body: string, rest: string)
    requires '\n' !in body && (rest != [] ==> rest[0] == '\n')
    ensures Read(d, LineRemark, body, [], rest)
  {
    if body == [] {
      LineEndsHere(d, rest);
    } else {
      ReadLine(d, body[1..], rest);
      assert (body + rest)[0] == body[0];
      assert Next(d, LineRemark, body + rest) == Step(1, Remark, LineRemark);
      hide Next, Read;
      ReadStep(d, LineRemark, 1, LineRemark, body, [], rest);
    }
  }

  lemma LineEndsHere(d: Dialect, rest: string)
    requires rest != [] ==> rest[0] == '\n'
    ensures Read(d, LineRemark, [], [], rest)
  {
    assert [] + rest == rest && [] + Strip(d, Normal, rest) == Strip(d, Normal, rest);
    if rest != [] {
      assert Next(d, LineRemark, rest) == Step(1, Code, Normal) == Next(d, Normal, rest);
      hide Next, Strip, FirstCut;
      StripStep(d, LineRemark, rest);
      StripStep(d, Normal, rest);
      FirstCutStep(d, LineRemark, rest);
      FirstCutStep(d, Normal, rest);
    }
  }

  lemma {:induction false} ReadBlock(d: Dialect, body: string, rest: string)
    requires NoCloser(body)
    ensures Read(d, BlockRemark, body + "*/", [], rest)
  {
    var text := body + "*/";
    if body == [] {
      assert text == "*/" && text[2..] == [];
      ReadNothing(d, rest);
      assert (text + rest)[0] == '*' && (text + rest)[1] == '/';
      ReadStep(d, BlockRemark, 2, Normal, text, [], rest);
    } else {
      ReadBlock(d, body[1..], rest);
      SliceConcat(body, "*/", 1);
      BlockGoesOn(d, body, rest);
      hide Next, Read;
      ReadStep(d, BlockRemark, 1, BlockRemark, text, [], rest);
    }
  }

  lemma BlockGoesOn(d: Dialect, body: string, rest: string)
    requires body != [] && NoCloser(body)
    ensures Next(d, BlockRemark, body + "*/" + rest) == Step(1, Remark, BlockRemark)
  {
    var s := body + "*/" + rest;
    assert s[0] == body[0] && s[1] == if |body| == 1 then '*' else body[1];
  }

  /** A block comment that never closes is dropped to the end of the text. */
  lemma {:induction false} ReadOpenBlock(d: Dialect, body: string)
    requires NoCloser(body)
    ensures Strip(d, BlockRemark, body) == [] && FirstCut(d, BlockRemark, body) == |body|
  {
    if body != [] {
      ReadOpenBlock(d, body[1..]);
      StripStep(d, BlockRemark, body);
      FirstCutStep(d, BlockRemark, body);
    }
  }

  lemma {:induction false} ReadBody(d: Dialect, open: char, body: string, rest: string)
    requires Opens(d, open) && Body(d, open, body, true)
    requires Doubles(d, open) && rest != [] ==> rest[0] != open
    ensures Read(d, Quoted(open), body + [Closer(open)], body + [Closer(open)], rest)
    decreases |body|
  {
    var q := [Closer(open)];
    var text := body + q;
    if body == [] {
      assert text == q && text[1..] == [] && text[..1] + [] == q;
      ReadNothing(d, rest);
      assert (text + rest)[0] == Closer(open);
      ReadStep(d, Quoted(open), 1, Normal, text, [], rest);
    } else if Escapes(d, open) && body[0] == '\\' {
      ReadBody(d, open, body[2..], rest);
      SliceConcat(body, q, 2);
      EscapedPair(d, open, body, rest);
      hide Next, Read;
      ReadStep(d, Quoted(open), 2, Quoted(open), text, body[2..] + q, rest);
      RejoinBody(body, q, 2);
    } else if body[0] == Closer(open) {
      ReadBody(d, open, body[2..], rest);
      SliceConcat(body, q, 2);
      DoubledPair(d, open, body, rest);
      hide Next, Read;
      SliceConcat(body, q, 1);
      assert text[1..][1..] == text[2..] && text[1..][..1] == body[1..2];
      ReadStep(d, Normal, 1, Quoted(open), text[1..], body[2..] + q, rest);
      ReadStep(d, Quoted(open), 1, Normal, text, text[1..][..1] + (body[2..] + q), rest);
      assert text[..1] + (text[1..][..1] + (body[2..] + q)) == text;
    } else {
      ReadBody(d, open, body[1..], rest);
      SliceConcat(body, q, 1);
      OrdinaryStep(d, open, body, rest);
      hide Next, Read;
      ReadStep(d, Quoted(open), 1, Quoted(open), text, body[1..] + q, rest);
      RejoinBody(body, q, 1);
    }
  }

  lemma RejoinBody(body: string, q: string, n: nat)
    requires n <= |body|
    ensures (body + q)[..n] + (body[n..] + q) == body + q
  {
  }

  lemma EscapedPair(d: Dialect, open: char, body: string, rest: string)
    requires |body| >= 2 && Escapes(d, open) && body[0] == '\\'
    ensures Next(d, Quoted(open), body + [Closer(open)] + rest) == Step(2, Code, Quoted(open))
  {
    assert (body + [Closer(open)] + rest)[0] == body[0];
  }

  lemma OrdinaryStep(d: Dialect, open: char, body: string, rest: string)
    requires body != [] && body[0] != Closer(open) && !(Escapes(d, open) && body[0] == '\\')
    ensures Next(d, Quoted(open), body + [Closer(open)] + rest) == Step(1, Code, Quoted(open))
  {
    assert (body + [Closer(open)] + rest)[0] == body[0];
  }

  lemma DoubledPair(d: Dialect, open: char, body: string, rest: string)
    requires |body| >= 2 && Opens(d, open) && Doubles(d, open) && body[0] == open && body[1] == open
    ensures var text := body + [Closer(open)];
            && Next(d, Quoted(open), text + rest) == Step(1, Code, Normal)
            && Next(d, Normal, text[1..] + rest) == Step(1, Code, Quoted(open))
  {
    var text := body + [Closer(open)];
    assert (text + rest)[0] == open && (text[1..] + rest)[0] == open;
  }

  /** Read from mode `m`, the text is kept to its end and nothing cuts it. */
  predicate KeptWhole(d: Dialect, m: Mode, s: string) {
    Strip(d, m, s) == s && FirstCut(d, m, s) == |s|
  }

  lemma KeptStep(d: Dialect, m: Mode, s: string, n: nat, m': Mode)
    requires n <= |s| && s != [] && Next(d, m, s) == Step(n, Code, m') && KeptWhole(d, m', s[n..])
    ensures KeptWhole(d, m, s)
  {
    hide Next, Strip, FirstCut;
    StripStep(d, m, s);
    FirstCutStep(d, m, s);
    assert s == s[..n] + s[n..];
  }

  /** A quoted token that never closes is kept to the end of the text. */
  lemma {:induction false} ReadOpenBody(d: Dialect, open: char, body: string)
    requires Opens(d, open) && Body(d, open, body, false)
    ensures KeptWhole(d, Quoted(open), body)
    decreases |body|
  {
    if body != [] {
      hide KeptWhole;
      if Escapes(d, open) && body[0] == '\\' {
        if |body| >= 2 {
          ReadOpenBody(d, open, body[2..]);
          KeptStep(d, Quoted(open), body, 2, Quoted(open));
        } else {
          KeptEmpty(d, Quoted(open), body[1..]);
          KeptStep(d, Quoted(open), body, 1, Quoted(open));
        }
      } else if body[0] == Closer(open) {
        ReadOpenBody(d, open, body[2..]);
        assert body[1..][1..] == body[2..];
        KeptStep(d, Normal, body[1..], 1, Quoted(open));
        KeptStep(d, Quoted(open), body, 1, Normal);
      } else {
        ReadOpenBody(d, open, body[1..]);
        KeptStep(d, Quoted(open), body, 1, Quoted(open));
      }
    } else {
      KeptEmpty(d, Quoted(open), body);
    }
  }

  lemma KeptEmpty(d: Dialect, m: Mode, s: string)
    requires s == []
    ensures KeptWhole(d, m, s)
  {
  }

  /** What the lexer makes of the whole token in front of `rest`. */
  predicate ReadAs(d: Dialect, t: Token, rest: string) {
    && Strip(d, Normal, Write(t) + rest) == (if IsComment(t) then [] else Write(t)) + Strip(d, Normal, rest)
    && FirstCut(d, Normal, Write(t) + rest) ==
       if t == Plain(';') then 0 else |Write(t)| + FirstCut(d, Normal, rest)
  }

  lemma ReadLiteral(d: Dialect, open: char, body: string, closed: bool, rest: string)
    requires var t := Literal(open, body, closed); WellFormed(d, t) && Follows(d, t, rest)
    ensures ReadAs(d, Literal(open, body, closed), rest)
  {
    hide Strip, FirstCut, Body;
    var text := Write(Literal(open, body, closed));
    var tail := body + if closed then [Closer(open)] else [];
    assert text == [open] + tail && text[1..] == tail && text[..1] + tail == text;
    assert (text + rest)[0] == open;
    assert Next(d, Normal, text + rest) == Step(1, Code, Quoted(open));
    hide Next;
    if closed {
      ReadBody(d, open, body, rest);
      ReadStep(d, Normal, 1, Quoted(open), text, tail, rest);
    } else {
      ReadOpenBody(d, open, body);
      assert tail == body && text + rest == text && text + [] == text;
      KeptStep(d, Normal, text, 1, Quoted(open));
      KeptEmpty(d, Normal, rest);
    }
  }

  lemma ReadComment(d: Dialect, t: Token, rest: string)
    requires d.comments && !d.hasty && IsComment(t) && WellFormed(d, t) && Follows(d, t, rest)
    ensures ReadAs(d, t, rest)
  {
    var text := Write(t);
    assert [] + Strip(d, Normal, rest) == Strip(d, Normal, rest);
    match t
    case LineComment(body) =>
      assert text[2..] == body && (text + rest)[0] == '-' && (text + rest)[1] == '-';
      ReadLine(d, body, rest);
      ReadStep(d, Normal, 2, LineRemark, text, [], rest);
    case BlockComment(body, closed) =>
      assert text[2..] == (body + if closed then "*/" else "");
      assert (text + rest)[0] == '/' && (text + rest)[1] == '*';
      if closed {
        ReadBlock(d, body, rest);
        ReadStep(d, Normal, 2, BlockRemark, text, [], rest);
      } else {
        ReadOpenBlock(d, body);
        assert text[2..] == body && text + rest == text && Strip(d, Normal, []) == [];
        StripStep(d, Normal, text);
        FirstCutStep(d, Normal, text);
      }
  }

  lemma ReadPlain(d: Dialect, c: char, rest: string)
    requires WellFormed(d, Plain(c)) && Follows(d, Plain(c), rest)
    ensures ReadAs(d, Plain(c), rest)
  {
    var s := [c] + rest;
    assert s[0] == c && s[1..] == rest && s[..1] == [c] && (rest != [] ==> s[1] == rest[0]);
    StripStep(d, Normal, s);
    FirstCutStep(d, Normal, s);
    hide Strip, FirstCut;
  }

  lemma ReadToken(d: Dialect, t: Token, rest: string)
    requires d.comments && !d.hasty && WellFormed(d, t) && Follows(d, t, rest)
    ensures ReadAs(d, t, rest)
  {
    hide ReadAs, Follows;
    match t
    case Plain(c) => ReadPlain(d, c, rest);
    case Literal(open, body, closed) => ReadLiteral(d, open, body, closed, rest);
    case _ => ReadComment(d, t, rest);
  }

  // ---------- a whole script ----------

  /** Stripping removes exactly the comment tokens; every other token, quoted ones above
      all, stays as it is and where it is. */
  lemma {:induction false} StripSentence(d: Dialect, ts: seq<Token>)
    requires d.comments && !d.hasty && Sentence(d, ts)
    ensures Strip(d, Normal, WriteAll(ts)) == WriteAll(DropComments(ts))
  {
    hide Next, FirstCut, WellFormed, Follows, Write;
    if ts != [] {
      hide Strip;
      ReadToken(d, ts[0], WriteAll(ts[1..]));
      StripSentence(d, ts[1..]);
      var kept := DropComments(ts[1..]);
      if !IsComment(ts[0]) {
        assert ([ts[0]] + kept)[1..] == kept;
      } else {
        assert [] + kept == kept && [] + WriteAll(kept) == WriteAll(kept);
      }
    }
  }

  /** The first cut is at the first semicolon token: semicolons in quotes and comments are
      not tokens of their own. */
  lemma {:induction false} CutSentence(d: Dialect, ts: seq<Token>)
    requires d.comments && !d.hasty && Sentence(d, ts)
    ensures FirstCut(d, Normal, WriteAll(ts)) == |BeforeSemicolon(ts)|
  {
    hide Next, Strip, WellFormed, Follows, Write;
    if ts != [] {
      hide FirstCut;
      ReadToken(d, ts[0], WriteAll(ts[1..]));
      CutSentence(d, ts[1..]);
    }
  }

  // ---------- every text is a sentence ----------

  /** Where the closer of a quoted body stands. */
  function BodyEnd(d: Dialect, open: char, s: string): (r: Option<nat>)
    ensures r.Some? ==> r.value < |s|
  {
    if s == [] then None
    else if Escapes(d, open) && s[0] == '\\' then
      if |s| == 1 then None
      else match BodyEnd(d, open, s[2..]) case None => None case Some(k) => Some(k + 2)
    else if s[0] == Closer(open) then
      if Doubles(d, open) && |s| >= 2 && s[1] == open then
        match BodyEnd(d, open, s[2..]) case None => None case Some(k) => Some(k + 2)
      else Some(0)
    else match BodyEnd(d, open, s[1..]) case None => None case Some(k) => Some(k + 1)
  }

  function CloserAt(s: string): (r: Option<nat>)
    ensures r.Some? ==> r.value + 2 <= |s|
  {
    if s == [] then None
    else if At2(s, '*', '/') then Some(0)
    else match CloserAt(s[1..]) case None => None case Some(k) => Some(k + 1)
  }

  function LineLen(s: string): (n: nat)
    ensures n <= |s| && (n < |s| ==> s[n] == '\n')
  {
    if s == [] || s[0] == '\n' then 0 else 1 + LineLen(s[1..])
  }

  /** The first token of a text and what is behind it. */
  function FirstToken(d: Dialect, s: string): (r: (Token, string))
    requires s != []
    ensures |r.1| < |s|
  {
    if At2(s, '-', '-') then
      var n := LineLen(s[2..]);
      (LineComment(s[2..][..n]), s[2..][n..])
    else if At2(s, '/', '*') then
      match CloserAt(s[2..])
      case Some(k) => (BlockComment(s[2..][..k], true), s[2..][k + 2..])
      case None => (BlockComment(s[2..], false), [])
    else if Opens(d, s[0]) then
      match BodyEnd(d, s[0], s[1..])
      case Some(k) => (Literal(s[0], s[1..][..k], true), s[1..][k + 1..])
      case None => (Literal(s[0], s[1..], false), [])
    else (Plain(s[0]), s[1..])
  }

  function Tokenize(d: Dialect, s: string): seq<Token>
    decreases |s|
  {
    if s == [] then [] else var (t, rest) := FirstToken(d, s); [t] + Tokenize(d, rest)
  }

  /** What `BodyEnd` finds is the end of a body. */
  predicate BodyFound(d: Dialect, open: char, s: string) {
    match BodyEnd(d, open, s)
    case Some(k) =>
      && Body(d, open, s[..k], true) && s[k] == Closer(open)
      && (Doubles(d, open) && k + 1 < |s| ==> s[k + 1] != open)
    case None => Body(d, open, s, false)
  }

  lemma {:induction false} BodySound(d: Dialect, open: char, s: string)
    requires Opens(d, open)
    ensures BodyFound(d, open, s)
    decreases |s|
  {
    if s != [] {
      if Escapes(d, open) && s[0] == '\\' {
        if |s| > 1 {
          BodySound(d, open, s[2..]);
          BodyStep(d, open, s, 2);
        }
      } else if s[0] == Closer(open) && Doubles(d, open) && |s| >= 2 && s[1] == open {
        BodySound(d, open, s[2..]);
        BodyStep(d, open, s, 2);
      } else if s[0] != Closer(open) {
        BodySound(d, open, s[1..]);
        BodyStep(d, open, s, 1);
      }
    }
  }

  /** One round of a quoted body: an escaped pair, a doubled closer, or one character. */
  predicate Round(d: Dialect, open: char, s: string, n: nat) {
    || (n == 2 && |s| >= 2 && Escapes(d, open) && s[0] == '\\')
    || (n == 2 && |s| >= 2 && !(Escapes(d, open) && s[0] == '\\') && Doubles(d, open) && s[0] == Closer(open)
        && s[1] == open)
    || (n == 1 && |s| >= 1 && !(Escapes(d, open) && s[0] == '\\') && s[0] != Closer(open))
  }

  lemma BodyRound(d: Dialect, open: char, s: string, n: nat, closed: bool)
    requires Opens(d, open) && Round(d, open, s, n)
    ensures Body(d, open, s, closed) == Body(d, open, s[n..], closed)
    ensures BodyEnd(d, open, s) == match BodyEnd(d, open, s[n..]) case None => None case Some(k) => Some(k + n)
  {
  }

  lemma BodyStep(d: Dialect, open: char, s: string, n: nat)
    requires Opens(d, open) && Round(d, open, s, n) && BodyFound(d, open, s[n..])
    ensures BodyFound(d, open, s)
  {
    BodyRound(d, open, s, n, false);
    if BodyEnd(d, open, s[n..]).Some? {
      var k := BodyEnd(d, open, s[n..]).value;
      PrefixSlices(s, n, k + n);
      BodyRound(d, open, s[..k + n], n, true);
      hide BodyEnd, Body, Opens, Doubles, Closer;
    }
  }

  lemma {:induction false} CloserSound(s: string)
    ensures match CloserAt(s)
            case Some(k) => NoCloser(s[..k]) && s[k] == '*' && s[k + 1] == '/'
            case None => NoCloser(s)
  {
    if s != [] && !At2(s, '*', '/') {
      CloserSound(s[1..]);
      if CloserAt(s[1..]).Some? {
        var k := CloserAt(s[1..]).value;
        assert s[..k + 1][1..] == s[1..][..k];
      }
    }
  }

  lemma {:induction false} LineSound(s: string)
    ensures '\n' !in s[..LineLen(s)]
  {
    if s != [] && s[0] != '\n' {
      LineSound(s[1..]);
      var n := LineLen(s[1..]);
      assert s[..n + 1] == [s[0]] + s[1..][..n];
    }
  }

  /** The token fits the grammar, and it and the rest are the text. */
  predicate TokenFound(d: Dialect, t: Token, rest: string, s: string) {
    WellFormed(d, t) && Follows(d, t, rest) && Write(t) + rest == s
  }

  lemma LineFound(d: Dialect, s: string)
    ensures var n := LineLen(s); TokenFound(d, LineComment(s[..n]), s[n..], "--" + s)
  {
    hide LineLen;
    LineSound(s);
    assert s == s[..LineLen(s)] + s[LineLen(s)..];
  }

  lemma BlockFound(d: Dialect, s: string)
    ensures match CloserAt(s)
            case Some(k) => TokenFound(d, BlockComment(s[..k], true), s[k + 2..], "/*" + s)
            case None => TokenFound(d, BlockComment(s, false), [], "/*" + s)
  {
    CloserSound(s);
    hide CloserAt, NoCloser, Write;
    match CloserAt(s)
    case Some(k) => ClosedText("/*", s, k, "*/");
    case None => OpenText("/*", s);
  }

  /** A token's text and the rest, put together. */
  lemma ClosedText(open: string, s: string, k: nat, closer: string)
    requires k + |closer| <= |s| && s[k..k + |closer|] == closer
    ensures open + s[..k] + closer + s[k + |closer|..] == open + s
    ensures open == "/*" && closer == "*/" ==> Write(BlockComment(s[..k], true)) == open + s[..k] + closer
  {
    assert s == s[..k] + s[k..k + |closer|] + s[k + |closer|..];
    assert open + s[..k] + closer + s[k + |closer|..] == open + (s[..k] + closer + s[k + |closer|..]);
  }

  lemma OpenText(open: string, s: string)
    ensures open + s + "" + [] == open + s
    ensures open == "/*" ==> Write(BlockComment(s, false)) == open + s + ""
  {
  }

  lemma LiteralFound(d: Dialect, open: char, s: string)
    requires Opens(d, open)
    ensures match BodyEnd(d, open, s)
            case Some(k) => TokenFound(d, Literal(open, s[..k], true), s[k + 1..], [open] + s)
            case None => TokenFound(d, Literal(open, s, false), [], [open] + s)
  {
    BodySound(d, open, s);
    hide BodyEnd, Body, Opens, Doubles, Closer, TokenFound;
    match BodyEnd(d, open, s)
    case Some(k) => LiteralClosed(d, open, s, k);
    case None => LiteralOpen(d, open, s);
  }

  lemma LiteralClosed(d: Dialect, open: char, s: string, k: nat)
    requires k < |s| && Opens(d, open) && Body(d, open, s[..k], true) && s[k] == Closer(open)
    requires Doubles(d, open) && k + 1 < |s| ==> s[k + 1] != open
    ensures TokenFound(d, Literal(open, s[..k], true), s[k + 1..], [open] + s)
  {
    hide Body, Opens, Doubles, Closer, Write;
    LiteralText(open, s[..k], true);
    assert s[k..k + 1] == [Closer(open)];
    ClosedText([open], s, k, [Closer(open)]);
  }

  lemma LiteralOpen(d: Dialect, open: char, s: string)
    requires Opens(d, open) && Body(d, open, s, false)
    ensures TokenFound(d, Literal(open, s, false), [], [open] + s)
  {
    hide Body, Opens, Doubles, Closer, Write;
    LiteralText(open, s, false);
    OpenText([open], s);
  }

  lemma LiteralText(open: char, body: string, closed: bool)
    ensures Write(Literal(open, body, closed)) == [open] + body + if closed then [Closer(open)] else []
  {
  }

  lemma FirstTokenSound(d: Dialect, s: string)
    requires s != []
    ensures var (t, rest) := FirstToken(d, s); TokenFound(d, t, rest, s)
  {
    if At2(s, '-', '-') {
      hide TokenFound, LineLen;
      LineFound(d, s[2..]);
      assert s == "--" + s[2..];
    } else if At2(s, '/', '*') {
      hide TokenFound, CloserAt;
      BlockFound(d, s[2..]);
      assert s == "/*" + s[2..];
    } else {
      assert s == [s[0]] + s[1..];
      if Opens(d, s[0]) {
        hide TokenFound, BodyEnd;
        LiteralFound(d, s[0], s[1..]);
      }
    }
  }

  /** Every text has a reading in the grammar. */
  lemma {:induction false} TokenizeSound(d: Dialect, s: string)
    ensures Sentence(d, Tokenize(d, s)) && WriteAll(Tokenize(d, s)) == s
    decreases |s|
  {
    if s != [] {
      hide FirstToken, WellFormed, Follows, Write;
      FirstTokenSound(d, s);
      var (t, rest) := FirstToken(d, s);
      TokenizeSound(d, rest);
      assert ([t] + Tokenize(d, rest))[1..] == Tokenize(d, rest);
    }
  }

  /** `stripComments` of any text, MySQL's or SQLite's, is the text of its tokens without
      the comments among them. */
  lemma StripIsDropComments(d: Dialect, s: string)
    requires d == MYSQL || d == SQLITE
    ensures Sentence(d, Tokenize(d, s)) && WriteAll(Tokenize(d, s)) == s
    ensures Strip(d, Normal, s) == WriteAll(DropComments(Tokenize(d, s)))
  {
    hide Strip, Sentence, DropComments, Tokenize;
    TokenizeSound(d, s);
    StripSentence(d, Tokenize(d, s));
  }
}
