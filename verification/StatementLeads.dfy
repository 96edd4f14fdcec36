/** How a statement that writes may begin, up to its table, for the classifier's patterns:
    in any letter case, with any white space, and with the optional words. */
module StatementLeads {
  import opened Text
  import opened MysqlClassifier

  /** A word as the patterns take it. */
  predicate Spelled(w: string, u: string) {
    |w| == |u| && forall i :: 0 <= i < |w| ==> FoldsTo(w[i], u[i])
  }

  /** A word as `firstVerb` takes it: in upper or lower case. */
  predicate SpelledVerb(v: string, u: string) {
    |v| == |u| && forall i :: 0 <= i < |v| ==> v[i] == u[i] || v[i] as int == u[i] as int + 32
  }

  predicate Blank(g: string) { g != [] && AllSpace(RegexpSpaces, g) }

  datatype Optional = Optional(word: string, gap: string)

  predicate OptionalsOk(opts: seq<Optional>, ws: seq<string>) {
    forall i :: 0 <= i < |opts| ==> Blank(opts[i].gap) && exists u :: u in ws && Spelled(opts[i].word, u)
  }

  function OptionalText(opts: seq<Optional>): string {
    if opts == [] then [] else opts[0].word + (opts[0].gap + OptionalText(opts[1..]))
  }

  /** The parts of a lead; without a keyword there is no gap after it. */
  datatype Lead = Lead(verb: string, gap: string, optional: seq<Optional>, keyword: string, after: string)

  function LeadText(l: Lead): string {
    l.verb + (l.gap + (OptionalText(l.optional) + (l.keyword + l.after)))
  }

  predicate Keyword(l: Lead, u: string) { Spelled(l.keyword, u) && Blank(l.after) }
  predicate NoKeyword(l: Lead) { l.keyword == [] && l.after == [] }

  /** The leads of an operation that writes. */
  predicate Leads(op: Op, l: Lead) {
    && Blank(l.gap)
    && match op
       case OpInsert =>
         && SpelledVerb(l.verb, "INSERT") && Keyword(l, "INTO")
         && OptionalsOk(l.optional, ["LOW_PRIORITY", "DELAYED", "HIGH_PRIORITY", "IGNORE"])
       case OpUpdate =>
         SpelledVerb(l.verb, "UPDATE") && OptionalsOk(l.optional, ["LOW_PRIORITY", "IGNORE"]) && NoKeyword(l)
       case OpDelete =>
         && SpelledVerb(l.verb, "DELETE") && Keyword(l, "FROM")
         && OptionalsOk(l.optional, ["LOW_PRIORITY", "QUICK", "IGNORE"])
       case OpTruncate => SpelledVerb(l.verb, "TRUNCATE") && l.optional == [] && (NoKeyword(l) || Keyword(l, "TABLE"))
       case OpDDL => (SpelledVerb(l.verb, "ALTER") || SpelledVerb(l.verb, "RENAME")) && l.optional == []
           && Keyword(l, "TABLE")
       case _ => false
  }

  /** What may stand behind a lead: no white space, and none of the words that the operation's
      pattern would take for more of the lead. */
  predicate Fresh(op: Op, l: Lead, target: string) {
    && Solid(target)
    && (op == OpUpdate ==> !Begins(target, "LOW_PRIORITY") && !Begins(target, "IGNORE"))
    && (op == OpTruncate && l.keyword == [] ==> !Begins(target, "TABLE"))
  }

  // ---------- words and gaps ----------

  predicate PatternChar(u: char) { 'A' <= u <= 'Z' || u == '_' }
  predicate PatternWord(u: string) { u != [] && forall i :: 0 <= i < |u| ==> PatternChar(u[i]) }

  /** Text that a gap may stand in front of. */
  predicate Solid(t: string) { t != [] && !IsSpace(RegexpSpaces, t[0]) }

  lemma FoldNotSpace(c: char, u: char)
    requires FoldsTo(c, u) && PatternChar(u)
    ensures !IsSpace(RegexpSpaces, c)
  {
  }

  lemma WordSpelled(w: string, u: string, rest: string)
    requires Spelled(w, u)
    ensures Word(w + rest, u) == Some(rest)
  {
    SliceConcatPast(w, rest, 0);
  }

  lemma GapBlank(g: string, t: string)
    requires Blank(g) && Solid(t)
    ensures Gap(g + t) == Some(t)
  {
    TrimLeftPad(RegexpSpaces, g, t);
    assert TrimLeft(RegexpSpaces, t) == t;
  }

  lemma NoGap(t: string)
    requires t == [] || !IsSpace(RegexpSpaces, t[0])
    ensures Gap(t) == None
  {
  }

  lemma WordGapAt(w: string, u: string, g: string, t: string)
    requires Spelled(w, u) && Blank(g) && Solid(t)
    ensures WordGap(w + (g + t), u) == Some(t)
  {
    hide Word, Gap;
    WordSpelled(w, u, g + t);
    GapBlank(g, t);
  }

  /** Where a word and a gap stand, no word of another length does. */
  lemma OtherLength(w: string, u: string, g: string, t: string, v: string)
    requires Spelled(w, u) && PatternWord(u) && PatternWord(v) && Blank(g) && |v| != |u|
    ensures WordGap(w + (g + t), v) == None
  {
    var s := w + (g + t);
    if |v| > |u| {
      assert s[|u|] == g[0];
      assert !FoldsTo(s[|u|], v[|u|]);
      NotTheWord(s, v, |u|);
    } else {
      assert s[|v|] == w[|v|];
      FoldNotSpace(s[|v|], u[|v|]);
      assert s[|v|..][0] == s[|v|];
      NoGap(s[|v|..]);
    }
  }

  lemma NotTheWord(s: string, v: string, i: nat)
    requires i < |v| && i < |s| && !FoldsTo(s[i], v[i])
    ensures Word(s, v) == None
  {
  }

  /** One of equal length is matched the same. */
  lemma SameLength(w: string, u: string, g: string, t: string, v: string)
    requires Spelled(w, u) && Blank(g) && Solid(t) && |v| == |u|
    ensures WordGap(w + (g + t), v) == None || WordGap(w + (g + t), v) == Some(t)
  {
    hide Gap;
    SliceConcatPast(w, g + t, 0);
    GapBlank(g, t);
  }

  // ---------- the optional words ----------

  predicate PatternWords(ws: seq<string>) { forall i :: 0 <= i < |ws| ==> PatternWord(ws[i]) }

  lemma {:induction false} OptionalTaken(w: string, u: string, g: string, t: string, ws: seq<string>)
    requires Spelled(w, u) && u in ws && PatternWords(ws) && Blank(g) && Solid(t)
    ensures AnyWordGap(w + (g + t), ws) == Some(t)
  {
    hide WordGap, PatternWord;
    WordGapAt(w, u, g, t);
    if ws[0] != u {
      OptionalTaken(w, u, g, t, ws[1..]);
      if |ws[0]| == |u| {
        SameLength(w, u, g, t, ws[0]);
      } else {
        assert u in ws[1..];
        OtherLength(w, u, g, t, ws[0]);
      }
    }
  }

  lemma {:induction false} NoneTaken(w: string, u: string, g: string, t: string, ws: seq<string>)
    requires Spelled(w, u) && PatternWord(u) && PatternWords(ws) && Blank(g)
    requires forall i :: 0 <= i < |ws| ==> |ws[i]| != |u|
    ensures AnyWordGap(w + (g + t), ws) == None
  {
    hide WordGap, PatternWord;
    if ws != [] {
      OtherLength(w, u, g, t, ws[0]);
      NoneTaken(w, u, g, t, ws[1..]);
    }
  }

  /** The text begins with that word and white space behind it. */
  predicate Begins(t: string, u: string) {
    |u| < |t| && Spelled(t[..|u|], u) && IsSpace(RegexpSpaces, t[|u|])
  }

  lemma NotBegun(t: string, u: string)
    requires !Begins(t, u)
    ensures WordGap(t, u) == None
  {
    if Word(t, u).Some? {
      assert forall i :: 0 <= i < |u| ==> t[..|u|][i] == t[i];
      assert |u| < |t| ==> t[|u|..][0] == t[|u|];
      NoGap(t[|u|..]);
    }
  }

  lemma {:induction false} NoneBegun(t: string, ws: seq<string>)
    requires forall u :: u in ws ==> !Begins(t, u)
    ensures AnyWordGap(t, ws) == None
  {
    hide WordGap, Begins;
    if ws != [] {
      NotBegun(t, ws[0]);
      NoneBegun(t, ws[1..]);
    }
  }

  lemma OptionalSolid(opts: seq<Optional>, ws: seq<string>, y: string)
    requires OptionalsOk(opts, ws) && PatternWords(ws) && Solid(y)
    ensures Solid(OptionalText(opts) + y)
  {
    if opts != [] {
      var u :| u in ws && Spelled(opts[0].word, u);
      assert PatternWord(u);
      FoldNotSpace(opts[0].word[0], u[0]);
      assert (OptionalText(opts) + y)[0] == opts[0].word[0];
    } else {
      assert OptionalText(opts) + y == y;
    }
  }

  lemma {:induction false} SkipOptionals(opts: seq<Optional>, ws: seq<string>, y: string)
    requires OptionalsOk(opts, ws) && PatternWords(ws) && Solid(y) && AnyWordGap(y, ws) == None
    ensures SkipWords(OptionalText(opts) + y, ws) == y
  {
    hide AnyWordGap, Spelled, Blank, PatternWord, Solid;
    if opts == [] {
      assert OptionalText(opts) + y == y;
    } else {
      var u :| u in ws && Spelled(opts[0].word, u);
      var rest := OptionalText(opts[1..]) + y;
      assert OptionalText(opts) + y == opts[0].word + (opts[0].gap + rest) by {
        ConcatAssoc(opts[0].word, opts[0].gap + OptionalText(opts[1..]), y);
        ConcatAssoc(opts[0].gap, OptionalText(opts[1..]), y);
      }
      OptionalSolid(opts[1..], ws, y);
      OptionalTaken(opts[0].word, u, opts[0].gap, rest, ws);
      SkipOptionals(opts[1..], ws, y);
    }
  }

  // ---------- the verb ----------

  predicate Upper(u: string) { u != [] && forall i :: 0 <= i < |u| ==> 'A' <= u[i] <= 'Z' }

  predicate Letter(c: char) { 'A' <= c <= 'Z' || 'a' <= c <= 'z' }

  lemma VerbBefore(v: string, u: string, rest: string)
    requires SpelledVerb(v, u) && Upper(u) && rest != [] && !Letter(rest[0])
    ensures Verb(v + rest) == u
  {
    hide Letters, ToUpper;
    var s := v + rest;
    VerbLetters(v, u, rest);
    VerbUpper(v, u);
    assert s[..|v|] == v;
  }

  lemma VerbAt(v: string, u: string, g: string, t: string)
    requires SpelledVerb(v, u) && Upper(u) && Blank(g)
    ensures Verb(v + (g + t)) == u
  {
    VerbBefore(v, u, g + t);
  }

  lemma {:induction false} VerbLetters(v: string, u: string, rest: string)
    requires SpelledVerb(v, u) && (forall i :: 0 <= i < |u| ==> 'A' <= u[i] <= 'Z')
    requires rest != [] && !Letter(rest[0])
    ensures Letters(v + rest) == |v|
  {
    if v == [] {
      assert v + rest == rest;
    } else {
      assert (v + rest)[1..] == v[1..] + rest;
      VerbLetters(v[1..], u[1..], rest);
    }
  }

  lemma {:induction false} VerbUpper(v: string, u: string)
    requires SpelledVerb(v, u) && forall i :: 0 <= i < |u| ==> 'A' <= u[i] <= 'Z'
    ensures ToUpper(v) == u
  {
    if v != [] { VerbUpper(v[1..], u[1..]); }
  }

  lemma VerbSpelled(v: string, u: string)
    requires SpelledVerb(v, u) && Upper(u)
    ensures Spelled(v, u) && PatternWord(u)
  {
  }

  // ---------- the whole lead ----------

  lemma LeadJoin(l: Lead, target: string)
    ensures LeadText(l) + target == l.verb + (l.gap + (OptionalText(l.optional) + (l.keyword + (l.after + target))))
  {
    hide OptionalText;
    var o := OptionalText(l.optional);
    ConcatAssoc(l.verb, l.gap + (o + (l.keyword + l.after)), target);
    ConcatAssoc(l.gap, o + (l.keyword + l.after), target);
    ConcatAssoc(o, l.keyword + l.after, target);
    ConcatAssoc(l.keyword, l.after, target);
  }

  /** A verb, optional words and a keyword capture what is behind them. */
  lemma Captured(l: Lead, verb: string, ws: seq<string>, keyword: string, target: string)
    requires SpelledVerb(l.verb, verb) && Upper(verb) && Blank(l.gap) && OptionalsOk(l.optional, ws) && PatternWords(ws)
    requires Keyword(l, keyword) && PatternWord(keyword) && Solid(target)
    requires forall i :: 0 <= i < |ws| ==> |ws[i]| != |keyword|
    ensures var head := LeadText(l) + target; Verb(head) == verb && Capture(head, verb, ws, keyword) == Some(target)
  {
    hide Word, Gap, WordGap, AnyWordGap, SkipWords, Verb, OptionalText, LeadText;
    var y := l.keyword + (l.after + target);
    var x := OptionalText(l.optional) + y;
    LeadJoin(l, target);
    KeywordSolid(l, keyword, target);
    OptionalSolid(l.optional, ws, y);
    VerbAt(l.verb, verb, l.gap, x);
    VerbSpelled(l.verb, verb);
    WordGapAt(l.verb, verb, l.gap, x);
    NoneTaken(l.keyword, keyword, l.after, target, ws);
    SkipOptionals(l.optional, ws, y);
    WordSpelled(l.keyword, keyword, l.after + target);
    GapBlank(l.after, target);
  }

  lemma KeywordSolid(l: Lead, keyword: string, target: string)
    requires Keyword(l, keyword) && PatternWord(keyword)
    ensures Solid(l.keyword + (l.after + target))
  {
    FoldNotSpace(l.keyword[0], keyword[0]);
  }

  /** A verb and optional words capture what is behind them. */
  lemma CapturedBare(l: Lead, target: string)
    requires Leads(OpUpdate, l) && Fresh(OpUpdate, l, target)
    ensures var head := LeadText(l) + target;
            Verb(head) == "UPDATE" && CaptureBare(head, "UPDATE", UPDATE_WORDS) == Some(target)
  {
    hide Word, Gap, WordGap, AnyWordGap, SkipWords, Verb, OptionalText, LeadText;
    var x := OptionalText(l.optional) + target;
    assert l.keyword + (l.after + target) == target;
    LeadJoin(l, target);
    OptionalSolid(l.optional, UPDATE_WORDS, target);
    VerbAt(l.verb, "UPDATE", l.gap, x);
    VerbSpelled(l.verb, "UPDATE");
    WordGapAt(l.verb, "UPDATE", l.gap, x);
    NoneBegun(target, UPDATE_WORDS);
    SkipOptionals(l.optional, UPDATE_WORDS, target);
  }

  lemma CapturedTruncate(l: Lead, target: string)
    requires Leads(OpTruncate, l) && Fresh(OpTruncate, l, target)
    ensures var head := LeadText(l) + target; Verb(head) == "TRUNCATE" && CaptureTruncate(head) == Some(target)
  {
    hide Word, Gap, WordGap, Verb, LeadText;
    var y := l.keyword + (l.after + target);
    assert OptionalText(l.optional) + y == y;
    LeadJoin(l, target);
    VerbSpelled(l.verb, "TRUNCATE");
    if Keyword(l, "TABLE") {
      KeywordSolid(l, "TABLE", target);
      WordGapAt(l.keyword, "TABLE", l.after, target);
    } else {
      assert y == target;
      NotBegun(target, "TABLE");
    }
    VerbAt(l.verb, "TRUNCATE", l.gap, y);
    WordGapAt(l.verb, "TRUNCATE", l.gap, y);
  }

  lemma CapturedInsert(l: Lead, target: string)
    requires Leads(OpInsert, l) && Solid(target)
    ensures var head := LeadText(l) + target;
            Verb(head) == "INSERT" && Capture(head, "INSERT", INSERT_WORDS, "INTO") == Some(target)
  {
    hide LeadText, Verb, Capture;
    Captured(l, "INSERT", INSERT_WORDS, "INTO", target);
  }

  lemma CapturedDelete(l: Lead, target: string)
    requires Leads(OpDelete, l) && Solid(target)
    ensures var head := LeadText(l) + target;
            Verb(head) == "DELETE" && Capture(head, "DELETE", DELETE_WORDS, "FROM") == Some(target)
  {
    hide LeadText, Verb, Capture;
    Captured(l, "DELETE", DELETE_WORDS, "FROM", target);
  }

  lemma CapturedTable(l: Lead, verb: string, target: string)
    requires Leads(OpDDL, l) && (verb == "ALTER" || verb == "RENAME") && SpelledVerb(l.verb, verb)
    requires Solid(target)
    ensures var head := LeadText(l) + target; Verb(head) == verb && Capture(head, verb, [], "TABLE") == Some(target)
  {
    hide LeadText, Verb, Capture;
    Captured(l, verb, [], "TABLE", target);
  }

  /** A head captures everything behind its lead. */
  lemma HeadCaptured(op: Op, l: Lead, target: string, multi: bool)
    requires Leads(op, l) && Fresh(op, l, target)
    ensures var head := LeadText(l) + target;
            ClassifyHead(head, Verb(head), multi) == Targeted(op, Some(target), multi)
  {
    hide LeadText, Verb, Capture, CaptureBare, CaptureTruncate, FirstTableRef, SpelledVerb, OptionalsOk, Keyword,
        NoKeyword;
    match op
    case OpInsert => CapturedInsert(l, target);
    case OpUpdate => CapturedBare(l, target);
    case OpDelete => CapturedDelete(l, target);
    case OpTruncate => CapturedTruncate(l, target);
    case OpDDL => CapturedTable(l, if SpelledVerb(l.verb, "ALTER") then "ALTER" else "RENAME", target);
  }

  // ---------- reads ----------

  /** A FROM at a word boundary, with white space behind it. */
  predicate FromAt(s: string, i: nat) {
    && i + 4 < |s| && (i == 0 || !WordChar(s[i - 1]))
    && Spelled(s[i..i + 4], "FROM") && IsSpace(RegexpSpaces, s[i + 4])
  }

  predicate NoFrom(s: string) { forall i :: 0 <= i < |s| ==> !FromAt(s, i) }

  /** The same, within a text whose first character stands behind one of a word, or not. */
  predicate FromBehind(s: string, inWord: bool, i: nat) {
    && i + 4 < |s| && (if i == 0 then !inWord else !WordChar(s[i - 1]))
    && Spelled(s[i..i + 4], "FROM") && IsSpace(RegexpSpaces, s[i + 4])
  }

  lemma NotHere(s: string, inWord: bool)
    requires s != [] && !FromBehind(s, inWord, 0)
    ensures AfterFrom(s, inWord) == AfterFrom(s[1..], WordChar(s[0]))
  {
    if !inWord && Word(s, "FROM").Some? {
      assert forall i :: 0 <= i < 4 ==> s[0..4][i] == s[i];
      assert |s| > 4 ==> s[4..][0] == s[4];
      NoGap(s[4..]);
    }
  }

  lemma OneOn(s: string, inWord: bool, i: nat)
    requires s != []
    ensures FromBehind(s[1..], WordChar(s[0]), i) == FromBehind(s, inWord, i + 1)
  {
    if i + 5 < |s| { assert s[1..][i..i + 4] == s[i + 1..i + 5]; }
  }

  /** The first FROM captures what is behind it. */
  lemma {:induction false} FromFound(before: string, from: string, gap: string, target: string, inWord: bool)
    requires forall i :: 0 <= i < |before| ==> !FromBehind(before, inWord, i)
    requires if before == [] then !inWord else !WordChar(before[|before| - 1])
    requires Spelled(from, "FROM") && Blank(gap) && Solid(target)
    ensures AfterFrom(before + (from + (gap + target)), inWord) == Some(target)
  {
    var tail := from + (gap + target);
    if before == [] {
      assert before + tail == tail;
      WordSpelled(from, "FROM", gap + target);
      GapBlank(gap, target);
      hide Word, Gap;
    } else {
      var s := before + tail;
      assert s[1..] == before[1..] + tail && s[0] == before[0];
      NotYet(before, from, gap + target, inWord);
      NotHere(s, inWord);
      forall i | 0 <= i < |before[1..]| ensures !FromBehind(before[1..], WordChar(before[0]), i) {
        OneOn(before, inWord, i);
      }
      FromFound(before[1..], from, gap, target, WordChar(before[0]));
    }
  }

  /** No FROM reaches from the text before into the FROM behind it. */
  lemma NotYet(before: string, from: string, rest: string, inWord: bool)
    requires before != [] && !FromBehind(before, inWord, 0) && Spelled(from, "FROM")
    ensures !FromBehind(before + (from + rest), inWord, 0)
  {
    var s := before + (from + rest);
    var n := |before|;
    assert s[n] == from[0] && FoldsTo(s[n], 'F');
    assert n >= 4 ==> s[0..4] == before[0..4];
    assert n > 4 ==> s[4] == before[4];
    if n < 4 {
      assert s[0..4][n] == s[n];
    }
  }

  lemma {:induction false} NoneFound(s: string, inWord: bool)
    requires forall i :: 0 <= i < |s| ==> !FromBehind(s, inWord, i)
    ensures AfterFrom(s, inWord) == None
  {
    if s != [] {
      NotHere(s, inWord);
      forall i | 0 <= i < |s[1..]| ensures !FromBehind(s[1..], WordChar(s[0]), i) { OneOn(s, inWord, i); }
      NoneFound(s[1..], WordChar(s[0]));
    }
  }

  /** The text of a read up to its first FROM: SELECT in any letter case, and what does not go
      on with its letters. */
  predicate Selects(verb: string, middle: string) {
    && SpelledVerb(verb, "SELECT") && NoFrom(verb + middle)
    && middle != [] && !Letter(middle[0])
  }

  /** The head of a read captures what is behind its first FROM. */
  lemma ReadCaptured(verb: string, middle: string, from: string, gap: string, target: string)
    requires Selects(verb, middle) && !WordChar(middle[|middle| - 1])
    requires Spelled(from, "FROM") && Blank(gap) && Solid(target)
    ensures var head := (verb + middle) + (from + (gap + target));
            Verb(head) == "SELECT" && AfterFrom(head, false) == Some(target)
  {
    hide Verb, AfterFrom;
    var before, tail := verb + middle, from + (gap + target);
    ConcatAssoc(verb, middle, tail);
    VerbBefore(verb, "SELECT", middle + tail);
    forall i | 0 <= i < |before| ensures !FromBehind(before, false, i) { assert !FromAt(before, i); }
    FromFound(before, from, gap, target, false);
  }

  /** One without a FROM captures nothing. */
  lemma NothingCaptured(verb: string, middle: string)
    requires Selects(verb, middle)
    ensures Verb(verb + middle) == "SELECT" && AfterFrom(verb + middle, false) == None
  {
    hide Verb, AfterFrom;
    var head := verb + middle;
    VerbBefore(verb, "SELECT", middle);
    forall i | 0 <= i < |head| ensures !FromBehind(head, false, i) { assert !FromAt(head, i); }
    NoneFound(head, false);
  }
}
