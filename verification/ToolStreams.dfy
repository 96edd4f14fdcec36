/** The stream parsers: `parseOpenAISSE` of `internal/llm/openai.go`, which puts the
    interleaved fragments of tool calls together, and `parseGeminiSSE` of
    `internal/llm/gemini.go`, which makes up the call ids that Gemini does not send. */
module ToolStreams {
  import opened Text
  import opened Lists
  import opened Conversation

  // ---------- permutations ----------

  predicate Distinct<T(==)>(s: seq<T>) {
    forall i, j :: 0 <= i < j < |s| ==> s[i] != s[j]
  }

  lemma {:induction false} DistinctCount<T>(s: seq<T>, x: T)
    requires Distinct(s)
    ensures multiset(s)[x] == if x in s then 1 else 0
  {
    if s != [] {
      var n := |s| - 1;
      DistinctCount(s[..n], x);
      assert s == s[..n] + [s[n]];
      forall i | 0 <= i < n ensures s[..n][i] != s[n] {
        assert s[i] != s[n];
      }
    }
  }

  lemma DistinctSame<T>(a: seq<T>, b: seq<T>)
    requires Distinct(a) && Distinct(b) && forall x :: x in a <==> x in b
    ensures multiset(a) == multiset(b)
  {
    forall x ensures multiset(a)[x] == multiset(b)[x] {
      DistinctCount(a, x);
      DistinctCount(b, x);
    }
  }

  lemma {:induction false} FlatMapPermuted<T, U>(f: T -> seq<U>, a: seq<T>, b: seq<T>)
    requires multiset(a) == multiset(b)
    ensures multiset(FlatMap(f, a)) == multiset(FlatMap(f, b))
  {
    hide FlatMap;
    if b == [] {
      assert |multiset(a)| == 0;
    } else {
      var n := |b| - 1;
      var i := TakeOut(a, b);
      FlatMapPermuted(f, a[..i] + a[i + 1..], b[..n]);
      FlatMapTakeOut(f, a, i);
      assert b[..n + 1] == b;
      FlatMapStep(f, b, n);
    }
  }

  /** The last element of a permutation, taken out of the other list. */
  lemma TakeOut<T>(a: seq<T>, b: seq<T>) returns (i: nat)
    requires b != [] && multiset(a) == multiset(b)
    ensures i < |a| && a[i] == b[|b| - 1] && multiset(a[..i] + a[i + 1..]) == multiset(b[..|b| - 1])
  {
    var x := b[|b| - 1];
    SplitCount(b, |b| - 1);
    assert x in multiset(a);
    i :| 0 <= i < |a| && a[i] == x;
    SplitCount(a, i);
    assert b[..|b| - 1] + b[|b|..] == b[..|b| - 1];
  }

  lemma SplitCount<T>(s: seq<T>, i: nat)
    requires i < |s|
    ensures s[i] in multiset(s) && multiset(s[..i] + s[i + 1..]) == multiset(s) - multiset{s[i]}
  {
    assert s == s[..i] + [s[i]] + s[i + 1..];
  }

  lemma FlatMapTakeOut<T, U>(f: T -> seq<U>, a: seq<T>, i: nat)
    requires i < |a|
    ensures multiset(FlatMap(f, a)) == multiset(FlatMap(f, a[..i] + a[i + 1..])) + multiset(f(a[i]))
  {
    hide FlatMap;
    assert a == a[..i] + ([a[i]] + a[i + 1..]);
    FlatMapAppend(f, a[..i], [a[i]] + a[i + 1..]);
    FlatMapAppend(f, [a[i]], a[i + 1..]);
    FlatMapOne(f, a[i]);
    FlatMapAppend(f, a[..i], a[i + 1..]);
  }

  // ---------- OpenAI: fragments ----------

  /** One element of `delta.tool_calls`; a field that is missing is empty. */
  datatype Fragment = Fragment(index: int, id: string, name: string, args: string)

  /** A line of the stream: not `data:` or not JSON, the end mark, or a chunk. */
  datatype Line = Skipped | EndMark | Chunk(content: string, fragments: seq<Fragment>, finish: string)

  datatype ToolCall = ToolCall(id: string, name: string, args: string)

  function Only(index: int): Fragment -> seq<Fragment> {
    (f: Fragment) => if f.index == index then [f] else []
  }

  function ArgsOf(f: Fragment): string { f.args }

  function LastId(fs: seq<Fragment>): string {
    if fs == [] then "" else if fs[|fs| - 1].id != "" then fs[|fs| - 1].id else LastId(fs[..|fs| - 1])
  }

  function LastName(fs: seq<Fragment>): string {
    if fs == [] then "" else if fs[|fs| - 1].name != "" then fs[|fs| - 1].name else LastName(fs[..|fs| - 1])
  }

  /** The call that the fragments of one index make up. */
  function Assembled(own: seq<Fragment>): ToolCall {
    ToolCall(LastId(own), LastName(own), FlatMap(ArgsOf, own))
  }

  /** The indexes of the fragments, each once. */
  function Indexes(fs: seq<Fragment>): seq<int> {
    if fs == [] then []
    else
      var before := Indexes(fs[..|fs| - 1]);
      if fs[|fs| - 1].index in before then before else before + [fs[|fs| - 1].index]
  }

  function UseFor(decode: string -> Json, fs: seq<Fragment>): int -> seq<Event> {
    (index: int) => var c := Assembled(FlatMap(Only(index), fs)); [UseEvent(c.id, c.name, decode(c.args))]
  }

  /** One tool use per index, in some order. */
  function Uses(decode: string -> Json, fs: seq<Fragment>): multiset<Event> {
    multiset(FlatMap(UseFor(decode, fs), Indexes(fs)))
  }

  /** The fragments of the group that is not finished when the lines end. */
  function Pending(lines: seq<Line>): seq<Fragment> {
    if lines == [] then []
    else
      var before := Pending(lines[..|lines| - 1]);
      match lines[|lines| - 1]
      case Chunk(_, fragments, finish) => if finish == "tool_calls" then [] else before + fragments
      case _ => before
  }

  /** What one line sends, after the fragments `pending` of its group. */
  predicate SentFor(decode: string -> Json, line: Line, pending: seq<Fragment>, sent: seq<Event>) {
    match line
    case Skipped => sent == []
    case EndMark => sent == [DoneEvent]
    case Chunk(content, fragments, finish) =>
      var text := if content != "" then [TextEvent(content)] else [];
      && |text| <= |sent| && sent[..|text|] == text
      && multiset(sent[|text|..]) == if finish == "tool_calls" then Uses(decode, pending + fragments) else multiset{}
  }

  /** How many lines are read: those up to the end mark. */
  function LinesRead(lines: seq<Line>): (n: nat)
    ensures n <= |lines|
    ensures n < |lines| ==> n > 0 && lines[n - 1] == EndMark
    ensures forall i :: 0 <= i < n - 1 ==> lines[i] != EndMark
  {
    if lines == [] then 0 else if lines[0] == EndMark then 1 else 1 + LinesRead(lines[1..])
  }

  // ---------- one more fragment ----------

  lemma {:induction false} IndexesAre(fs: seq<Fragment>)
    ensures Distinct(Indexes(fs))
    ensures forall i :: i in Indexes(fs) <==> FlatMap(Only(i), fs) != []
  {
    if fs != [] {
      var n := |fs| - 1;
      IndexesAre(fs[..n]);
      hide FlatMap;
      assert fs[..n + 1] == fs;
      forall i ensures FlatMap(Only(i), fs) == FlatMap(Only(i), fs[..n]) + if fs[n].index == i then [fs[n]] else [] {
        FlatMapStep(Only(i), fs, n);
      }
    }
  }

  /** What one more fragment makes of the call of its index. */
  function Grown(was: ToolCall, f: Fragment): ToolCall {
    ToolCall(if f.id != "" then f.id else was.id, if f.name != "" then f.name else was.name, was.args + f.args)
  }

  lemma MergeFragment(fs: seq<Fragment>, f: Fragment, index: int)
    ensures var was := Assembled(FlatMap(Only(index), fs));
            Assembled(FlatMap(Only(index), fs + [f])) == if index == f.index then Grown(was, f) else was
  {
    hide FlatMap;
    FlatMapAppend(Only(index), fs, [f]);
    FlatMapOne(Only(index), f);
    var own := FlatMap(Only(index), fs);
    if index == f.index {
      assert (own + [f])[..|own|] == own;
      FlatMapAppend(ArgsOf, own, [f]);
      FlatMapOne(ArgsOf, f);
    } else {
      assert own + [] == own;
    }
  }

  lemma NewIndex(fs: seq<Fragment>, f: Fragment)
    ensures Indexes(fs + [f]) == if f.index in Indexes(fs) then Indexes(fs) else Indexes(fs) + [f.index]
  {
    assert (fs + [f])[..|fs|] == fs;
  }

  /** The accumulator holds, for each index seen, the call made up so far. */
  ghost predicate Holds(acc: map<int, ToolCall>, fs: seq<Fragment>) {
    && (forall i :: i in acc.Keys <==> i in Indexes(fs))
    && forall i :: i in acc ==> acc[i] == Assembled(FlatMap(Only(i), fs))
  }

  lemma HoldsMore(acc: map<int, ToolCall>, fs: seq<Fragment>, f: Fragment)
    requires Holds(acc, fs)
    ensures Holds(acc[f.index := Grown(if f.index in acc then acc[f.index] else ToolCall("", "", ""), f)], fs + [f])
  {
    hide Assembled, FlatMap, Indexes, Only, Grown;
    NewIndex(fs, f);
    NothingOfIndex(fs, f.index);
    forall i ensures var was := Assembled(FlatMap(Only(i), fs));
      Assembled(FlatMap(Only(i), fs + [f])) == if i == f.index then Grown(was, f) else was
    {
      MergeFragment(fs, f, i);
    }
  }

  lemma NothingOfIndex(fs: seq<Fragment>, index: int)
    ensures index !in Indexes(fs) ==> Assembled(FlatMap(Only(index), fs)) == ToolCall("", "", "")
  {
    IndexesAre(fs);
    FlatMapEmpty(ArgsOf);
  }

  // ---------- the parser ----------

  /** The accumulator's calls, in the order in which the map happens to give them. */
  method EmitCalls(decode: string -> Json, acc: map<int, ToolCall>, ghost fs: seq<Fragment>) returns (sent: seq<Event>)
    requires Holds(acc, fs)
    ensures multiset(sent) == Uses(decode, fs)
  {
    hide FlatMap, Assembled, Indexes, Uses;
    FlatMapEmpty(UseFor(decode, fs));
    sent := [];
    var left := acc.Keys;
    ghost var picked: seq<int> := [];
    while left != {}
      invariant left <= acc.Keys && Distinct(picked)
      invariant forall i :: i in picked <==> i in acc.Keys && i !in left
      invariant sent == FlatMap(UseFor(decode, fs), picked)
      decreases left
    {
      ghost var some := SomeKey(left);
      var i :| i in left;
      var t := acc[i];
      FlatMapAppend(UseFor(decode, fs), picked, [i]);
      FlatMapOne(UseFor(decode, fs), i);
      sent := sent + [UseEvent(t.id, t.name, decode(t.args))];
      left := left - {i};
      DistinctMore(picked, i);
      picked := picked + [i];
    }
    forall i ensures i in picked <==> i in Indexes(fs) {
      assert i in acc.Keys <==> i in Indexes(fs);
    }
    AnyOrder(decode, fs, picked);
  }

  lemma SomeKey<T>(keys: set<T>) returns (k: T)
    requires keys != {}
    ensures k in keys
  {
    k :| k in keys;
  }

  lemma DistinctMore<T>(s: seq<T>, x: T)
    requires Distinct(s) && x !in s
    ensures Distinct(s + [x])
  {
  }

  lemma AnyOrder(decode: string -> Json, fs: seq<Fragment>, picked: seq<int>)
    requires Distinct(picked) && forall i :: i in picked <==> i in Indexes(fs)
    ensures multiset(FlatMap(UseFor(decode, fs), picked)) == Uses(decode, fs)
  {
    hide FlatMap;
    IndexesAre(fs);
    hide Indexes, Distinct;
    forall x ensures x in picked <==> x in Indexes(fs) {
      assert x in picked <==> x in Indexes(fs);
    }
    DistinctSame(picked, Indexes(fs));
    FlatMapPermuted(UseFor(decode, fs), picked, Indexes(fs));
  }

  /** The inner loop of the parser: each fragment adds to the call of its index. */
  method Merge(start: map<int, ToolCall>, fragments: seq<Fragment>, ghost pending: seq<Fragment>)
    returns (acc: map<int, ToolCall>)
    requires Holds(start, pending)
    ensures Holds(acc, pending + fragments)
  {
    hide Holds;
    acc := start;
    assert pending + fragments[..0] == pending;
    for j := 0 to |fragments|
      invariant Holds(acc, pending + fragments[..j])
    {
      var f := fragments[j];
      HoldsMore(acc, pending + fragments[..j], f);
      assert pending + fragments[..j] + [f] == pending + fragments[..j + 1];
      var t := if f.index in acc then acc[f.index] else ToolCall("", "", "");
      if f.id != "" {
        t := t.(id := f.id);
      }
      if f.name != "" {
        t := t.(name := f.name);
      }
      t := t.(args := t.args + f.args);
      acc := acc[f.index := t];
    }
    assert fragments[..|fragments|] == fragments;
  }

  /** `out[i]` is what line `i` sends: the text of a chunk, and at the end of a group one
      tool use per index, made up of that index's fragments since the last group. */
  method ParseOpenAI(decode: string -> Json, lines: seq<Line>) returns (out: seq<seq<Event>>)
    ensures |out| == LinesRead(lines)
    ensures forall i :: 0 <= i < |out| ==> SentFor(decode, lines[i], Pending(lines[..i]), out[i])
  {
    hide SentFor, Pending, Holds;
    out := [];
    var acc: map<int, ToolCall> := map[];
    HoldsNothing();
    NothingPending();
    assert lines[..0] == [];
    for i := 0 to |lines|
      invariant |out| == i && i <= LinesRead(lines) && (i > 0 ==> lines[i - 1] != EndMark)
      invariant Holds(acc, Pending(lines[..i]))
      invariant forall k :: 0 <= k < i ==> SentFor(decode, lines[k], Pending(lines[..k]), out[k])
    {
      LineRead(lines, i);
      PendingStep(lines, i);
      var sent;
      sent, acc := ParseLine(decode, lines[i], acc, Pending(lines[..i]));
      out := out + [sent];
      if lines[i] == EndMark {
        return;
      }
    }
  }

  lemma LineRead(lines: seq<Line>, i: nat)
    requires i < |lines| && i <= LinesRead(lines) && (i > 0 ==> lines[i - 1] != EndMark)
    ensures if lines[i] == EndMark then LinesRead(lines) == i + 1 else i + 1 <= LinesRead(lines)
  {
    assert LinesRead(lines) > i;
    assert LinesRead(lines) > i + 1 ==> lines[i] != EndMark;
  }

  lemma NothingPending()
    ensures Pending([]) == []
  {
  }

  lemma PendingStep(lines: seq<Line>, i: nat)
    requires i < |lines|
    ensures Pending(lines[..0]) == []
    ensures var before := Pending(lines[..i]);
            Pending(lines[..i + 1]) ==
              match lines[i]
              case Chunk(_, fragments, finish) => if finish == "tool_calls" then [] else before + fragments
              case _ => before
  {
    assert lines[..i + 1][..i] == lines[..i];
  }

  /** The body of the parser's loop. */
  method ParseLine(decode: string -> Json, line: Line, start: map<int, ToolCall>, ghost pending: seq<Fragment>)
    returns (sent: seq<Event>, acc: map<int, ToolCall>)
    requires Holds(start, pending)
    ensures SentFor(decode, line, pending, sent)
    ensures Holds(acc, match line
                       case Chunk(_, fragments, finish) => if finish == "tool_calls" then [] else pending + fragments
                       case _ => pending)
  {
    hide Holds, Uses;
    sent, acc := [], start;
    match line
    case Skipped =>
    case EndMark => sent := sent + [DoneEvent];
    case Chunk(content, fragments, finish) =>
      if content != "" {
        sent := sent + [TextEvent(content)];
      }
      ghost var text := sent;
      acc := Merge(acc, fragments, pending);
      if finish == "tool_calls" {
        var calls := EmitCalls(decode, acc, pending + fragments);
        sent := sent + calls;
        assert sent[..|text|] == text && sent[|text|..] == calls;
        acc := map[];
        HoldsNothing();
      }
  }

  lemma HoldsNothing()
    ensures Holds(map[], [])
  {
  }

  // ---------- what the order of arrival does not matter for ----------

  /** Only the order of the fragments of each index matters: however the calls of a group
      are interleaved, the same tool uses come out. */
  lemma InterleavingFree(decode: string -> Json, fs: seq<Fragment>, gs: seq<Fragment>)
    requires forall i :: FlatMap(Only(i), fs) == FlatMap(Only(i), gs)
    ensures Uses(decode, fs) == Uses(decode, gs)
  {
    hide FlatMap;
    IndexesAre(fs);
    IndexesAre(gs);
    forall i ensures i in Indexes(fs) <==> i in Indexes(gs) {
      assert FlatMap(Only(i), fs) == FlatMap(Only(i), gs);
    }
    DistinctSame(Indexes(fs), Indexes(gs));
    FlatMapPermuted(UseFor(decode, fs), Indexes(fs), Indexes(gs));
    forall i ensures UseFor(decode, fs)(i) == UseFor(decode, gs)(i) {
      assert FlatMap(Only(i), fs) == FlatMap(Only(i), gs);
    }
    FlatMapSame(UseFor(decode, fs), UseFor(decode, gs), Indexes(gs));
  }

  /** One use for each index that has a fragment: its arguments are that index's fragments,
      joined in the order in which they came. */
  lemma OneUsePerIndex(decode: string -> Json, fs: seq<Fragment>)
    ensures |Uses(decode, fs)| == |Indexes(fs)| && Distinct(Indexes(fs))
    ensures forall i :: i in Indexes(fs) <==> FlatMap(Only(i), fs) != []
    ensures forall i :: i in Indexes(fs) ==>
              var own := FlatMap(Only(i), fs);
              UseEvent(LastId(own), LastName(own), decode(FlatMap(ArgsOf, own))) in Uses(decode, fs)
  {
    hide FlatMap, LastId, LastName;
    IndexesAre(fs);
    var use := UseFor(decode, fs);
    SinglesCount(use, Indexes(fs));
    forall i | i in Indexes(fs)
      ensures var own := FlatMap(Only(i), fs);
              UseEvent(LastId(own), LastName(own), decode(FlatMap(ArgsOf, own))) in Uses(decode, fs)
    {
      SinglesIn(use, Indexes(fs), i);
      UseIs(decode, fs, i);
      assert use(i)[0] in FlatMap(use, Indexes(fs));
    }
  }

  lemma UseIs(decode: string -> Json, fs: seq<Fragment>, i: int)
    ensures var own := FlatMap(Only(i), fs);
            UseFor(decode, fs)(i) == [UseEvent(LastId(own), LastName(own), decode(FlatMap(ArgsOf, own)))]
  {
    var own := FlatMap(Only(i), fs);
    var c := Assembled(own);
    assert UseFor(decode, fs)(i) == [UseEvent(c.id, c.name, decode(c.args))];
    assert c.args == FlatMap(ArgsOf, own);
    assert decode(c.args) == decode(FlatMap(ArgsOf, own));
  }

  lemma {:induction false} SinglesCount<T, U>(f: T -> seq<U>, s: seq<T>)
    requires forall x :: |f(x)| == 1
    ensures |FlatMap(f, s)| == |s|
  {
    if s != [] { SinglesCount(f, s[..|s| - 1]); }
  }

  lemma {:induction false} SinglesIn<T, U>(f: T -> seq<U>, s: seq<T>, x: T)
    requires x in s && |f(x)| == 1
    ensures f(x)[0] in FlatMap(f, s)
  {
    if s[|s| - 1] != x {
      assert x in s[..|s| - 1];
      SinglesIn(f, s[..|s| - 1], x);
    }
  }

  /** The id and the name of a call are the last ones that are given, and empty if none is. */
  lemma {:induction false} LastGiven(before: seq<Fragment>, f: Fragment, after: seq<Fragment>)
    ensures LastId([]) == "" && LastName([]) == ""
    ensures f.id != "" && (forall g :: g in after ==> g.id == "") ==> LastId(before + [f] + after) == f.id
    ensures f.name != "" && (forall g :: g in after ==> g.name == "") ==> LastName(before + [f] + after) == f.name
    ensures (forall g :: g in before ==> g.id == "") ==> LastId(before) == ""
    ensures (forall g :: g in before ==> g.name == "") ==> LastName(before) == ""
    decreases |after| + |before|
  {
    var all := before + [f] + after;
    var n := |all| - 1;
    if after == [] {
      assert all[n] == f;
    } else {
      assert all[..n] == before + [f] + after[..|after| - 1] && all[n] == after[|after| - 1];
      assert after[|after| - 1] in after;
      LastGiven(before, f, after[..|after| - 1]);
    }
    if before != [] {
      LastGiven(before[..|before| - 1], f, []);
      assert before[|before| - 1] in before;
    }
  }

  function FragmentsOf(line: Line): seq<Fragment> { if line.Chunk? then line.fragments else [] }

  /** What a group has gathered is all fragments of its lines, in order. */
  lemma {:induction false} GroupGathers(lines: seq<Line>)
    requires forall l :: l in lines ==> !l.Chunk? || l.finish != "tool_calls"
    ensures Pending(lines) == FlatMap(FragmentsOf, lines)
  {
    if lines != [] {
      GroupGathers(lines[..|lines| - 1]);
      assert lines[|lines| - 1] in lines;
    }
  }

  /** Nothing of a finished group leaks into the next one. */
  lemma {:induction false} NothingLeaks(before: seq<Line>, last: Line, after: seq<Line>)
    requires last.Chunk? && last.finish == "tool_calls"
    ensures Pending(before + [last] + after) == Pending(after)
  {
    hide Pending;
    if after == [] {
      PendingMore(before, last);
      NothingPending();
      assert before + [last] + after == before + [last];
    } else {
      var n := |after| - 1;
      NothingLeaks(before, last, after[..n]);
      PendingMore(before + [last] + after[..n], after[n]);
      PendingMore(after[..n], after[n]);
      assert (before + [last] + after[..n]) + [after[n]] == before + [last] + after;
      assert after[..n] + [after[n]] == after;
    }
  }

  lemma {:induction false} PendingMore(lines: seq<Line>, line: Line)
    ensures Pending(lines + [line])
         == if !line.Chunk? then Pending(lines)
            else if line.finish == "tool_calls" then [] else Pending(lines) + line.fragments
  {
    assert (lines + [line])[..|lines|] == lines;
  }

  // ---------- Gemini: call ids ----------

  datatype FunctionCall = FunctionCall(name: string, args: Json)
  datatype StreamPart = StreamPart(text: string, call: Option<FunctionCall>)

  /** A line of the stream: one without a candidate, or the parts of the first candidate. */
  datatype GeminiLine = NoCandidate | Candidate(parts: seq<StreamPart>, finish: string)

  /** `call_<n>_<name>`. */
  function SynthId(n: nat, name: string): string { "call_" + Numeral(n) + "_" + name }

  /** Such an id tells both the number and the name. */
  lemma SynthIdInjective(n: nat, name: string, m: nat, other: string)
    requires SynthId(n, name) == SynthId(m, other)
    ensures n == m && name == other
  {
    var a, b := Numeral(n) + ("_" + name), Numeral(m) + ("_" + other);
    assert SynthId(n, name) == "call_" + a && SynthId(m, other) == "call_" + b;
    assert ("call_" + a)[5..] == a && ("call_" + b)[5..] == b;
    DigitRunStops(Numeral(n), "_" + name);
    DigitRunStops(Numeral(m), "_" + other);
    assert a[..|Numeral(n)|] == Numeral(n) && b[..|Numeral(m)|] == Numeral(m);
    NumeralRoundTrip(n);
    NumeralRoundTrip(m);
    assert a[|Numeral(n)| + 1..] == name && b[|Numeral(m)| + 1..] == other;
  }

  predicate Finishes(line: GeminiLine) {
    line.Candidate? && line.finish != "" && line.finish != "FINISH_REASON_UNSPECIFIED"
  }

  /** The parts that are read: those up to the first line that finishes. */
  function PartsRead(lines: seq<GeminiLine>): seq<StreamPart> {
    if lines == [] then []
    else
      (if lines[0].Candidate? then lines[0].parts else []) +
      (if Finishes(lines[0]) then [] else PartsRead(lines[1..]))
  }

  function PartsOfLine(line: GeminiLine): seq<StreamPart> { if line.Candidate? then line.parts else [] }

  /** A line with any reason to finish, but the unspecified one, is the last that is read. */
  lemma {:induction false} PartsReadAre(before: seq<GeminiLine>, last: GeminiLine, after: seq<GeminiLine>)
    requires forall l :: l in before && l.Candidate? ==> l.finish == "" || l.finish == "FINISH_REASON_UNSPECIFIED"
    ensures PartsRead(before) == FlatMap(PartsOfLine, before)
    ensures last.Candidate? && last.finish != "" && last.finish != "FINISH_REASON_UNSPECIFIED" ==>
              PartsRead(before + [last] + after) == FlatMap(PartsOfLine, before) + last.parts
  {
    hide FlatMap;
    FlatMapEmpty(PartsOfLine);
    var all := before + [last] + after;
    if before == [] {
      assert all[0] == last;
    } else {
      assert before[0] in before && all[0] == before[0] && all[1..] == before[1..] + [last] + after;
      PartsReadAre(before[1..], last, after);
      FlatMapCons(PartsOfLine, before);
    }
  }

  function CallOf(p: StreamPart): seq<FunctionCall> { if p.call.Some? then [p.call.value] else [] }
  function TextOfPart(p: StreamPart): string { p.text }

  function EventCall(e: Event): seq<FunctionCall> { if e.UseEvent? then [FunctionCall(e.name, e.input)] else [] }
  function EventText(e: Event): string { if e.TextEvent? then e.text else "" }
  function EventId(e: Event): seq<string> { if e.UseEvent? then [e.id] else [] }

  /** The ids of a stream's calls are numbered from one. */
  predicate Numbered(calls: seq<FunctionCall>, ids: seq<string>) {
    |ids| == |calls| && forall k :: 0 <= k < |ids| ==> ids[k] == SynthId(k + 1, calls[k].name)
  }

  /** What has been sent for the parts read so far. */
  predicate Relayed(parts: seq<StreamPart>, sent: seq<Event>) {
    && FlatMap(EventText, sent) == FlatMap(TextOfPart, parts)
    && FlatMap(EventCall, sent) == FlatMap(CallOf, parts)
    && Numbered(FlatMap(CallOf, parts), FlatMap(EventId, sent))
    && forall e :: e in sent ==> e.TextEvent? || e.UseEvent?
  }

  lemma RelayedText(parts: seq<StreamPart>, sent: seq<Event>, p: StreamPart)
    requires Relayed(parts, sent)
    ensures Relayed(parts + [StreamPart(p.text, None)], if p.text != "" then sent + [TextEvent(p.text)] else sent)
  {
    hide FlatMap, Numbered;
    var q, e := StreamPart(p.text, None), TextEvent(p.text);
    FlatMapAppend(TextOfPart, parts, [q]);
    FlatMapAppend(CallOf, parts, [q]);
    FlatMapOne(TextOfPart, q);
    FlatMapOne(CallOf, q);
    FlatMapAppend(EventText, sent, [e]);
    FlatMapAppend(EventCall, sent, [e]);
    FlatMapAppend(EventId, sent, [e]);
    FlatMapOne(EventText, e);
    FlatMapOne(EventCall, e);
    FlatMapOne(EventId, e);
    assert FlatMap(CallOf, parts) + [] == FlatMap(CallOf, parts)
        && FlatMap(EventId, sent) + [] == FlatMap(EventId, sent);
    assert p.text == "" ==> FlatMap(TextOfPart, parts) + p.text == FlatMap(TextOfPart, parts);
    assert FlatMap(EventCall, sent) + [] == FlatMap(EventCall, sent);
  }

  lemma RelayedCall(parts: seq<StreamPart>, text: string, sent: seq<Event>, c: FunctionCall, id: string)
    requires Relayed(parts + [StreamPart(text, None)], sent)
    requires id == SynthId(|FlatMap(CallOf, parts)| + 1, c.name)
    ensures Relayed(parts + [StreamPart(text, Some(c))], sent + [UseEvent(id, c.name, c.args)])
    ensures |FlatMap(CallOf, parts + [StreamPart(text, Some(c))])| == |FlatMap(CallOf, parts)| + 1
  {
    hide FlatMap, SynthId;
    var before, now, e := StreamPart(text, None), StreamPart(text, Some(c)), UseEvent(id, c.name, c.args);
    FlatMapAppend(TextOfPart, parts, [before]);
    FlatMapAppend(CallOf, parts, [before]);
    FlatMapAppend(TextOfPart, parts, [now]);
    FlatMapAppend(CallOf, parts, [now]);
    FlatMapOne(TextOfPart, before);
    FlatMapOne(CallOf, before);
    FlatMapOne(TextOfPart, now);
    FlatMapOne(CallOf, now);
    FlatMapAppend(EventText, sent, [e]);
    FlatMapAppend(EventCall, sent, [e]);
    FlatMapAppend(EventId, sent, [e]);
    FlatMapOne(EventText, e);
    FlatMapOne(EventCall, e);
    FlatMapOne(EventId, e);
  }

  /** All text and all calls up to the finish are sent, in order, the calls under the ids
      numbered from one; then comes the end mark, once. */
  method ParseGemini(lines: seq<GeminiLine>) returns (out: seq<Event>)
    ensures out != [] && out[|out| - 1] == DoneEvent && Relayed(PartsRead(lines), out[..|out| - 1])
  {
    hide FlatMap, Relayed, PartsRead;
    out := [];
    var toolCallIdx := 0;
    ghost var read: seq<StreamPart> := [];
    NothingRelayed();
    assert lines[0..] == lines;
    for i := 0 to |lines|
      invariant PartsRead(lines) == read + PartsRead(lines[i..])
      invariant Relayed(read, out) && toolCallIdx == |FlatMap(CallOf, read)|
    {
      PartsStep(lines, i);
      if lines[i].NoCandidate? {
        continue;
      }
      out, toolCallIdx := RelayParts(lines[i].parts, out, toolCallIdx, read);
      ReadOn(PartsRead(lines), read, lines[i].parts, PartsRead(lines[i + 1..]), Finishes(lines[i]));
      read := read + lines[i].parts;
      if lines[i].finish != "" && lines[i].finish != "FINISH_REASON_UNSPECIFIED" {
        LastOut(out);
        out := out + [DoneEvent];
        return;
      }
    }
    assert lines[|lines|..] == [] && read + [] == read;
    LastOut(out);
    out := out + [DoneEvent];
  }

  lemma NothingRelayed()
    ensures Relayed([], []) && |FlatMap(CallOf, [])| == 0 && PartsRead([]) == []
  {
  }

  lemma PartsStep(lines: seq<GeminiLine>, i: nat)
    requires i < |lines|
    ensures PartsRead(lines[i..]) == (if lines[i].Candidate? then lines[i].parts else [])
        + (if Finishes(lines[i]) then [] else PartsRead(lines[i + 1..]))
    ensures PartsRead([]) == []
  {
    assert lines[i..][1..] == lines[i + 1..];
  }

  lemma ReadOn<T>(all: seq<T>, read: seq<T>, parts: seq<T>, rest: seq<T>, last: bool)
    requires all == read + (parts + if last then [] else rest)
    ensures all == (read + parts) + if last then [] else rest
    ensures last ==> all == read + parts
  {
  }

  lemma LastOut(out: seq<Event>)
    ensures var all := out + [DoneEvent]; all[|all| - 1] == DoneEvent && all[..|all| - 1] == out
  {
  }

  /** The inner loop of the parser. */
  method RelayParts(parts: seq<StreamPart>, before: seq<Event>, calls: nat, ghost read: seq<StreamPart>)
    returns (out: seq<Event>, toolCallIdx: nat)
    requires Relayed(read, before) && calls == |FlatMap(CallOf, read)|
    ensures Relayed(read + parts, out) && toolCallIdx == |FlatMap(CallOf, read + parts)|
  {
    hide FlatMap, Relayed;
    out, toolCallIdx := before, calls;
    assert read + parts[..0] == read;
    for j := 0 to |parts|
      invariant Relayed(read + parts[..j], out) && toolCallIdx == |FlatMap(CallOf, read + parts[..j])|
    {
      var part := parts[j];
      RelayedText(read + parts[..j], out, part);
      CallsOfText(read + parts[..j], part.text);
      if part.text != "" {
        out := out + [TextEvent(part.text)];
      }
      if part.call.Some? {
        toolCallIdx := toolCallIdx + 1;
        var id := "call_" + Numeral(toolCallIdx) + "_" + part.call.value.name;
        RelayedCall(read + parts[..j], part.text, out, part.call.value, id);
        out := out + [UseEvent(id, part.call.value.name, part.call.value.args)];
      }
      assert part == StreamPart(part.text, part.call) && read + parts[..j] + [part] == read + parts[..j + 1];
    }
    assert parts[..|parts|] == parts;
  }

  lemma CallsOfText(parts: seq<StreamPart>, text: string)
    ensures FlatMap(CallOf, parts + [StreamPart(text, None)]) == FlatMap(CallOf, parts)
  {
    hide FlatMap;
    FlatMapAppend(CallOf, parts, [StreamPart(text, None)]);
    FlatMapOne(CallOf, StreamPart(text, None));
  }
}
