/** The encoders keep a paired conversation paired, and lose nothing of it. */
module ProviderLaws {
  import opened Text
  import opened Lists
  import opened Conversation
  import opened Providers

  /** What pairing says of one message: results stand in tool messages, calls in an
      assistant's. */
  predicate Proper(m: Message) {
    && (m.role == "tool" ==> Requests(m) == [])
    && (m.role != "tool" ==> Replies(m) == [])
    && (Requests(m) != [] ==> m.role == "assistant")
  }

  lemma {:induction false} PairedProper(ms: seq<Message>)
    requires Paired(ms)
    ensures forall m :: m in ms ==> Proper(m)
    decreases |ms|
  {
    if ms != [] {
      if Requests(ms[0]) == [] {
        PairedProper(ms[1..]);
      } else {
        PairedProper(ms[2..]);
        assert ms == [ms[0], ms[1]] + ms[2..];
      }
    }
  }

  // ---------- OpenAI ----------

  lemma {:induction false} ToolMsgsAre(content: seq<Item>)
    ensures var out, replies := FlatMap(ToolMsgOf, content), FlatMap(ReplyOf, content);
            && |out| == |replies| && (forall i :: 0 <= i < |out| ==>
                out[i] == ToolMsg(replies[i].useId, replies[i].output))
            && FlatMap(ChatRequests, out) == [] && FlatMap(ChatReplies, out) == replies && FlatMap(ChatSays, out) == []
  {
    if content != [] {
      var n := |content| - 1;
      ToolMsgsAre(content[..n]);
      hide FlatMap;
      assert content[..n + 1] == content;
      FlatMapStep(ToolMsgOf, content, n);
      FlatMapStep(ReplyOf, content, n);
      var before, last := FlatMap(ToolMsgOf, content[..n]), ToolMsgOf(content[n]);
      FlatMapAppend(ChatRequests, before, last);
      FlatMapAppend(ChatReplies, before, last);
      FlatMapAppend(ChatSays, before, last);
      FlatMapEmpty(ChatRequests);
      FlatMapEmpty(ChatReplies);
      FlatMapEmpty(ChatSays);
      if last != [] {
        FlatMapOne(ChatRequests, last[0]);
        FlatMapOne(ChatReplies, last[0]);
        FlatMapOne(ChatSays, last[0]);
      }
    }
  }

  lemma OpenAIMessageKept(m: Message)
    requires Proper(m)
    ensures var out := OpenAIOf(m);
            && FlatMap(ChatRequests, out) == Requests(m) && FlatMap(ChatReplies, out) == Replies(m)
                && FlatMap(ChatSays, out) == Says(m)
  {
    hide FlatMap;
    if m.role == "tool" {
      ToolMsgsAre(m.content);
    } else {
      FlatMapOne(ChatRequests, OpenAIOf(m)[0]);
      FlatMapOne(ChatReplies, OpenAIOf(m)[0]);
      FlatMapOne(ChatSays, OpenAIOf(m)[0]);
    }
  }

  lemma OpenAITurn(chat: ChatMsg, tools: seq<ChatMsg>, replies: seq<Reply>, rest: seq<ChatMsg>)
    requires chat.Chat? && (chat.calls != [] ==> chat.role == "assistant")
    requires Answer(chat.calls, replies) && |tools| == |replies|
    requires forall i :: 0 <= i < |tools| ==> tools[i] == ToolMsg(replies[i].useId, replies[i].output)
    requires OpenAIPaired(rest)
    ensures OpenAIPaired([chat] + tools + rest)
  {
    var out := [chat] + tools + rest;
    assert out[1 + |tools|..] == rest;
  }

  lemma {:induction false} OpenAIKeepsPairs(ms: seq<Message>)
    requires Paired(ms)
    ensures OpenAIPaired(FlatMap(OpenAIOf, ms))
    decreases |ms|
  {
    if ms != [] {
      hide FlatMap, OpenAIPaired;
      FlatMapCons(OpenAIOf, ms);
      if Requests(ms[0]) == [] {
        OpenAIKeepsPairs(ms[1..]);
        OpenAITurn(OpenAIOf(ms[0])[0], [], [], FlatMap(OpenAIOf, ms[1..]));
        assert OpenAIOf(ms[0]) + [] == OpenAIOf(ms[0]);
      } else {
        FlatMapCons(OpenAIOf, ms[1..]);
        assert ms[1..][1..] == ms[2..];
        OpenAIKeepsPairs(ms[2..]);
        ToolMsgsAre(ms[1].content);
        OpenAITurn(OpenAIOf(ms[0])[0], OpenAIOf(ms[1]), Replies(ms[1]), FlatMap(OpenAIOf, ms[2..]));
        ThreeParts(OpenAIOf(ms[0]), OpenAIOf(ms[1]), FlatMap(OpenAIOf, ms[2..]));
      }
    }
  }

  lemma ThreeParts<T>(a: seq<T>, b: seq<T>, c: seq<T>)
    ensures a + b + c == a + (b + c)
  {
  }

  /** OpenAI gets a list in which every message with tool calls is followed by their
      results, one each, in order; with the calls, results and words of the conversation,
      all of them and in order, the system prompt before them. */
  lemma OpenAIKeeps(system: string, ms: seq<Message>)
    requires Paired(ms)
    ensures var out := OpenAIAll(system, ms);
            && OpenAIPaired(out)
            && FlatMap(ChatRequests, out) == AllRequests(ms)
            && FlatMap(ChatReplies, out) == AllReplies(ms)
            && FlatMap(ChatSays, out) == (if system != "" then [Saying("system", system)] else []) + FlatMap(Says, ms)
  {
    hide FlatMap, OpenAIPaired, OpenAIOf, Paired;
    var head := if system != "" then [Chat("system", Some(system), [])] else [];
    var body := FlatMap(OpenAIOf, ms);
    OpenAIKeepsPairs(ms);
    PairedProper(ms);
    forall m | m in ms
      ensures FlatMap(ChatRequests, OpenAIOf(m)) == Requests(m) && FlatMap(ChatReplies, OpenAIOf(m)) == Replies(m)
          && FlatMap(ChatSays, OpenAIOf(m)) == Says(m)
    {
      OpenAIMessageKept(m);
    }
    FlatMapCompose(OpenAIOf, ChatRequests, Requests, ms);
    FlatMapCompose(OpenAIOf, ChatReplies, Replies, ms);
    FlatMapCompose(OpenAIOf, ChatSays, Says, ms);
    if system == "" {
      assert OpenAIAll(system, ms) == body;
    } else {
      OpenAITurn(head[0], [], [], body);
      assert head + [] + body == OpenAIAll(system, ms);
      FlatMapAppend(ChatRequests, head, body);
      FlatMapAppend(ChatReplies, head, body);
      FlatMapAppend(ChatSays, head, body);
      FlatMapOne(ChatRequests, head[0]);
      FlatMapOne(ChatReplies, head[0]);
      FlatMapOne(ChatSays, head[0]);
    }
  }

  // ---------- Codex ----------

  lemma {:induction false} OutputsAre(content: seq<Item>)
    ensures var out, replies := FlatMap(OutputEntryOf, content), FlatMap(ReplyOf, content);
            && |out| == |replies| && (forall i :: 0 <= i < |out| ==>
                out[i] == OutputEntry(replies[i].useId, replies[i].output))
            && FlatMap(EntryRequests, out) == [] && FlatMap(EntryReplies, out) == replies
                && FlatMap(EntrySays, out) == []
  {
    if content != [] {
      var n := |content| - 1;
      OutputsAre(content[..n]);
      hide FlatMap;
      assert content[..n + 1] == content;
      FlatMapStep(OutputEntryOf, content, n);
      FlatMapStep(ReplyOf, content, n);
      EntriesJoin(FlatMap(OutputEntryOf, content[..n]), OutputEntryOf(content[n]));
    }
  }

  lemma {:induction false} CallsAre(content: seq<Item>)
    ensures var out, requests := FlatMap(CallEntryOf, content), FlatMap(RequestOf, content);
            && |out| == |requests|
            && (forall i :: 0 <= i < |out| ==> out[i] == CallEntry(requests[i].id, requests[i].name, requests[i].input))
            && FlatMap(EntryRequests, out) == requests && FlatMap(EntryReplies, out) == []
                && FlatMap(EntrySays, out) == []
  {
    if content != [] {
      var n := |content| - 1;
      CallsAre(content[..n]);
      hide FlatMap;
      assert content[..n + 1] == content;
      FlatMapStep(CallEntryOf, content, n);
      FlatMapStep(RequestOf, content, n);
      EntriesJoin(FlatMap(CallEntryOf, content[..n]), CallEntryOf(content[n]));
    }
  }

  /** One more entry, or none, at the end. */
  lemma EntriesJoin(a: seq<Entry>, b: seq<Entry>)
    requires |b| <= 1
    ensures FlatMap(EntryRequests, a + b) == FlatMap(EntryRequests, a) + if b == [] then [] else EntryRequests(b[0])
    ensures FlatMap(EntryReplies, a + b) == FlatMap(EntryReplies, a) + if b == [] then [] else EntryReplies(b[0])
    ensures FlatMap(EntrySays, a + b) == FlatMap(EntrySays, a) + if b == [] then [] else EntrySays(b[0])
  {
    hide EntryRequests, EntryReplies, EntrySays;
    if b == [] {
      assert a + b == a;
    } else {
      assert (a + b)[..|a|] == a && b == [b[0]];
    }
  }

  lemma PiecesSay(kind: string, content: seq<Item>)
    ensures FlatMap(PieceText, FlatMap(PieceOf(kind), content)) == FlatMap(TextOf, content)
    ensures FlatMap(PieceOf(kind), content) == [] <==> FlatMap(TextOf, content) == ""
  {
    hide FlatMap, PieceOf;
    forall i ensures FlatMap(PieceText, PieceOf(kind)(i)) == TextOf(i) {
      PieceIs(kind, i);
      FlatMapEmpty(PieceText);
      if PieceOf(kind)(i) != [] { FlatMapOne(PieceText, PieceOf(kind)(i)[0]); }
    }
    FlatMapCompose(PieceOf(kind), PieceText, TextOf, content);
    NoPieces(kind, content);
  }

  lemma {:induction false} NoPieces(kind: string, content: seq<Item>)
    ensures FlatMap(PieceOf(kind), content) == [] <==> FlatMap(TextOf, content) == ""
  {
    hide FlatMap, PieceOf;
    if content == [] {
      FlatMapEmpty(PieceOf(kind));
      FlatMapEmpty(TextOf);
    } else {
      var n := |content| - 1;
      NoPieces(kind, content[..n]);
      assert content[..n + 1] == content;
      FlatMapStep(PieceOf(kind), content, n);
      FlatMapStep(TextOf, content, n);
      PieceIs(kind, content[n]);
    }
  }

  /** What an assistant or a user says comes first in its message. */
  function SpokenPart(m: Message): seq<Entry> {
    var pieces := FlatMap(PieceOf(KindFor(m.role)), m.content);
    if pieces != [] then [Spoken(m.role, pieces)] else []
  }

  lemma SpokenKept(m: Message)
    requires m.role != "tool"
    ensures var out := SpokenPart(m);
            FlatMap(EntryRequests, out) == [] && FlatMap(EntryReplies, out) == [] && FlatMap(EntrySays, out) == Says(m)
  {
    hide FlatMap, PieceOf, KindFor;
    PiecesSay(KindFor(m.role), m.content);
    FlatMapEmpty(EntryRequests);
    FlatMapEmpty(EntryReplies);
    FlatMapEmpty(EntrySays);
    if SpokenPart(m) != [] {
      FlatMapOne(EntryRequests, SpokenPart(m)[0]);
      FlatMapOne(EntryReplies, SpokenPart(m)[0]);
      FlatMapOne(EntrySays, SpokenPart(m)[0]);
    }
  }

  lemma CodexMessageKept(m: Message)
    requires Proper(m)
    ensures var out := CodexOf(m);
            && FlatMap(EntryRequests, out) == Requests(m) && FlatMap(EntryReplies, out) == Replies(m)
                && FlatMap(EntrySays, out) == Says(m)
  {
    hide FlatMap, PieceOf, KindFor;
    if m.role == "tool" {
      OutputsAre(m.content);
    } else {
      SpokenKept(m);
      CallsAre(m.content);
      var said, calls := SpokenPart(m), FlatMap(CallEntryOf, m.content);
      FlatMapAppend(EntryRequests, said, calls);
      FlatMapAppend(EntryReplies, said, calls);
      FlatMapAppend(EntrySays, said, calls);
    }
  }

  lemma {:induction false} CallRunIs(calls: seq<Entry>, rest: seq<Entry>)
    requires forall i :: 0 <= i < |calls| ==> calls[i].CallEntry?
    requires rest == [] || !rest[0].CallEntry?
    ensures CallRun(calls + rest) == |calls|
  {
    if calls == [] {
      assert calls + rest == rest;
    } else {
      assert (calls + rest)[1..] == calls[1..] + rest;
      CallRunIs(calls[1..], rest);
    }
  }

  lemma CodexTurn(said: seq<Entry>, calls: seq<Entry>, outputs: seq<Entry>, rest: seq<Entry>)
    requires |said| <= 1 && (forall i :: 0 <= i < |said| ==> said[i].Spoken?)
    requires Answered(calls, outputs) && CodexPaired(rest)
    ensures CodexPaired(said + (calls + (outputs + rest)))
  {
    var turn := calls + (outputs + rest);
    if calls == [] {
      assert turn == rest;
    } else {
      CallRunIs(calls, outputs + rest);
      var n := |calls|;
      assert turn[..n] == calls && turn[n..2 * n] == outputs && turn[2 * n..] == rest;
    }
    if said == [] {
      assert said + turn == turn;
    } else {
      assert (said + turn)[1..] == turn;
    }
  }

  lemma CodexIs(m: Message)
    ensures if m.role == "tool" then CodexOf(m) == FlatMap(OutputEntryOf, m.content)
            else CodexOf(m) == SpokenPart(m) + FlatMap(CallEntryOf, m.content) && |SpokenPart(m)| <= 1
                 && forall i :: 0 <= i < |SpokenPart(m)| ==> SpokenPart(m)[i].Spoken?
  {
    hide FlatMap;
  }

  lemma {:induction false} CodexKeepsPairs(ms: seq<Message>)
    requires Paired(ms)
    ensures CodexPaired(FlatMap(CodexOf, ms))
    decreases |ms|
  {
    if ms != [] {
      hide FlatMap, CodexPaired, CodexOf, SpokenPart, CallRun;
      CodexIs(ms[0]);
      FlatMapCons(CodexOf, ms);
      CallsAre(ms[0].content);
      var said, calls := SpokenPart(ms[0]), FlatMap(CallEntryOf, ms[0].content);
      if Requests(ms[0]) == [] {
        CodexKeepsPairs(ms[1..]);
        var rest := FlatMap(CodexOf, ms[1..]);
        CodexTurn(said, [], [], rest);
        FourParts(said, [], [], rest);
      } else {
        FlatMapCons(CodexOf, ms[1..]);
        assert ms[1..][1..] == ms[2..];
        CodexKeepsPairs(ms[2..]);
        OutputsAre(ms[1].content);
        CodexIs(ms[1]);
        var outputs, rest := FlatMap(OutputEntryOf, ms[1].content), FlatMap(CodexOf, ms[2..]);
        CodexTurn(said, calls, outputs, rest);
        FourParts(said, calls, outputs, rest);
      }
    }
  }

  lemma FourParts<T>(a: seq<T>, b: seq<T>, c: seq<T>, d: seq<T>)
    ensures (a + b) + (c + d) == a + (b + (c + d))
    ensures b == [] && c == [] ==> a + (b + (c + d)) == (a + b) + d
  {
  }

  /** An assistant's words go out as output, all others as input. */
  predicate WellKinded(e: Entry) {
    e.Spoken? ==> forall i :: 0 <= i < |e.pieces| ==>
      e.pieces[i].kind == if e.role == "assistant" then "output_text" else "input_text"
  }

  lemma AllWellKinded(ms: seq<Message>)
    ensures forall e :: e in FlatMap(CodexOf, ms) ==> WellKinded(e)
    ensures forall e, i :: e in FlatMap(CodexOf, ms) && e.Spoken? && 0 <= i < |e.pieces| ==>
              e.pieces[i].kind == if e.role == "assistant" then "output_text" else "input_text"
  {
    hide FlatMap;
    forall m, e | m in ms && e in CodexOf(m) ensures WellKinded(e) {
      MessageWellKinded(m, e);
    }
    FlatMapAll(CodexOf, WellKinded, ms);
  }

  lemma MessageWellKinded(m: Message, e: Entry)
    requires e in CodexOf(m)
    ensures WellKinded(e)
  {
    hide FlatMap;
    var kind := if m.role == "assistant" then "output_text" else "input_text";
    if m.role == "tool" {
      OutputsAre(m.content);
    } else {
      CallsAre(m.content);
      PiecesOfKind(kind, m.content);
    }
  }

  lemma {:induction false} PiecesOfKind(kind: string, content: seq<Item>)
    ensures forall p :: p in FlatMap(PieceOf(kind), content) ==> p.kind == kind
  {
    if content != [] { PiecesOfKind(kind, content[..|content| - 1]); }
  }

  /** The Responses API gets every run of calls followed by as many outputs, in order; with
      the calls, results and words of the conversation, all of them and in order, the
      assistant's words as output and all others as input. */
  lemma CodexKeeps(ms: seq<Message>)
    requires Paired(ms)
    ensures var out := FlatMap(CodexOf, ms);
            && CodexPaired(out)
            && FlatMap(EntryRequests, out) == AllRequests(ms)
            && FlatMap(EntryReplies, out) == AllReplies(ms)
            && FlatMap(EntrySays, out) == FlatMap(Says, ms)
            && forall e, i :: e in out && e.Spoken? && 0 <= i < |e.pieces| ==>
                 e.pieces[i].kind == if e.role == "assistant" then "output_text" else "input_text"
  {
    hide FlatMap, CodexPaired, CodexOf, Paired, WellKinded;
    CodexKeepsPairs(ms);
    AllWellKinded(ms);
    PairedProper(ms);
    forall m | m in ms
      ensures FlatMap(EntryRequests, CodexOf(m)) == Requests(m) && FlatMap(EntryReplies, CodexOf(m)) == Replies(m)
          && FlatMap(EntrySays, CodexOf(m)) == Says(m)
    {
      CodexMessageKept(m);
    }
    FlatMapCompose(CodexOf, EntryRequests, Requests, ms);
    FlatMapCompose(CodexOf, EntryReplies, Replies, ms);
    FlatMapCompose(CodexOf, EntrySays, Says, ms);
  }
}
