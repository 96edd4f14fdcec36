/** The three encoders that rewrite a conversation for a provider: `openAIMessages` of
    `internal/llm/openai.go`, `codexInputs` of `internal/llm/codex.go` and `geminiContents`
    of `internal/llm/gemini.go`.  Each keeps the pairing of calls and results in the shape
    of its provider, and loses no call, no result and no word. */
module Providers {
  import opened Text
  import opened Lists
  import opened Conversation

  function TextOf(i: Item): string { if i.Words? then i.text else "" }

  /** What a message other than a tool message says, under its role. */
  datatype Saying = Saying(role: string, text: string)

  function Says(m: Message): seq<Saying> {
    var text := FlatMap(TextOf, m.content);
    if m.role == "tool" || text == "" then [] else [Saying(m.role, text)]
  }

  // ---------- OpenAI ----------

  datatype ChatMsg =
    | Chat(role: string, content: Option<string>, calls: seq<Request>)
    | ToolMsg(callId: string, output: string)

  function ToolMsgOf(i: Item): seq<ChatMsg> { if i.ToolResult? then [ToolMsg(i.useId, i.output)] else [] }

  function OpenAIOf(m: Message): seq<ChatMsg> {
    if m.role == "tool" then FlatMap(ToolMsgOf, m.content)
    else
      var text := FlatMap(TextOf, m.content);
      [Chat(m.role, if text != "" then Some(text) else None, FlatMap(RequestOf, m.content))]
  }

  function OpenAIAll(system: string, input: seq<Message>): seq<ChatMsg> {
    (if system != "" then [Chat("system", Some(system), [])] else []) + FlatMap(OpenAIOf, input)
  }

  method OpenAIMessages(system: string, input: seq<Message>) returns (out: seq<ChatMsg>)
    ensures out == OpenAIAll(system, input)
  {
    hide FlatMap, OpenAIOf;
    out := [];
    if system != "" {
      out := out + [Chat("system", Some(system), [])];
    }
    ghost var head := out;
    FlatMapEmpty(OpenAIOf);
    for i := 0 to |input|
      invariant out == head + FlatMap(OpenAIOf, input[..i])
    {
      FlatMapStep(OpenAIOf, input, i);
      var some := OpenAIMessage(input[i]);
      assert out + some == head + (FlatMap(OpenAIOf, input[..i]) + some);
      out := out + some;
    }
    assert input[..|input|] == input;
  }

  /** The body of the loop above. */
  method OpenAIMessage(m: Message) returns (out: seq<ChatMsg>)
    ensures out == OpenAIOf(m)
  {
    hide FlatMap;
    out := [];
    assert m.content[..|m.content|] == m.content;
    if m.role == "tool" {
      FlatMapEmpty(ToolMsgOf);
      for j := 0 to |m.content|
        invariant out == FlatMap(ToolMsgOf, m.content[..j])
      {
        FlatMapStep(ToolMsgOf, m.content, j);
        if m.content[j].ToolResult? {
          out := out + [ToolMsg(m.content[j].useId, m.content[j].output)];
        }
      }
    } else {
      var text := "";
      var toolCalls := [];
      FlatMapEmpty(TextOf);
      FlatMapEmpty(RequestOf);
      for j := 0 to |m.content|
        invariant text == FlatMap(TextOf, m.content[..j])
        invariant toolCalls == FlatMap(RequestOf, m.content[..j])
      {
        FlatMapStep(TextOf, m.content, j);
        FlatMapStep(RequestOf, m.content, j);
        match m.content[j]
        case Words(t) => text := text + t;
        case ToolUse(id, name, args) => toolCalls := toolCalls + [Request(id, name, args)];
        case _ =>
      }
      out := [Chat(m.role, if text != "" then Some(text) else None, toolCalls)];
    }
  }

  /** OpenAI's rule: a message with tool calls is an assistant's, and is followed by one tool message per call, in
      order, and there is no other tool message. */
  predicate OpenAIPaired(out: seq<ChatMsg>) {
    if out == [] then true
    else
      match out[0]
      case ToolMsg(_, _) => false
      case Chat(role, _, calls) =>
        var n := |calls|;
        && (n > 0 ==> role == "assistant")
        && n < |out| && (forall i :: 0 <= i < n ==> out[1 + i].ToolMsg? && out[1 + i].callId == calls[i].id)
        && OpenAIPaired(out[1 + n..])
  }

  function ChatRequests(c: ChatMsg): seq<Request> { if c.Chat? then c.calls else [] }
  function ChatReplies(c: ChatMsg): seq<Reply> { if c.ToolMsg? then [Reply(c.callId, c.output)] else [] }
  function ChatSays(c: ChatMsg): seq<Saying> {
    if c.Chat? && c.content.Some? then [Saying(c.role, c.content.value)] else []
  }

  // ---------- Codex ----------

  datatype Piece = Piece(kind: string, text: string)

  datatype Entry =
    | Spoken(role: string, pieces: seq<Piece>)
    | CallEntry(id: string, name: string, args: Json)
    | OutputEntry(callId: string, output: string)

  function PieceOf(kind: string): Item -> seq<Piece> {
    (i: Item) => if i.Words? && i.text != "" then [Piece(kind, i.text)] else []
  }

  function CallEntryOf(i: Item): seq<Entry> { if i.ToolUse? then [CallEntry(i.id, i.name, i.input)] else [] }
  function OutputEntryOf(i: Item): seq<Entry> { if i.ToolResult? then [OutputEntry(i.useId, i.output)] else [] }

  function KindFor(role: string): string { if role == "assistant" then "output_text" else "input_text" }

  function CodexOf(m: Message): seq<Entry> {
    if m.role == "tool" then FlatMap(OutputEntryOf, m.content)
    else
      var pieces := FlatMap(PieceOf(KindFor(m.role)), m.content);
      (if pieces != [] then [Spoken(m.role, pieces)] else []) + FlatMap(CallEntryOf, m.content)
  }

  method CodexInputs(input: seq<Message>) returns (out: seq<Entry>)
    ensures out == FlatMap(CodexOf, input)
  {
    hide FlatMap, CodexOf;
    out := [];
    FlatMapEmpty(CodexOf);
    for i := 0 to |input|
      invariant out == FlatMap(CodexOf, input[..i])
    {
      FlatMapStep(CodexOf, input, i);
      var some := CodexInput(input[i]);
      out := out + some;
    }
    assert input[..|input|] == input;
  }

  /** The body of the loop above. */
  method CodexInput(m: Message) returns (out: seq<Entry>)
    ensures out == CodexOf(m)
  {
    hide FlatMap, PieceOf;
    out := [];
    assert m.content[..|m.content|] == m.content;
    if m.role == "tool" {
      FlatMapEmpty(OutputEntryOf);
      for j := 0 to |m.content|
        invariant out == FlatMap(OutputEntryOf, m.content[..j])
      {
        FlatMapStep(OutputEntryOf, m.content, j);
        if m.content[j].ToolResult? {
          out := out + [OutputEntry(m.content[j].useId, m.content[j].output)];
        }
      }
      return;
    }
    var blockType := "input_text";
    if m.role == "assistant" {
      blockType := "output_text";
    }
    var textBlocks, toolCalls := [], [];
    FlatMapEmpty(PieceOf(blockType));
    FlatMapEmpty(CallEntryOf);
    for j := 0 to |m.content|
      invariant textBlocks == FlatMap(PieceOf(blockType), m.content[..j])
      invariant toolCalls == FlatMap(CallEntryOf, m.content[..j])
    {
      FlatMapStep(PieceOf(blockType), m.content, j);
      FlatMapStep(CallEntryOf, m.content, j);
      PieceIs(blockType, m.content[j]);
      match m.content[j]
      case Words(t) =>
        if t != "" {
          textBlocks := textBlocks + [Piece(blockType, t)];
        }
      case ToolUse(id, name, args) => toolCalls := toolCalls + [CallEntry(id, name, args)];
      case _ =>
    }
    if textBlocks != [] {
      out := out + [Spoken(m.role, textBlocks)];
    }
    out := out + toolCalls;
  }

  lemma PieceIs(kind: string, i: Item)
    ensures PieceOf(kind)(i) == if i.Words? && i.text != "" then [Piece(kind, i.text)] else []
  {
  }

  /** How many calls stand at the head of the list. */
  function CallRun(out: seq<Entry>): (n: nat)
    ensures n <= |out|
  {
    if out == [] || !out[0].CallEntry? then 0 else 1 + CallRun(out[1..])
  }

  predicate Answered(calls: seq<Entry>, outputs: seq<Entry>) {
    && |calls| == |outputs|
    && forall i :: 0 <= i < |calls| ==>
         calls[i].CallEntry? && outputs[i].OutputEntry? && outputs[i].callId == calls[i].id
  }

  /** The rule of the Responses API: after a run of calls come the outputs, one per call,
      in order, and there is no other output. */
  predicate CodexPaired(out: seq<Entry>)
    decreases |out|
  {
    if out == [] then true
    else
      match out[0]
      case Spoken(_, _) => CodexPaired(out[1..])
      case OutputEntry(_, _) => false
      case CallEntry(_, _, _) =>
        var n := CallRun(out);
        && n > 0 && 2 * n <= |out|
        && Answered(out[..n], out[n..2 * n])
        && CodexPaired(out[2 * n..])
  }

  function PieceText(p: Piece): string { p.text }

  function EntryRequests(e: Entry): seq<Request> { if e.CallEntry? then [Request(e.id, e.name, e.args)] else [] }
  function EntryReplies(e: Entry): seq<Reply> { if e.OutputEntry? then [Reply(e.callId, e.output)] else [] }
  function EntrySays(e: Entry): seq<Saying> {
    if e.Spoken? then [Saying(e.role, FlatMap(PieceText, e.pieces))] else []
  }

  // ---------- Gemini ----------

  /** A tool output as Gemini gets it: a JSON value, or the text that is none. */
  datatype Response = Parsed(value: Json) | Raw(output: string)

  datatype Part =
    | TextPart(text: string)
    | CallPart(name: string, args: Json)
    | ResponsePart(name: string, response: Response)

  datatype Content = Content(role: string, parts: seq<Part>)

  function AssistantRequests(m: Message): seq<Request> { if m.role == "assistant" then Requests(m) else [] }

  /** The name in the first of the requests that has this id. */
  function FirstName(rs: seq<Request>, id: string): string {
    if rs == [] then "" else if rs[0].id == id then rs[0].name else FirstName(rs[1..], id)
  }

  method ToolNameForResult(id: string, ms: seq<Message>) returns (name: string)
    ensures name == FirstName(FlatMap(AssistantRequests, ms), id)
  {
    for i := 0 to |ms|
      invariant forall r :: r in FlatMap(AssistantRequests, ms[..i]) ==> r.id != id
    {
      hide FlatMap;
      FlatMapStep(AssistantRequests, ms, i);
      if ms[i].role == "assistant" {
        var content := ms[i].content;
        for j := 0 to |content|
          invariant forall r :: r in FlatMap(RequestOf, content[..j]) ==> r.id != id
        {
          FlatMapStep(RequestOf, content, j);
          if content[j].ToolUse? && content[j].id == id {
            NameFound(ms, i, j);
            return content[j].name;
          }
        }
        assert content[..|content|] == content;
      }
    }
    assert ms[..|ms|] == ms;
    NameMissing(FlatMap(AssistantRequests, ms), id);
    return "";
  }

  lemma {:induction false} NameMissing(rs: seq<Request>, id: string)
    requires forall r :: r in rs ==> r.id != id
    ensures FirstName(rs, id) == ""
  {
    if rs != [] { NameMissing(rs[1..], id); }
  }

  lemma {:induction false} NameAfter(before: seq<Request>, r: Request, after: seq<Request>)
    requires forall q :: q in before ==> q.id != r.id
    ensures FirstName(before + [r] + after, r.id) == r.name
  {
    if before != [] {
      assert (before + [r] + after)[1..] == before[1..] + [r] + after;
      NameAfter(before[1..], r, after);
    }
  }

  lemma NameFound(ms: seq<Message>, i: nat, j: nat)
    requires i < |ms| && ms[i].role == "assistant" && j < |ms[i].content| && ms[i].content[j].ToolUse?
    requires forall r :: r in FlatMap(AssistantRequests, ms[..i]) ==> r.id != ms[i].content[j].id
    requires forall r :: r in FlatMap(RequestOf, ms[i].content[..j]) ==> r.id != ms[i].content[j].id
    ensures FirstName(FlatMap(AssistantRequests, ms), ms[i].content[j].id) == ms[i].content[j].name
  {
    hide FlatMap;
    var content := ms[i].content;
    var r := Request(content[j].id, content[j].name, content[j].input);
    assert ms[..i] + ([ms[i]] + ms[i + 1..]) == ms;
    FlatMapAppend(AssistantRequests, ms[..i], [ms[i]] + ms[i + 1..]);
    FlatMapAppend(AssistantRequests, [ms[i]], ms[i + 1..]);
    FlatMapOne(AssistantRequests, ms[i]);
    assert content[..j] + ([content[j]] + content[j + 1..]) == content;
    FlatMapAppend(RequestOf, content[..j], [content[j]] + content[j + 1..]);
    FlatMapAppend(RequestOf, [content[j]], content[j + 1..]);
    FlatMapOne(RequestOf, content[j]);
    var before := FlatMap(AssistantRequests, ms[..i]) + FlatMap(RequestOf, content[..j]);
    var after := FlatMap(RequestOf, content[j + 1..]) + FlatMap(AssistantRequests, ms[i + 1..]);
    assert FlatMap(AssistantRequests, ms) == before + [r] + after;
    NameAfter(before, r, after);
  }

  function Decoded(parse: string -> Option<Json>, output: string): Response {
    if parse(output).Some? then Parsed(parse(output).value) else Raw(output)
  }

  function ResponseOf(parse: string -> Option<Json>, all: seq<Request>): Item -> seq<Part> {
    (i: Item) => if i.ToolResult? then [ResponsePart(FirstName(all, i.useId), Decoded(parse, i.output))] else []
  }

  function ModelPart(i: Item): seq<Part> {
    match i
    case Words(text) => if text != "" then [TextPart(text)] else []
    case ToolUse(_, name, input) => [CallPart(name, input)]
    case _ => []
  }

  function UserPart(i: Item): seq<Part> { if i.Words? && i.text != "" then [TextPart(i.text)] else [] }

  function PartsOf(parse: string -> Option<Json>, all: seq<Request>, m: Message): seq<Part> {
    if m.role == "tool" then FlatMap(ResponseOf(parse, all), m.content)
    else if m.role == "assistant" then FlatMap(ModelPart, m.content)
    else FlatMap(UserPart, m.content)
  }

  function GeminiOf(parse: string -> Option<Json>, all: seq<Request>): Message -> seq<Content> {
    (m: Message) => var parts := PartsOf(parse, all, m);
         if parts == [] then [] else [Content(if m.role == "assistant" then "model" else "user", parts)]
  }

  function GeminiAll(parse: string -> Option<Json>, input: seq<Message>): seq<Content> {
    FlatMap(GeminiOf(parse, FlatMap(AssistantRequests, input)), input)
  }

  method GeminiContents(parse: string -> Option<Json>, input: seq<Message>) returns (out: seq<Content>)
    ensures out == GeminiAll(parse, input)
  {
    hide FlatMap, GeminiOf, PartsOf;
    out := [];
    ghost var all := FlatMap(AssistantRequests, input);
    FlatMapEmpty(GeminiOf(parse, all));
    for i := 0 to |input|
      invariant out == FlatMap(GeminiOf(parse, all), input[..i])
    {
      var m := input[i];
      FlatMapStep(GeminiOf(parse, all), input, i);
      GeminiIs(parse, all, m);
      var parts;
      if m.role == "tool" {
        parts := ToolParts(parse, m, input);
      } else if m.role == "assistant" {
        parts := ModelParts(m);
      } else {
        parts := UserParts(m);
      }
      if |parts| > 0 {
        out := out + [Content(if m.role == "assistant" then "model" else "user", parts)];
      }
    }
    assert input[..|input|] == input;
  }

  lemma GeminiIs(parse: string -> Option<Json>, all: seq<Request>, m: Message)
    ensures PartsOf(parse, all, m) ==
              if m.role == "tool" then FlatMap(ResponseOf(parse, all), m.content)
              else if m.role == "assistant" then FlatMap(ModelPart, m.content)
              else FlatMap(UserPart, m.content)
    ensures GeminiOf(parse, all)(m) ==
              if PartsOf(parse, all, m) == [] then []
              else [Content(if m.role == "assistant" then "model" else "user", PartsOf(parse, all, m))]
  {
  }

  /** The three inner loops, one per kind of message. */
  method ToolParts(parse: string -> Option<Json>, m: Message, input: seq<Message>) returns (parts: seq<Part>)
    ensures parts == FlatMap(ResponseOf(parse, FlatMap(AssistantRequests, input)), m.content)
  {
    hide FlatMap;
    ghost var all := FlatMap(AssistantRequests, input);
    parts := [];
    FlatMapEmpty(ResponseOf(parse, all));
    for j := 0 to |m.content|
      invariant parts == FlatMap(ResponseOf(parse, all), m.content[..j])
    {
      FlatMapStep(ResponseOf(parse, all), m.content, j);
      if m.content[j].ToolResult? {
        var name := ToolNameForResult(m.content[j].useId, input);
        var value := parse(m.content[j].output);
        var response := if value.Some? then Parsed(value.value) else Raw(m.content[j].output);
        parts := parts + [ResponsePart(name, response)];
      }
    }
    assert m.content[..|m.content|] == m.content;
  }

  method ModelParts(m: Message) returns (parts: seq<Part>)
    ensures parts == FlatMap(ModelPart, m.content)
  {
    hide FlatMap;
    parts := [];
    FlatMapEmpty(ModelPart);
    for j := 0 to |m.content|
      invariant parts == FlatMap(ModelPart, m.content[..j])
    {
      FlatMapStep(ModelPart, m.content, j);
      match m.content[j]
      case Words(t) =>
        if t != "" {
          parts := parts + [TextPart(t)];
        }
      case ToolUse(_, name, args) => parts := parts + [CallPart(name, args)];
      case _ =>
    }
    assert m.content[..|m.content|] == m.content;
  }

  method UserParts(m: Message) returns (parts: seq<Part>)
    ensures parts == FlatMap(UserPart, m.content)
  {
    hide FlatMap;
    parts := [];
    FlatMapEmpty(UserPart);
    for j := 0 to |m.content|
      invariant parts == FlatMap(UserPart, m.content[..j])
    {
      FlatMapStep(UserPart, m.content, j);
      if m.content[j].Words? && m.content[j].text != "" {
        parts := parts + [TextPart(m.content[j].text)];
      }
    }
    assert m.content[..|m.content|] == m.content;
  }

  datatype GeminiCall = GeminiCall(name: string, args: Json)
  datatype GeminiReply = GeminiReply(name: string, response: Response)

  function PartCall(p: Part): seq<GeminiCall> { if p.CallPart? then [GeminiCall(p.name, p.args)] else [] }
  function PartReply(p: Part): seq<GeminiReply> { if p.ResponsePart? then [GeminiReply(p.name, p.response)] else [] }
  function PartText(p: Part): string { if p.TextPart? then p.text else "" }

  function ContentCalls(c: Content): seq<GeminiCall> { FlatMap(PartCall, c.parts) }
  function ContentReplies(c: Content): seq<GeminiReply> { FlatMap(PartReply, c.parts) }

  /** Gemini's rule: a content with function calls is followed at once by a user content
      with one response per call, of the same name, in order, and no other content has any. */
  predicate GeminiPaired(out: seq<Content>) {
    if out == [] then true
    else if ContentReplies(out[0]) != [] then false
    else if ContentCalls(out[0]) == [] then GeminiPaired(out[1..])
    else
      && |out| >= 2 && out[0].role == "model" && out[1].role == "user" && ContentCalls(out[1]) == []
      && (var calls, replies := ContentCalls(out[0]), ContentReplies(out[1]);
          |calls| == |replies| && forall i :: 0 <= i < |calls| ==> replies[i].name == calls[i].name)
      && GeminiPaired(out[2..])
  }
}
