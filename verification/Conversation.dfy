/** The messages of a chat: what every stage must keep of the tool calls in them, and the
    transcript that the web client builds (`submit` of `web/src/components/ChatPanel.tsx`). */
module Conversation {
  import opened Text
  import opened Lists

  /** A JSON value, written out. */
  type Json = string

  // ---------- messages ----------

  /** A content item; one of a type that no stage knows is `Unknown`. */
  datatype Item =
    | Words(text: string)
    | ToolUse(id: string, name: string, input: Json)
    | ToolResult(useId: string, output: string)
    | Unknown

  datatype Message = Message(role: string, content: seq<Item>)

  datatype Request = Request(id: string, name: string, input: Json)
  datatype Reply = Reply(useId: string, output: string)

  /** What a stream sends. */
  datatype Event =
    | TextEvent(text: string)
    | UseEvent(id: string, name: string, input: Json)
    | ResultEvent(useId: string, output: string)
    | DoneEvent
    | ErrorEvent(message: string)

  function RequestOf(i: Item): seq<Request> { if i.ToolUse? then [Request(i.id, i.name, i.input)] else [] }
  function ReplyOf(i: Item): seq<Reply> { if i.ToolResult? then [Reply(i.useId, i.output)] else [] }

  function Requests(m: Message): seq<Request> { FlatMap(RequestOf, m.content) }
  function Replies(m: Message): seq<Reply> { FlatMap(ReplyOf, m.content) }

  /** The replies answer the requests: each once, and in order. */
  predicate Answer(requests: seq<Request>, replies: seq<Reply>) {
    |requests| == |replies| && forall i :: 0 <= i < |requests| ==> replies[i].useId == requests[i].id
  }

  /** Tool calls are an assistant's; a message with some is followed at once by one tool
      message that answers them, and there is no other tool message. */
  predicate Paired(ms: seq<Message>) {
    if ms == [] then true
    else if ms[0].role == "tool" || Replies(ms[0]) != [] then false
    else if Requests(ms[0]) == [] then Paired(ms[1..])
    else |ms| >= 2 && ms[0].role == "assistant" && ms[1].role == "tool" && Requests(ms[1]) == []
         && Answer(Requests(ms[0]), Replies(ms[1])) && Paired(ms[2..])
  }

  lemma {:induction false} PairedAppend(a: seq<Message>, b: seq<Message>)
    requires Paired(a)
    ensures Paired(a + b) <==> Paired(b)
    decreases |a|
  {
    if a == [] {
      assert a + b == b;
    } else if Requests(a[0]) == [] {
      assert (a + b)[1..] == a[1..] + b;
      PairedAppend(a[1..], b);
    } else {
      assert (a + b)[2..] == a[2..] + b;
      PairedAppend(a[2..], b);
    }
  }

  function AllRequests(ms: seq<Message>): seq<Request> { FlatMap(Requests, ms) }
  function AllReplies(ms: seq<Message>): seq<Reply> { FlatMap(Replies, ms) }

  /** Over a whole paired list the replies answer the requests one to one, in order. */
  lemma {:induction false} PairedAnswers(ms: seq<Message>)
    requires Paired(ms)
    ensures Answer(AllRequests(ms), AllReplies(ms))
    decreases |ms|
  {
    hide FlatMap;
    if ms != [] {
      FlatMapCons(Requests, ms);
      FlatMapCons(Replies, ms);
      if Requests(ms[0]) == [] {
        PairedAnswers(ms[1..]);
      } else {
        FlatMapCons(Requests, ms[1..]);
        FlatMapCons(Replies, ms[1..]);
        assert ms[1..][1..] == ms[2..];
        PairedAnswers(ms[2..]);
        assert AllRequests(ms) == Requests(ms[0]) + AllRequests(ms[2..]);
        assert AllReplies(ms) == Replies(ms[1]) + AllReplies(ms[2..]);
      }
    } else {
      assert AllRequests(ms) == [] && AllReplies(ms) == [] by {
        FlatMapEmpty(Requests);
        FlatMapEmpty(Replies);
      }
    }
  }

  // ---------- the client's transcript ----------

  datatype Block =
    | TextBlock(text: string)
    | CallBlock(id: string, name: string, input: Json, output: Option<string>)

  datatype Speaker = User | Assistant
  datatype Stored = Stored(speaker: Speaker, blocks: seq<Block>)

  const INTERRUPTED := "(no result — previous turn was interrupted)"

  function UserText(b: Block): string { if b.TextBlock? then b.text else "" }

  function ContentOf(b: Block): seq<Item> {
    match b
    case TextBlock(text) => if text != "" then [Words(text)] else []
    case CallBlock(id, name, input, _) => [ToolUse(id, name, input)]
  }

  function ResultOf(b: Block): seq<Item> {
    if b.CallBlock? then [ToolResult(b.id, b.output.GetOr(INTERRUPTED))] else []
  }

  function Entries(m: Stored): seq<Message> {
    if m.speaker == User then [Message("user", [Words(FlatMap(UserText, m.blocks))])]
    else
      var content := FlatMap(ContentOf, m.blocks);
      var results := FlatMap(ResultOf, m.blocks);
      (if content != [] then [Message("assistant", content)] else []) +
      (if results != [] then [Message("tool", results)] else [])
  }

  function Transcript(stored: seq<Stored>): seq<Message> { FlatMap(Entries, stored) }

  // ---------- whose words it holds ----------

  /** The texts of a stored message, one after another. */
  function AllText(blocks: seq<Block>): string {
    if blocks == [] then "" else (if blocks[0].TextBlock? then blocks[0].text else "") + AllText(blocks[1..])
  }

  /** Its texts and its calls, in order, without the empty texts. */
  function SaidIn(blocks: seq<Block>): seq<Item> {
    if blocks == [] then []
    else
      (match blocks[0]
       case TextBlock(text) => if text == "" then [] else [Words(text)]
       case CallBlock(id, name, input, _) => [ToolUse(id, name, input)]) + SaidIn(blocks[1..])
  }

  /** What answers its calls, in order. */
  function ReturnedIn(blocks: seq<Block>): seq<Item> {
    if blocks == [] then []
    else
      (match blocks[0]
       case TextBlock(_) => []
       case CallBlock(id, _, _, Some(output)) => [ToolResult(id, output)]
       case CallBlock(id, _, _, None) => [ToolResult(id, "(no result — previous turn was interrupted)")])
      + ReturnedIn(blocks[1..])
  }

  function AsUser(m: Stored): seq<Message> {
    if m.speaker == User then [Message("user", [Words(AllText(m.blocks))])] else []
  }

  function AsAssistant(m: Stored): seq<Message> {
    if m.speaker == Assistant && SaidIn(m.blocks) != [] then [Message("assistant", SaidIn(m.blocks))] else []
  }

  function AsTool(m: Stored): seq<Message> {
    if m.speaker == Assistant && ReturnedIn(m.blocks) != [] then [Message("tool", ReturnedIn(m.blocks))] else []
  }

  function HasRole(role: string): Message -> seq<Message> { (m: Message) => if m.role == role then [m] else [] }

  /** The messages of one role, in order. */
  function OfRole(role: string, ms: seq<Message>): seq<Message> { FlatMap(HasRole(role), ms) }

  lemma {:induction false} BlocksRead(blocks: seq<Block>)
    ensures FlatMap(UserText, blocks) == AllText(blocks)
    ensures FlatMap(ContentOf, blocks) == SaidIn(blocks)
    ensures FlatMap(ResultOf, blocks) == ReturnedIn(blocks)
  {
    hide FlatMap;
    FlatMapEmpty(UserText);
    FlatMapEmpty(ContentOf);
    FlatMapEmpty(ResultOf);
    if blocks != [] {
      BlocksRead(blocks[1..]);
      FlatMapCons(UserText, blocks);
      FlatMapCons(ContentOf, blocks);
      FlatMapCons(ResultOf, blocks);
    }
  }

  lemma OneOrTwo(role: string, a: Message, b: Message)
    ensures OfRole(role, []) == []
    ensures OfRole(role, [a]) == if a.role == role then [a] else []
    ensures OfRole(role, [a, b]) == OfRole(role, [a]) + OfRole(role, [b])
  {
    FlatMapOne(HasRole(role), a);
    assert [a, b] == [a] + [b];
    FlatMapAppend(HasRole(role), [a], [b]);
  }

  /** What one stored message becomes. */
  lemma EntriesRoles(m: Stored)
    ensures OfRole("user", Entries(m)) == AsUser(m)
    ensures OfRole("assistant", Entries(m)) == AsAssistant(m)
    ensures OfRole("tool", Entries(m)) == AsTool(m)
    ensures forall e :: e in Entries(m) ==> e.role in {"user", "assistant", "tool"}
  {
    hide FlatMap, OfRole, AllText, SaidIn, ReturnedIn;
    BlocksRead(m.blocks);
    var user := Message("user", [Words(AllText(m.blocks))]);
    var answer, results := Message("assistant", SaidIn(m.blocks)), Message("tool", ReturnedIn(m.blocks));
    RolesApart();
    forall role ensures OneRole(role, user, answer, results) { RolesOfEach(role, user, answer, results); }
    assert OneRole("user", user, answer, results) && OneRole("assistant", user, answer, results)
        && OneRole("tool", user, answer, results);
    if m.speaker == User {
      assert Entries(m) == [user];
    } else if answer.content == [] {
      assert Entries(m) == if results.content != [] then [results] else [];
    } else {
      assert Entries(m) == if results.content != [] then [answer, results] else [answer];
    }
  }

  lemma RolesApart()
    ensures "user" != "assistant" && "user" != "tool" && "assistant" != "tool"
  {
    assert "user"[0] == 'u' && "assistant"[0] == 'a' && "tool"[0] == 't';
  }

  lemma RolesOfEach(role: string, user: Message, answer: Message, results: Message)
    ensures OneRole(role, user, answer, results)
  {
    hide OfRole;
    OneOrTwo(role, user, user);
    OneOrTwo(role, answer, results);
    OneOrTwo(role, results, results);
  }

  predicate OneRole(role: string, user: Message, answer: Message, results: Message) {
    && OfRole(role, []) == []
    && OfRole(role, [user]) == (if user.role == role then [user] else [])
    && OfRole(role, [answer]) == (if answer.role == role then [answer] else [])
    && OfRole(role, [results]) == (if results.role == role then [results] else [])
    && OfRole(role, [answer, results]) == (if answer.role == role then [answer] else [])
        + (if results.role == role then [results] else [])
  }

  /** Of whatever is stored, the transcript has one message under `user` for each message of the
      user, with all its words; one under `assistant` for each answer with words or calls,
      with these in order; one under `tool` for each answer with calls, with their outputs or
      the placeholder; and no others.  The new text is the last message, the user's. */
  lemma TranscriptRoles(stored: seq<Stored>, text: string)
    ensures var t := Transcript(stored + [Stored(User, [TextBlock(text)])]);
            && OfRole("user", t) == FlatMap(AsUser, stored) + [Message("user", [Words(text)])]
            && OfRole("assistant", t) == FlatMap(AsAssistant, stored)
            && OfRole("tool", t) == FlatMap(AsTool, stored)
            && (forall m :: m in t ==> m.role in {"user", "assistant", "tool"})
            && t != [] && t[|t| - 1] == Message("user", [Words(text)])
  {
    hide FlatMap, Entries, AsUser, AsAssistant, AsTool;
    var last := Stored(User, [TextBlock(text)]);
    forall m: Stored
      ensures OfRole("user", Entries(m)) == AsUser(m) && OfRole("assistant", Entries(m)) == AsAssistant(m)
          && OfRole("tool", Entries(m)) == AsTool(m)
    {
      EntriesRoles(m);
    }
    NewEntry(text);
    FlatMapAppend(Entries, stored, [last]);
    FlatMapOne(Entries, last);
    var before := FlatMap(Entries, stored);
    FlatMapAppend(HasRole("user"), before, Entries(last));
    FlatMapAppend(HasRole("assistant"), before, Entries(last));
    FlatMapAppend(HasRole("tool"), before, Entries(last));
    FlatMapCompose(Entries, HasRole("user"), AsUser, stored);
    FlatMapCompose(Entries, HasRole("assistant"), AsAssistant, stored);
    FlatMapCompose(Entries, HasRole("tool"), AsTool, stored);
    RolesKnown(stored);
  }

  lemma NewEntry(text: string)
    ensures var last := Stored(User, [TextBlock(text)]);
            && Entries(last) == [Message("user", [Words(text)])] == AsUser(last)
            && AsAssistant(last) == [] && AsTool(last) == []
  {
    hide FlatMap;
    var b := TextBlock(text);
    FlatMapOne(UserText, b);
    assert [b][1..] == [] && AllText([b]) == text + "" == text;
    assert Stored(User, [TextBlock(text)]).blocks == [b];
  }

  lemma {:induction false} RolesKnown(stored: seq<Stored>)
    ensures forall m :: m in Transcript(stored) ==> m.role in {"user", "assistant", "tool"}
  {
    hide Entries;
    if stored != [] {
      RolesKnown(stored[..|stored| - 1]);
      EntriesRoles(stored[|stored| - 1]);
    }
  }

  method BuildTranscript(messages: seq<Stored>, text: string) returns (transcript: seq<Message>)
    ensures transcript == Transcript(messages + [Stored(User, [TextBlock(text)])])
    ensures OfRole("user", transcript) == FlatMap(AsUser, messages) + [Message("user", [Words(text)])]
    ensures OfRole("assistant", transcript) == FlatMap(AsAssistant, messages)
    ensures OfRole("tool", transcript) == FlatMap(AsTool, messages)
    ensures transcript != [] && transcript[|transcript| - 1] == Message("user", [Words(text)])
  {
    hide FlatMap, OfRole, AsUser, AsAssistant, AsTool;
    TranscriptRoles(messages, text);
    transcript := [];
    var all := messages + [Stored(User, [TextBlock(text)])];
    FlatMapEmpty(Entries);
    for i := 0 to |all|
      invariant transcript == FlatMap(Entries, all[..i])
    {
      var m := all[i];
      FlatMapStep(Entries, all, i);
      if m.speaker == User {
        var userText := JoinText(m.blocks);
        transcript := transcript + [Message("user", [Words(userText)])];
      } else {
        var content, toolResults := WalkBlocks(m.blocks);
        if content != [] {
          transcript := transcript + [Message("assistant", content)];
        }
        if toolResults != [] {
          transcript := transcript + [Message("tool", toolResults)];
        }
      }
    }
    assert all[..|all|] == all;
  }

  /** The two inner loops: a user's text, and the blocks of an answer. */
  method JoinText(blocks: seq<Block>) returns (userText: string)
    ensures userText == FlatMap(UserText, blocks)
  {
    hide FlatMap;
    userText := "";
    FlatMapEmpty(UserText);
    for j := 0 to |blocks|
      invariant userText == FlatMap(UserText, blocks[..j])
    {
      FlatMapStep(UserText, blocks, j);
      if blocks[j].TextBlock? {
        userText := userText + blocks[j].text;
      }
    }
    assert blocks[..|blocks|] == blocks;
  }

  method WalkBlocks(blocks: seq<Block>) returns (content: seq<Item>, toolResults: seq<Item>)
    ensures content == FlatMap(ContentOf, blocks) && toolResults == FlatMap(ResultOf, blocks)
  {
    hide FlatMap;
    content, toolResults := [], [];
    FlatMapEmpty(ContentOf);
    FlatMapEmpty(ResultOf);
    for j := 0 to |blocks|
      invariant content == FlatMap(ContentOf, blocks[..j])
      invariant toolResults == FlatMap(ResultOf, blocks[..j])
    {
      FlatMapStep(ContentOf, blocks, j);
      FlatMapStep(ResultOf, blocks, j);
      match blocks[j]
      case TextBlock(t) =>
        if t != "" {
          content := content + [Words(t)];
        }
      case CallBlock(id, name, input, output) =>
        content := content + [ToolUse(id, name, input)];
        toolResults := toolResults + [ToolResult(id, output.GetOr(INTERRUPTED))];
    }
    assert blocks[..|blocks|] == blocks;
  }

  // ---------- the transcript is paired ----------

  function StoredRequest(b: Block): seq<Request> { if b.CallBlock? then [Request(b.id, b.name, b.input)] else [] }
  function StoredReply(b: Block): seq<Reply> {
    if b.CallBlock? then [Reply(b.id, b.output.GetOr(INTERRUPTED))] else []
  }

  /** What one stored answer becomes: its calls and their outputs, block by block. */
  lemma BlocksKept(blocks: seq<Block>)
    ensures var content := FlatMap(ContentOf, blocks);
            var results := FlatMap(ResultOf, blocks);
            && FlatMap(RequestOf, content) == FlatMap(StoredRequest, blocks)
            && FlatMap(ReplyOf, content) == [] && FlatMap(RequestOf, results) == []
            && FlatMap(ReplyOf, results) == FlatMap(StoredReply, blocks)
  {
    hide FlatMap;
    forall b: Block ensures FlatMap(RequestOf, ContentOf(b)) == StoredRequest(b) && FlatMap(ReplyOf, ContentOf(b)) == []
      && FlatMap(RequestOf, ResultOf(b)) == [] && FlatMap(ReplyOf, ResultOf(b)) == StoredReply(b)
    {
      BlockKept(b);
    }
    FlatMapCompose(ContentOf, RequestOf, StoredRequest, blocks);
    FlatMapCompose(ResultOf, ReplyOf, StoredReply, blocks);
    FlatMapNone(ContentOf, ReplyOf, blocks);
    FlatMapNone(ResultOf, RequestOf, blocks);
  }

  lemma BlockKept(b: Block)
    ensures FlatMap(RequestOf, ContentOf(b)) == StoredRequest(b) && FlatMap(ReplyOf, ContentOf(b)) == []
    ensures FlatMap(RequestOf, ResultOf(b)) == [] && FlatMap(ReplyOf, ResultOf(b)) == StoredReply(b)
  {
    match b
    case TextBlock(t) => FlatMapOne(RequestOf, Words(t)); FlatMapOne(ReplyOf, Words(t));
    case CallBlock(id, name, input, output) =>
      var use, result := ToolUse(id, name, input), ToolResult(id, output.GetOr(INTERRUPTED));
      FlatMapOne(RequestOf, use); FlatMapOne(ReplyOf, use);
      FlatMapOne(RequestOf, result); FlatMapOne(ReplyOf, result);
  }

  lemma {:induction false} StoredAnswer(blocks: seq<Block>)
    ensures Answer(FlatMap(StoredRequest, blocks), FlatMap(StoredReply, blocks))
  {
    if blocks != [] {
      StoredAnswer(blocks[..|blocks| - 1]);
    }
  }

  lemma ResultsNotEmpty(blocks: seq<Block>)
    ensures (FlatMap(ResultOf, blocks) == []) == (FlatMap(StoredRequest, blocks) == [])
    ensures FlatMap(ContentOf, blocks) == [] ==> FlatMap(StoredRequest, blocks) == []
  {
    BlocksKept(blocks);
    StoredAnswer(blocks);
    FlatMapEmpty(RequestOf);
    FlatMapEmpty(ReplyOf);
    CountResults(blocks);
  }

  lemma {:induction false} CountResults(blocks: seq<Block>)
    ensures |FlatMap(ResultOf, blocks)| == |FlatMap(StoredRequest, blocks)|
  {
    if blocks != [] {
      CountResults(blocks[..|blocks| - 1]);
    }
  }

  /** The calls of one stored message, which only an assistant's message has. */
  function Calls(m: Stored): seq<Request> {
    if m.speaker == User then [] else FlatMap(StoredRequest, m.blocks)
  }

  /** Their outputs; the client fills in for a call that was interrupted. */
  function Outputs(m: Stored): seq<Reply> {
    if m.speaker == User then [] else FlatMap(StoredReply, m.blocks)
  }

  lemma EntriesPaired(m: Stored)
    ensures Paired(Entries(m)) && AllRequests(Entries(m)) == Calls(m) && AllReplies(Entries(m)) == Outputs(m)
  {
    hide FlatMap;
    FlatMapEmpty(Requests);
    FlatMapEmpty(Replies);
    if m.speaker == User {
      var user := Message("user", [Words(FlatMap(UserText, m.blocks))]);
      FlatMapOne(RequestOf, user.content[0]);
      FlatMapOne(ReplyOf, user.content[0]);
      FlatMapOne(Requests, user);
      FlatMapOne(Replies, user);
    } else {
      var answer := Message("assistant", FlatMap(ContentOf, m.blocks));
      var results := Message("tool", FlatMap(ResultOf, m.blocks));
      BlocksKept(m.blocks);
      ResultsNotEmpty(m.blocks);
      StoredAnswer(m.blocks);
      FlatMapOne(Requests, answer);
      FlatMapOne(Requests, results);
      FlatMapOne(Replies, answer);
      FlatMapOne(Replies, results);
      FlatMapAppend(Requests, [answer], [results]);
      FlatMapAppend(Replies, [answer], [results]);
      assert [answer] + [results] == [answer, results];
      assert Requests(answer) == Calls(m) && Replies(results) == Outputs(m);
      if results.content == [] {
        assert Calls(m) == [] && Outputs(m) == [];
        assert Entries(m) == if answer.content != [] then [answer] else [];
      } else {
        assert Entries(m) == [answer, results];
      }
    }
  }

  lemma TranscriptEmpty()
    ensures Paired(Transcript([])) && AllRequests(Transcript([])) == FlatMap(Calls, []) == []
    ensures AllReplies(Transcript([])) == FlatMap(Outputs, []) == []
  {
  }

  lemma TranscriptStep(stored: seq<Stored>, m: Stored)
    requires Paired(Transcript(stored))
    requires AllRequests(Transcript(stored)) == FlatMap(Calls, stored)
    requires AllReplies(Transcript(stored)) == FlatMap(Outputs, stored)
    ensures Paired(Transcript(stored + [m]))
    ensures AllRequests(Transcript(stored + [m])) == FlatMap(Calls, stored + [m])
    ensures AllReplies(Transcript(stored + [m])) == FlatMap(Outputs, stored + [m])
  {
    hide FlatMap, Entries, Paired, Calls, Outputs;
    EntriesPaired(m);
    FlatMapAppend(Entries, stored, [m]);
    FlatMapOne(Entries, m);
    FlatMapAppend(Calls, stored, [m]);
    FlatMapOne(Calls, m);
    FlatMapAppend(Outputs, stored, [m]);
    FlatMapOne(Outputs, m);
    FlatMapAppend(Requests, Transcript(stored), Entries(m));
    FlatMapAppend(Replies, Transcript(stored), Entries(m));
    PairedAppend(Transcript(stored), Entries(m));
  }

  /** Whatever is stored, interrupted turns included, the client's transcript is paired; it
      asks for exactly the stored calls, and answers each with its stored output. */
  lemma {:induction false} TranscriptPaired(stored: seq<Stored>)
    ensures Paired(Transcript(stored))
    ensures AllRequests(Transcript(stored)) == FlatMap(Calls, stored)
    ensures AllReplies(Transcript(stored)) == FlatMap(Outputs, stored)
  {
    hide *;
    if stored == [] {
      TranscriptEmpty();
    } else {
      var n := |stored| - 1;
      TranscriptPaired(stored[..n]);
      TranscriptStep(stored[..n], stored[n]);
      assert stored[..n] + [stored[n]] == stored;
    }
  }
}
