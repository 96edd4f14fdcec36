/** The client's store (`web/src/store/chat.ts`), fed with the events of a run by the event
    handler of `submit` in `web/src/components/ChatPanel.tsx`: what the next transcript
    will say of the calls and results of this turn. */
module ClientStore {
  import opened Text
  import opened Lists
  import opened Conversation
  import opened Orchestrator
  import opened ToolStreams
  import ConversationLaws

  function AssistantLast(s: seq<Stored>): (r: seq<Stored>)
    ensures r != [] && r[|r| - 1].speaker == Assistant
  {
    if s == [] || s[|s| - 1].speaker != Assistant then s + [Stored(Assistant, [])] else s
  }

  function AppendText(s: seq<Stored>, chunk: string): seq<Stored> {
    var msgs := AssistantLast(s);
    var n := |msgs| - 1;
    var blocks := msgs[n].blocks;
    var k := |blocks| - 1;
    if blocks != [] && blocks[k].TextBlock? then
      msgs[..n] + [Stored(Assistant, blocks[..k] + [TextBlock(blocks[k].text + chunk)])]
    else msgs[..n] + [Stored(Assistant, blocks + [TextBlock(chunk)])]
  }

  function AddToolCall(s: seq<Stored>, id: string, name: string, input: Json): seq<Stored> {
    var msgs := AssistantLast(s);
    var n := |msgs| - 1;
    msgs[..n] + [Stored(Assistant, msgs[n].blocks + [CallBlock(id, name, input, None)])]
  }

  function SetBlock(id: string, output: string): Block -> seq<Block> {
    (b: Block) => [if b.CallBlock? && b.id == id then b.(output := Some(output)) else b]
  }

  function SetMessage(id: string, output: string): Stored -> seq<Stored> {
    (m: Stored) => [m.(blocks := FlatMap(SetBlock(id, output), m.blocks))]
  }

  /** Every call with this id gets the output, in whatever message it stands. */
  function SetToolOutput(s: seq<Stored>, id: string, output: string): seq<Stored> {
    FlatMap(SetMessage(id, output), s)
  }

  function Receive(s: seq<Stored>, e: Event): seq<Stored> {
    match e
    case TextEvent(text) => AppendText(s, text)
    case UseEvent(id, name, input) => AddToolCall(s, id, name, input)
    case ResultEvent(id, output) => SetToolOutput(s, id, output)
    case _ => s
  }

  function ReceiveAll(s: seq<Stored>, events: seq<Event>): seq<Stored> {
    if events == [] then s else Receive(ReceiveAll(s, events[..|events| - 1]), events[|events| - 1])
  }

  function StoredCalls(s: seq<Stored>): seq<Request> { FlatMap(Calls, s) }
  function StoredOutputs(s: seq<Stored>): seq<Reply> { FlatMap(Conversation.Outputs, s) }

  // ---------- one event ----------

  /** Appends blocks to an assistant's message that ends the store. */
  lemma LastMessage(msgs: seq<Stored>, m: Stored)
    ensures StoredCalls(msgs + [m]) == StoredCalls(msgs) + Calls(m)
    ensures StoredOutputs(msgs + [m]) == StoredOutputs(msgs) + Conversation.Outputs(m)
  {
    hide FlatMap;
    FlatMapAppend(Calls, msgs, [m]);
    FlatMapOne(Calls, m);
    FlatMapAppend(Conversation.Outputs, msgs, [m]);
    FlatMapOne(Conversation.Outputs, m);
  }

  lemma AssistantLastKeeps(s: seq<Stored>)
    ensures StoredCalls(AssistantLast(s)) == StoredCalls(s) && StoredOutputs(AssistantLast(s)) == StoredOutputs(s)
  {
    hide FlatMap;
    LastMessage(s, Stored(Assistant, []));
    FlatMapEmpty(StoredRequest);
    FlatMapEmpty(StoredReply);
    assert StoredCalls(s) + [] == StoredCalls(s) && StoredOutputs(s) + [] == StoredOutputs(s);
  }

  lemma LastBlock(blocks: seq<Block>, b: Block)
    ensures FlatMap(StoredRequest, blocks + [b]) == FlatMap(StoredRequest, blocks) + StoredRequest(b)
    ensures FlatMap(StoredReply, blocks + [b]) == FlatMap(StoredReply, blocks) + StoredReply(b)
  {
    FlatMapAppend(StoredRequest, blocks, [b]);
    FlatMapOne(StoredRequest, b);
    FlatMapAppend(StoredReply, blocks, [b]);
    FlatMapOne(StoredReply, b);
  }

  lemma TextKeepsCalls(s: seq<Stored>, chunk: string)
    ensures StoredCalls(AppendText(s, chunk)) == StoredCalls(s)
        && StoredOutputs(AppendText(s, chunk)) == StoredOutputs(s)
  {
    hide FlatMap;
    AssistantLastKeeps(s);
    var msgs := AssistantLast(s);
    var n := |msgs| - 1;
    var blocks := msgs[n].blocks;
    var k := |blocks| - 1;
    assert msgs == msgs[..n] + [Stored(Assistant, blocks)];
    LastMessage(msgs[..n], Stored(Assistant, blocks));
    if blocks != [] && blocks[k].TextBlock? {
      assert blocks == blocks[..k] + [blocks[k]];
      LastBlock(blocks[..k], blocks[k]);
      LastBlock(blocks[..k], TextBlock(blocks[k].text + chunk));
      LastMessage(msgs[..n], Stored(Assistant, blocks[..k] + [TextBlock(blocks[k].text + chunk)]));
    } else {
      LastBlock(blocks, TextBlock(chunk));
      LastMessage(msgs[..n], Stored(Assistant, blocks + [TextBlock(chunk)]));
      assert FlatMap(StoredRequest, blocks) + [] == FlatMap(StoredRequest, blocks);
      assert FlatMap(StoredReply, blocks) + [] == FlatMap(StoredReply, blocks);
    }
  }

  lemma CallAdded(s: seq<Stored>, id: string, name: string, input: Json)
    ensures StoredCalls(AddToolCall(s, id, name, input)) == StoredCalls(s) + [Request(id, name, input)]
    ensures StoredOutputs(AddToolCall(s, id, name, input)) == StoredOutputs(s) + [Reply(id, INTERRUPTED)]
  {
    hide FlatMap;
    AssistantLastKeeps(s);
    var msgs := AssistantLast(s);
    var n := |msgs| - 1;
    var blocks := msgs[n].blocks;
    assert msgs == msgs[..n] + [Stored(Assistant, blocks)];
    LastMessage(msgs[..n], Stored(Assistant, blocks));
    LastBlock(blocks, CallBlock(id, name, input, None));
    LastMessage(msgs[..n], Stored(Assistant, blocks + [CallBlock(id, name, input, None)]));
  }

  /** A result overwrites the outputs of all calls with its id. */
  function Overwrite(r: Reply): Reply -> seq<Reply> {
    (q: Reply) => [if q.useId == r.useId then r else q]
  }

  lemma BlockSet(id: string, output: string, b: Block)
    ensures FlatMap(StoredRequest, SetBlock(id, output)(b)) == StoredRequest(b)
    ensures FlatMap(StoredReply, SetBlock(id, output)(b)) == FlatMap(Overwrite(Reply(id, output)), StoredReply(b))
  {
    FlatMapOne(StoredRequest, SetBlock(id, output)(b)[0]);
    FlatMapOne(StoredReply, SetBlock(id, output)(b)[0]);
    if b.CallBlock? {
      FlatMapOne(Overwrite(Reply(id, output)), StoredReply(b)[0]);
    }
  }

  lemma {:induction false} BlocksSet(id: string, output: string, blocks: seq<Block>)
    ensures FlatMap(StoredRequest, FlatMap(SetBlock(id, output), blocks)) == FlatMap(StoredRequest, blocks)
    ensures FlatMap(StoredReply, FlatMap(SetBlock(id, output), blocks))
        == FlatMap(Overwrite(Reply(id, output)), FlatMap(StoredReply, blocks))
  {
    hide FlatMap, SetBlock, Overwrite;
    var r := Reply(id, output);
    if blocks == [] {
      FlatMapEmpty(StoredRequest);
      FlatMapEmpty(StoredReply);
      FlatMapEmpty(SetBlock(id, output));
      FlatMapEmpty(Overwrite(r));
    } else {
      var n := |blocks| - 1;
      BlocksSet(id, output, blocks[..n]);
      assert blocks[..n + 1] == blocks;
      FlatMapStep(SetBlock(id, output), blocks, n);
      FlatMapStep(StoredRequest, blocks, n);
      FlatMapStep(StoredReply, blocks, n);
      BlockSet(id, output, blocks[n]);
      FlatMapAppend(StoredRequest, FlatMap(SetBlock(id, output), blocks[..n]), SetBlock(id, output)(blocks[n]));
      FlatMapAppend(StoredReply, FlatMap(SetBlock(id, output), blocks[..n]), SetBlock(id, output)(blocks[n]));
      FlatMapAppend(Overwrite(r), FlatMap(StoredReply, blocks[..n]), StoredReply(blocks[n]));
    }
  }

  lemma {:induction false} OutputSet(s: seq<Stored>, id: string, output: string)
    ensures StoredCalls(SetToolOutput(s, id, output)) == StoredCalls(s)
    ensures StoredOutputs(SetToolOutput(s, id, output)) == FlatMap(Overwrite(Reply(id, output)), StoredOutputs(s))
  {
    hide FlatMap, SetBlock, Overwrite;
    var r := Reply(id, output);
    if s == [] {
      FlatMapEmpty(Calls);
      FlatMapEmpty(Conversation.Outputs);
      FlatMapEmpty(SetMessage(id, output));
      FlatMapEmpty(Overwrite(r));
    } else {
      var n := |s| - 1;
      OutputSet(s[..n], id, output);
      assert s[..n] + [s[n]] == s && s[..n + 1] == s;
      FlatMapStep(SetMessage(id, output), s, n);
      LastMessage(s[..n], s[n]);
      BlocksSet(id, output, s[n].blocks);
      var m := s[n].(blocks := FlatMap(SetBlock(id, output), s[n].blocks));
      LastMessage(FlatMap(SetMessage(id, output), s[..n]), m);
      FlatMapAppend(Overwrite(r), StoredOutputs(s[..n]), Conversation.Outputs(s[n]));
      FlatMapEmpty(Overwrite(r));
    }
  }

  // ---------- one turn ----------

  predicate Streamed(events: seq<Event>) {
    forall i :: 0 <= i < |events| ==> !events[i].ResultEvent?
  }

  function Unanswered(r: Request): seq<Reply> { [Reply(r.id, INTERRUPTED)] }

  lemma {:induction false} StreamStored(s: seq<Stored>, events: seq<Event>)
    requires Streamed(events)
    ensures var asked := FlatMap(RequestOfEvent, events);
            && StoredCalls(ReceiveAll(s, events)) == StoredCalls(s) + asked
            && StoredOutputs(ReceiveAll(s, events)) == StoredOutputs(s) + FlatMap(Unanswered, asked)
  {
    hide FlatMap, AppendText, AddToolCall, StoredCalls, StoredOutputs;
    if events == [] {
      FlatMapEmpty(RequestOfEvent);
      FlatMapEmpty(Unanswered);
    } else {
      var n := |events| - 1;
      StreamStored(s, events[..n]);
      var before, asked := ReceiveAll(s, events[..n]), FlatMap(RequestOfEvent, events[..n]);
      assert events[..n + 1] == events;
      FlatMapStep(RequestOfEvent, events, n);
      FlatMapAppend(Unanswered, asked, RequestOfEvent(events[n]));
      FlatMapEmpty(Unanswered);
      match events[n]
      case TextEvent(text) => TextKeepsCalls(before, text);
      case UseEvent(id, name, input) =>
        CallAdded(before, id, name, input);
        FlatMapOne(Unanswered, Request(id, name, input));
      case _ =>
    }
  }

  // ---------- words and calls, in the order in which they came ----------

  datatype Mark = Letter(c: char) | Called(r: Request)

  function Letters(text: string): seq<Mark> { seq(|text|, i requires 0 <= i < |text| => Letter(text[i])) }

  function BlockMarks(b: Block): seq<Mark> {
    match b
    case TextBlock(text) => Letters(text)
    case CallBlock(id, name, input, _) => [Called(Request(id, name, input))]
  }

  function EventMarks(e: Event): seq<Mark> {
    match e
    case TextEvent(text) => Letters(text)
    case UseEvent(id, name, input) => [Called(Request(id, name, input))]
    case _ => []
  }

  predicate Speaks(e: Event) { e.TextEvent? || e.UseEvent? }

  /** `t` is `s` with these marks added to the assistant's message that ends it, which is a
      new one if it does not end in one. */
  predicate Added(s: seq<Stored>, t: seq<Stored>, marks: seq<Mark>) {
    var base := if s != [] && s[|s| - 1].speaker == Assistant then s else s + [Stored(Assistant, [])];
    var n := |base| - 1;
    && |t| == |base| && t[..n] == base[..n] && t[n].speaker == Assistant
    && FlatMap(BlockMarks, t[n].blocks) == FlatMap(BlockMarks, base[n].blocks) + marks
  }

  lemma LettersJoin(a: string, b: string)
    ensures Letters(a + b) == Letters(a) + Letters(b)
  {
  }

  lemma TextAdded(s: seq<Stored>, chunk: string)
    ensures Added(s, AppendText(s, chunk), Letters(chunk))
  {
    hide FlatMap;
    var msgs := AssistantLast(s);
    var blocks := msgs[|msgs| - 1].blocks;
    var k := |blocks| - 1;
    if blocks != [] && blocks[k].TextBlock? {
      assert blocks == blocks[..k] + [blocks[k]];
      FlatMapAppend(BlockMarks, blocks[..k], [blocks[k]]);
      FlatMapOne(BlockMarks, blocks[k]);
      var longer := TextBlock(blocks[k].text + chunk);
      FlatMapAppend(BlockMarks, blocks[..k], [longer]);
      FlatMapOne(BlockMarks, longer);
      LettersJoin(blocks[k].text, chunk);
    } else {
      FlatMapAppend(BlockMarks, blocks, [TextBlock(chunk)]);
      FlatMapOne(BlockMarks, TextBlock(chunk));
    }
  }

  lemma CallMarked(s: seq<Stored>, id: string, name: string, input: Json)
    ensures Added(s, AddToolCall(s, id, name, input), [Called(Request(id, name, input))])
  {
    hide FlatMap;
    var msgs := AssistantLast(s);
    var call := CallBlock(id, name, input, None);
    FlatMapAppend(BlockMarks, msgs[|msgs| - 1].blocks, [call]);
    FlatMapOne(BlockMarks, call);
  }

  lemma AddedTwice(s: seq<Stored>, t: seq<Stored>, u: seq<Stored>, a: seq<Mark>, b: seq<Mark>)
    requires Added(s, t, a) && Added(t, u, b)
    ensures Added(s, u, a + b)
  {
    hide FlatMap;
  }

  /** A stream that says or calls anything adds that to the assistant's message that ends the
      store, every letter and every call in the order in which it came, and changes nothing
      else; one that does not leaves the store as it is. */
  lemma {:induction false} StreamAdded(s: seq<Stored>, events: seq<Event>)
    requires Streamed(events)
    ensures if exists e :: e in events && Speaks(e)
            then Added(s, ReceiveAll(s, events), FlatMap(EventMarks, events))
            else ReceiveAll(s, events) == s && FlatMap(EventMarks, events) == []
  {
    hide FlatMap, Receive, EventMarks, Added;
    if events == [] {
      FlatMapEmpty(EventMarks);
    } else {
      var n := |events| - 1;
      var before, e := events[..n], events[n];
      var t := ReceiveAll(s, before);
      StreamAdded(s, before);
      OneAdded(t, e);
      assert events[..n + 1] == events && e in events;
      FlatMapStep(EventMarks, events, n);
      assert forall x :: x in events <==> x in before || x == e;
      if exists x :: x in before && Speaks(x) {
        if Speaks(e) {
          AddedTwice(s, t, ReceiveAll(s, events), FlatMap(EventMarks, before), EventMarks(e));
        } else {
          assert FlatMap(EventMarks, before) + [] == FlatMap(EventMarks, before);
        }
      } else {
        assert [] + EventMarks(e) == EventMarks(e);
      }
    }
  }

  lemma OneAdded(s: seq<Stored>, e: Event)
    requires !e.ResultEvent?
    ensures if Speaks(e) then Added(s, Receive(s, e), EventMarks(e)) else Receive(s, e) == s && EventMarks(e) == []
  {
    hide AppendText, AddToolCall, Added;
    match e
    case TextEvent(text) => TextAdded(s, text);
    case UseEvent(id, name, input) => CallMarked(s, id, name, input);
    case _ =>
  }

  // ---------- the results of a turn ----------

  /** What is left of the outputs `all` when the replies have come in, one after another. */
  function OverwriteAll(all: seq<Reply>, replies: seq<Reply>): seq<Reply> {
    if replies == [] then all
    else FlatMap(Overwrite(replies[|replies| - 1]), OverwriteAll(all, replies[..|replies| - 1]))
  }

  lemma {:induction false} ResultsStored(s: seq<Stored>, replies: seq<Reply>)
    ensures var s' := ReceiveAll(s, FlatMap(ResultEventOf, replies));
            StoredCalls(s') == StoredCalls(s) && StoredOutputs(s') == OverwriteAll(StoredOutputs(s), replies)
  {
    hide FlatMap, SetToolOutput, StoredCalls, StoredOutputs, Overwrite;
    FlatMapEmpty(ResultEventOf);
    if replies != [] {
      var n := |replies| - 1;
      ResultsStored(s, replies[..n]);
      assert replies[..n + 1] == replies;
      FlatMapStep(ResultEventOf, replies, n);
      var before := FlatMap(ResultEventOf, replies[..n]);
      var e := ResultEvent(replies[n].useId, replies[n].output);
      assert (before + [e])[..|before|] == before;
      OutputSet(ReceiveAll(s, before), replies[n].useId, replies[n].output);
      assert Reply(replies[n].useId, replies[n].output) == replies[n];
    }
  }

  /** The last reply with this id, or what was there. */
  function Final(q: Reply, replies: seq<Reply>): Reply {
    if replies == [] then q
    else if replies[|replies| - 1].useId == q.useId then replies[|replies| - 1]
    else Final(q, replies[..|replies| - 1])
  }

  lemma {:induction false} OneEach(r: Reply, all: seq<Reply>)
    ensures |FlatMap(Overwrite(r), all)| == |all|
    ensures forall i :: 0 <= i < |all| ==>
        FlatMap(Overwrite(r), all)[i] == if all[i].useId == r.useId then r else all[i]
  {
    if all != [] { OneEach(r, all[..|all| - 1]); }
  }

  lemma {:induction false} FinalId(q: Reply, replies: seq<Reply>)
    ensures Final(q, replies).useId == q.useId
  {
    if replies != [] { FinalId(q, replies[..|replies| - 1]); }
  }

  lemma {:induction false} LastWins(all: seq<Reply>, replies: seq<Reply>)
    ensures |OverwriteAll(all, replies)| == |all|
    ensures forall i :: 0 <= i < |all| ==> OverwriteAll(all, replies)[i] == Final(all[i], replies)
  {
    hide FlatMap;
    if replies != [] {
      var n := |replies| - 1;
      LastWins(all, replies[..n]);
      OneEach(replies[n], OverwriteAll(all, replies[..n]));
      forall i | 0 <= i < |all| ensures OverwriteAll(all, replies)[i] == Final(all[i], replies) {
        FinalId(all[i], replies[..n]);
      }
    }
  }

  /** No id is answered in this turn that has, or had before, another output. */
  predicate NoIdReused(past: seq<Reply>, replies: seq<Reply>) {
    && (forall i, j :: 0 <= i < |replies| && 0 <= j < |replies| && replies[i].useId == replies[j].useId ==>
        replies[i] == replies[j])
    && (forall i, j :: 0 <= i < |past| && 0 <= j < |replies| && past[i].useId == replies[j].useId ==>
        past[i] == replies[j])
  }

  lemma {:induction false} FinalIs(q: Reply, replies: seq<Reply>)
    ensures (exists j :: 0 <= j < |replies| && replies[j].useId == q.useId) ==> Final(q, replies) in replies
    ensures (forall j :: 0 <= j < |replies| ==> replies[j].useId != q.useId) ==> Final(q, replies) == q
  {
    if replies != [] {
      var n := |replies| - 1;
      FinalIs(q, replies[..n]);
      if replies[n].useId != q.useId && exists j :: 0 <= j < |replies| && replies[j].useId == q.useId {
        var j :| 0 <= j < |replies| && replies[j].useId == q.useId;
        assert replies[..n][j].useId == q.useId;
      }
    }
  }

  lemma FinalSame(q: Reply, p: Reply, replies: seq<Reply>)
    requires q.useId == p.useId && exists j :: 0 <= j < |replies| && replies[j].useId == q.useId
    ensures Final(q, replies) == Final(p, replies)
    decreases |replies|
  {
    var n := |replies| - 1;
    if replies[n].useId != q.useId {
      var j :| 0 <= j < |replies| && replies[j].useId == q.useId;
      assert replies[..n][j].useId == q.useId;
      FinalSame(q, p, replies[..n]);
    }
  }

  lemma KeptMeansNoReuse(past: seq<Reply>, added: seq<Reply>, replies: seq<Reply>)
    requires |added| == |replies| && forall k :: 0 <= k < |replies| ==> added[k].useId == replies[k].useId
    ensures OverwriteAll(past + added, replies) == past + replies <==> NoIdReused(past, replies)
  {
    hide FlatMap, OverwriteAll;
    var all := past + added;
    LastWins(all, replies);
    if OverwriteAll(all, replies) == past + replies {
      forall i, j | 0 <= i < |replies| && 0 <= j < |replies| && replies[i].useId == replies[j].useId
        ensures replies[i] == replies[j]
      {
        assert all[|past| + i] == added[i] && all[|past| + j] == added[j];
        assert (past + replies)[|past| + i] == replies[i] && (past + replies)[|past| + j] == replies[j];
        FinalSame(added[i], added[j], replies);
      }
      forall i, j | 0 <= i < |past| && 0 <= j < |replies| && past[i].useId == replies[j].useId
        ensures past[i] == replies[j]
      {
        assert all[i] == past[i] && all[|past| + j] == added[j];
        assert (past + replies)[i] == past[i] && (past + replies)[|past| + j] == replies[j];
        FinalSame(past[i], added[j], replies);
      }
    }
    if NoIdReused(past, replies) {
      forall i | 0 <= i < |all| ensures OverwriteAll(all, replies)[i] == (past + replies)[i] {
        FinalIs(all[i], replies);
        FinalId(all[i], replies);
        if i >= |past| {
          assert replies[i - |past|].useId == all[i].useId;
        }
      }
    }
  }

  lemma {:induction false} UnansweredAre(asked: seq<Request>)
    ensures |FlatMap(Unanswered, asked)| == |asked|
    ensures forall k :: 0 <= k < |asked| ==> FlatMap(Unanswered, asked)[k] == Reply(asked[k].id, INTERRUPTED)
  {
    if asked != [] { UnansweredAre(asked[..|asked| - 1]); }
  }

  lemma {:induction false} ReceiveMore(s: seq<Stored>, a: seq<Event>, b: seq<Event>)
    ensures ReceiveAll(s, a + b) == ReceiveAll(ReceiveAll(s, a), b)
  {
    hide Receive;
    if b == [] {
      assert a + b == a;
    } else {
      assert (a + b)[..|a + b| - 1] == a + b[..|b| - 1];
      ReceiveMore(s, a, b[..|b| - 1]);
    }
  }

  /** What the store makes of a turn that goes on: its calls are added, in order; and its
      results, in order, are what stands beside them, all else unchanged, exactly when no
      id is reused with another output.  Where one is, the later output replaces the
      earlier, in this turn and in all turns before. */
  lemma TurnStored(s: seq<Stored>, w: World, i: nat)
    requires Continues(w.reply(i)) && Streamed(Forwarded(w.reply(i).events))
    ensures var s' := ReceiveAll(s, TurnEvents(w, i));
            && StoredCalls(s') == StoredCalls(s) + Asked(w.reply(i).events)
            && (StoredOutputs(s') == StoredOutputs(s) + Answers(w, i) <==> NoIdReused(StoredOutputs(s), Answers(w, i)))
  {
    hide FlatMap, StoredCalls, StoredOutputs, NoIdReused, OverwriteAll, ReceiveAll, Heard;
    var events := w.reply(i).events;
    var asked, heard := Asked(events), Forwarded(events);
    AskedHeard(events);
    StreamStored(s, heard);
    ReceiveMore(s, heard, FlatMap(ResultEventOf, Answers(w, i)));
    ResultsStored(ReceiveAll(s, heard), Answers(w, i));
    UnansweredAre(asked);
    KeptMeansNoReuse(StoredOutputs(s), FlatMap(Unanswered, asked), Answers(w, i));
  }

  // ---------- two turns with one function ----------

  /** The stores' replies after a turn, whether ids were used again or not. */
  lemma TurnOutputs(s: seq<Stored>, w: World, i: nat)
    requires Continues(w.reply(i)) && Streamed(Forwarded(w.reply(i).events))
    ensures StoredOutputs(ReceiveAll(s, TurnEvents(w, i)))
         == OverwriteAll(StoredOutputs(s) + FlatMap(Unanswered, Asked(w.reply(i).events)), Answers(w, i))
  {
    hide FlatMap, StoredCalls, StoredOutputs, OverwriteAll, ReceiveAll, Heard;
    var heard := Forwarded(w.reply(i).events);
    AskedHeard(w.reply(i).events);
    StreamStored(s, heard);
    ReceiveMore(s, heard, FlatMap(ResultEventOf, Answers(w, i)));
    ResultsStored(ReceiveAll(s, heard), Answers(w, i));
  }

  /** Turn `i` of the model is a parsed Gemini stream with one call, of this function. */
  ghost predicate OneGeminiCall(w: World, i: nat, name: string) {
    exists parts, sent ::
      && w.reply(i) == Events(sent + [DoneEvent]) && Relayed(parts, sent)
      && |FlatMap(CallOf, parts)| == 1 && FlatMap(CallOf, parts)[0].name == name
  }

  lemma {:induction false} ForwardedFrom(events: seq<Event>)
    ensures forall e :: e in FlatMap(NotDone, events) ==> e in events
  {
    if events != [] { ForwardedFrom(events[..|events| - 1]); }
  }

  lemma OneCallAsked(w: World, i: nat, name: string)
    requires OneGeminiCall(w, i, name)
    ensures Continues(w.reply(i)) && Streamed(Forwarded(w.reply(i).events))
    ensures |Asked(w.reply(i).events)| == 1 && Asked(w.reply(i).events)[0].id == SynthId(1, name)
  {
    hide FlatMap, SynthId, Heard;
    var parts, sent :| && w.reply(i) == Events(sent + [DoneEvent]) && Relayed(parts, sent)
                       && |FlatMap(CallOf, parts)| == 1 && FlatMap(CallOf, parts)[0].name == name;
    var events := sent + [DoneEvent];
    forall k | 0 <= k < |events| ensures !events[k].ErrorEvent? && !events[k].ResultEvent? {
      assert k < |sent| ==> events[k] in sent;
    }
    HeardAll(events);
    ForwardedFrom(events);
    ConversationLaws.AskedAre(sent);
    FlatMapAppend(RequestOfEvent, sent, [DoneEvent]);
    FlatMapOne(RequestOfEvent, DoneEvent);
    assert Asked(events) == FlatMap(RequestOfEvent, sent);
    assert FlatMap(EventId, sent)[0] == SynthId(0 + 1, FlatMap(CallOf, parts)[0].name);
    forall e | e in Forwarded(events) ensures !e.ResultEvent? {
      assert e in events;
    }
  }

  /** Gemini's ids start again with every stream: when a function is called in two turns,
      the store answers both calls with the second output, and has lost the first. */
  lemma SecondTurnOverwrites(w: World, name: string)
    requires OneGeminiCall(w, 0, name) && OneGeminiCall(w, 1, name)
    ensures |Answers(w, 0)| == |Answers(w, 1)| == 1
        && Answers(w, 0)[0].useId == Answers(w, 1)[0].useId == SynthId(1, name)
    ensures var s := ReceiveAll([], TurnEvents(w, 0));
            && StoredOutputs(s) == Answers(w, 0)
            && StoredOutputs(ReceiveAll(s, TurnEvents(w, 1))) == Answers(w, 1) + Answers(w, 1)
  {
    hide FlatMap, SynthId, OverwriteAll, StoredOutputs, ReceiveAll, Forwarded, Fails, Asked;
    OneCallAsked(w, 0, name);
    OneCallAsked(w, 1, name);
    var first, second := Answers(w, 0), Answers(w, 1);
    var s := ReceiveAll([], TurnEvents(w, 0));
    NothingStored();
    TurnOutputs([], w, 0);
    LoneReply(Asked(w.reply(0).events), [], first);
    assert [] + FlatMap(Unanswered, Asked(w.reply(0).events)) == FlatMap(Unanswered, Asked(w.reply(0).events));
    TurnOutputs(s, w, 1);
    LoneReply(Asked(w.reply(1).events), first, second);
  }

  lemma NothingStored()
    ensures StoredOutputs([]) == []
  {
  }

  /** One reply takes the place of all that have its id. */
  lemma {:induction false} LoneReply(asked: seq<Request>, past: seq<Reply>, replies: seq<Reply>)
    requires |asked| == |replies| == 1 && replies[0].useId == asked[0].id && |past| <= 1
    requires past != [] ==> past[0].useId == asked[0].id
    ensures OverwriteAll(past + FlatMap(Unanswered, asked), replies) == (if past == [] then [] else replies) + replies
  {
    hide FlatMap, OverwriteAll;
    var all := past + FlatMap(Unanswered, asked);
    UnansweredAre(asked);
    LastWins(all, replies);
    assert replies == [replies[0]];
  }
}
