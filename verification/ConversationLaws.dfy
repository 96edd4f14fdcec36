/** What holds of whole runs of the chat, from the client's store to the provider. */
module ConversationLaws {
  import opened Text
  import opened Lists
  import opened Conversation
  import opened Providers
  import opened ProviderLaws
  import opened GeminiLaws
  import opened ToolStreams
  import opened Orchestrator

  // ---------- pairing over a run ----------

  lemma {:induction false} UsesBack(asked: seq<Request>)
    ensures FlatMap(RequestOf, FlatMap(ItemOf, asked)) == asked && FlatMap(ReplyOf, FlatMap(ItemOf, asked)) == []
  {
    hide FlatMap;
    if asked == [] {
      FlatMapEmpty(ItemOf);
      FlatMapEmpty(RequestOf);
      FlatMapEmpty(ReplyOf);
    } else {
      var n := |asked| - 1;
      UsesBack(asked[..n]);
      assert asked[..n] + [asked[n]] == asked;
      FlatMapAppend(ItemOf, asked[..n], [asked[n]]);
      FlatMapOne(ItemOf, asked[n]);
      FlatMapAppend(RequestOf, FlatMap(ItemOf, asked[..n]), ItemOf(asked[n]));
      FlatMapAppend(ReplyOf, FlatMap(ItemOf, asked[..n]), ItemOf(asked[n]));
      FlatMapOne(RequestOf, ItemOf(asked[n])[0]);
      FlatMapOne(ReplyOf, ItemOf(asked[n])[0]);
    }
  }

  lemma {:induction false} ResultsBack(replies: seq<Reply>)
    ensures FlatMap(ReplyOf, FlatMap(ResultItem, replies)) == replies
        && FlatMap(RequestOf, FlatMap(ResultItem, replies)) == []
  {
    hide FlatMap;
    if replies == [] {
      FlatMapEmpty(ResultItem);
      FlatMapEmpty(RequestOf);
      FlatMapEmpty(ReplyOf);
    } else {
      var n := |replies| - 1;
      ResultsBack(replies[..n]);
      assert replies[..n] + [replies[n]] == replies;
      FlatMapAppend(ResultItem, replies[..n], [replies[n]]);
      FlatMapOne(ResultItem, replies[n]);
      FlatMapAppend(RequestOf, FlatMap(ResultItem, replies[..n]), ResultItem(replies[n]));
      FlatMapAppend(ReplyOf, FlatMap(ResultItem, replies[..n]), ResultItem(replies[n]));
      FlatMapOne(RequestOf, ResultItem(replies[n])[0]);
      FlatMapOne(ReplyOf, ResultItem(replies[n])[0]);
    }
  }

  lemma AssistantAsks(events: seq<Event>)
    ensures AssistantMessage(events).role == "assistant"
    ensures Requests(AssistantMessage(events)) == Asked(events) && Replies(AssistantMessage(events)) == []
  {
    hide FlatMap, Asked;
    var text := FlatMap(TextOfEvent, events);
    var words := if text != "" then [Words(text)] else [];
    UsesBack(Asked(events));
    FlatMapAppend(RequestOf, words, FlatMap(ItemOf, Asked(events)));
    FlatMapAppend(ReplyOf, words, FlatMap(ItemOf, Asked(events)));
    FlatMapOne(RequestOf, Words(text));
    FlatMapOne(ReplyOf, Words(text));
    FlatMapEmpty(RequestOf);
    FlatMapEmpty(ReplyOf);
  }

  lemma TwoMessages(a: Message, b: Message)
    ensures AllRequests([a, b]) == Requests(a) + Requests(b) && AllReplies([a, b]) == Replies(a) + Replies(b)
  {
    hide FlatMap, Requests, Replies;
    FlatMapAppend(Requests, [a], [b]);
    FlatMapAppend(Replies, [a], [b]);
    FlatMapOne(Requests, a);
    FlatMapOne(Requests, b);
    FlatMapOne(Replies, a);
    FlatMapOne(Replies, b);
    assert [a] + [b] == [a, b];
  }

  lemma PairIsPaired(a: Message, b: Message)
    requires a.role == "assistant" && b.role == "tool" && Replies(a) == [] && Requests(a) != [] && Requests(b) == []
    requires Answer(Requests(a), Replies(b))
    ensures Paired([a, b])
  {
    hide Requests, Replies;
    assert [a, b][2..] == [];
  }

  /** A turn that goes on adds its calls and, right behind them, their results. */
  lemma TurnPaired(w: World, i: nat)
    requires Continues(w.reply(i))
    ensures var turn := TurnMessages(w, i);
            Paired(turn) && AllRequests(turn) == Asked(w.reply(i).events) && AllReplies(turn) == Answers(w, i)
  {
    hide FlatMap, Asked, Requests, Replies, AssistantMessage, Paired, AllRequests, AllReplies;
    var events := w.reply(i).events;
    var a, b := AssistantMessage(events), Message("tool", FlatMap(ResultItem, Answers(w, i)));
    AssistantAsks(events);
    ToolAnswers(Answers(w, i));
    TwoMessages(a, b);
    PairIsPaired(a, b);
  }

  lemma ToolAnswers(replies: seq<Reply>)
    ensures var m := Message("tool", FlatMap(ResultItem, replies)); Requests(m) == [] && Replies(m) == replies
  {
    hide FlatMap;
    ResultsBack(replies);
  }

  /** Every list that the model is called with is paired, when the first one is. */
  lemma {:induction false} RequestsPaired(messages: seq<Message>, w: World, i: nat)
    requires Paired(messages) && forall j :: 0 <= j < i ==> Continues(w.reply(j))
    ensures Paired(RequestAt(messages, w, i))
  {
    hide Paired, Continues, TurnMessages;
    if i > 0 {
      RequestsPaired(messages, w, i - 1);
      TurnPaired(w, i - 1);
      PairedAppend(RequestAt(messages, w, i - 1), TurnMessages(w, i - 1));
    }
  }

  // ---------- the events of a run ----------

  predicate Terminal(e: Event) { e.DoneEvent? || e.ErrorEvent? }
  predicate Open(events: seq<Event>) { forall i :: 0 <= i < |events| ==> !Terminal(events[i]) }
  predicate Closed(events: seq<Event>) {
    events != [] && Terminal(events[|events| - 1]) && Open(events[..|events| - 1])
  }

  lemma {:induction false} ForwardedOpen(events: seq<Event>)
    ensures if Fails(events) then Closed(Forwarded(events)) else Open(Forwarded(events))
  {
    hide FlatMap;
    FlatMapEmpty(NotDone);
    if events != [] {
      var rest := events[1..];
      assert Fails(events) <==> events[0].ErrorEvent? || Fails(rest) by {
        if Fails(rest) {
          var k :| 0 <= k < |rest| && rest[k].ErrorEvent?;
          assert events[k + 1].ErrorEvent?;
        }
        if Fails(events) && !events[0].ErrorEvent? {
          var k :| 0 <= k < |events| && events[k].ErrorEvent?;
          assert rest[k - 1].ErrorEvent?;
        }
      }
      FlatMapOne(NotDone, events[0]);
      if !events[0].ErrorEvent? {
        ForwardedOpen(rest);
        FlatMapAppend(NotDone, [events[0]], Heard(rest));
        OpenThen(NotDone(events[0]), Forwarded(rest));
      }
    }
  }

  lemma OpenThen(a: seq<Event>, b: seq<Event>)
    requires Open(a)
    ensures Open(b) ==> Open(a + b)
    ensures Closed(b) ==> Closed(a + b)
  {
    if Closed(b) {
      assert (a + b)[..|a + b| - 1] == a + b[..|b| - 1];
    }
  }

  lemma {:induction false} ResultsOpen(replies: seq<Reply>)
    ensures Open(FlatMap(ResultEventOf, replies))
  {
    if replies != [] { ResultsOpen(replies[..|replies| - 1]); }
  }

  lemma NothingOpen()
    ensures Open([])
  {
  }

  lemma {:induction false} SentOpen(w: World, i: nat)
    requires forall j :: 0 <= j < i ==> Continues(w.reply(j))
    ensures Open(SentBefore(w, i))
  {
    hide FlatMap, Forwarded, Fails, Asked, Open, Answers;
    if i == 0 {
      NothingOpen();
    } else {
      SentOpen(w, i - 1);
      ForwardedOpen(w.reply(i - 1).events);
      ResultsOpen(Answers(w, i - 1));
      OpenThen(Forwarded(w.reply(i - 1).events), FlatMap(ResultEventOf, Answers(w, i - 1)));
      OpenThen(SentBefore(w, i - 1), TurnEvents(w, i - 1));
    }
  }

  /** Every run sends exactly one end mark or error, and sends it last. */
  lemma RunEndsOnce(w: World, i: nat)
    requires forall j :: 0 <= j < i ==> Continues(w.reply(j))
    ensures Closed(SentBefore(w, i) + Ending(w, i))
  {
    hide FlatMap, Forwarded, Fails, Asked;
    SentOpen(w, i);
    if w.reply(i).Events? {
      var events := w.reply(i).events;
      ForwardedOpen(events);
      ResultsOpen(Answers(w, i));
      if !Fails(events) {
        OpenThen(Forwarded(events), [DoneEvent]);
        OpenThen(Forwarded(events), FlatMap(ResultEventOf, Answers(w, i)));
        OpenThen(TurnEvents(w, i), [ErrorEvent("max iterations reached")]);
      }
    }
    OpenThen(SentBefore(w, i), Ending(w, i));
  }

  function EventReply(e: Event): seq<Reply> { if e.ResultEvent? then [Reply(e.useId, e.output)] else [] }

  /** A turn that goes on forwards its tool calls, and then sends one result per call, with
      its id and the tool's output, in order. */
  lemma TurnAnswersAll(w: World, i: nat)
    requires Continues(w.reply(i))
    ensures var events := w.reply(i).events;
            var answers := TurnEvents(w, i)[|Forwarded(events)|..];
            && TurnEvents(w, i)[..|Forwarded(events)|] == Forwarded(events)
            && FlatMap(RequestOfEvent, Forwarded(events)) == Asked(events)
            && FlatMap(EventReply, answers) == Answers(w, i) && |answers| == |Asked(events)|
            && Answer(Asked(events), FlatMap(EventReply, answers))
            && forall k :: 0 <= k < |Asked(events)| ==>
                Answers(w, i)[k].output == match w.execute(i, k, Asked(events)[k])
                                           case Output(text) => text
                                           case Failure(message) => "ERROR: " + message
  {
    hide FlatMap, Heard;
    var events := w.reply(i).events;
    AskedHeard(events);
    RepliesBack(Answers(w, i));
  }

  lemma {:induction false} RepliesBack(replies: seq<Reply>)
    ensures FlatMap(EventReply, FlatMap(ResultEventOf, replies)) == replies
        && |FlatMap(ResultEventOf, replies)| == |replies|
  {
    hide FlatMap;
    FlatMapEmpty(EventReply);
    FlatMapEmpty(ResultEventOf);
    if replies != [] {
      var n := |replies| - 1;
      RepliesBack(replies[..n]);
      assert replies[..n + 1] == replies;
      FlatMapStep(ResultEventOf, replies, n);
      FlatMapAppend(EventReply, FlatMap(ResultEventOf, replies[..n]), ResultEventOf(replies[n]));
      FlatMapOne(EventReply, ResultEventOf(replies[n])[0]);
    }
  }

  // ---------- ids made up for Gemini ----------

  /** Each id is one that `parseGeminiSSE` makes up for that name, from whatever stream. */
  ghost predicate Synthetic(rs: seq<Request>) { forall i :: 0 <= i < |rs| ==> MadeUp(rs[i]) }

  ghost predicate MadeUp(r: Request) { exists n: nat :: r.id == SynthId(n, r.name) }

  /** Ids restart with every stream and repeat over a conversation, but never under two names. */
  lemma SyntheticAgree(rs: seq<Request>)
    requires Synthetic(rs)
    ensures NamesAgree(rs)
  {
    hide SynthId;
    forall i, j | 0 <= i < |rs| && 0 <= j < |rs| && rs[i].id == rs[j].id ensures rs[i].name == rs[j].name {
      assert MadeUp(rs[i]) && MadeUp(rs[j]);
      var n: nat :| rs[i].id == SynthId(n, rs[i].name);
      var m: nat :| rs[j].id == SynthId(m, rs[j].name);
      SynthIdInjective(n, rs[i].name, m, rs[j].name);
    }
  }

  lemma {:induction false} AskedAre(events: seq<Event>)
    ensures var asked := FlatMap(RequestOfEvent, events);
            var calls, ids := FlatMap(EventCall, events), FlatMap(EventId, events);
            && |asked| == |calls| == |ids|
            && forall k :: 0 <= k < |asked| ==> asked[k] == Request(ids[k], calls[k].name, calls[k].args)
  {
    hide FlatMap;
    if events == [] {
      FlatMapEmpty(RequestOfEvent);
      FlatMapEmpty(EventCall);
      FlatMapEmpty(EventId);
    } else {
      var n := |events| - 1;
      AskedAre(events[..n]);
      assert events[..n + 1] == events;
      FlatMapStep(RequestOfEvent, events, n);
      FlatMapStep(EventCall, events, n);
      FlatMapStep(EventId, events, n);
    }
  }

  /** The calls that `parseGeminiSSE` sends, end mark and all, have such ids. */
  lemma ParsedSynthetic(parts: seq<StreamPart>, sent: seq<Event>)
    requires Relayed(parts, sent)
    ensures Synthetic(Asked(sent + [DoneEvent]))
  {
    hide FlatMap, SynthId;
    AskedAre(sent);
    FlatMapAppend(RequestOfEvent, sent, [DoneEvent]);
    FlatMapOne(RequestOfEvent, DoneEvent);
    assert Asked(sent + [DoneEvent]) == FlatMap(RequestOfEvent, sent);
    var rs := FlatMap(RequestOfEvent, sent);
    forall k | 0 <= k < |rs| ensures MadeUp(rs[k]) {
      assert rs[k].id == SynthId(k + 1, rs[k].name);
    }
  }

  lemma {:induction false} RunSynthetic(messages: seq<Message>, w: World, i: nat)
    requires Paired(messages) && Synthetic(AllRequests(messages))
    requires forall j :: 0 <= j < i ==> Continues(w.reply(j)) && Synthetic(Asked(w.reply(j).events))
    ensures Synthetic(AllRequests(RequestAt(messages, w, i)))
  {
    hide FlatMap, SynthId, Paired, Asked, TurnMessages;
    if i > 0 {
      RunSynthetic(messages, w, i - 1);
      TurnPaired(w, i - 1);
      var before, turn := RequestAt(messages, w, i - 1), TurnMessages(w, i - 1);
      FlatMapAppend(Requests, before, turn);
      SyntheticJoin(AllRequests(before), AllRequests(turn));
    }
  }

  lemma SyntheticJoin(a: seq<Request>, b: seq<Request>)
    requires Synthetic(a) && Synthetic(b)
    ensures Synthetic(a + b)
  {
    hide MadeUp;
  }

  // ---------- from the store to the provider ----------

  /** From the client's store, through every turn of a run, to each provider: whatever is
      stored, interrupted turns included, and whatever the model and the tools answer, the
      provider's list answers every call, once and in order; Gemini's does exactly when no
      id stands for two names. */
  lemma PairedEndToEnd(stored: seq<Stored>, w: World, i: nat, system: string, parse: string -> Option<Json>)
    requires forall j :: 0 <= j < i ==> Continues(w.reply(j))
    ensures var ms := RequestAt(Transcript(stored), w, i);
            && Paired(ms)
            && OpenAIPaired(OpenAIAll(system, ms))
            && CodexPaired(FlatMap(CodexOf, ms))
            && (GeminiPaired(GeminiAll(parse, ms)) <==> NamesAgree(AllRequests(ms)))
  {
    hide *;
    TranscriptPaired(stored);
    RequestsPaired(Transcript(stored), w, i);
    var ms := RequestAt(Transcript(stored), w, i);
    OpenAIKeeps(system, ms);
    CodexKeeps(ms);
    GeminiKeeps(parse, ms);
  }

  /** A conversation whose calls all came from Gemini gives each result the right name. */
  lemma GeminiEndToEnd(stored: seq<Stored>, w: World, i: nat, parse: string -> Option<Json>)
    requires Synthetic(FlatMap(Calls, stored))
    requires forall j :: 0 <= j < i ==> Continues(w.reply(j)) && Synthetic(Asked(w.reply(j).events))
    ensures GeminiPaired(GeminiAll(parse, RequestAt(Transcript(stored), w, i)))
  {
    hide *;
    TranscriptPaired(stored);
    RunSynthetic(Transcript(stored), w, i);
    SyntheticAgree(AllRequests(RequestAt(Transcript(stored), w, i)));
    PairedEndToEnd(stored, w, i, "", parse);
  }
}
