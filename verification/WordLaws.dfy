/** Whose words are whose, from the client's store and the streams of a run to the lists that
    the providers get. */
module WordLaws {
  import opened Text
  import opened Lists
  import opened Conversation
  import opened Orchestrator
  import opened Providers
  import opened ProviderLaws
  import opened GeminiLaws
  import ConversationLaws

  // ---------- what is forwarded ----------

  lemma {:induction false} HeardAppend(a: seq<Event>, b: seq<Event>)
    requires !Fails(a)
    ensures Heard(a + b) == a + Heard(b)
  {
    if a == [] {
      assert a + b == b;
    } else {
      assert (a + b)[1..] == a[1..] + b;
      assert !a[0].ErrorEvent?;
      forall k | 0 <= k < |a[1..]| ensures !a[1..][k].ErrorEvent? { assert a[1..][k] == a[k + 1]; }
      HeardAppend(a[1..], b);
    }
  }

  lemma {:induction false} NotDoneAll(a: seq<Event>)
    requires DoneEvent !in a
    ensures FlatMap(NotDone, a) == a
  {
    if a != [] {
      NotDoneAll(a[..|a| - 1]);
      assert a[|a| - 1] in a;
    }
  }

  /** The user sees a stream as it comes, but its end marks, and up to the first error. */
  lemma ForwardedAre(a: seq<Event>, e: Event, b: seq<Event>)
    requires !Fails(a)
    ensures DoneEvent !in a ==> Forwarded(a) == a
    ensures Forwarded(a + [DoneEvent] + b) == Forwarded(a + b)
    ensures e.ErrorEvent? ==> Forwarded(a + [e] + b) == Forwarded(a) + [e]
  {
    hide FlatMap, Fails;
    assert a + [DoneEvent] + b == a + ([DoneEvent] + b) && a + [e] + b == a + ([e] + b) && a + [] == a;
    HeardAppend(a, []);
    HeardAppend(a, [DoneEvent] + b);
    HeardAppend(a, b);
    HeardAppend(a, [e] + b);
    assert ([DoneEvent] + b)[1..] == b;
    FlatMapAppend(NotDone, a, [DoneEvent] + Heard(b));
    FlatMapAppend(NotDone, a, Heard(b));
    FlatMapAppend(NotDone, [DoneEvent], Heard(b));
    FlatMapOne(NotDone, DoneEvent);
    assert [] + FlatMap(NotDone, Heard(b)) == FlatMap(NotDone, Heard(b));
    FlatMapAppend(NotDone, a, [e]);
    FlatMapOne(NotDone, e);
    if DoneEvent !in a { NotDoneAll(a); }
  }

  /** How the last call of a run ends it: with the model's refusal; with the stream's error;
      with an end mark, when no tool is asked for; and otherwise with the error that there
      are no more turns. */
  lemma EndingTells(w: World, i: nat)
    ensures Ending(w, i) != []
    ensures var last := Ending(w, i)[|Ending(w, i)| - 1];
            match w.reply(i)
            case Refused(message) => last == ErrorEvent(message)
            case Events(events) =>
              && (Fails(events) ==> last.ErrorEvent? && last in events)
              && (!Fails(events) && (forall e :: e in events ==> !e.UseEvent?) ==> last == DoneEvent)
              && (!Fails(events) && (exists e :: e in events && e.UseEvent?) ==>
                    last == ErrorEvent("max iterations reached"))
  {
    hide FlatMap, Forwarded, Fails, Asked;
    match w.reply(i)
    case Refused(_) =>
    case Events(events) =>
      AskedNone(events);
      if Fails(events) { FirstError(events); }
  }

  lemma {:induction false} AskedNone(events: seq<Event>)
    ensures Asked(events) == [] <==> forall e :: e in events ==> !e.UseEvent?
  {
    if events != [] {
      AskedNone(events[..|events| - 1]);
      assert events[|events| - 1] in events;
      assert forall e :: e in events <==> e in events[..|events| - 1] || e == events[|events| - 1];
    }
  }

  lemma FirstError(events: seq<Event>)
    requires Fails(events)
    ensures var sent := Forwarded(events); sent != [] && sent[|sent| - 1].ErrorEvent? && sent[|sent| - 1] in events
  {
    var j := FirstFailure(events, 0);
    var a, e, b := events[..j], events[j], events[j + 1..];
    assert events == a + [e] + b;
    ForwardedAre(a, e, b);
  }

  lemma FirstFailure(events: seq<Event>, from: nat) returns (j: nat)
    requires from <= |events| && Fails(events) && forall k :: 0 <= k < from ==> !events[k].ErrorEvent?
    ensures j < |events| && events[j].ErrorEvent? && !Fails(events[..j])
    decreases |events| - from
  {
    if from < |events| && !events[from].ErrorEvent? {
      j := FirstFailure(events, from + 1);
    } else {
      j := from;
    }
  }

  // ---------- who says what ----------

  /** The words of a stored message, under its speaker's role. */
  function StoredSays(m: Stored): seq<Saying> {
    var text := AllText(m.blocks);
    if text == "" then [] else [Saying(if m.speaker == User then "user" else "assistant", text)]
  }

  /** The texts of a stream, joined. */
  function Told(events: seq<Event>): string {
    if events == [] then "" else (if events[0].TextEvent? then events[0].text else "") + Told(events[1..])
  }

  /** What the model says in the first `n` turns. */
  function TurnsSay(w: World, n: nat): seq<Saying> {
    if n == 0 then []
    else
      var text := if w.reply(n - 1).Events? then Told(w.reply(n - 1).events) else "";
      TurnsSay(w, n - 1) + if text == "" then [] else [Saying("assistant", text)]
  }

  /** Gemini has two roles. */
  function ForGemini(s: Saying): seq<Saying> { [Saying(if s.role == "assistant" then "model" else "user", s.text)] }

  lemma {:induction false} ToldIs(events: seq<Event>)
    ensures FlatMap(TextOfEvent, events) == Told(events)
  {
    hide FlatMap;
    FlatMapEmpty(TextOfEvent);
    if events != [] {
      ToldIs(events[1..]);
      FlatMapCons(TextOfEvent, events);
    }
  }

  lemma {:induction false} NoWordsIn(content: seq<Item>)
    requires forall i :: i in content ==> !i.Words?
    ensures FlatMap(TextOf, content) == ""
  {
    if content != [] {
      NoWordsIn(content[..|content| - 1]);
      assert content[|content| - 1] in content;
    }
  }

  lemma {:induction false} UsesOnly(asked: seq<Request>)
    ensures forall i :: i in FlatMap(ItemOf, asked) ==> i.ToolUse?
  {
    if asked != [] { UsesOnly(asked[..|asked| - 1]); }
  }

  lemma SaysTwo(a: Message, b: Message)
    ensures FlatMap(Says, [a]) == Says(a) && FlatMap(Says, [a, b]) == Says(a) + Says(b) && FlatMap(Says, []) == []
  {
    hide Says;
    FlatMapOne(Says, a);
    FlatMapOne(Says, b);
    FlatMapAppend(Says, [a], [b]);
    assert [a] + [b] == [a, b];
  }

  /** A turn says what its stream told. */
  lemma TurnSays(w: World, i: nat)
    requires w.reply(i).Events?
    ensures FlatMap(Says, TurnMessages(w, i))
         == var text := Told(w.reply(i).events); if text == "" then [] else [Saying("assistant", text)]
  {
    hide FlatMap, Asked, Answers;
    var events := w.reply(i).events;
    var text := FlatMap(TextOfEvent, events);
    var words := if text != "" then [Words(text)] else [];
    var uses := FlatMap(ItemOf, Asked(events));
    ToldIs(events);
    UsesOnly(Asked(events));
    NoWordsIn(uses);
    FlatMapAppend(TextOf, words, uses);
    FlatMapOne(TextOf, Words(text));
    FlatMapEmpty(TextOf);
    NotTool();
    var spoken, results := AssistantMessage(events), Message("tool", FlatMap(ResultItem, Answers(w, i)));
    SaysTwo(spoken, results);
    assert spoken.content == words + uses && text + "" == text;
    assert FlatMap(TextOf, spoken.content) == text;
    assert Says(results) == [] && Says(spoken) + [] == Says(spoken);
    assert TurnMessages(w, i) == [spoken, results];
  }

  lemma NotTool()
    ensures "assistant" != "tool" && "user" != "tool"
  {
    assert "assistant"[0] == 'a' && "user"[0] == 'u' && "tool"[0] == 't';
  }

  /** A stored message says its own words, under its speaker's role. */
  lemma MessageSays(m: Stored)
    ensures FlatMap(Says, Entries(m)) == StoredSays(m)
  {
    hide FlatMap;
    BlocksRead(m.blocks);
    NotTool();
    var user := Message("user", [Words(FlatMap(UserText, m.blocks))]);
    var answer := Message("assistant", FlatMap(ContentOf, m.blocks));
    var results := Message("tool", FlatMap(ResultOf, m.blocks));
    FlatMapOne(TextOf, user.content[0]);
    WordsOfBlocks(m.blocks);
    FlatMapEmpty(TextOf);
    SaysTwo(user, user);
    SaysTwo(answer, results);
    SaysTwo(results, results);
    if m.speaker == User {
      assert Entries(m) == [user];
    } else if answer.content == [] {
      assert Entries(m) == if results.content != [] then [results] else [];
    } else {
      assert Entries(m) == if results.content != [] then [answer, results] else [answer];
    }
  }

  lemma WordsOfBlocks(blocks: seq<Block>)
    ensures FlatMap(TextOf, FlatMap(ContentOf, blocks)) == FlatMap(UserText, blocks)
  {
    hide FlatMap;
    forall b: Block ensures FlatMap(TextOf, ContentOf(b)) == UserText(b) {
      FlatMapEmpty(TextOf);
      if ContentOf(b) != [] { FlatMapOne(TextOf, ContentOf(b)[0]); }
    }
    FlatMapCompose(ContentOf, TextOf, UserText, blocks);
  }

  lemma {:induction false} RunSays(stored: seq<Stored>, w: World, i: nat)
    requires forall j :: 0 <= j < i ==> Continues(w.reply(j))
    ensures FlatMap(Says, RequestAt(Transcript(stored), w, i)) == FlatMap(StoredSays, stored) + TurnsSay(w, i)
  {
    hide FlatMap, Says, StoredSays, TurnMessages, Entries;
    if i == 0 {
      forall m: Stored ensures FlatMap(Says, Entries(m)) == StoredSays(m) { MessageSays(m); }
      FlatMapCompose(Entries, Says, StoredSays, stored);
    } else {
      assert Continues(w.reply(i - 1));
      RunSays(stored, w, i - 1);
      TurnSays(w, i - 1);
      FlatMapAppend(Says, RequestAt(Transcript(stored), w, i - 1), TurnMessages(w, i - 1));
    }
  }

  lemma {:induction false} GeminiSaysToo(ms: seq<Message>)
    ensures FlatMap(GeminiSays, ms) == FlatMap(ForGemini, FlatMap(Says, ms))
  {
    hide FlatMap;
    forall m: Message ensures FlatMap(ForGemini, Says(m)) == GeminiSays(m) {
      FlatMapEmpty(ForGemini);
      if Says(m) != [] { FlatMapOne(ForGemini, Says(m)[0]); }
    }
    FlatMapCompose(Says, ForGemini, GeminiSays, ms);
  }

  /** From any store and any new text, through every turn of a run: each provider gets the
      stored words and the new ones as the user's and the assistant's that they are, then
      the model's words of the turns so far as the assistant's, in order and no others,
      behind the system prompt where that is part of the list. */
  lemma WordsEndToEnd(stored: seq<Stored>, text: string, w: World, i: nat, system: string,
                      parse: string -> Option<Json>)
    requires forall j :: 0 <= j < i ==> Continues(w.reply(j))
    ensures var ms := RequestAt(Transcript(stored + [Stored(User, [TextBlock(text)])]), w, i);
            var added := if text == "" then [] else [Saying("user", text)];
            var said := FlatMap(StoredSays, stored) + added + TurnsSay(w, i);
            && FlatMap(ChatSays, OpenAIAll(system, ms))
                == (if system != "" then [Saying("system", system)] else []) + said
            && FlatMap(EntrySays, FlatMap(CodexOf, ms)) == said
            && FlatMap(ContentSays, GeminiAll(parse, ms)) == FlatMap(ForGemini, said)
  {
    hide FlatMap, Says, StoredSays, RequestAt, TurnsSay, OpenAIAll, GeminiAll, OpenAIPaired, CodexPaired, GeminiPaired,
        Paired, CodexOf, Transcript, NamesAgree, GeminiSays;
    var last := Stored(User, [TextBlock(text)]);
    var all := stored + [last];
    var ms := RequestAt(Transcript(all), w, i);
    TranscriptPaired(all);
    ConversationLaws.RequestsPaired(Transcript(all), w, i);
    RunSays(all, w, i);
    FlatMapAppend(StoredSays, stored, [last]);
    FlatMapOne(StoredSays, last);
    NewSays(text);
    OpenAIKeeps(system, ms);
    CodexKeeps(ms);
    GeminiKeeps(parse, ms);
    GeminiSaysToo(ms);
  }

  lemma NewSays(text: string)
    ensures StoredSays(Stored(User, [TextBlock(text)])) == if text == "" then [] else [Saying("user", text)]
  {
    var b := TextBlock(text);
    assert [b][1..] == [] && AllText([b]) == text + "" == text;
    assert Stored(User, [TextBlock(text)]).blocks == [b];
  }
}
