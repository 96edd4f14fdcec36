/** What Gemini is given: it has no call ids, so that a result finds its call by place and by
    name, and the name is looked up under an id that may be used again. */
module GeminiLaws {
  import opened Text
  import opened Lists
  import opened Conversation
  import opened Providers
  import opened ProviderLaws

  function CallOfItem(i: Item): seq<GeminiCall> { if i.ToolUse? then [GeminiCall(i.name, i.input)] else [] }
  function CallsOf(m: Message): seq<GeminiCall> { FlatMap(CallOfItem, m.content) }

  /** A result goes out under the name first seen with its id. */
  function ReplyOfItem(parse: string -> Option<Json>, all: seq<Request>): Item -> seq<GeminiReply> {
    (i: Item) => if i.ToolResult? then [GeminiReply(FirstName(all, i.useId), Decoded(parse, i.output))] else []
  }

  function RepliesOf(parse: string -> Option<Json>, all: seq<Request>): Message -> seq<GeminiReply> {
    (m: Message) => FlatMap(ReplyOfItem(parse, all), m.content)
  }

  function GeminiRole(role: string): string { if role == "assistant" then "model" else "user" }

  function GeminiSays(m: Message): seq<Saying> {
    var text := FlatMap(TextOf, m.content);
    if m.role == "tool" || text == "" then [] else [Saying(GeminiRole(m.role), text)]
  }

  function ContentSays(c: Content): seq<Saying> {
    var text := FlatMap(PartText, c.parts);
    if text == "" then [] else [Saying(c.role, text)]
  }

  // ---------- one message ----------

  lemma OnePart(p: Part)
    ensures FlatMap(PartCall, [p]) == PartCall(p) && FlatMap(PartReply, [p]) == PartReply(p)
        && FlatMap(PartText, [p]) == PartText(p)
    ensures FlatMap(PartCall, []) == [] && FlatMap(PartReply, []) == [] && FlatMap(PartText, []) == ""
  {
    FlatMapOne(PartCall, p);
    FlatMapOne(PartReply, p);
    FlatMapOne(PartText, p);
  }

  lemma ModelPartsKept(content: seq<Item>)
    ensures var parts := FlatMap(ModelPart, content);
            && FlatMap(PartCall, parts) == FlatMap(CallOfItem, content) && FlatMap(PartReply, parts) == []
            && FlatMap(PartText, parts) == FlatMap(TextOf, content)
  {
    hide FlatMap;
    forall i ensures FlatMap(PartCall, ModelPart(i)) == CallOfItem(i) && FlatMap(PartReply, ModelPart(i)) == []
        && FlatMap(PartText, ModelPart(i)) == TextOf(i) {
      OnePart(if ModelPart(i) == [] then TextPart("") else ModelPart(i)[0]);
    }
    FlatMapCompose(ModelPart, PartCall, CallOfItem, content);
    FlatMapNone(ModelPart, PartReply, content);
    FlatMapCompose(ModelPart, PartText, TextOf, content);
  }

  lemma UserPartsKept(content: seq<Item>)
    ensures var parts := FlatMap(UserPart, content);
            FlatMap(PartCall, parts) == [] && FlatMap(PartReply, parts) == []
                && FlatMap(PartText, parts) == FlatMap(TextOf, content)
  {
    hide FlatMap;
    forall i ensures FlatMap(PartCall, UserPart(i)) == [] && FlatMap(PartReply, UserPart(i)) == []
        && FlatMap(PartText, UserPart(i)) == TextOf(i) {
      OnePart(if UserPart(i) == [] then TextPart("") else UserPart(i)[0]);
    }
    FlatMapNone(UserPart, PartCall, content);
    FlatMapNone(UserPart, PartReply, content);
    FlatMapCompose(UserPart, PartText, TextOf, content);
  }

  lemma ResponseIs(parse: string -> Option<Json>, all: seq<Request>, i: Item)
    ensures var r := ResponseOf(parse, all)(i);
            && FlatMap(PartCall, r) == [] && FlatMap(PartText, r) == ""
            && FlatMap(PartReply, r) == ReplyOfItem(parse, all)(i)
  {
    hide FlatMap;
    OnePart(if i.ToolResult? then ResponseOf(parse, all)(i)[0] else TextPart(""));
  }

  lemma ToolPartsKept(parse: string -> Option<Json>, all: seq<Request>, content: seq<Item>)
    ensures var parts := FlatMap(ResponseOf(parse, all), content);
            && FlatMap(PartCall, parts) == [] && FlatMap(PartText, parts) == ""
            && FlatMap(PartReply, parts) == FlatMap(ReplyOfItem(parse, all), content)
  {
    hide FlatMap, ResponseOf, ReplyOfItem;
    forall i
      ensures var r := ResponseOf(parse, all)(i);
              FlatMap(PartCall, r) == [] && FlatMap(PartText, r) == ""
                  && FlatMap(PartReply, r) == ReplyOfItem(parse, all)(i)
    {
      ResponseIs(parse, all, i);
    }
    FlatMapNone(ResponseOf(parse, all), PartCall, content);
    FlatMapNone(ResponseOf(parse, all), PartText, content);
    FlatMapCompose(ResponseOf(parse, all), PartReply, ReplyOfItem(parse, all), content);
  }

  /** The calls and the results of a message, one by one. */
  lemma {:induction false} ItemsAre(parse: string -> Option<Json>, all: seq<Request>, content: seq<Item>)
    ensures var calls, requests := FlatMap(CallOfItem, content), FlatMap(RequestOf, content);
            |calls| == |requests| && forall i :: 0 <= i < |calls| ==>
                calls[i] == GeminiCall(requests[i].name, requests[i].input)
    ensures var answers, replies := FlatMap(ReplyOfItem(parse, all), content), FlatMap(ReplyOf, content);
            && |answers| == |replies|
            && forall i :: 0 <= i < |answers| ==>
                answers[i] == GeminiReply(FirstName(all, replies[i].useId), Decoded(parse, replies[i].output))
  {
    hide FlatMap, FirstName, Decoded;
    if content == [] {
      FlatMapEmpty(CallOfItem);
      FlatMapEmpty(RequestOf);
      FlatMapEmpty(ReplyOf);
      FlatMapEmpty(ReplyOfItem(parse, all));
    } else {
      var n := |content| - 1;
      ItemsAre(parse, all, content[..n]);
      assert content[..n + 1] == content;
      FlatMapStep(CallOfItem, content, n);
      FlatMapStep(RequestOf, content, n);
      FlatMapStep(ReplyOf, content, n);
      FlatMapStep(ReplyOfItem(parse, all), content, n);
    }
  }

  lemma PartsKept(parse: string -> Option<Json>, all: seq<Request>, m: Message)
    requires Proper(m)
    ensures var parts := PartsOf(parse, all, m);
            && FlatMap(PartCall, parts) == CallsOf(m)
            && FlatMap(PartReply, parts) == RepliesOf(parse, all)(m)
            && FlatMap(PartText, parts) == if m.role == "tool" then "" else FlatMap(TextOf, m.content)
  {
    hide FlatMap, ResponseOf, ReplyOfItem;
    ItemsAre(parse, all, m.content);
    if m.role == "tool" {
      ToolPartsKept(parse, all, m.content);
    } else if m.role == "assistant" {
      ModelPartsKept(m.content);
    } else {
      UserPartsKept(m.content);
    }
  }

  lemma GeminiMessageKept(parse: string -> Option<Json>, all: seq<Request>, m: Message)
    requires Proper(m)
    ensures var out := GeminiOf(parse, all)(m);
            && |out| <= 1
            && FlatMap(ContentCalls, out) == CallsOf(m)
            && FlatMap(ContentReplies, out) == RepliesOf(parse, all)(m)
            && FlatMap(ContentSays, out) == GeminiSays(m)
            && (out != [] ==>
                  && out[0].role == GeminiRole(m.role) && ContentCalls(out[0]) == CallsOf(m)
                  && ContentReplies(out[0]) == RepliesOf(parse, all)(m))
            && (out == [] ==> CallsOf(m) == [] && RepliesOf(parse, all)(m) == [])
  {
    hide FlatMap, PartsOf, RepliesOf;
    PartsKept(parse, all, m);
    FlatMapEmpty(PartCall);
    FlatMapEmpty(PartReply);
    FlatMapEmpty(PartText);
    FlatMapEmpty(ContentCalls);
    FlatMapEmpty(ContentReplies);
    FlatMapEmpty(ContentSays);
    var out := GeminiOf(parse, all)(m);
    if out != [] {
      FlatMapOne(ContentCalls, out[0]);
      FlatMapOne(ContentReplies, out[0]);
      FlatMapOne(ContentSays, out[0]);
    }
  }

  // ---------- the whole list ----------

  /** Each of the requests has the name first seen with its id. */
  predicate NamesFound(all: seq<Request>, rs: seq<Request>) {
    forall i :: 0 <= i < |rs| ==> FirstName(all, rs[i].id) == rs[i].name
  }

  /** No id is used with two names. */
  predicate NamesAgree(rs: seq<Request>) {
    forall i, j :: 0 <= i < |rs| && 0 <= j < |rs| && rs[i].id == rs[j].id ==> rs[i].name == rs[j].name
  }

  lemma {:induction false} FirstNameIsFirst(rs: seq<Request>, id: string)
    requires exists i :: 0 <= i < |rs| && rs[i].id == id
    ensures exists j :: 0 <= j < |rs| && rs[j].id == id && FirstName(rs, id) == rs[j].name
  {
    if rs[0].id != id {
      var i :| 0 <= i < |rs| && rs[i].id == id;
      assert rs[1..][i - 1].id == id;
      FirstNameIsFirst(rs[1..], id);
      var j :| 0 <= j < |rs[1..]| && rs[1..][j].id == id && FirstName(rs[1..], id) == rs[1..][j].name;
      assert rs[j + 1] == rs[1..][j];
    }
  }

  lemma NamesFoundMeansAgree(rs: seq<Request>)
    ensures NamesFound(rs, rs) <==> NamesAgree(rs)
  {
    hide FirstName;
    if NamesAgree(rs) {
      forall i | 0 <= i < |rs| ensures FirstName(rs, rs[i].id) == rs[i].name {
        FirstNameIsFirst(rs, rs[i].id);
      }
    }
  }

  /** A content without calls or results is no matter for the pairing. */
  lemma PlainContent(head: seq<Content>, rest: seq<Content>)
    requires |head| <= 1 && forall c :: c in head ==> ContentCalls(c) == [] && ContentReplies(c) == []
    ensures GeminiPaired(head + rest) <==> GeminiPaired(rest)
  {
    if head == [] {
      assert head + rest == rest;
    } else {
      assert (head + rest)[1..] == rest;
    }
  }

  lemma TurnContent(call: Content, reply: Content, rest: seq<Content>)
    requires call.role == "model" && reply.role == "user" && ContentReplies(call) == [] && ContentCalls(call) != []
        && ContentCalls(reply) == []
    requires |ContentCalls(call)| == |ContentReplies(reply)|
    ensures GeminiPaired([call, reply] + rest) <==>
              GeminiPaired(rest) && forall i :: 0 <= i < |ContentCalls(call)| ==>
                  ContentReplies(reply)[i].name == ContentCalls(call)[i].name
  {
    var out := [call, reply] + rest;
    assert out[0] == call && out[1] == reply && out[2..] == rest;
  }

  lemma {:induction false} GeminiPairs(parse: string -> Option<Json>, all: seq<Request>, ms: seq<Message>)
    requires Paired(ms)
    ensures GeminiPaired(FlatMap(GeminiOf(parse, all), ms)) <==> NamesFound(all, AllRequests(ms))
    decreases |ms|
  {
    hide FlatMap, GeminiPaired, GeminiOf, FirstName, CallsOf, ContentCalls, ContentReplies, RepliesOf;
    PairedProper(ms);
    if ms == [] {
      FlatMapEmpty(GeminiOf(parse, all));
      FlatMapEmpty(Requests);
      PairedEmpty();
    } else if Requests(ms[0]) == [] {
      GeminiPairs(parse, all, ms[1..]);
      PlainHead(parse, all, ms[0], FlatMap(GeminiOf(parse, all), ms[1..]));
      FlatMapCons(GeminiOf(parse, all), ms);
      FlatMapCons(Requests, ms);
      assert [] + AllRequests(ms[1..]) == AllRequests(ms[1..]);
    } else {
      GeminiPairs(parse, all, ms[2..]);
      TurnHead(parse, all, ms[0], ms[1], FlatMap(GeminiOf(parse, all), ms[2..]));
      TwoHeads(GeminiOf(parse, all), ms);
      TwoHeads(Requests, ms);
      assert Requests(ms[1]) == [];
      assert AllRequests(ms) == Requests(ms[0]) + AllRequests(ms[2..]);
      NamesFoundSplit(all, Requests(ms[0]), AllRequests(ms[2..]));
    }
  }

  lemma PairedEmpty()
    ensures GeminiPaired([])
  {
  }

  lemma NamesFoundSplit(all: seq<Request>, a: seq<Request>, b: seq<Request>)
    ensures NamesFound(all, a + b) <==> NamesFound(all, a) && NamesFound(all, b)
  {
    hide FirstName;
    if NamesFound(all, a + b) {
      forall i | 0 <= i < |a| ensures FirstName(all, a[i].id) == a[i].name { assert (a + b)[i] == a[i]; }
      forall i | 0 <= i < |b| ensures FirstName(all, b[i].id) == b[i].name { assert (a + b)[|a| + i] == b[i]; }
    }
  }

  lemma TwoHeads<T, U>(f: T -> seq<U>, s: seq<T>)
    requires |s| >= 2
    ensures FlatMap(f, s) == f(s[0]) + f(s[1]) + FlatMap(f, s[2..])
  {
    hide FlatMap;
    FlatMapCons(f, s);
    FlatMapCons(f, s[1..]);
    assert s[1..][1..] == s[2..];
  }

  lemma PlainHead(parse: string -> Option<Json>, all: seq<Request>, m: Message, rest: seq<Content>)
    requires Proper(m) && m.role != "tool" && Requests(m) == []
    ensures GeminiPaired(GeminiOf(parse, all)(m) + rest) <==> GeminiPaired(rest)
  {
    hide FlatMap, GeminiPaired, GeminiOf, ReplyOfItem, ContentCalls, ContentReplies;
    GeminiMessageKept(parse, all, m);
    ItemsAre(parse, all, m.content);
    PlainContent(GeminiOf(parse, all)(m), rest);
  }

  lemma TurnHead(parse: string -> Option<Json>, all: seq<Request>, m: Message, t: Message, rest: seq<Content>)
    requires Proper(m) && m.role == "assistant" && Requests(m) != [] && Proper(t) && t.role == "tool"
    requires Answer(Requests(m), Replies(t))
    ensures var f := GeminiOf(parse, all);
            GeminiPaired(f(m) + f(t) + rest) <==> GeminiPaired(rest) && NamesFound(all, Requests(m))
  {
    hide FlatMap, GeminiPaired, GeminiOf, ReplyOfItem, FirstName, ContentCalls, ContentReplies;
    var f := GeminiOf(parse, all);
    GeminiMessageKept(parse, all, m);
    GeminiMessageKept(parse, all, t);
    ItemsAre(parse, all, m.content);
    ItemsAre(parse, all, t.content);
    TurnContent(f(m)[0], f(t)[0], rest);
    assert f(m) + f(t) == [f(m)[0], f(t)[0]];
  }

  lemma AssistantsAsk(ms: seq<Message>)
    requires forall m :: m in ms ==> Proper(m)
    ensures FlatMap(AssistantRequests, ms) == AllRequests(ms)
  {
    FlatMapSame(AssistantRequests, Requests, ms);
  }

  lemma {:induction false} CallsInOrder(ms: seq<Message>)
    ensures var calls, requests := FlatMap(CallsOf, ms), AllRequests(ms);
            |calls| == |requests| && forall i :: 0 <= i < |calls| ==>
                calls[i] == GeminiCall(requests[i].name, requests[i].input)
  {
    hide FlatMap;
    FlatMapEmpty(CallsOf);
    FlatMapEmpty(Requests);
    if ms != [] {
      var n := |ms| - 1;
      CallsInOrder(ms[..n]);
      assert ms[..n + 1] == ms;
      FlatMapStep(CallsOf, ms, n);
      FlatMapStep(Requests, ms, n);
      ItemsAre((s: string) => None, [], ms[n].content);
    }
  }

  lemma {:induction false} RepliesInOrder(parse: string -> Option<Json>, all: seq<Request>, ms: seq<Message>)
    ensures var answers, replies := FlatMap(RepliesOf(parse, all), ms), AllReplies(ms);
            |answers| == |replies| && forall i :: 0 <= i < |answers| ==>
                answers[i] == GeminiReply(FirstName(all, replies[i].useId), Decoded(parse, replies[i].output))
  {
    hide FlatMap, FirstName, Decoded, ReplyOfItem;
    FlatMapEmpty(RepliesOf(parse, all));
    FlatMapEmpty(Replies);
    if ms != [] {
      var n := |ms| - 1;
      RepliesInOrder(parse, all, ms[..n]);
      assert ms[..n + 1] == ms;
      FlatMapStep(RepliesOf(parse, all), ms, n);
      FlatMapStep(Replies, ms, n);
      ItemsAre(parse, all, ms[n].content);
    }
  }

  /** Gemini gets all calls, all results and all words of the conversation, in order; and
      every content with calls is followed by results under the right names exactly when no
      id stands for two names. */
  lemma GeminiKeeps(parse: string -> Option<Json>, ms: seq<Message>)
    requires Paired(ms)
    ensures var out := GeminiAll(parse, ms);
            && (GeminiPaired(out) <==> NamesAgree(AllRequests(ms)))
            && (var calls, requests := FlatMap(ContentCalls, out), AllRequests(ms);
                |calls| == |requests| && forall i :: 0 <= i < |calls| ==>
                    calls[i] == GeminiCall(requests[i].name, requests[i].input))
            && (var answers, replies := FlatMap(ContentReplies, out), AllReplies(ms);
                |answers| == |replies| && forall i :: 0 <= i < |answers| ==>
                    && answers[i].name == FirstName(AllRequests(ms), replies[i].useId)
                    && answers[i].response == (match parse(replies[i].output)
                                               case Some(value) => Parsed(value)
                                               case None => Raw(replies[i].output)))
            && FlatMap(ContentSays, out) == FlatMap(GeminiSays, ms)
  {
    hide FlatMap, GeminiPaired, GeminiOf, RepliesOf, Paired, NamesAgree, Proper, FirstName;
    var all := AllRequests(ms);
    CallsInOrder(ms);
    RepliesInOrder(parse, all, ms);
    PairedProper(ms);
    AssistantsAsk(ms);
    GeminiPairs(parse, all, ms);
    NamesFoundMeansAgree(all);
    var f := GeminiOf(parse, all);
    forall m | m in ms
      ensures FlatMap(ContentCalls, f(m)) == CallsOf(m) && FlatMap(ContentReplies, f(m)) == RepliesOf(parse, all)(m)
          && FlatMap(ContentSays, f(m)) == GeminiSays(m)
    {
      GeminiMessageKept(parse, all, m);
    }
    FlatMapCompose(f, ContentCalls, CallsOf, ms);
    FlatMapCompose(f, ContentReplies, RepliesOf(parse, all), ms);
    FlatMapCompose(f, ContentSays, GeminiSays, ms);
  }

  /** A paired conversation that Gemini gets a wrong name for: one id, two functions. */
  lemma NamesMixed(parse: string -> Option<Json>)
    ensures var ms := [Message("assistant", [ToolUse("x", "f", "{}"), ToolUse("x", "g", "{}")]),
                       Message("tool", [ToolResult("x", "1"), ToolResult("x", "2")])];
            Paired(ms) && !GeminiPaired(GeminiAll(parse, ms))
  {
    hide FlatMap, GeminiAll, GeminiPaired;
    var f, g := ToolUse("x", "f", "{}"), ToolUse("x", "g", "{}");
    var r, q := ToolResult("x", "1"), ToolResult("x", "2");
    var ms := [Message("assistant", [f, g]), Message("tool", [r, q])];
    TwoItems(f, g);
    TwoItems(r, q);
    assert ms[2..] == [];
    assert Paired(ms);
    TwoHeads(Requests, ms);
    FlatMapEmpty(Requests);
    var rs := AllRequests(ms);
    assert rs == [Request("x", "f", "{}"), Request("x", "g", "{}")];
    assert rs[0].id == rs[1].id && rs[0].name[0] != rs[1].name[0];
    GeminiKeeps(parse, ms);
  }

  lemma TwoItems(a: Item, b: Item)
    ensures FlatMap(RequestOf, [a, b]) == RequestOf(a) + RequestOf(b)
    ensures FlatMap(ReplyOf, [a, b]) == ReplyOf(a) + ReplyOf(b)
  {
    assert [a, b] == [a] + [b];
    FlatMapAppend(RequestOf, [a], [b]);
    FlatMapAppend(ReplyOf, [a], [b]);
    FlatMapOne(RequestOf, a);
    FlatMapOne(RequestOf, b);
    FlatMapOne(ReplyOf, a);
    FlatMapOne(ReplyOf, b);
  }
}
