/** `Run` of `internal/chat/orchestrator.go`: the turn loop between the language model and
    the tools. */
module Orchestrator {
  import opened Lists
  import opened Conversation

  // ---------- the world outside ----------

  /** What one call of the model gives: an error, or the events until the channel closes. */
  datatype Stream = Refused(message: string) | Events(events: seq<Event>)

  datatype Outcome = Output(text: string) | Failure(message: string)

  /** `reply(i)` is the model's answer to its call number `i`; `execute(i, k, r)` is what
      tool call `k` of that answer comes to. */
  datatype World = World(reply: nat -> Stream, execute: (nat, nat, Request) -> Outcome)

  // ---------- one turn ----------

  function Heard(events: seq<Event>): seq<Event> {
    if events == [] then [] else if events[0].ErrorEvent? then [events[0]] else [events[0]] + Heard(events[1..])
  }

  predicate Fails(events: seq<Event>) { exists i :: 0 <= i < |events| && events[i].ErrorEvent? }

  function NotDone(e: Event): seq<Event> { if e.DoneEvent? then [] else [e] }
  function TextOfEvent(e: Event): string { if e.TextEvent? then e.text else "" }
  function RequestOfEvent(e: Event): seq<Request> { if e.UseEvent? then [Request(e.id, e.name, e.input)] else [] }

  /** What of a stream the user gets to see: all up to an error, but the end marks. */
  function Forwarded(events: seq<Event>): seq<Event> { FlatMap(NotDone, Heard(events)) }
  function Asked(events: seq<Event>): seq<Request> { FlatMap(RequestOfEvent, events) }

  predicate Continues(s: Stream) { s.Events? && !Fails(s.events) && Asked(s.events) != [] }

  function ItemOf(r: Request): seq<Item> { [ToolUse(r.id, r.name, r.input)] }

  function AssistantMessage(events: seq<Event>): Message {
    var text := FlatMap(TextOfEvent, events);
    Message("assistant", (if text != "" then [Words(text)] else []) + FlatMap(ItemOf, Asked(events)))
  }

  function Result(o: Outcome): string {
    match o
    case Output(text) => text
    case Failure(message) => "ERROR: " + message
  }

  /** The outputs of the first `n` tool calls of answer `i`. */
  function Outputs(w: World, i: nat, asked: seq<Request>, n: nat): (r: seq<Reply>)
    requires n <= |asked|
    ensures |r| == n && forall k :: 0 <= k < n ==> r[k] == Reply(asked[k].id, Result(w.execute(i, k, asked[k])))
  {
    if n == 0 then []
    else
      var last := Result(w.execute(i, n - 1, asked[n - 1]));
      Outputs(w, i, asked, n - 1) + [Reply(asked[n - 1].id, last)]
  }

  function ResultItem(r: Reply): seq<Item> { [ToolResult(r.useId, r.output)] }
  function ResultEventOf(r: Reply): seq<Event> { [ResultEvent(r.useId, r.output)] }

  function Answers(w: World, i: nat): seq<Reply> {
    if w.reply(i).Events? then Outputs(w, i, Asked(w.reply(i).events), |Asked(w.reply(i).events)|) else []
  }

  function TurnEvents(w: World, i: nat): seq<Event> {
    if w.reply(i).Events? then Forwarded(w.reply(i).events) + FlatMap(ResultEventOf, Answers(w, i)) else []
  }

  function TurnMessages(w: World, i: nat): seq<Message> {
    if w.reply(i).Events? then
      [AssistantMessage(w.reply(i).events), Message("tool", FlatMap(ResultItem, Answers(w, i)))]
    else []
  }

  // ---------- a run ----------

  /** The message list of the model's call number `i`. */
  function RequestAt(messages: seq<Message>, w: World, i: nat): seq<Message> {
    if i == 0 then messages else RequestAt(messages, w, i - 1) + TurnMessages(w, i - 1)
  }

  /** What has been sent before the model's call number `i`. */
  function SentBefore(w: World, i: nat): seq<Event> {
    if i == 0 then [] else SentBefore(w, i - 1) + TurnEvents(w, i - 1)
  }

  /** What the last call, number `i`, sends. */
  function Ending(w: World, i: nat): seq<Event> {
    match w.reply(i)
    case Refused(message) => [ErrorEvent(message)]
    case Events(events) =>
      if Fails(events) then Forwarded(events)
      else if Asked(events) == [] then Forwarded(events) + [DoneEvent]
      else TurnEvents(w, i) + [ErrorEvent("max iterations reached")]
  }

  /** The inner loop of a turn: forwards the events, and gathers text and tool calls. */
  method Listen(events: seq<Event>) returns (out: seq<Event>, textBuf: string, toolCalls: seq<Request>, failed: bool)
    ensures failed <==> Fails(events)
    ensures out == Forwarded(events)
    ensures !failed ==> textBuf == FlatMap(TextOfEvent, events) && toolCalls == Asked(events)
  {
    hide FlatMap, Heard;
    out, textBuf, toolCalls, failed := [], "", [], false;
    FlatMapEmpty(NotDone);
    FlatMapEmpty(TextOfEvent);
    FlatMapEmpty(RequestOfEvent);
    for j := 0 to |events|
      invariant forall k :: 0 <= k < j ==> !events[k].ErrorEvent?
      invariant !failed
      invariant out == FlatMap(NotDone, events[..j])
      invariant textBuf == FlatMap(TextOfEvent, events[..j])
      invariant toolCalls == FlatMap(RequestOfEvent, events[..j])
    {
      FlatMapStep(NotDone, events, j);
      FlatMapStep(TextOfEvent, events, j);
      FlatMapStep(RequestOfEvent, events, j);
      var ev := events[j];
      if ev != DoneEvent {
        out := out + [ev];
      }
      match ev
      case TextEvent(text) => textBuf := textBuf + text;
      case UseEvent(id, name, input) => toolCalls := toolCalls + [Request(id, name, input)];
      case ErrorEvent(_) =>
        HeardUntil(events, j);
        failed := true;
        return;
      case _ =>
    }
    assert events[..|events|] == events;
    HeardAll(events);
  }

  lemma {:induction false} HeardUntil(events: seq<Event>, j: nat)
    requires j < |events| && events[j].ErrorEvent? && forall k :: 0 <= k < j ==> !events[k].ErrorEvent?
    ensures Heard(events) == events[..j + 1]
  {
    if j > 0 {
      HeardUntil(events[1..], j - 1);
      assert events[..j + 1] == [events[0]] + events[1..][..j];
    }
  }

  lemma {:induction false} HeardAll(events: seq<Event>)
    requires !Fails(events)
    ensures Heard(events) == events
  {
    if events != [] {
      forall k | 0 <= k < |events[1..]| ensures !events[1..][k].ErrorEvent? { assert events[1..][k] == events[k + 1]; }
      HeardAll(events[1..]);
    }
  }

  lemma AskedHeard(events: seq<Event>)
    requires !Fails(events)
    ensures FlatMap(RequestOfEvent, Forwarded(events)) == Asked(events)
  {
    hide FlatMap, Heard;
    HeardAll(events);
    forall e ensures FlatMap(RequestOfEvent, NotDone(e)) == RequestOfEvent(e) {
      FlatMapEmpty(RequestOfEvent);
      FlatMapOne(RequestOfEvent, e);
    }
    FlatMapCompose(NotDone, RequestOfEvent, RequestOfEvent, events);
  }

  /** `requests[i]` is the list that the model's call number `i` is given. */
  method Run(maxIterations: int, messages: seq<Message>, w: World)
    returns (out: seq<Event>, requests: seq<seq<Message>>)
    ensures 1 <= |requests| <= if maxIterations <= 0 then 8 else maxIterations
    ensures forall i :: 0 <= i < |requests| ==> requests[i] == RequestAt(messages, w, i)
    ensures forall i :: 0 <= i < |requests| - 1 ==> Continues(w.reply(i))
    ensures Continues(w.reply(|requests| - 1)) ==> |requests| == if maxIterations <= 0 then 8 else maxIterations
    ensures out == SentBefore(w, |requests| - 1) + Ending(w, |requests| - 1)
  {
    hide Continues, TurnEvents, TurnMessages, Ending, RequestAt, SentBefore;
    out, requests := [], [];
    Start(messages, w);
    var limit := maxIterations;
    if limit <= 0 {
      limit := 8;
    }
    var msgs := messages;
    for iter := 0 to limit
      invariant |requests| == iter && msgs == RequestAt(messages, w, iter) && out == SentBefore(w, iter)
      invariant forall i :: 0 <= i < iter ==> requests[i] == RequestAt(messages, w, i) && Continues(w.reply(i))
    {
      requests := requests + [msgs];
      NextTurn(messages, w, iter);
      var sent, more, goesOn := Turn(w, iter);
      out := out + sent;
      if !goesOn {
        return;
      }
      msgs := msgs + more;
    }
    out := out + [ErrorEvent("max iterations reached")];
    LimitReached(w, limit - 1);
  }

  lemma Start(messages: seq<Message>, w: World)
    ensures RequestAt(messages, w, 0) == messages && SentBefore(w, 0) == []
  {
  }

  lemma NextTurn(messages: seq<Message>, w: World, i: nat)
    ensures RequestAt(messages, w, i + 1) == RequestAt(messages, w, i) + TurnMessages(w, i)
    ensures SentBefore(w, i + 1) == SentBefore(w, i) + TurnEvents(w, i)
  {
  }

  lemma LimitReached(w: World, i: nat)
    requires Continues(w.reply(i))
    ensures SentBefore(w, i + 1) + [ErrorEvent("max iterations reached")] == SentBefore(w, i) + Ending(w, i)
  {
    assert SentBefore(w, i + 1) == SentBefore(w, i) + TurnEvents(w, i);
  }

  /** The body of the turn loop: what is sent, what is added to the messages, and whether
      there is a next turn. */
  method Turn(w: World, iter: nat) returns (sent: seq<Event>, more: seq<Message>, goesOn: bool)
    ensures goesOn <==> Continues(w.reply(iter))
    ensures if goesOn then sent == TurnEvents(w, iter) && more == TurnMessages(w, iter) else sent == Ending(w, iter)
  {
    hide FlatMap, Forwarded, Fails, Asked, Outputs;
    match w.reply(iter)
    case Refused(message) => return [ErrorEvent(message)], [], false;
    case Events(events) =>
      var heard, textBuf, toolCalls, failed := Listen(events);
      if failed {
        return heard, [], false;
      }
      var content := if textBuf != "" then [Words(textBuf)] else [];
      var uses := UseItems(toolCalls);
      content := content + uses;
      if |toolCalls| == 0 {
        return heard + [DoneEvent], [], false;
      }
      var results, reports := RunTools(w, iter, toolCalls);
      return heard + reports, [Message("assistant", content), Message("tool", results)], true;
  }

  method UseItems(toolCalls: seq<Request>) returns (items: seq<Item>)
    ensures items == FlatMap(ItemOf, toolCalls)
  {
    hide FlatMap;
    items := [];
    FlatMapEmpty(ItemOf);
    for k := 0 to |toolCalls|
      invariant items == FlatMap(ItemOf, toolCalls[..k])
    {
      FlatMapStep(ItemOf, toolCalls, k);
      items := items + [ToolUse(toolCalls[k].id, toolCalls[k].name, toolCalls[k].input)];
    }
    assert toolCalls[..|toolCalls|] == toolCalls;
  }

  /** The tool loop of a turn: each call is executed, reported and recorded. */
  method RunTools(w: World, iter: nat, toolCalls: seq<Request>) returns (results: seq<Item>, sent: seq<Event>)
    ensures var answers := Outputs(w, iter, toolCalls, |toolCalls|);
            results == FlatMap(ResultItem, answers) && sent == FlatMap(ResultEventOf, answers)
  {
    hide FlatMap;
    results, sent := [], [];
    FlatMapEmpty(ResultItem);
    FlatMapEmpty(ResultEventOf);
    for k := 0 to |toolCalls|
      invariant results == FlatMap(ResultItem, Outputs(w, iter, toolCalls, k))
      invariant sent == FlatMap(ResultEventOf, Outputs(w, iter, toolCalls, k))
    {
      var tc := toolCalls[k];
      var outcome := w.execute(iter, k, tc);
      var output := if outcome.Failure? then "ERROR: " + outcome.message else outcome.text;
      FlatMapAppend(ResultItem, Outputs(w, iter, toolCalls, k), [Reply(tc.id, output)]);
      FlatMapAppend(ResultEventOf, Outputs(w, iter, toolCalls, k), [Reply(tc.id, output)]);
      FlatMapOne(ResultItem, Reply(tc.id, output));
      FlatMapOne(ResultEventOf, Reply(tc.id, output));
      sent := sent + [ResultEvent(tc.id, output)];
      results := results + [ToolResult(tc.id, output)];
    }
  }
}
