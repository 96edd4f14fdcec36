/** Whole runs of one agent connection: executors subscribe, its reader dispatches envelopes,
    executors receive, give up and unsubscribe, in any order.  `dispatch` looks a channel up
    under the lock and sends to it afterwards: these are two actions. */
module AgentRuns {
  import opened Text
  import opened Lists
  import opened AgentRouting

  /** An executor's run: it waits on the channel of its own number, and has taken these
      envelopes from it; `stop` is the closed channel or the context that ended it. */
  datatype Exec = Exec(id: string, taken: seq<Envelope>, stop: Option<Arrival>, left: bool)

  /** An envelope and the channel found for it; in the log, the channel that took it. */
  datatype Event = Event(env: Envelope, chan: Option<nat>)

  /** The one loop that reads from the socket; a send on a closed channel ends it. */
  datatype Reader = Idle | Holding(event: Event) | Panicked

  datatype Sys = Sys(net: Net, execs: seq<Exec>, log: seq<Event>, reader: Reader)

  datatype Action =
    | Start(id: string)
    | Look(env: Envelope)
    | Send
    | Next(x: nat)
    | Expire(x: nat, error: string)
    | Leave(x: nat)

  function ArrivalOf(env: Envelope): seq<Arrival> { [Got(env.payload)] }
  function Arrivals(envs: seq<Envelope>): seq<Arrival> { FlatMap(ArrivalOf, envs) }

  /** What the executor's loop has met. */
  function Met(e: Exec): seq<Arrival> { Arrivals(e.taken) + if e.stop.Some? then [e.stop.value] else [] }

  predicate Running(e: Exec) { !e.left && Taken(Met(e)) == |Met(e)| }

  function Init(): Sys { Sys(Net([], map[]), [], [], Idle) }

  /** Every executor has its channel, the waiters are sound, and a channel that the reader
      holds exists. */
  predicate Wired(s: Sys) {
    && |s.net.chans| == |s.execs| && Sound(s.net)
    && (s.reader.Holding? && s.reader.event.chan.Some? ==> s.reader.event.chan.value < |s.net.chans|)
  }

  function Waiter(n: Net, id: string): Option<nat> { if id in n.waiters then Some(n.waiters[id]) else None }

  /** The send on a channel that was looked up before. */
  function Sent(s: Sys, e: Event): (s': Sys)
    requires Wired(s) && s.reader == Holding(e)
    ensures Wired(s')
  {
    if e.chan.Some? && s.net.chans[e.chan.value].closed then s.(reader := Panicked)
    else if e.chan.Some? && |s.net.chans[e.chan.value].queue| < CAPACITY then
      var c := e.chan.value;
      s.(net := s.net.(chans := s.net.chans[c := Pushed(s.net.chans[c], e.env)]), log := s.log + [e], reader := Idle)
    else s.(log := s.log + [Event(e.env, None)], reader := Idle)
  }

  function Apply(s: Sys, a: Action): (s': Sys)
    requires Wired(s)
    ensures Wired(s')
  {
    match a
    case Start(id) => s.(net := Subscribed(s.net, id), execs := s.execs + [Exec(id, [], None, false)])
    case Look(env) =>
      if !s.reader.Idle? then s else s.(reader := Holding(Event(env, Waiter(s.net, env.requestId))))
    case Send =>
      if !s.reader.Holding? then s else Sent(s, s.reader.event)
    case Next(x) =>
      if x >= |s.execs| || !Running(s.execs[x]) then s
      else
        var ch, e := s.net.chans[x], s.execs[x];
        if ch.queue != [] then
          s.(net := s.net.(chans := s.net.chans[x := Popped(ch)]),
              execs := s.execs[x := e.(taken := e.taken + [ch.queue[0]])])
        else if ch.closed then s.(execs := s.execs[x := e.(stop := Some(ChannelClosed))])
        else s  // blocked
    case Expire(x, error) =>
      if x >= |s.execs| || !Running(s.execs[x]) then s
      else s.(execs := s.execs[x := s.execs[x].(stop := Some(ContextDone(error)))])
    case Leave(x) =>
      if x >= |s.execs| || Running(s.execs[x]) || s.execs[x].left then s
      else s.(net := Unsubscribed(s.net, x), execs := s.execs[x := s.execs[x].(left := true)])
  }

  function Run(actions: seq<Action>): (s: Sys)
    ensures Wired(s)
  {
    if actions == [] then Init() else Apply(Run(actions[..|actions| - 1]), actions[|actions| - 1])
  }

  // ---------- what is kept ----------

  /** What `dispatch` put into channel `c`, in order. */
  function Into(c: nat): Event -> seq<Envelope> {
    (e: Event) => if e.chan == Some(c) then [e.env] else []
  }

  function Accepted(log: seq<Event>, c: nat): seq<Envelope> { FlatMap(Into(c), log) }

  /** All that was dispatched for an id, taken or not. */
  function For(id: string): Event -> seq<Envelope> {
    (e: Event) => if e.env.requestId == id then [e.env] else []
  }

  function AllFor(log: seq<Event>, id: string): seq<Envelope> { FlatMap(For(id), log) }

  /** What was accepted is what was taken and what still waits, in order; a channel is
      bounded, and only its own executor's unsubscribe closes it. */
  predicate ExecOk(s: Sys, x: nat)
    requires Wired(s) && x < |s.execs|
  {
    var e, ch := s.execs[x], s.net.chans[x];
    && ch.requestId == e.id && Accepted(s.log, x) == e.taken + ch.queue && |ch.queue| <= CAPACITY
    && (ch.closed ==> e.left)
    && (e.stop.Some? ==> !Goes(e.stop.value) && !e.stop.value.Got?)
  }

  /** A channel stops being waited on when it is closed or when another one was made for its
      id; its executor stays until then. */
  predicate WaitOk(s: Sys, x: nat)
    requires Wired(s) && x < |s.execs|
  {
    if Waiter(s.net, s.execs[x].id) == Some(x) then !s.execs[x].left
    else s.net.chans[x].closed || exists y :: x < y < |s.execs| && s.execs[y].id == s.execs[x].id
  }

  /** An envelope goes only to a channel made for its id. */
  predicate EventOk(s: Sys, e: Event) {
    e.chan.Some? ==> e.chan.value < |s.execs| && s.execs[e.chan.value].id == e.env.requestId
  }

  ghost predicate Inv(s: Sys) {
    && Wired(s)
    && (forall x :: 0 <= x < |s.execs| ==> ExecOk(s, x) && WaitOk(s, x))
    && (s.reader.Holding? ==> EventOk(s, s.reader.event))
    && (forall i :: 0 <= i < |s.log| ==> EventOk(s, s.log[i]))
  }

  lemma AcceptedMore(log: seq<Event>, e: Event, c: nat)
    ensures Accepted(log + [e], c) == Accepted(log, c) + if e.chan == Some(c) then [e.env] else []
  {
    FlatMapAppend(Into(c), log, [e]);
    FlatMapOne(Into(c), e);
  }

  /** A channel that does not exist yet has accepted nothing. */
  lemma {:induction false} NothingAccepted(s: Sys, log: seq<Event>, c: nat)
    requires c >= |s.execs| && forall i :: 0 <= i < |log| ==> EventOk(s, log[i])
    ensures Accepted(log, c) == []
  {
    if log != [] {
      NothingAccepted(s, log[..|log| - 1], c);
    }
  }

  lemma StartOk(s: Sys, id: string)
    requires Inv(s)
    ensures Inv(Apply(s, Start(id)))
  {
    hide FlatMap;
    var s' := Apply(s, Start(id));
    var n := |s.execs|;
    NothingAccepted(s, s.log, n);
    assert s'.execs[n].id == id;
    forall x | 0 <= x < |s'.execs| ensures ExecOk(s', x) && WaitOk(s', x) {
      if x < n { StillOk(s, s', x, n); }
    }
    forall i | 0 <= i < |s'.log| ensures EventOk(s', s'.log[i]) { assert EventOk(s, s.log[i]); }
  }

  /** What holds of an executor holds when `n` starts. */
  lemma StillOk(s: Sys, s': Sys, x: nat, n: nat)
    requires Inv(s) && x < n == |s.execs| && n + 1 == |s'.execs| && Wired(s')
    requires s'.execs[..n] == s.execs && s'.net == Subscribed(s.net, s'.execs[n].id) && s'.log == s.log
    ensures ExecOk(s', x) && WaitOk(s', x)
  {
    hide FlatMap;
    assert ExecOk(s, x) && WaitOk(s, x);
    assert s'.execs[x] == s.execs[x];
    if y :| x < y < |s.execs| && s.execs[y].id == s.execs[x].id {
      assert s'.execs[y] == s.execs[y];
    }
  }

  /** The steps of the reader. */
  lemma ReaderOk(s: Sys, a: Action)
    requires Inv(s) && (a.Look? || a.Send?)
    ensures Inv(Apply(s, a))
  {
    hide FlatMap;
    var s' := Apply(s, a);
    if s'.log != s.log {
      SentOk(s, s.reader.event);
    } else {
      forall x | 0 <= x < |s'.execs| ensures ExecOk(s', x) && WaitOk(s', x) {
        assert ExecOk(s, x) && WaitOk(s, x);
      }
      if s'.reader.Holding? && s'.reader != s.reader && s'.reader.event.chan.Some? {
        assert ExecOk(s, s'.reader.event.chan.value);
      }
      forall i | 0 <= i < |s'.log| ensures EventOk(s', s'.log[i]) { assert EventOk(s, s.log[i]); }
    }
  }

  lemma SentOk(s: Sys, e: Event)
    requires Inv(s) && s.reader == Holding(e) && Sent(s, e).log != s.log
    ensures Inv(Sent(s, e))
  {
    hide FlatMap;
    var s' := Sent(s, e);
    forall x | 0 <= x < |s'.execs| ensures ExecOk(s', x) && WaitOk(s', x) {
      assert ExecOk(s, x) && WaitOk(s, x);
      AcceptedMore(s.log, s'.log[|s.log|], x);
    }
    forall i | 0 <= i < |s'.log| ensures EventOk(s', s'.log[i]) {
      if i < |s.log| { assert EventOk(s, s.log[i]); }
    }
  }

  /** An executor takes an envelope or meets the end. */
  lemma ReceiveOk(s: Sys, a: Action)
    requires Inv(s) && (a.Next? || a.Expire?)
    ensures Inv(Apply(s, a))
  {
    hide FlatMap, Running, WaitOk;
    var s' := Apply(s, a);
    forall x | 0 <= x < |s'.execs| ensures ExecOk(s', x) && WaitOk(s', x) {
      SameExec(s, a, x);
      SameWait(s, s', x);
    }
    forall i | 0 <= i < |s'.log| ensures EventOk(s', s'.log[i]) { assert EventOk(s, s.log[i]); }
  }

  lemma SameExec(s: Sys, a: Action, x: nat)
    requires Inv(s) && (a.Next? || a.Expire?) && x < |s.execs| == |Apply(s, a).execs|
    ensures ExecOk(Apply(s, a), x)
  {
    hide FlatMap, Running, WaitOk, EventOk;
    assert ExecOk(s, x);
  }

  lemma SameWait(s: Sys, s': Sys, x: nat)
    requires Inv(s) && x < |s.execs| == |s'.execs| && Wired(s') && s'.net.waiters == s.net.waiters
    requires forall y :: 0 <= y < |s.execs| ==> s'.execs[y].id == s.execs[y].id
    requires s'.execs[x].left == s.execs[x].left && s'.net.chans[x].closed == s.net.chans[x].closed
    ensures WaitOk(s', x)
  {
    assert WaitOk(s, x);
    if y :| x < y < |s.execs| && s.execs[y].id == s.execs[x].id {
      assert s'.execs[y].id == s.execs[y].id;
    }
  }

  lemma LeaveOk(s: Sys, l: nat)
    requires Inv(s)
    ensures Inv(Apply(s, Leave(l)))
  {
    hide FlatMap, Running;
    var s' := Apply(s, Leave(l));
    forall x | 0 <= x < |s'.execs| ensures ExecOk(s', x) && WaitOk(s', x) {
      assert ExecOk(s, x) && WaitOk(s, x);
      if y :| x < y < |s.execs| && s.execs[y].id == s.execs[x].id {
        assert s'.execs[y].id == s.execs[y].id;
      }
    }
    forall i | 0 <= i < |s'.log| ensures EventOk(s', s'.log[i]) { assert EventOk(s, s.log[i]); }
  }

  lemma {:induction false} RunInv(actions: seq<Action>)
    ensures Inv(Run(actions))
  {
    hide FlatMap, Apply;
    if actions == [] {
      InitOk();
    } else {
      var n := |actions| - 1;
      RunInv(actions[..n]);
      match actions[n]
      case Start(id) => StartOk(Run(actions[..n]), id);
      case Look(_) => ReaderOk(Run(actions[..n]), actions[n]);
      case Send => ReaderOk(Run(actions[..n]), actions[n]);
      case Leave(x) => LeaveOk(Run(actions[..n]), x);
      case _ => ReceiveOk(Run(actions[..n]), actions[n]);
    }
  }

  lemma InitOk()
    ensures Inv(Init())
  {
  }

  // ---------- the reader ----------

  /** No two executors of the run have this request id; ids are random. */
  predicate OwnId(s: Sys, id: string) {
    forall x, y :: 0 <= x < y < |s.execs| && s.execs[x].id == id ==> s.execs[y].id != id
  }

  /** A lookup and a send with nothing in between are `Conn.Dispatch`, and do not panic. */
  lemma DispatchUndisturbed(s: Sys, env: Envelope)
    requires Wired(s) && s.reader.Idle?
    ensures var s' := Apply(Apply(s, Look(env)), Send);
            && s'.reader.Idle? && s'.net == Dispatched(s.net, env) && s'.execs == s.execs
            && |s'.log| == |s.log| + 1 && s'.log[|s.log|].env == env
            && (s'.log[|s.log|].chan.Some? <==> Accepts(s.net, env))
  {
  }

  /** The reader's send panics exactly when the executor that waited for the envelope when it
      was looked up leaves before the send; another query under the same id could only keep
      the channel open. */
  lemma PanicsExactly(before: seq<Action>, env: Envelope, between: seq<Action>)
    requires Run(before).reader.Idle? && Send !in between
    ensures var s := Run(before + [Look(env)] + between);
            var c := Waiter(Run(before).net, env.requestId);
            && (c.Some? ==> c.value < |Run(before).execs| <= |s.execs| && !Run(before).execs[c.value].left)
            && (Apply(s, Send).reader.Panicked? ==> c.Some? && s.execs[c.value].left)
            && (OwnId(s, env.requestId) ==>
                  (Apply(s, Send).reader.Panicked? <==> c.Some? && s.execs[c.value].left))
  {
    hide FlatMap, Run, Running;
    var asked := before + [Look(env)];
    RunMore(before, Look(env));
    ReaderHolds(asked, between);
    RunInv(before);
    RunInv(asked + between);
    var c := Waiter(Run(before).net, env.requestId);
    if c.Some? {
      assert ExecOk(Run(before), c.value) && WaitOk(Run(before), c.value);
      assert ExecOk(Run(asked + between), c.value);
      assert Run(asked + between).execs[c.value].id == env.requestId;
      if OwnId(Run(asked + between), env.requestId) {
        ClosedWhenLeft(Run(asked + between), c.value);
      }
    }
  }

  lemma ClosedWhenLeft(s: Sys, x: nat)
    requires Inv(s) && x < |s.execs| && OwnId(s, s.execs[x].id)
    ensures s.net.chans[x].closed <==> s.execs[x].left
  {
    hide FlatMap;
    assert ExecOk(s, x) && WaitOk(s, x);
  }

  lemma RunMore(actions: seq<Action>, a: Action)
    ensures Run(actions + [a]) == Apply(Run(actions), a)
  {
    hide Apply;
    assert (actions + [a])[..|actions|] == actions;
  }

  /** The reader keeps what it holds until it sends. */
  lemma {:induction false} ReaderHolds(before: seq<Action>, between: seq<Action>)
    requires Run(before).reader.Holding? && Send !in between
    ensures Run(before + between).reader == Run(before).reader
    ensures |Run(before).execs| <= |Run(before + between).execs|
  {
    hide Run, Sent, Running;
    if between == [] {
      assert before + between == before;
    } else {
      var n := |between| - 1;
      ReaderHolds(before, between[..n]);
      assert before + between[..n] + [between[n]] == before + between;
      RunMore(before + between[..n], between[n]);
    }
  }

  /** A query that is canceled while one of its envelopes is between lookup and send. */
  lemma ReaderPanics()
    ensures var env := Envelope("q", QueryRows(["1"]));
            Run([Start("q"), Look(env), Expire(0, "canceled"), Leave(0), Send]).reader.Panicked?
  {
    hide Apply;
    var env := Envelope("q", QueryRows(["1"]));
    var a := [Start("q"), Look(env), Expire(0, "canceled"), Leave(0), Send];
    assert Apply(Apply(Apply(Apply(Apply(Init(), a[0]), a[1]), a[2]), a[3]), a[4]).reader.Panicked? by {
      CanceledInBetween(env);
    }
    forall k: nat | k < 5 ensures Run(a[..k + 1]) == Apply(Run(a[..k]), a[k]) {
      assert a[..k] + [a[k]] == a[..k + 1];
      RunMore(a[..k], a[k]);
    }
    assert a[..0] == [] && a[..5] == a;
  }

  lemma CanceledInBetween(env: Envelope)
    requires env.requestId == "q"
    ensures Apply(Apply(Apply(Apply(Apply(Init(), Start("q")), Look(env)), Expire(0, "canceled")), Leave(0)), Send)
            .reader.Panicked?
  {
    var s := Apply(Apply(Init(), Start("q")), Look(env));
    assert Running(s.execs[0]);
    s := Apply(s, Expire(0, "canceled"));
    assert Met(s.execs[0]) == [ContextDone("canceled")];
    s := Apply(s, Leave(0));
    assert s.net.chans[0].closed;
  }

  // ---------- what an executor gets ----------

  lemma {:induction false} ArrivalsAre(envs: seq<Envelope>)
    ensures |Arrivals(envs)| == |envs| && forall i :: 0 <= i < |envs| ==> Arrivals(envs)[i] == Got(envs[i].payload)
  {
    if envs != [] { ArrivalsAre(envs[..|envs| - 1]); }
  }

  /** A loop that ends within the beginning of a list ends there in the whole list. */
  lemma {:induction false} TakenPrefix(a: seq<Arrival>, b: seq<Arrival>)
    requires Taken(a) < |a|
    ensures Taken(a + b) == Taken(a)
  {
    if Goes(a[0]) {
      assert (a + b)[1..] == a[1..] + b;
      TakenPrefix(a[1..], b);
    }
  }

  /** In every run: an executor whose loop ended on an envelope, a `query_done` above all, has
      met exactly what `dispatch` accepted for it up to that one, in order; so its rows are
      those of the batches accepted before it, and none is missing, doubled or another's. */
  lemma RowsAreAccepted(actions: seq<Action>, x: nat)
    requires x < |Run(actions).execs|
    requires var met := Met(Run(actions).execs[x]); Taken(met) < |met| && met[Taken(met)].Got?
    ensures var s := Run(actions);
            var met, accepted := Met(s.execs[x]), Arrivals(Accepted(s.log, x));
            && Taken(accepted) == Taken(met) < |accepted| && accepted[Taken(met)] == met[Taken(met)]
            && RowsReceived(met) == RowsReceived(accepted)
            && forall i :: 0 <= i < |Accepted(s.log, x)| ==> Accepted(s.log, x)[i].requestId == s.execs[x].id
  {
    hide FlatMap, Run;
    var s := Run(actions);
    RunInv(actions);
    assert ExecOk(s, x);
    var e := s.execs[x];
    ArrivalsAre(e.taken);
    FlatMapAppend(ArrivalOf, e.taken, s.net.chans[x].queue);
    assert Taken(Met(e)) < |Arrivals(e.taken)|;
    EndsInTaken(e);
    TakenPrefix(Arrivals(e.taken), Arrivals(s.net.chans[x].queue));
    OwnEnvelopes(s, s.log, x);
    var n := Taken(Met(e));
    assert Met(e)[..n] == Arrivals(e.taken)[..n];
    assert Arrivals(Accepted(s.log, x))[..n] == Arrivals(e.taken)[..n];
  }

  lemma EndsInTaken(e: Exec)
    requires Taken(Met(e)) < |Arrivals(e.taken)|
    ensures Taken(Arrivals(e.taken)) == Taken(Met(e))
  {
    var a, b := Arrivals(e.taken), if e.stop.Some? then [e.stop.value] else [];
    TakenOfPart(a, b);
  }

  lemma {:induction false} TakenOfPart(a: seq<Arrival>, b: seq<Arrival>)
    requires Taken(a + b) < |a|
    ensures Taken(a) == Taken(a + b)
  {
    if Goes(a[0]) {
      assert (a + b)[1..] == a[1..] + b;
      TakenOfPart(a[1..], b);
    }
  }

  lemma {:induction false} OwnEnvelopes(s: Sys, log: seq<Event>, x: nat)
    requires x < |s.execs| && forall i :: 0 <= i < |log| ==> EventOk(s, log[i])
    ensures forall i :: 0 <= i < |Accepted(log, x)| ==> Accepted(log, x)[i].requestId == s.execs[x].id
  {
    hide FlatMap;
    if log == [] {
      FlatMapEmpty(Into(x));
    } else {
      var n := |log| - 1;
      OwnEnvelopes(s, log[..n], x);
      assert EventOk(s, log[n]) && log[..n] + [log[n]] == log;
      AcceptedMore(log[..n], log[n], x);
    }
  }

  /** `dispatch` returned true each time it was given an envelope for this id. */
  predicate NothingDropped(s: Sys, id: string) {
    forall i :: 0 <= i < |s.log| && s.log[i].env.requestId == id ==> s.log[i].chan.Some?
  }

  /** And if nothing was dropped, these are the rows of all batches that were dispatched for
      its id before the one that ended it. */
  lemma AllRowsArrive(actions: seq<Action>, x: nat)
    requires x < |Run(actions).execs| && OwnId(Run(actions), Run(actions).execs[x].id)
        && NothingDropped(Run(actions), Run(actions).execs[x].id)
    requires var met := Met(Run(actions).execs[x]); Taken(met) < |met| && met[Taken(met)].Got?
    ensures var s := Run(actions);
            && Accepted(s.log, x) == AllFor(s.log, s.execs[x].id)
            && RowsReceived(Met(s.execs[x])) == RowsReceived(Arrivals(AllFor(s.log, s.execs[x].id)))
  {
    hide FlatMap, Run, Taken, RowsReceived, Into, For;
    RunInv(actions);
    RowsAreAccepted(actions, x);
    AcceptedIsAll(Run(actions), x);
  }

  lemma AcceptedIsAll(s: Sys, x: nat)
    requires x < |s.execs| && OwnId(s, s.execs[x].id) && NothingDropped(s, s.execs[x].id)
    requires forall i :: 0 <= i < |s.log| ==> EventOk(s, s.log[i])
    ensures Accepted(s.log, x) == AllFor(s.log, s.execs[x].id)
  {
    hide FlatMap;
    forall e | e in s.log ensures Into(x)(e) == For(s.execs[x].id)(e) {
      var i :| 0 <= i < |s.log| && s.log[i] == e;
      assert EventOk(s, s.log[i]);
    }
    FlatMapSame(Into(x), For(s.execs[x].id), s.log);
  }

  /** In every run no channel holds more than sixteen envelopes, and a channel is closed only
      by the unsubscribe of its own executor. */
  lemma ChannelsBounded(actions: seq<Action>, x: nat)
    requires x < |Run(actions).execs|
    ensures var s := Run(actions);
            |s.net.chans[x].queue| <= 16 && (s.net.chans[x].closed ==> s.execs[x].left)
  {
    hide FlatMap, Run;
    RunInv(actions);
    assert ExecOk(Run(actions), x);
  }
}
