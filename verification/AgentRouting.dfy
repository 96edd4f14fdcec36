/** The routing of an agent's answers: `internal/agent/registry.go` and the receive loop of
    `internal/agent/executor.go`.

    `Net` is what a connection's waiters and channels are; the classes are proved to change
    it as the functions on it say.  What follows over whole runs is in `AgentRuns`.  Closing
    a closed channel would panic; here it is not allowed. */
module AgentRouting {
  import opened Text
  import opened Lists

  type Row = string

  /** What an agent sends in answer to a query; `Other` is any type the executor does not
      expect, `Garbled` a payload that does not decode. */
  datatype Payload =
    | QueryMeta(columns: seq<string>)
    | QueryRows(rows: seq<Row>)
    | QueryDone(durationMs: int, rowCount: int)
    | QueryError(error: string)
    | Garbled
    | Other(kind: string)

  datatype Envelope = Envelope(requestId: string, payload: Payload)

  const CAPACITY := 16

  // ---------- the channels of a connection ----------

  datatype Chan = Chan(requestId: string, queue: seq<Envelope>, closed: bool)

  /** The channels in the order in which they were made, and for an id the number of the
      one that waits for it. */
  datatype Net = Net(chans: seq<Chan>, waiters: map<string, nat>)

  function Pushed(ch: Chan, env: Envelope): Chan { ch.(queue := ch.queue + [env]) }
  function Popped(ch: Chan): Chan { if ch.queue == [] then ch else ch.(queue := ch.queue[1..]) }

  predicate Sound(n: Net) {
    forall id :: id in n.waiters ==>
      n.waiters[id] < |n.chans| && n.chans[n.waiters[id]].requestId == id && !n.chans[n.waiters[id]].closed
  }

  function Subscribed(n: Net, id: string): Net {
    Net(n.chans + [Chan(id, [], false)], n.waiters[id := |n.chans|])
  }

  /** The closure of `Subscribe` for channel `c`. */
  function Unsubscribed(n: Net, c: nat): Net
    requires c < |n.chans|
  {
    var id := n.chans[c].requestId;
    if id in n.waiters && n.waiters[id] == c then Net(n.chans[c := n.chans[c].(closed := true)], n.waiters - {id})
    else n
  }

  predicate Accepts(n: Net, env: Envelope)
    requires Sound(n)
  {
    env.requestId in n.waiters && |n.chans[n.waiters[env.requestId]].queue| < CAPACITY
  }

  function Dispatched(n: Net, env: Envelope): Net
    requires Sound(n)
  {
    if !Accepts(n, env) then n
    else var c := n.waiters[env.requestId]; n.(chans := n.chans[c := Pushed(n.chans[c], env)])
  }

  class Channel {
    ghost const requestId: string
    ghost const number: nat
    var queue: seq<Envelope>
    var closed: bool

    ghost function Abs(): Chan
      reads this
    {
      Chan(requestId, queue, closed)
    }

    /** The buffer is bounded, and all of it is for this id. */
    ghost predicate Valid()
      reads this
    {
      |queue| <= CAPACITY && forall i :: 0 <= i < |queue| ==> queue[i].requestId == requestId
    }

    constructor (ghost requestId: string, ghost number: nat)
      ensures Valid() && Abs() == Chan(requestId, [], false) && this.number == number
    {
      this.requestId, this.number, queue, closed := requestId, number, [], false;
    }

    /** A send that does not wait: a full buffer drops the envelope. */
    method TrySend(env: Envelope) returns (sent: bool)
      requires Valid() && !closed && env.requestId == requestId
      modifies this
      ensures Valid() && (sent <==> |old(queue)| < 16)
      ensures Abs() == if sent then Pushed(old(Abs()), env) else old(Abs())
    {
      sent := |queue| < CAPACITY;
      if sent {
        queue := queue + [env];
      }
    }

    /** A receive; `None` is what a closed and drained channel gives.  One that would wait is
        not called. */
    method Receive() returns (env: Option<Envelope>)
      requires Valid() && (queue != [] || closed)
      modifies this
      ensures Valid() && Abs() == Popped(old(Abs()))
      ensures env == if old(queue) == [] then None else Some(old(queue)[0])
    {
      if queue == [] {
        return None;
      }
      env := Some(queue[0]);
      queue := queue[1..];
    }

    method Close()
      requires Valid() && !closed
      modifies this`closed
      ensures Valid() && Abs() == old(Abs()).(closed := true)
    {
      closed := true;
    }
  }

  ghost function AbsAll(order: seq<Channel>): (chans: seq<Chan>)
    reads order
    ensures |chans| == |order| && forall i :: 0 <= i < |order| ==> chans[i] == order[i].Abs()
  {
    if order == [] then [] else AbsAll(order[..|order| - 1]) + [order[|order| - 1].Abs()]
  }

  lemma AbsAllIs(order: seq<Channel>, chans: seq<Chan>)
    requires |chans| == |order| && forall i :: 0 <= i < |order| ==> chans[i] == order[i].Abs()
    ensures AbsAll(order) == chans
  {
  }

  ghost function Numbers(waiters: map<string, Channel>): map<string, nat> {
    map id | id in waiters :: waiters[id].number
  }

  lemma NumbersChange(waiters: map<string, Channel>, id: string, ch: Channel)
    ensures Numbers(waiters[id := ch]) == Numbers(waiters)[id := ch.number]
    ensures Numbers(waiters - {id}) == Numbers(waiters) - {id}
    ensures Numbers(waiters).Keys == waiters.Keys && (id in waiters ==> Numbers(waiters)[id] == waiters[id].number)
  {
  }

  /** The channels are sound, each in the place of its number. */
  ghost predicate InOrder(order: seq<Channel>)
    reads order
  {
    forall i :: 0 <= i < |order| ==> order[i].number == i && order[i].Valid()
  }

  class Conn {
    const agentId: string
    var waiters: map<string, Channel>
    var socketOpen: bool
    ghost var order: seq<Channel>

    ghost function Abs(): Net
      reads this, order
    {
      Net(AbsAll(order), Numbers(waiters))
    }

    /** A channel that is waited on is one of this connection's, open, and made for its id. */
    ghost predicate Valid()
      reads this, order
    {
      && InOrder(order)
      && forall id :: id in waiters ==>
           var ch := waiters[id];
           ch.number < |order| && order[ch.number] == ch && ch.requestId == id && !ch.closed
    }

    lemma WaitersSound()
      requires Valid()
      ensures Sound(Abs())
    {
    }

    constructor (agentId: string)
      ensures Valid() && Abs() == Net([], map[]) && this.agentId == agentId && socketOpen
    {
      this.agentId, waiters, socketOpen, order := agentId, map[], true, [];
    }

    method Subscribe(requestId: string) returns (ch: Channel)
      requires Valid()
      modifies this`waiters, this`order
      ensures Valid() && fresh(ch) && order == old(order) + [ch]
      ensures Abs() == Subscribed(old(Abs()), requestId)
    {
      hide AbsAll, Numbers;
      ghost var chans := AbsAll(order);
      ch := new Channel(requestId, |order|);
      NumbersChange(waiters, requestId, ch);
      waiters := waiters[requestId := ch];
      order := order + [ch];
      AbsAllIs(order, chans + [ch.Abs()]);
    }

    /** The closure that `Subscribe` returns for its channel: it closes the channel if it is
        still the waiter, and otherwise does nothing, however often it is called. */
    method Unsubscribe(requestId: string, ch: Channel)
      requires Valid() && ch in order && ch.requestId == requestId
      modifies this`waiters, ch`closed
      ensures Valid() && order == old(order)
      ensures ch.number < |order| && Abs() == Unsubscribed(old(Abs()), ch.number)
    {
      hide AbsAll, Numbers;
      NumbersChange(waiters, requestId, ch);
      if requestId in waiters && waiters[requestId] == ch {
        Forget(requestId);
        CloseChannel(ch);
      }
    }

    /** The waiter goes. */
    method Forget(requestId: string)
      requires Valid() && requestId in waiters
      modifies this`waiters
      ensures Valid() && waiters == old(waiters) - {requestId}
      ensures Abs() == Net(old(Abs()).chans, old(Abs()).waiters - {requestId})
    {
      hide AbsAll, Numbers, InOrder;
      NumbersChange(waiters, requestId, waiters[requestId]);
      waiters := waiters - {requestId};
    }

    /** A channel that is not waited on is closed. */
    method CloseChannel(ch: Channel)
      requires Valid() && ch.number < |order| && order[ch.number] == ch && !ch.closed
      requires forall id :: id in waiters ==> waiters[id] != ch
      modifies ch`closed
      ensures Valid()
      ensures Abs() == Net(old(Abs()).chans[ch.number := old(ch.Abs()).(closed := true)], old(Abs()).waiters)
    {
      hide AbsAll, Numbers;
      ghost var chans := AbsAll(order);
      ch.Close();
      AbsAllIs(order, chans[ch.number := ch.Abs()]);
    }

    /** With nothing in between lookup and send; `AgentRuns` takes the two apart. */
    method Dispatch(requestId: string, env: Envelope) returns (sent: bool)
      requires Valid() && env.requestId == requestId
      modifies order
      ensures Valid() && order == old(order)
      ensures Sound(old(Abs())) && (sent <==> Accepts(old(Abs()), env)) && Abs() == Dispatched(old(Abs()), env)
    {
      WaitersSound();
      if requestId !in waiters {
        return false;
      }
      sent := waiters[requestId].TrySend(env);
    }
  }

  class Registry {
    var m: map<string, Conn>

    constructor ()
      ensures m == map[]
    {
      m := map[];
    }

    /** One agent, one connection: the one before is closed. */
    method Register(c: Conn)
      modifies this, if c.agentId in m then {m[c.agentId]} else {}
      ensures m == Registered(old(m), c)
      ensures c.agentId in old(m) ==> !old(m)[c.agentId].socketOpen
    {
      if c.agentId in m {
        m[c.agentId].socketOpen := false;
      }
      m := m[c.agentId := c];
    }

    method Unregister(c: Conn)
      modifies this
      ensures m == Unregistered(old(m), c)
    {
      if c.agentId in m && m[c.agentId] == c {
        m := m - {c.agentId};
      }
    }
  }

  function Registered(m: map<string, Conn>, c: Conn): map<string, Conn> { m[c.agentId := c] }

  function Unregistered(m: map<string, Conn>, c: Conn): map<string, Conn> {
    if c.agentId in m && m[c.agentId] == c then m - {c.agentId} else m
  }

  // ---------- the registry over a whole run ----------

  datatype Change = Add(c: Conn) | Remove(c: Conn)

  function Run(changes: seq<Change>): map<string, Conn> {
    if changes == [] then map[]
    else
      var before := Run(changes[..|changes| - 1]);
      match changes[|changes| - 1]
      case Add(c) => Registered(before, c)
      case Remove(c) => Unregistered(before, c)
  }

  /** The last connection that was registered for the id, unless it was removed since. */
  function Latest(changes: seq<Change>, id: string): Option<Conn> {
    if changes == [] then None
    else
      var last := changes[|changes| - 1];
      var before := Latest(changes[..|changes| - 1], id);
      if last.c.agentId != id then before
      else if last.Add? then Some(last.c)
      else if before == Some(last.c) then None
      else before
  }

  /** After any sequence of registrations and removals the registry holds, for every agent,
      the connection registered last, unless that one was removed: removing a connection
      that was replaced, however late, never takes its successor away. */
  lemma {:induction false} RegistryHoldsLatest(changes: seq<Change>, id: string)
    ensures (if id in Run(changes) then Some(Run(changes)[id]) else None) == Latest(changes, id)
    ensures id in Run(changes) ==> Run(changes)[id].agentId == id
  {
    if changes != [] { RegistryHoldsLatest(changes[..|changes| - 1], id); }
  }

  /** In particular: once `c` is registered, it stays until it is itself removed or another
      connection of the same agent is registered. */
  lemma {:induction false} SuccessorStays(before: seq<Change>, c: Conn, after: seq<Change>)
    requires forall i :: 0 <= i < |after| && after[i].c.agentId == c.agentId ==> after[i].Remove? && after[i].c != c
    ensures c.agentId in Run(before + [Add(c)] + after) && Run(before + [Add(c)] + after)[c.agentId] == c
  {
    var all := before + [Add(c)] + after;
    if after == [] {
      assert all[..|all| - 1] == before && all[|all| - 1] == Add(c);
    } else {
      var n := |after| - 1;
      SuccessorStays(before, c, after[..n]);
      assert all[..|all| - 1] == before + [Add(c)] + after[..n] && all[|all| - 1] == after[n];
    }
  }

  // ---------- the executor ----------

  /** What the executor's loop meets: an envelope, the closed channel, or a context that is
      done. */
  datatype Arrival = Got(payload: Payload) | ChannelClosed | ContextDone(error: string)

  datatype ExecResult = ExecResult(columns: seq<string>, rows: seq<Row>, truncated: bool, durationMs: int,
                                   rowsAffected: int)

  const OFFLINE := "agent offline"

  function RowsOf(a: Arrival): seq<Row> { if a.Got? && a.payload.QueryRows? then a.payload.rows else [] }

  predicate Goes(a: Arrival) { a.Got? && (a.payload.QueryMeta? || a.payload.QueryRows?) }

  /** How many arrivals come before the one that ends the loop. */
  function Taken(arrivals: seq<Arrival>): (n: nat)
    ensures n <= |arrivals| && (forall i :: 0 <= i < n ==> Goes(arrivals[i])) && (n < |arrivals| ==> !Goes(arrivals[n]))
  {
    if arrivals == [] || !Goes(arrivals[0]) then 0 else 1 + Taken(arrivals[1..])
  }

  /** The rows of all batches before the arrival that ends the loop, in order. */
  function RowsReceived(arrivals: seq<Arrival>): seq<Row> { FlatMap(RowsOf, arrivals[..Taken(arrivals)]) }

  function LastColumns(arrivals: seq<Arrival>): seq<string> {
    if arrivals == [] then []
    else
      var last := arrivals[|arrivals| - 1];
      if last.Got? && last.payload.QueryMeta? then last.payload.columns
      else LastColumns(arrivals[..|arrivals| - 1])
  }

  function Ended(a: Arrival): Option<string> {
    match a
    case ContextDone(error) => Some(error)
    case ChannelClosed => Some(OFFLINE)
    case Got(QueryDone(_, _)) => None
    case Got(QueryError(error)) => Some(if error == "" then "agent query failed" else error)
    case Got(Other(kind)) => Some("unexpected agent message type: " + kind)
    case Got(_) => Some("invalid payload")
  }

  /** The rows are those of all batches before the arrival that ends the loop, in order; the
      run succeeds exactly when that one is a `query_done`; and `truncated` is set exactly
      when a batch brought the rows to the limit. */
  method Receive(maxRows: int, arrivals: seq<Arrival>) returns (out: ExecResult, err: Option<string>)
    requires Taken(arrivals) < |arrivals|
    ensures var n := Taken(arrivals);
            && out.rows == RowsReceived(arrivals) && out.columns == LastColumns(arrivals[..n])
            && err == Ended(arrivals[n])
            && (err.None? ==>
                  && out.durationMs == arrivals[n].payload.durationMs
                  && out.rowsAffected == arrivals[n].payload.rowCount)
            && (out.truncated <==>
                  && |out.rows| >= (if maxRows <= 0 then 10000 else maxRows)
                  && exists i :: 0 <= i < n && arrivals[i].payload.QueryRows?)
  {
    hide FlatMap, Taken;
    var limit := if maxRows <= 0 then 10000 else maxRows;
    out, err := ExecResult([], [], false, 0, 0), None;
    FlatMapEmpty(RowsOf);
    TakenBound(arrivals);
    for i := 0 to |arrivals|
      invariant i <= Taken(arrivals)
      invariant out.rows == FlatMap(RowsOf, arrivals[..i]) && out.columns == LastColumns(arrivals[..i])
      invariant forall k :: 0 <= k < i ==> Goes(arrivals[k])
      invariant out.truncated <==> |out.rows| >= limit && exists k :: 0 <= k < i && arrivals[k].payload.QueryRows?
    {
      FlatMapStep(RowsOf, arrivals, i);
      assert arrivals[..i + 1][..i] == arrivals[..i];
      match arrivals[i]
      case ContextDone(error) => return out, Some(error);
      case ChannelClosed => return out, Some(OFFLINE);
      case Got(payload) =>
        match payload
        case QueryMeta(columns) => out := out.(columns := columns);
        case QueryRows(rows) =>
          out := out.(rows := out.rows + rows);
          if |out.rows| >= limit {
            out := out.(truncated := true);
          }
        case QueryDone(durationMs, rowCount) => return out.(durationMs := durationMs, rowsAffected := rowCount), None;
        case QueryError(error) => return out, Some(if error == "" then "agent query failed" else error);
        case Garbled => return out, Some("invalid payload");
        case Other(kind) => return out, Some("unexpected agent message type: " + kind);
    }
  }

  /** Arrival by arrival: a batch adds its rows, the columns none, and anything else ends the
      loop, so that nothing behind it counts. */
  lemma RowsOneByOne(a: Arrival, rest: seq<Arrival>)
    ensures RowsReceived([]) == []
    ensures RowsReceived([a] + rest)
         == match a
            case Got(QueryRows(rows)) => rows + RowsReceived(rest)
            case Got(QueryMeta(_)) => RowsReceived(rest)
            case _ => []
  {
    hide FlatMap;
    FlatMapEmpty(RowsOf);
    assert ([a] + rest)[1..] == rest;
    if Goes(a) {
      var n := Taken(rest);
      assert ([a] + rest)[..1 + n] == [a] + rest[..n];
      FlatMapAppend(RowsOf, [a], rest[..n]);
      FlatMapOne(RowsOf, a);
    }
  }

  lemma TakenBound(arrivals: seq<Arrival>)
    ensures Taken(arrivals) <= |arrivals| && (forall i :: 0 <= i < Taken(arrivals) ==> Goes(arrivals[i]))
    ensures Taken(arrivals) < |arrivals| ==> !Goes(arrivals[Taken(arrivals)])
  {
  }
}
