/**
 * The example server that combines `futures::select!` with a shared
 * connection registry: each WebSocket session registers a channel sender
 * under a fresh id, a background loop broadcasts a tick message to every
 * registered sender once per round and drops those whose send failed, and
 * each session answers pings, forwards channel messages and stops on close.
 */
module FuturesSelect {
  import opened Wrappers
  import opened Tungstenite

  /** `u32::MAX`: `+= 1` on a `u32` at this value panics (debug build). */
  const U32_MAX: nat := 0xFFFF_FFFF

  function DigitChar(d: nat): char
    requires d < 10
  {
    ('0' as int + d) as char
  }

  /** Decimal digits of `n`, as `{}` formats an unsigned integer. */
  function Decimal(n: nat): (s: string)
    ensures |s| >= 1
    ensures forall i :: 0 <= i < |s| ==> '0' <= s[i] <= '9'
    ensures s[0] == '0' ==> s == "0"
  {
    if n < 10 then [DigitChar(n)] else Decimal(n / 10) + [DigitChar(n % 10)]
  }

  /** The number a string of decimal digits denotes. */
  function DigitsValue(s: string): nat
    requires forall i :: 0 <= i < |s| ==> '0' <= s[i] <= '9'
  {
    if s == [] then 0 else DigitsValue(s[..|s| - 1]) * 10 + (s[|s| - 1] as int - '0' as int)
  }

  /** Reading the digits back gives the number that was formatted. */
  lemma {:induction false} DecimalRoundTrip(n: nat)
    ensures DigitsValue(Decimal(n)) == n
  {
    if n >= 10 {
      var s := Decimal(n);
      assert s[..|s| - 1] == Decimal(n / 10);
      DecimalRoundTrip(n / 10);
    }
  }

  /** The broadcast text `{ "ticks": <tick>, "connections": <count> }`. */
  function TickMessage(tick: nat, count: nat): Message
  {
    Text("{ \"ticks\": " + Decimal(tick) + ", \"connections\": " + Decimal(count) + " }")
  }

  /** The registry after a round: exactly the entries whose channel accepted the send. */
  function Prune<T>(conns: map<nat, T>, open: T -> bool): map<nat, T>
  {
    map id | id in conns && open(conns[id]) :: conns[id]
  }

  /** A round removes an entry iff its send failed, never touches the survivors,
      and so never grows the registry. */
  lemma PruneRemovesExactlyFailed<T>(conns: map<nat, T>, open: T -> bool)
    ensures forall id :: id in Prune(conns, open) <==> id in conns && open(conns[id])
    ensures forall id :: id in Prune(conns, open) ==> Prune(conns, open)[id] == conns[id]
    ensures |Prune(conns, open)| <= |conns|
  {
    var p := Prune(conns, open);
    assert p.Keys <= conns.Keys;
    SubsetCard(p.Keys, conns.Keys);
  }

  lemma {:induction false} SubsetCard(a: set<nat>, b: set<nat>)
    requires a <= b
    ensures |a| <= |b|
    decreases b
  {
    if a != {} {
      var x :| x in a;
      SubsetCard(a - {x}, b - {x});
    }
  }

  /**
   * `State`: the registry of per-session senders, keyed by id, with the
   * round counter and the next id to hand out. Every key is below `nextId`,
   * so `AddConnection` always inserts at a fresh key.
   */
  class State<T> {
    var connections: map<nat, T>
    var tickCount: nat
    var nextId: nat

    ghost predicate Valid()
      reads this
    {
      && nextId <= U32_MAX
      && tickCount <= U32_MAX
      && forall id :: id in connections ==> id < nextId
    }

    /** The state `main` starts with: no connections, both counters zero. */
    constructor ()
      ensures Valid()
      ensures connections == map[] && tickCount == 0 && nextId == 0
    {
      connections := map[];
      tickCount := 0;
      nextId := 0;
    }

    /** `add_connection`: store the sender under `nextId`, then bump `nextId`. */
    method AddConnection(tx: T)
      requires Valid()
      requires nextId < U32_MAX
      modifies this
      ensures Valid()
      ensures old(nextId) !in old(connections)
      ensures connections == old(connections)[old(nextId) := tx]
      ensures |connections| == |old(connections)| + 1
      ensures nextId == old(nextId) + 1 && tickCount == old(tickCount)
    {
      connections := connections[nextId := tx];
      nextId := nextId + 1;
    }

    /**
     * One round of `app_loop`: report and bump the tick counter, snapshot
     * the registry, send the tick message to every snapshot entry in some
     * order, and remove from the registry each entry whose send failed.
     * `open(tx)` says whether the channel behind `tx` still accepts a
     * message; `attempted` is the order in which entries were visited.
     */
    method Tick(open: T -> bool) returns (tick: nat, count: nat, msg: Message, attempted: seq<nat>)
      requires Valid()
      requires tickCount < U32_MAX
      modifies this
      ensures Valid()
      ensures tick == old(tickCount) && count == |old(connections)|
      ensures msg == TickMessage(tick, count)
      ensures tickCount == old(tickCount) + 1 && nextId == old(nextId)
      ensures connections == Prune(old(connections), open)
      ensures |attempted| == count
      ensures forall id :: id in attempted <==> id in old(connections)
      ensures forall i, j :: 0 <= i < j < |attempted| ==> attempted[i] != attempted[j]
    {
      tick := tickCount;
      tickCount := tickCount + 1;
      var snapshot := connections;
      count := |snapshot|;
      msg := TickMessage(tick, count);

      var remaining := snapshot.Keys;
      attempted := [];
      while remaining != {}
        invariant remaining <= snapshot.Keys
        invariant |attempted| + |remaining| == |snapshot.Keys|
        invariant forall id :: id in attempted <==> id in snapshot && id !in remaining
        invariant forall i, j :: 0 <= i < j < |attempted| ==> attempted[i] != attempted[j]
        invariant forall id :: id in connections <==> id in snapshot && (id in remaining || open(snapshot[id]))
        invariant forall id :: id in connections ==> connections[id] == snapshot[id]
        invariant tickCount == old(tickCount) + 1 && nextId == old(nextId)
        decreases remaining
      {
        var id :| id in remaining;
        remaining := remaining - {id};
        attempted := attempted + [id];
        if !open(snapshot[id]) {
          connections := connections - {id};
        }
      }
      assert connections.Keys == Prune(snapshot, open).Keys;
    }
  }

  /** What one pass through the `select!` produces: leave the loop, or go on
      with an optional message to send out. */
  datatype Step = Break | Continue(reply: Option<Message>)

  /**
   * The arm for an item read from the peer: a ping is answered with a pong
   * carrying the same payload, a close frame ends the session, and every
   * other message, and a read error, produces nothing.
   */
  function OnPeerItem(item: Result<Message, WsError>): (s: Step)
    ensures s.Break? <==> item.Ok? && item.value.Close?
    ensures (s.Continue? && s.reply.Some?) <==> item.Ok? && item.value.Ping?
    ensures s.Continue? && s.reply.Some? ==> s.reply.value == Pong(item.value.payload)
  {
    match item
    case Ok(Close(_)) => Break
    case Ok(Ping(data)) => Continue(Some(Pong(data)))
    case Ok(Pong(_)) => Continue(None)
    case Ok(Binary(_)) => Continue(None)
    case Ok(Text(_)) => Continue(None)
    case Err(_) => Continue(None)
  }

  /** What the `select!` can wake up on. */
  datatype Event =
    | FromPeer(item: Result<Message, WsError>)   // next item of the WebSocket stream
    | FromChannel(msg: Message)                  // a message queued by another task
    | Complete                                   // both sources are exhausted

  function Select(e: Event): Step
  {
    match e
    case FromPeer(item) => OnPeerItem(item)
    case FromChannel(m) => Continue(Some(m))
    case Complete => Break
  }

  /** The message, if any, that an event gives to send out. */
  function ReplyOf(e: Event): seq<Message>
  {
    match Select(e)
    case Continue(Some(m)) => [m]
    case _ => []
  }

  /** All messages a sequence of events gives to send out, in order. */
  function Replies(events: seq<Event>): seq<Message>
  {
    if events == [] then [] else ReplyOf(events[0]) + Replies(events[1..])
  }

  /** The session is still looping, or the handler returned this result. */
  datatype Status = Running | Returned(result: Result<(), WsError>)

  /** The messages handed to `stream.send`, in order, and how the session stands. */
  datatype Session = Session(sent: seq<Message>, status: Status)

  function Then(prefix: seq<Message>, s: Session): Session
  {
    Session(prefix + s.sent, s.status)
  }

  /**
   * The session loop over a finite run of events. `send(k)` is the outcome
   * of the k-th call of `stream.send`; a failed send ends the handler with
   * that error (the `?`).
   */
  function Run(events: seq<Event>, send: nat -> Result<(), WsError>, k: nat): Session
    decreases |events|
  {
    if events == [] then Session([], Running)
    else match Select(events[0])
      case Break => Session([], Returned(Ok(())))
      case Continue(None) => Run(events[1..], send, k)
      case Continue(Some(m)) =>
        if send(k).Ok? then Then([m], Run(events[1..], send, k + 1))
        else Session([m], Returned(Err(send(k).error)))
  }

  /** The handler's `loop { select! … }`, processing the events in order. */
  method SessionLoop(events: seq<Event>, send: nat -> Result<(), WsError>) returns (sent: seq<Message>, status: Status)
    ensures Session(sent, status) == Run(events, send, 0)
  {
    sent, status := [], Running;
    var i := 0;
    while i < |events|
      invariant 0 <= i <= |events|
      invariant Run(events, send, 0) == Then(sent, Run(events[i..], send, |sent|))
    {
      assert events[i..][0] == events[i] && events[i..][1..] == events[i + 1..];
      match Select(events[i])
      case Break =>
        status := Returned(Ok(()));
        return;
      case Continue(reply) =>
        if reply.Some? {
          var outcome := send(|sent|);
          sent := sent + [reply.value];
          if outcome.Err? {
            status := Returned(Err(outcome.error));
            return;
          }
        }
      i := i + 1;
    }
    assert events[i..] == [];
  }

  /** Whatever happens, the messages sent are the first replies the events
      call for, in the order they were called for. */
  lemma {:induction false} SentIsPrefixOfReplies(events: seq<Event>, send: nat -> Result<(), WsError>, k: nat)
    ensures Run(events, send, k).sent <= Replies(events)
    decreases |events|
  {
    if events != [] {
      SentIsPrefixOfReplies(events[1..], send, k + |ReplyOf(events[0])|);
    }
  }

  /** While nothing closes the session and every send succeeds, each reply an
      event calls for is sent, in order, and the session keeps running. */
  lemma {:induction false} AllRepliesSent(events: seq<Event>, send: nat -> Result<(), WsError>, k: nat)
    requires forall i :: 0 <= i < |events| ==> !Select(events[i]).Break?
    requires forall j :: k <= j ==> send(j).Ok?
    ensures Run(events, send, k) == Session(Replies(events), Running)
    decreases |events|
  {
    if events != [] {
      AllRepliesSent(events[1..], send, k + |ReplyOf(events[0])|);
    }
  }

  /** A close frame from the peer ends the session with `Ok(())`: the replies
      called for before it are sent, and no later event is looked at. */
  lemma {:induction false} CloseEndsSession(events: seq<Event>, i: nat, send: nat -> Result<(), WsError>, k: nat)
    requires i < |events| && events[i].FromPeer? && events[i].item.Ok? && events[i].item.value.Close?
    requires forall j :: 0 <= j < i ==> !Select(events[j]).Break?
    requires forall j :: k <= j ==> send(j).Ok?
    ensures Run(events, send, k) == Session(Replies(events[..i]), Returned(Ok(())))
    decreases i
  {
    if i > 0 {
      assert events[1..][..i - 1] == events[..i][1..];
      CloseEndsSession(events[1..], i - 1, send, k + |ReplyOf(events[0])|);
    }
  }
}
