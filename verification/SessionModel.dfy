/**
 The self-healing WebSocket session as a state machine.

 A state holds the session's own fields, the work the io runtime still owes it (`tasks`: pending completions and posted
 handlers) and a history of what went over the wire. A step is one handler run on the strand, one lock-protected region
 of a user thread, one post, or something the network does. A completion may succeed or fail whatever happened to its
 socket in the meantime, so late and stale completions are all included.
 */
module SessionModel {
  import opened Wrappers
  import Decimal

  type Topic = string

  const PING_INTERVAL_S := 20
  const PONG_TIMEOUT_S := 3 * PING_INTERVAL_S
  const RECONNECT_DELAY_MAX_S := 30
  const AUTH_ACK_TIMEOUT_MS := 15000

  datatype Frame =
    | Auth
    | Subscribe(id: nat, args: seq<Topic>)
    | Unsubscribe(topic: Topic)
    | Ping

  datatype Task =
    // posted on the strand by a user thread
    | PostedStart
    | PostedFlush
    | PostedUnsubscribe(topic: Topic)
    | PostedClose
    // completion handlers, each carrying the generation it captured
    | Resolve(gen: nat)
    | Connect(gen: nat)
    | TlsHandshake(gen: nat)
    | WsHandshake(gen: nat)
    | Read(gen: nat)
    | Write(gen: nat)
    | PingWait(gen: nat)
    | ReconnectWait(gen: nat)

  datatype OpName = OpAuth | OpSubscribe | OpPong | OpOther

  /** One received frame: text that does not parse, a topic push or any other value, or an op reply. An op reply holds
      its "op" and "success" fields, whether its "ret_msg" reads "pong", and its "req_id" ("" when it has none). */
  datatype Inbound =
    | Malformed
    | Data
    | Control(op: OpName, success: bool, saysPong: bool, reqId: string)

  /** How an operation ended; each handler reads the parts that concern it. */
  datatype Outcome = Outcome(ok: bool, streamOpen: bool, message: Inbound, nowMs: int)

  /** History of one connection: frames queued for it, frames handed to the transport, and how many of those preceded
      the first accepted auth reply. */
  datatype Wire = Wire(enqueued: seq<Frame>, sent: seq<Frame>, authAt: Option<nat>)

  const FRESH := Wire([], [], None)

  /** The connection's own flags. */
  datatype Link = Link(
    generation: nat,
    connected: bool,
    authenticated: bool,
    reconnectScheduled: bool,
    userClosed: bool,
    streamOpen: bool)

  /** Heartbeat and backoff, with the delays scheduled since the last reset as history. */
  datatype Timers = Timers(
    reconnectDelayS: nat,
    lastPongMs: int,
    authDeadlineMs: Option<int>,
    retries: seq<nat>)

  /** The topic book and the unacknowledged subscribe ops; as history the subscribe replies this connection received and
      the ops they were credited to. */
  datatype Topics = Topics(
    subscriptions: seq<Topic>,
    pending: seq<Topic>,
    inflight: map<nat, seq<Topic>>,
    reqIdCounter: nat,
    replies: seq<bool>,
    credited: map<nat, bool>)
  {
    function Book(): seq<Topic> {
      subscriptions + pending
    }
  }

  datatype Outbound = Outbound(queue: seq<Frame>, writeInFlight: bool, wire: Wire)

  datatype State = State(
    authRequired: bool,
    link: Link,
    timers: Timers,
    topics: Topics,
    out: Outbound,
    tasks: multiset<Task>,
    midUser: multiset<Task>,
    past: seq<Wire>)
  {
    predicate Operational() {
      link.connected && (authRequired ==> link.authenticated)
    }
  }

  datatype Event =
    | Complete(task: Task, outcome: Outcome)
    | UserSubscribe(topic: Topic)
    | UserUnsubscribe(topic: Topic)
    | UserClose
    | UserPost(task: Task)
    | StreamDrops
    | PongFrame(nowMs: int)

  // ---------------------------------------------------------------- outbound write pump

  predicate CanWrite(s: State) {
    !s.out.writeInFlight && s.link.connected && s.link.streamOpen && s.out.queue != []
  }

  function Written(out: Outbound): Outbound
    requires out.queue != []
  {
    Outbound(out.queue[1..], true, out.wire.(sent := out.wire.sent + [out.queue[0]]))
  }

  function Pump(s: State): State {
    if !CanWrite(s) then s
    else s.(out := Written(s.out), tasks := s.tasks + multiset{Write(s.link.generation)})
  }

  function Enqueued(out: Outbound, f: Frame): Outbound {
    out.(queue := out.queue + [f], wire := out.wire.(enqueued := out.wire.enqueued + [f]))
  }

  /** `enqueueOp` followed by `pump`. */
  function Send(s: State, f: Frame): State {
    Pump(s.(out := Enqueued(s.out, f)))
  }

  // ---------------------------------------------------------------- topic bookkeeping

  /** The topics of `ts` that are not in `gone`, in order. */
  function Minus(ts: seq<Topic>, gone: set<Topic>): seq<Topic> {
    if ts == [] then []
    else if ts[0] in gone then Minus(ts[1..], gone)
    else [ts[0]] + Minus(ts[1..], gone)
  }

  /** `erase(find(ts, t))`: the first occurrence only. */
  function EraseFirst(ts: seq<Topic>, t: Topic): seq<Topic> {
    if ts == [] then []
    else if ts[0] == t then ts[1..]
    else [ts[0]] + EraseFirst(ts[1..], t)
  }

  function EraseEach(ts: seq<Topic>, args: seq<Topic>): seq<Topic>
    decreases |args|
  {
    if args == [] then ts else EraseEach(EraseFirst(ts, args[0]), args[1..])
  }

  function AddTopic(b: Topics, t: Topic): Topics {
    if t in b.subscriptions || t in b.pending then b else b.(pending := b.pending + [t])
  }

  function RemoveTopic(b: Topics, t: Topic): Topics {
    b.(pending := Minus(b.pending, {t}), subscriptions := EraseFirst(b.subscriptions, t))
  }

  predicate IsSubscriptionConfirmed(b: Topics, t: Topic) {
    t in b.subscriptions && forall n :: n in b.inflight ==> t !in b.inflight[n]
  }

  /** Every pending topic becomes part of one op in flight. */
  function Flushed(b: Topics): Topics {
    var id := b.reqIdCounter + 1;
    b.(subscriptions := b.subscriptions + b.pending, pending := [], reqIdCounter := id,
       inflight := b.inflight[id := b.pending])
  }

  function FlushTopics(s: State): State {
    if !s.Operational() || s.topics.pending == [] then s
    else Send(s.(topics := Flushed(s.topics)), Subscribe(s.topics.reqIdCounter + 1, s.topics.pending))
  }

  // ---------------------------------------------------------------- errors and reconnect

  /** Every booked topic waits for the next connection, in order; nothing is in flight. */
  function Replayable(b: Topics): Topics {
    b.(pending := b.subscriptions + b.pending, subscriptions := [], inflight := map[])
  }

  function BackedOff(t: Timers): Timers {
    t.(reconnectDelayS := if t.reconnectDelayS * 2 < RECONNECT_DELAY_MAX_S then t.reconnectDelayS * 2
                          else RECONNECT_DELAY_MAX_S,
       authDeadlineMs := None,
       retries := t.retries + [t.reconnectDelayS])
  }

  function HandleError(s: State, gen: nat): State {
    if gen != s.link.generation || s.link.reconnectScheduled || s.link.userClosed then s
    else
      s.(link := s.link.(reconnectScheduled := true, connected := false, authenticated := false),
         timers := BackedOff(s.timers),
         topics := Replayable(s.topics),
         out := s.out.(queue := [], writeInFlight := false),
         tasks := s.tasks + multiset{ReconnectWait(gen)})
  }

  function StartConnect(s: State): State {
    if s.link.userClosed then s
    else
      s.(link := s.link.(generation := s.link.generation + 1, connected := false, authenticated := false,
                         streamOpen := false),
         timers := s.timers.(authDeadlineMs := None),
         topics := s.topics.(replies := [], credited := map[]),
         out := s.out.(writeInFlight := false, wire := FRESH),
         tasks := s.tasks + multiset{Resolve(s.link.generation + 1)},
         past := s.past + [s.out.wire])
  }

  function OnReconnectWait(s: State, gen: nat, ok: bool): State {
    if gen != s.link.generation then s
    else
      var s := s.(link := s.link.(reconnectScheduled := false));
      if !ok || s.link.userClosed then s else StartConnect(s)
  }

  // ---------------------------------------------------------------- connect chain

  /** `onResolve`, `onConnect` and `onSSLHandshake`: fail, or start the next stage. */
  function OnStage(s: State, gen: nat, ok: bool, next: Task): State {
    if gen != s.link.generation then s
    else if !ok then HandleError(s, gen)
    else s.(tasks := s.tasks + multiset{next})
  }

  function SendAuth(s: State, nowMs: int): State {
    Send(s.(timers := s.timers.(authDeadlineMs := Some(nowMs + AUTH_ACK_TIMEOUT_MS))), Auth)
  }

  function Greet(s: State, nowMs: int): State {
    if s.authRequired then SendAuth(s, nowMs) else FlushTopics(s)
  }

  /** `onHandshake` succeeded: the link is up, the ping timer runs, the first frame goes out. */
  function Connected(s: State, o: Outcome): State {
    Greet(s.(link := s.link.(connected := true, streamOpen := o.streamOpen),
             timers := s.timers.(lastPongMs := o.nowMs),
             tasks := s.tasks + multiset{PingWait(s.link.generation)}),
          o.nowMs)
  }

  function WithTask(s: State, t: Task): State {
    s.(tasks := s.tasks + multiset{t})
  }

  function OnHandshake(s: State, gen: nat, o: Outcome): State {
    if gen != s.link.generation then s
    else if !o.ok then HandleError(s, gen)
    else if s.link.userClosed then s
    else WithTask(Connected(s, o), Read(gen))
  }

  // ---------------------------------------------------------------- inbound

  ghost function Least(m: map<nat, seq<Topic>>): (n: nat)
    requires m != map[]
    ensures n in m && forall k :: k in m ==> n <= k
  {
    LeastExists(m.Keys);
    var n :| n in m.Keys && forall k :: k in m.Keys ==> n <= k;
    n
  }

  lemma {:induction false} LeastExists(keys: set<nat>)
    requires keys != {}
    ensures exists n :: n in keys && forall k :: k in keys ==> n <= k
  {
    var x :| x in keys;
    var below := set k | k in keys && k < x;
    if below != {} {
      assert x !in below && below < keys;
      LeastExists(below);
      var n :| n in below && forall k :: k in below ==> n <= k;
      forall k | k in keys ensures n <= k {
        assert k < x ==> k in below;
      }
    } else {
      forall k | k in keys ensures x <= k {
        assert k < x ==> k in below;
      }
    }
  }

  /** Which op a subscribe reply answers: its own by req_id, the oldest in flight when it carries none. */
  ghost function AckTarget(inflight: map<nat, seq<Topic>>, reqId: string): (target: Option<nat>)
    ensures target.Some? ==> target.value in inflight
  {
    if exists n :: n in inflight && Decimal.Print(n) == reqId then
      var n :| n in inflight && Decimal.Print(n) == reqId;
      Some(n)
    else if reqId == "" && inflight != map[] then Some(Least(inflight))
    else None
  }

  ghost function OnSubscribeReply(b: Topics, success: bool, reqId: string): Topics {
    var b := b.(replies := b.replies + [success]);
    match AckTarget(b.inflight, reqId)
    case None => b
    case Some(n) =>
      b.(subscriptions := if success then b.subscriptions else EraseEach(b.subscriptions, b.inflight[n]),
         inflight := b.inflight - {n},
         credited := b.credited[n := success])
  }

  function Authenticated(s: State): State {
    s.(link := s.link.(authenticated := true),
       timers := s.timers.(authDeadlineMs := None, reconnectDelayS := 1, retries := []),
       out := if s.out.wire.authAt.None? then s.out.(wire := s.out.wire.(authAt := Some(|s.out.wire.sent|))) else s.out)
  }

  ghost function HandleApiControlMsg(s: State, gen: nat, m: Inbound, nowMs: int): State
    requires m.Control?
  {
    if m.op == OpPong || m.saysPong then s.(timers := s.timers.(lastPongMs := nowMs))
    else if m.op == OpAuth then
      if m.success then FlushTopics(Authenticated(s)) else HandleError(s, gen)
    else if m.op == OpSubscribe then s.(topics := OnSubscribeReply(s.topics, m.success, m.reqId))
    else s
  }

  /** The tail of `onRead`: no re-arm on a torn-down connection, backoff reset on an operational one. */
  function RearmRead(s: State, gen: nat): State {
    if gen != s.link.generation || s.link.reconnectScheduled || !s.link.connected then s
    else
      s.(timers := s.timers.(reconnectDelayS := if s.Operational() then 1 else s.timers.reconnectDelayS,
                             retries := if s.authRequired then s.timers.retries else []),
         tasks := s.tasks + multiset{Read(gen)})
  }

  ghost function OnRead(s: State, gen: nat, o: Outcome): State {
    if gen != s.link.generation then s
    else if !o.ok || o.message.Malformed? then HandleError(s, gen)
    else RearmRead(if o.message.Control? then HandleApiControlMsg(s, gen, o.message, o.nowMs) else s, gen)
  }

  function OnWrite(s: State, gen: nat, ok: bool): State {
    if gen != s.link.generation then s
    else
      var s := s.(out := s.out.(writeInFlight := false));
      if !ok then HandleError(s, gen) else Pump(s)
  }

  // ---------------------------------------------------------------- heartbeat

  predicate PongTimedOut(s: State, nowMs: int) {
    (nowMs - s.timers.lastPongMs) / 1000 > PONG_TIMEOUT_S
  }

  predicate AuthTimedOut(s: State, nowMs: int) {
    s.authRequired && !s.link.authenticated && s.timers.authDeadlineMs.Some? && nowMs > s.timers.authDeadlineMs.value
  }

  function OnPingTimer(s: State, gen: nat, ok: bool, nowMs: int): State {
    if !ok || gen != s.link.generation || s.link.userClosed then s
    else if !s.link.connected then WithTask(s, PingWait(gen))
    else if PongTimedOut(s, nowMs) || AuthTimedOut(s, nowMs) then HandleError(s, gen)
    else WithTask(Send(s, Ping), PingWait(gen))
  }

  // ---------------------------------------------------------------- user threads

  /** The task `unsubscribe()` posts. */
  function SendUnsubscribe(s: State, t: Topic): State {
    if !s.link.connected then s else Send(s, Unsubscribe(t))
  }

  /** `subscribe()` up to its post. */
  function OnUserSubscribe(s: State, t: Topic): State {
    s.(topics := AddTopic(s.topics, t), midUser := s.midUser + multiset{PostedFlush})
  }

  /** `unsubscribe()` up to its post: nothing to post when the subscribe was never sent. */
  function OnUserUnsubscribe(s: State, t: Topic): State {
    s.(topics := RemoveTopic(s.topics, t),
       midUser := if t in s.topics.subscriptions then s.midUser + multiset{PostedUnsubscribe(t)} else s.midUser)
  }

  // ---------------------------------------------------------------- the machine

  /** The session right after `run()`: the first topic booked, the first connect posted. */
  function Init(authRequired: bool, first: Topic): State {
    State(authRequired, Link(0, false, false, false, false, false), Timers(1, 0, None, []),
          Topics([], [first], map[], 0, [], map[]), Outbound([], false, FRESH),
          multiset{PostedStart}, multiset{}, [])
  }

  ghost function Handle(s: State, t: Task, o: Outcome): State {
    match t
    case PostedStart => StartConnect(s)
    case PostedFlush => FlushTopics(s)
    case PostedUnsubscribe(topic) => SendUnsubscribe(s, topic)
    case PostedClose => s.(link := s.link.(userClosed := true))
    case Resolve(gen) => OnStage(s, gen, o.ok, Connect(gen))
    case Connect(gen) => OnStage(s, gen, o.ok, TlsHandshake(gen))
    case TlsHandshake(gen) => OnStage(s, gen, o.ok, WsHandshake(gen))
    case WsHandshake(gen) => OnHandshake(s, gen, o)
    case Read(gen) => OnRead(s, gen, o)
    case Write(gen) => OnWrite(s, gen, o.ok)
    case PingWait(gen) => OnPingTimer(s, gen, o.ok, o.nowMs)
    case ReconnectWait(gen) => OnReconnectWait(s, gen, o.ok)
  }

  /** A completion needs its operation outstanding, a post its user thread. Nothing but `closeByUser` cancels the reconnect
      timer, nor the ping timer of a connection that is up, so their waits fail only after a user close. */
  predicate Enabled(s: State, e: Event) {
    && (e.Complete? ==> e.task in s.tasks && (TimerStands(s, e.task) && !e.outcome.ok ==> s.link.userClosed))
    && (e.UserPost? ==> e.task in s.midUser)
  }

  predicate TimerStands(s: State, t: Task) {
    t.ReconnectWait? || (s.link.connected && t == PingWait(s.link.generation))
  }

  function Popped(s: State, t: Task): State {
    s.(tasks := s.tasks - multiset{t})
  }

  ghost function Step(s: State, e: Event): State {
    match e
    case Complete(t, o) => Handle(Popped(s, t), t, o)
    case UserSubscribe(t) => OnUserSubscribe(s, t)
    case UserUnsubscribe(t) => OnUserUnsubscribe(s, t)
    case UserClose => s.(tasks := s.tasks + multiset{PostedClose})
    case UserPost(t) => s.(midUser := s.midUser - multiset{t}, tasks := s.tasks + multiset{t})
    case StreamDrops => s.(link := s.link.(streamOpen := false))
    case PongFrame(nowMs) => s.(timers := s.timers.(lastPongMs := nowMs))
  }

  /** The state after a run. */
  ghost function After(s: State, es: seq<Event>): State {
    if es == [] then s else Step(After(s, es[..|es| - 1]), es[|es| - 1])
  }

  /** Every event of the run was possible when it happened. */
  ghost predicate Legal(s: State, es: seq<Event>) {
    es == [] || (Legal(s, es[..|es| - 1]) && Enabled(After(s, es[..|es| - 1]), es[|es| - 1]))
  }
}
