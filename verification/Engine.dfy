/** The client engine as a state machine on values: one function per operation of the engine, and the
    history that the whole-run properties speak about. The class `MqttEngine` updates fields in place
    and is proved equal to these functions; the invariants are proved here, on the values. */
module EngineModel {
  import opened Basics
  import opened Timestamps
  import opened Packets
  import opened PriorityQueues
  import opened InflightQueues

  type u16 = x: nat | x <= 65535

  datatype Kind = ConnectOp | PublishOp | SubscribeOp | UnsubscribeOp

  datatype Timeouts = Timeouts(connect: Option<Duration>, publish: Option<Duration>, subscribe: Option<Duration>,
      unsubscribe: Option<Duration>)

  /** The configuration. `strict` is the protocol-compliance feature of the build; `encode` stands for the packet
      encoder, which may refuse a packet. */
  datatype Options = Options(
    v5: bool, strict: bool, receiveMaximum: u16, maxPackets: nat, maxEvents: nat, maxBytes: Option<nat>,
    sessionless: bool, cleanStart: bool,
    keepAlive: u16, autoKeepAlive: bool, pingMultiplier: nat, retransmission: Duration,
    reconnect: bool, baseDelayMs: nat, maxDelayMs: nat, maxAttempts: nat, timeouts: Timeouts,
    authMethod: Option<string>, topics: seq<string>, client: string,
    encode: Packet -> Option<Bytes>)

  datatype Event =
    | OperationFailed(kind: Kind, operation: Option<nat>, error: Error)
    | Connected(reason: nat, present: bool)
    | Published(id: nat, reason: nat)
    | Subscribed(id: nat)
    | Unsubscribed(id: nat)
    | PingResponse
    | AuthReceived(reason: nat)
    | Disconnected
    | DisconnectReceived(reason: nat)
    | Failure(error: Error)
    | MessageReceived
    | ReconnectNeeded
    | ReconnectScheduled(attempt: nat, delayMs: nat)

  /** What a CONNACK negotiates; `rejected` stands for a malformed or misplaced property, `authMethod` is the
      authentication method it names. */
  datatype Terms = Terms(rejected: bool, receiveMaximum: Option<u16>, maxPacket: Option<nat>, maxQos: Option<nat>,
                         retain: Option<bool>, aliasMaximum: Option<u16>, keepAlive: Option<u16>,
                           authMethod: Option<string>)

  /** Decoded input. `Message` is an incoming PUBLISH or PUBREL: the receive side either fails the
      connection or asks for at most one response. */
  datatype Incoming =
    | ConnAck(reason: nat, present: bool, terms: Terms)
    | PubAck(id: nat, reason: nat)
    | PubRec(id: nat, reason: nat)
    | PubComp(id: nat, reason: nat)
    | SubAck(id: nat, codes: nat)
    | UnsubAck(id: nat)
    | PingResp
    | AuthIn(reason: nat, methods: seq<string>)
    | DisconnectIn(reason: nat)
    | Message(failure: Option<Error>, response: Option<Packet>)
    | Oversized
    | Malformed

  datatype Deadline = Deadline(kind: Kind, id: Option<nat>, at: Time, duration: Duration)

  /** The state of one network connection. */
  datatype Link = Link(connected: bool, connecting: bool, closed: bool, reauth: bool, hasSession: bool,
                       out: seq<Bytes>, responses: seq<Packet>, parser: seq<Incoming>)

  /** The client side of the MQTT session. */
  datatype Session = Session(queue: seq<Ranked<Packet>>, queuedBytes: nat, reserved: set<nat>,
                             inflight: Inflight, previous: seq<Held>, replay: seq<Held>)

  /** What the current connection negotiated, and the space set aside for control packets. */
  datatype Caps = Caps(maxPacket: Option<nat>, maxQos: nat, retain: bool, aliasMaximum: u16, keepAlive: u16,
                       aliases: map<nat, string>, control: nat, replayReserve: nat)

  datatype Clock = Clock(now: Time, lastSent: Time, pingSent: Option<Time>, reconnect: bool, attempts: nat,
                         nextReconnect: Option<Time>, deadlines: seq<Deadline>)

  /** A publication accepted for delivery is a ticket; `owner` says which ticket an identifier stands for. */
  datatype Tickets = Tickets(issued: nat, owner: map<nat, nat>, published: seq<nat>, failed: seq<nat>)

  datatype Emission = FromReplay(held: Held) | FromQueue(entry: Ranked<Packet>)

  /** The session and its tickets at one moment. */
  datatype Shelf = Shelf(sess: Session, tickets: Tickets)

  /** A publication entered the queue, or left it because the connection cannot carry it. */
  datatype Point =
    | Admitted(packet: Packet, before: Shelf, after: Shelf)
    | Rejected(packet: Packet, before: Shelf, after: Shelf)

  /** A publication of some priority left the queue to be sent; `stamp` is its place among all arrivals. */
  datatype Departure = Departure(priority: nat, stamp: nat)

  /** The order of the queue: the arrival number of each queued publication, how many arrived, what departed. */
  datatype Arrivals = Arrivals(stamps: seq<nat>, count: nat, departures: seq<Departure>)

  /** Flow control on the current connection: the send quota of the standard, the exchanges in flight that took no
      quota, and the units given back too often. */
  datatype Credit = Credit(sendQuota: nat, uncharged: set<nat>, debt: nat)

  /** What a run has done so far. Connection-scoped parts start again with each connection. `failures` lists the
      identifiers whose tracking failed, `reused` those sent while still in flight, `reports` counts the reported
      publications, `shortfall` the bytes that were to be taken off the byte count but were not in it, `unencodable`
      the queued packets that a reset could not encode again. */
  datatype History = History(tickets: Tickets, credit: Credit, serverMaximum: Option<u16>, emitted: seq<Emission>,
                             delays: seq<nat>, scheduled: nat, needed: nat,
                             reauths: nat, successes: nat, authMethods: seq<seq<string>>,
                             points: seq<Point>, failures: seq<nat>, reused: seq<nat>, arrivals: Arrivals, reports: nat,
                             shortfall: nat, unencodable: nat)

  datatype Engine = Engine(link: Link, sess: Session, caps: Caps, clock: Clock, cursor: Option<u16>,
                           events: seq<Event>, resends: seq<(nat, Bytes)>, hist: History)

  const ATTEMPT_WRAP: nat := 0x1_0000_0000

  const NANOS_PER_SECOND: nat := 1_000_000_000

  function LineOf(c: Options): (w: Line) { Line(c.v5, c.retransmission) }

  // ----- Outstanding exchanges -----

  /** Everything sent or deferred, oldest first, with the newest packet of each identifier. This is what
      a CONNECT captures. */
  function Outstanding(q: Session): (r: seq<Held>) {
    Merge(Retain(q.previous, q.reserved), Snapshot(q.inflight.items) + q.replay)
  }

  /** The identifiers of queued publications that need an acknowledgement. */
  function QueueIds(queue: seq<Ranked<Packet>>): (r: seq<nat>) {
    if queue == [] then []
    else
      var p := queue[0].item;
      (if p.Publish? && p.qos > 0 && p.id.Some? then [p.id.value] else []) + QueueIds(queue[1..])
  }

  // ----- Tickets -----

  function Issue(t: Tickets, id: nat): (r: Tickets) {
    t.(issued := t.issued + 1, owner := t.owner[id := t.issued])
  }

  function MarkPublished(t: Tickets, id: nat): (r: Tickets) {
    if id in t.owner then t.(owner := t.owner - {id}, published := t.published + [t.owner[id]]) else t
  }

  function MarkFailed(t: Tickets, id: nat): (r: Tickets) {
    if id in t.owner then t.(owner := t.owner - {id}, failed := t.failed + [t.owner[id]]) else t
  }

  // ----- Sizes -----

  function EncodedLength(c: Options, p: Packet): (n: nat) {
    if c.encode(p).Some? then |c.encode(p).value| else 0
  }

  function QueueLength(c: Options, queue: seq<Ranked<Packet>>): (n: nat) {
    if queue == [] then 0 else EncodedLength(c, queue[0].item) + QueueLength(c, queue[1..])
  }

  /** How many queued packets have no encoding. */
  function Unencodable(c: Options, queue: seq<Ranked<Packet>>): (n: nat) {
    if queue == [] then 0 else (if c.encode(queue[0].item).None? then 1 else 0) + Unencodable(c, queue[1..])
  }

  function CheckSize(c: Options, caps: Caps, n: nat): (r: Option<Error>) {
    if c.maxBytes.Some? && n > c.maxBytes.value then Some(BufferFull)
    else if caps.maxPacket.Some? && n > caps.maxPacket.value then Some(InvalidConfiguration)
    else None
  }

  function OutgoingBytes(s: Engine): (n: nat) { s.sess.queuedBytes + TotalLength(s.link.out) }

  function CheckCapacity(c: Options, s: Engine, n: nat): (r: Option<Error>) {
    if c.maxBytes.Some? && OutgoingBytes(s) + n > c.maxBytes.value then Some(BufferFull) else None
  }

  predicate Capable(caps: Caps, p: Packet) {
    p.Publish? ==> p.qos <= caps.maxQos && (p.retain ==> caps.retain)
  }

  // ----- Deadlines of operations -----

  function TimeoutOf(t: Timeouts, k: Kind): (r: Option<Duration>) {
    match k
    case ConnectOp => t.connect
    case PublishOp => t.publish
    case SubscribeOp => t.subscribe
    case UnsubscribeOp => t.unsubscribe
  }

  function DropDeadline(ds: seq<Deadline>, k: Kind, id: Option<nat>): (r: seq<Deadline>) {
    if ds == [] then []
    else if ds[0].kind == k && ds[0].id == id then DropDeadline(ds[1..], k, id)
    else [ds[0]] + DropDeadline(ds[1..], k, id)
  }

  function DropDeadlinesOf(ds: seq<Deadline>, id: nat): (r: seq<Deadline>) {
    if ds == [] then []
    else if ds[0].id == Some(id) then DropDeadlinesOf(ds[1..], id)
    else [ds[0]] + DropDeadlinesOf(ds[1..], id)
  }

  function StartDeadline(c: Options, t: Clock, k: Kind, id: Option<nat>): (r: Clock) {
    var d := TimeoutOf(c.timeouts, k);
    if d.None? then t
    else t.(deadlines := DropDeadline(t.deadlines, k, id) + [Deadline(k, id, t.now + d.value, d.value)])
  }

  // ----- Flow control -----

  /** The MQTT 5 send quota of section 4.9 after a PUBLISH was sent. */
  function Spend(h: History): (r: History) { h.(credit := h.credit.(sendQuota := Monus(h.credit.sendQuota, 1))) }

  /** A replayed release is tracked without taking quota. */
  function Exempt(h: History, x: Held): (r: History) {
    if x.packet.Publish? then h else h.(credit := h.credit.(uncharged := h.credit.uncharged + {x.id}))
  }

  /** An exchange is about to leave the queue in flight. A release that took no quota still gives a unit back when one
      is in use; an exchange that took one cannot give it back when none is left. */
  function GiveBack(k: Credit, q: Inflight, id: nat): (r: Credit) {
    if !Has(q, id) || !IsExchange(q.items[Find(q.items, id)].packet) then k
    else k.(uncharged := k.uncharged - {id},
            debt := if id in k.uncharged then (if q.quota > 0 then k.debt + 1 else k.debt)
              else if q.quota == 0 then Monus(k.debt, 1) else k.debt)
  }

  /** After a PUBACK, a PUBCOMP or a refusing PUBREC the send quota grows, never above its initial value. */
  function Earn(k: Credit, q: Inflight, id: nat): (r: Credit) {
    GiveBack(k, q, id).(sendQuota := Min(k.sendQuota + 1, q.limit))
  }

  // ----- Finishing operations -----

  function Release(s: Engine, id: nat): (r: Engine) {
    var reserved := s.sess.reserved - {id};
    s.(sess := s.sess.(reserved := reserved),
       caps := if reserved == {} then s.caps.(replayReserve := 0) else s.caps,
       clock := s.clock.(deadlines := DropDeadlinesOf(s.clock.deadlines, id)))
  }

  function KindOf(p: Packet): (k: Kind) {
    if p.Subscribe? then SubscribeOp else if p.Unsubscribe? then UnsubscribeOp else PublishOp
  }

  function FailOperation(s: Engine, id: nat, p: Packet, e: Error): (r: Engine) {
    var s1 := Release(s.(sess := s.sess.(inflight := Acknowledge(s.sess.inflight, id))), id);
    s1.(events := s1.events + [OperationFailed(KindOf(p), Some(id), e)],
        hist := s1.hist.(tickets := MarkFailed(s1.hist.tickets, id),
                         credit := GiveBack(s1.hist.credit, s.sess.inflight, id)))
  }

  function FailAll(s: Engine, hs: seq<Held>, e: Error): (r: Engine)
    decreases hs
  {
    if hs == [] then s else FailAll(FailOperation(s, hs[0].id, hs[0].packet, e), hs[1..], e)
  }

  // ----- Losing the connection -----

  function CloseInput(s: Engine): (r: Engine) {
    s.(link := s.link.(connected := false, connecting := false, closed := true, reauth := false, responses := [],
      parser := []),
       clock := s.clock.(deadlines := [], pingSent := None))
  }

  function StripQueue(queue: seq<Ranked<Packet>>): (r: seq<Ranked<Packet>>)
    ensures |r| == |queue|
  {
    seq(|queue|, i requires 0 <= i < |queue| => Ranked(queue[i].priority, StripAliases(queue[i].item)))
  }

  function InitialCaps(c: Options, caps: Caps): (r: Caps) {
    Caps(None, 2, true, 0, c.keepAlive, map[], caps.control, caps.replayReserve)
  }

  function EndSession(s: Engine): (r: Engine) {
    var s1 := FailAll(s.(link := s.link.(hasSession := false)), Snapshot(s.sess.inflight.items), SessionExpired);
    FailAll(s1.(sess := s1.sess.(replay := [])), s1.sess.replay, SessionExpired)
  }

  /** The session without the aliases and the limit of the old connection, its bytes counted again. */
  function ResetSession(c: Options, q: Session): (r: Session) {
    q.(queue := StripQueue(q.queue), queuedBytes := QueueLength(c, StripQueue(q.queue)),
      inflight := SetLimit(q.inflight, c.receiveMaximum))
  }

  /** The engine without its transport. Counting the bytes of a queued packet needs its encoding; the implementation
      takes for granted that there is one, and `unencodable` counts those without. */
  function Detached(c: Options, s: Engine): (r: Engine) {
    var s1, q := CloseInput(s), ResetSession(c, s.sess);
    s1.(link := s1.link.(out := []), sess := q, caps := InitialCaps(c, s1.caps), resends := [],
        hist := s1.hist.(unencodable := s1.hist.unencodable + Unencodable(c, q.queue)))
  }

  /** Forget everything that belongs to the old transport; keep the session. */
  function Reset(c: Options, s: Engine): (r: Engine) {
    var s2 := Detached(c, s);
    var s3 := if c.sessionless then EndSession(s2) else s2;
    s3.(clock := s3.clock.(nextReconnect := None, lastSent := s3.clock.now, pingSent := None))
  }

  function Pow2(n: nat): (r: nat)
    ensures r >= 1
  {
    if n == 0 then 1 else 2 * Pow2(n - 1)
  }

  /** The delay before reconnection attempt `n`. */
  function Backoff(c: Options, n: nat): (ms: nat) {
    Min(c.baseDelayMs * Pow2(Min(n, 10)), c.maxDelayMs)
  }

  function ScheduleReconnect(c: Options, s: Engine, now: Time): (r: Engine) {
    if s.clock.nextReconnect.Some? then s
    else if c.maxAttempts > 0 && s.clock.attempts >= c.maxAttempts then s
    else
      var delay := Backoff(c, s.clock.attempts);
      var attempts := (s.clock.attempts + 1) % ATTEMPT_WRAP;
      s.(clock := s.clock.(nextReconnect := Some(now + delay * NANOS_PER_MILLI), attempts := attempts),
         events := s.events + [ReconnectScheduled(attempts, delay)],
         hist := s.hist.(delays := s.hist.delays + [delay], scheduled := s.hist.scheduled + 1))
  }

  function ConnectionLost(c: Options, s: Engine, now: Time): (r: Engine) {
    var s1 := Reset(c, s);
    var s2 := s1.(clock := s1.clock.(nextReconnect := s.clock.nextReconnect));
    if s2.clock.reconnect then ScheduleReconnect(c, s2, now) else s2
  }

  function FailConnection(c: Options, s: Engine, e: Error): (r: Engine) {
    var s1 := ConnectionLost(c, s, s.clock.now);
    s1.(events := s1.events + [Failure(e), Disconnected])
  }

  function ResetReconnect(s: Engine): (r: Engine) {
    s.(clock := s.clock.(attempts := 0, nextReconnect := None), hist := s.hist.(delays := []))
  }

  // ----- Output -----

  /** Until CONNACK, enhanced authentication lets only AUTH and DISCONNECT out. */
  predicate Withheld(c: Options, s: Engine) {
    c.strict && c.v5 && s.link.connecting && c.authMethod.Some?
  }

  /** Why a packet cannot be put into the outgoing buffer. */
  function EnqueueError(c: Options, s: Engine, p: Packet): (r: Option<Error>) {
    if Withheld(c, s) && !p.Auth? && !p.Disconnect? then Some(InvalidState)
    else if |s.link.out| >= c.maxPackets then Some(BufferFull)
    else if !Capable(s.caps, p) then Some(InvalidConfiguration)
    else if c.encode(p).None? then Some(EncodingFailed)
    else
      var n := |c.encode(p).value|;
      if CheckSize(c, s.caps, n).Some? then CheckSize(c, s.caps, n) else CheckCapacity(c, s, n)
  }

  function Enqueue(c: Options, s: Engine, p: Packet): (r: Engine)
    requires EnqueueError(c, s, p).None?
  {
    s.(link := s.link.(out := s.link.out + [c.encode(p).value]), clock := s.clock.(lastSent := s.clock.now))
  }

  /** A response that can never be sent, or that the connection refuses, ends the connection; a full
      buffer only makes it wait. */
  function FlushError(c: Options, s: Engine): (r: Option<Error>) {
    if s.link.responses == [] then None
    else
      var p := s.link.responses[0];
      if c.maxBytes.Some? && EncodedLength(c, p) > c.maxBytes.value then Some(BufferFull)
      else
        var e := EnqueueError(c, s, p);
        if e.None? || e.value == BufferFull then None else e
  }

  /** The first response can be sent now. */
  predicate FlushReady(c: Options, s: Engine) {
    s.link.responses != [] && FlushError(c, s).None? && EnqueueError(c, s, s.link.responses[0]).None?
  }

  function FlushOne(c: Options, s: Engine): (r: Engine)
    requires FlushReady(c, s)
  {
    var s1 := Enqueue(c, s, s.link.responses[0]);
    s1.(link := s1.link.(responses := s1.link.responses[1..]))
  }

  /** Move waiting protocol responses to the outgoing buffer, in order, while they fit. */
  function FlushOut(c: Options, s: Engine): (r: Engine)
    decreases |s.link.responses|
  {
    if FlushReady(c, s) then FlushOut(c, FlushOne(c, s)) else s
  }

  function Flush(c: Options, s: Engine): (r: Engine) {
    var s1 := FlushOut(c, s);
    var e := FlushError(c, s1);
    if e.Some? then FailConnection(c, s1, e.value) else s1
  }

  function LogEmission(h: History, e: Emission, publish: bool): (r: History) {
    var h1 := h.(emitted := h.emitted + [e]);
    if publish then Spend(h1) else h1
  }

  function LogReplay(h: History, x: Held): (r: History) { LogEmission(h, FromReplay(x), x.packet.Publish?) }

  function QosOf(p: Packet): (n: nat) { if p.Publish? then p.qos else 2 }

  /** Hand one replay entry that fits to the outgoing buffer and track it. */
  function ReplayHead(c: Options, s: Engine): (r: Engine)
    requires s.sess.replay != [] && EnqueueError(c, s, s.sess.replay[0].packet).None?
  {
    var h := s.sess.replay[0];
    var s1 := Enqueue(c, s, h.packet);
    var s2 := s1.(sess := s1.sess.(replay := s1.sess.replay[1..]), hist := LogReplay(s1.hist, h));
    match Push(LineOf(c), s2.sess.inflight, h.id, h.packet, QosOf(h.packet), None, s2.clock.now)
    case Ok(q) => s2.(sess := s2.sess.(inflight := q), clock := StartDeadline(c, s2.clock, PublishOp, Some(h.id)),
                      hist := Exempt(s2.hist, h))
    case Err(e) => FailOperation(s2, h.id, h.packet, e)
  }

  /** The first replay entry is handled now: sent, or failed because the connection cannot carry it. */
  predicate ReplayReady(c: Options, s: Engine) {
    && s.sess.replay != []
    && (s.sess.replay[0].packet.Publish? ==> CanPublish(s.sess.inflight))
    && EnqueueError(c, s, s.sess.replay[0].packet) != Some(BufferFull)
  }

  function ReplayOne(c: Options, s: Engine): (r: Engine)
    requires ReplayReady(c, s)
    ensures |r.sess.replay| < |s.sess.replay|
  {
    var h := s.sess.replay[0];
    var e := EnqueueError(c, s, h.packet);
    if e.None? then ReplayHead(c, s)
    else FailOperation(s.(sess := s.sess.(replay := s.sess.replay[1..])), h.id, h.packet, e.value)
  }

  /** Resume deferred exchanges in order while quota and space last. */
  function ProcessReplay(c: Options, s: Engine): (r: Engine)
    decreases |s.sess.replay|
  {
    if ReplayReady(c, s) then ProcessReplay(c, ReplayOne(c, s)) else s
  }

  /** The head of the queue waits for an acknowledgement slot. */
  predicate QueueBlocked(s: Engine) {
    s.sess.queue != [] && s.sess.queue[0].item.Publish? && s.sess.queue[0].item.qos > 0 && !CanPublish(s.sess.inflight)
  }

  function Tail<T>(xs: seq<T>): (r: seq<T>) { if xs == [] then [] else xs[1..] }

  function DropStamp(a: Arrivals): (r: Arrivals) { a.(stamps := Tail(a.stamps)) }

  function Dequeue(s: Engine, bytes: Bytes): (r: Engine)
    requires s.sess.queue != []
  {
    s.(sess := s.sess.(queue := s.sess.queue[1..], queuedBytes := Monus(s.sess.queuedBytes, |bytes|)),
       hist := s.hist.(arrivals := DropStamp(s.hist.arrivals),
                       shortfall := s.hist.shortfall + Monus(|bytes|, s.sess.queuedBytes)))
  }

  function RejectionOf(c: Options, s: Engine, p: Packet, n: nat): (r: Option<Error>) {
    if !Capable(s.caps, p) then Some(InvalidConfiguration) else CheckSize(c, s.caps, n)
  }

  /** Drop a queued publication that the connection cannot carry. */
  function RejectHead(s: Engine, bytes: Bytes, e: Error): (r: Engine)
    requires s.sess.queue != []
  {
    var p := s.sess.queue[0].item;
    var s1 := Dequeue(s, bytes);
    var s2 := if p.Publish? && p.id.Some? then FailOperation(s1, p.id.value, p, e)
      else s1.(events := s1.events + [Failure(e)]);
    s2.(hist := s2.hist.(points := s2.hist.points
      + [Rejected(p, Shelf(s.sess, s.hist.tickets), Shelf(s2.sess, s2.hist.tickets))]))
  }

  /** What the history says about sending the head of the queue. */
  function LogSend(h: History, x: Ranked<Packet>, acked: bool, inFlight: bool): (r: History) {
    var h1 := LogEmission(h, FromQueue(x), acked);
    h1.(reused := if acked && x.item.Publish? && inFlight then h1.reused + [x.item.id.GetOr(0)] else h1.reused)
  }

  function Depart(a: Arrivals, x: Ranked<Packet>): (r: Arrivals) {
    if a.stamps == [] then a else a.(departures := a.departures + [Departure(x.priority, a.stamps[0])])
  }

  /** The head of the queue leaves to be sent. */
  function Departed(s: Engine, bytes: Bytes): (r: Engine)
    requires s.sess.queue != []
  {
    Dequeue(s.(hist := s.hist.(arrivals := Depart(s.hist.arrivals, s.sess.queue[0]))), bytes)
  }

  /** Track a publication that is being sent. This fails only if its identifier is still in flight; the implementation
      then panics, which `failures` records. */
  function TrackSent(c: Options, s: Engine, p: Packet, id: nat): (r: Engine) {
    match Push(LineOf(c), s.sess.inflight, id, p, QosOf(p), None, s.clock.now)
    case Ok(q) => s.(sess := s.sess.(inflight := q), clock := StartDeadline(c, s.clock, PublishOp, Some(id)))
    case Err(_) => s.(hist := s.hist.(failures := s.hist.failures + [id]))
  }

  function SendHead(c: Options, s: Engine, bytes: Bytes): (r: Engine)
    requires s.sess.queue != []
  {
    var x := s.sess.queue[0];
    var acked := x.item.Publish? && x.item.qos > 0 && x.item.id.Some?;
    var s1 := Departed(s, bytes);
    var s2 := if acked then TrackSent(c, s1, x.item, x.item.id.value) else s1;
    s2.(link := s2.link.(out := s2.link.out + [bytes]), clock := s2.clock.(lastSent := s2.clock.now),
        hist := LogSend(s2.hist, x, acked, acked && Has(s.sess.inflight, x.item.id.value)))
  }

  predicate EmitReady(c: Options, s: Engine) {
    |s.link.out| < c.maxPackets && s.sess.queue != [] && !QueueBlocked(s)
  }

  /** `encoding`, when given, is used for the first packet instead of encoding it again. */
  function EmitOne(c: Options, s: Engine, encoding: Option<Bytes>): (r: Engine)
    requires EmitReady(c, s)
    ensures |r.sess.queue| < |s.sess.queue|
  {
    var p := s.sess.queue[0].item;
    match if encoding.Some? then encoding else c.encode(p)
    case None =>
      s.(sess := s.sess.(queue := s.sess.queue[1..]), events := s.events + [Failure(EncodingFailed)],
         hist := s.hist.(arrivals := DropStamp(s.hist.arrivals)))
    case Some(bytes) =>
      var e := RejectionOf(c, s, p, |bytes|);
      if e.Some? then RejectHead(s, bytes, e.value) else SendHead(c, s, bytes)
  }

  function EmitLoop(c: Options, s: Engine, encoding: Option<Bytes>): (r: Engine)
    decreases |s.sess.queue|
  {
    if EmitReady(c, s) then EmitLoop(c, EmitOne(c, s, encoding), None) else s
  }

  function ProcessQueue(c: Options, s: Engine, encoding: Option<Bytes>): (r: Engine) {
    if !s.link.connected then s
    else
      var s1 := Flush(c, s);
      if !s1.link.connected then s1
      else
        var s2 := ProcessReplay(c, s1);
        if !s2.link.connected || s2.link.responses != [] || s2.sess.replay != [] then s2
        else EmitLoop(c, s2, encoding)
  }

  // ----- Packet identifiers -----

  function NextCursor(cursor: u16): (r: u16)
    ensures r != 0
  {
    if cursor == 65535 || cursor == 0 then 1 else cursor + 1
  }

  predicate Busy(q: Session, id: nat) {
    id in q.reserved || Has(q.inflight, id)
  }

  /** Try at most `n` successive identifiers; the cursor moves past every one tried. */
  function SearchId(q: Session, cursor: u16, n: nat): (r: (u16, Option<u16>))
    ensures r.1.Some? ==> r.1.value != 0 && !Busy(q, r.1.value)
    decreases n
  {
    if n == 0 then (cursor, None)
    else
      var id := NextCursor(cursor);
      if !Busy(q, id) then (id, Some(id)) else SearchId(q, id, n - 1)
  }

  function NextId(s: Engine): (r: (Engine, Result<nat>))
    ensures r.1.Ok? ==> 0 < r.1.value <= MAX_ID && !Busy(s.sess, r.1.value)
  {
    if s.cursor.None? then (s, Err(ProtocolViolation))
    else
      var (cursor, id) := SearchId(s.sess, s.cursor.value, MAX_ID);
      (s.(cursor := Some(cursor)), if id.Some? then Ok(id.value) else Err(PacketIdExhausted))
  }

  /** The requested identifier if it is free, else the next free one. Only the cursor moves. */
  function CandidateId(s: Engine, requested: Option<u16>): (r: (Engine, Result<nat>))
    ensures r.1.Ok? ==> 0 < r.1.value <= MAX_ID && !Busy(s.sess, r.1.value)
    ensures r.0 == s.(cursor := r.0.cursor)
  {
    if requested.Some? then
      (s, if requested.value == 0 || Busy(s.sess, requested.value) then Err(InvalidPacketId) else Ok(requested.value))
    else NextId(s)
  }

  // ----- Commands -----

  datatype Command = Command(qos: nat, id: Option<u16>, dup: bool, retain: bool, topic: string, props: seq<Property>,
      payload: Bytes, priority: nat)

  function AliasesOf(props: seq<Property>): (r: seq<nat>) {
    if props == [] then []
    else (if props[0].TopicAlias? then [props[0].alias] else []) + AliasesOf(props[1..])
  }

  /** The canonical topic of a publication, and the alias it defines, if any. */
  function ValidatePublish(caps: Caps, cmd: Command): (r: Result<(string, Option<nat>)>) {
    var aliases := AliasesOf(cmd.props);
    if cmd.qos > caps.maxQos || (cmd.retain && !caps.retain) then Err(InvalidConfiguration)
    else if aliases == [] then Ok((cmd.topic, None))
    else if |aliases| != 1 || aliases[0] == 0 || aliases[0] > caps.aliasMaximum then Err(InvalidConfiguration)
    else if cmd.topic != "" then Ok((cmd.topic, Some(aliases[0])))
    else if aliases[0] in caps.aliases then Ok((caps.aliases[aliases[0]], None))
    else Err(InvalidConfiguration)
  }

  /** How many queued publications a new one goes behind. */
  function Slot(queue: seq<Ranked<Packet>>, priority: nat): (k: nat)
    ensures k <= |queue|
  {
    if queue == [] || queue[0].priority < priority then 0 else 1 + Slot(queue[1..], priority)
  }

  function InsertAt<T>(xs: seq<T>, k: nat, x: T): (r: seq<T>) {
    if k <= |xs| then xs[..k] + [x] + xs[k..] else xs + [x]
  }

  function Arrive(a: Arrivals, queue: seq<Ranked<Packet>>, priority: nat): (r: Arrivals) {
    a.(stamps := InsertAt(a.stamps, Slot(queue, priority), a.count), count := a.count + 1)
  }

  /** Accept an encoded publication: account for its bytes, reserve its identifier, queue it. */
  function Admit(s: Engine, p: Packet, priority: nat, id: Option<nat>, alias: Option<nat>, bytes: Bytes): (r: Engine)
    requires p.Publish?
  {
    var caps1 := if id.Some? then s.caps.(replayReserve := Max(s.caps.replayReserve, |bytes|)) else s.caps;
    var sess := s.sess.(
      queue := InsertDraining(s.sess.queue, Ranked(priority, p)),
      queuedBytes := s.sess.queuedBytes + |bytes|,
      reserved := if id.Some? then s.sess.reserved + {id.value} else s.sess.reserved);
    var tickets := if id.Some? then Issue(s.hist.tickets, id.value) else s.hist.tickets;
    s.(caps := if alias.Some? then caps1.(aliases := caps1.aliases[alias.value := p.topic]) else caps1,
       sess := sess,
       hist := s.hist.(tickets := tickets, arrivals := Arrive(s.hist.arrivals, s.sess.queue, priority),
                       points := s.hist.points + [Admitted(p, Shelf(s.sess, s.hist.tickets), Shelf(sess, tickets))]))
  }

  function PublishPacket(c: Options, cmd: Command, topic: string, id: Option<nat>): (r: Packet)
    ensures r.Publish?
  {
    Publish(cmd.qos, if cmd.qos > 0 then id else cmd.id, cmd.dup, cmd.retain, topic,
            if c.v5 then cmd.props else [], cmd.payload)
  }

  /** The decision part of a publish: the state with the moved cursor, and the admitted packet or the error. */
  datatype Admission =
    | Refused(error: Error)
    | Accepted(packet: Packet, id: Option<nat>, alias: Option<nat>, bytes: Bytes)

  function Identify(s: Engine, cmd: Command): (r: (Engine, Result<Option<nat>>)) {
    if cmd.qos == 0 then (s, Ok(None))
    else
      var (s1, id) := CandidateId(s, cmd.id);
      (s1, if id.Ok? then Ok(Some(id.value)) else Err(id.error))
  }

  function Decide(c: Options, s: Engine, cmd: Command): (r: (Engine, Admission))
    ensures r.1.Accepted? ==> r.1.packet.Publish?
  {
    var v := ValidatePublish(s.caps, cmd);
    if v.Err? then (s, Refused(v.error))
    else if |s.sess.queue| >= c.maxPackets then (s, Refused(BufferFull))
    else
      var (s1, id) := Identify(s, cmd);
      if id.Err? then (s1, Refused(id.error))
      else
        var p := PublishPacket(c, cmd, v.value.0, id.value);
        var bytes := c.encode(p);
        if bytes.None? then (s1, Refused(EncodingFailed))
        else
          var n := |bytes.value|;
          var reserve := Max(s.caps.control, s.caps.replayReserve);
          if CheckSize(c, s1.caps, n).Some? then (s1, Refused(CheckSize(c, s1.caps, n).value))
          else if CheckCapacity(c, s1, n + reserve).Some? then (s1, Refused(BufferFull))
          else (s1, Accepted(p, id.value, v.value.1, bytes.value))
  }

  function DoPublish(c: Options, s: Engine, cmd: Command): (r: (Engine, Result<Option<nat>>)) {
    var (s1, a) := Decide(c, s, cmd);
    if a.Refused? then (s1, Err(a.error))
    else
      var first := if s1.sess.queue == [] then Some(a.bytes) else None;
      (ProcessQueue(c, Admit(s1, a.packet, cmd.priority, a.id, a.alias, a.bytes), first), Ok(a.id))
  }

  /** Send a request under its identifier and track it. */
  function SendRequest(c: Options, s: Engine, kind: Kind, id: nat, filters: seq<string>): (r: (Engine, Result<nat>)) {
    var p := if kind == SubscribeOp then Subscribe(id, filters) else Unsubscribe(id, filters);
    var e := EnqueueError(c, s, p);
    if e.Some? then (s, Err(e.value))
    else
      var s1 := Enqueue(c, s, p);
      match Push(LineOf(c), s1.sess.inflight, id, p, 1, None, s1.clock.now)
      case Err(x) => (s1, Err(x))
      case Ok(q) =>
        (s1.(sess := s1.sess.(inflight := q, reserved := s1.sess.reserved + {id}),
             clock := StartDeadline(c, s1.clock, kind, Some(id))), Ok(id))
  }

  /** SUBSCRIBE and UNSUBSCRIBE: sent at once, tracked until acknowledged. `refused` stands for a
      capability the broker does not offer. */
  function DoRequest(c: Options, s: Engine, kind: Kind, requested: Option<u16>, filters: seq<string>,
      refused: bool): (r: (Engine, Result<nat>))
  {
    if Withheld(c, s) then (s, Err(InvalidState))
    else if refused then (s, Err(InvalidConfiguration))
    else
      var (s1, id) := CandidateId(s, requested);
      if id.Err? then (s1, id) else SendRequest(c, s1, kind, id.value, filters)
  }

  // ----- Connecting -----

  function ConnectError(c: Options, s: Engine): (r: Option<Error>) {
    if s.link.connected then Some(AlreadyConnected)
    else if s.link.connecting then Some(InvalidState)
    else if c.maxPackets == 0 || c.maxEvents == 0 then Some(InvalidConfiguration)
    else if c.encode(Connect(c.client)).None? then Some(EncodingFailed)
    else EnqueueError(c, s, Connect(c.client))
  }

  /** A refused CONNECT may still have created the identifier allocator. */
  function CreateSession(c: Options, s: Engine): (r: Engine) {
    if s.link.connected || s.link.connecting || c.maxPackets == 0 || c.maxEvents == 0 || s.cursor.Some? then s
    else s.(cursor := Some(0))
  }

  /** Queue CONNECT and capture everything outstanding until CONNACK decides about the session. */
  function Connecting(c: Options, s: Engine): (r: Engine)
    requires EnqueueError(c, s, Connect(c.client)).None?
  {
    var s1 := Enqueue(c, s, Connect(c.client));
    var s2 := s1.(
      sess := s1.sess.(previous := Outstanding(s1.sess), replay := []),
      caps := s1.caps.(control := Max(EncodedLength(c, Connect(c.client)), 6)),
      link := s1.link.(closed := false, connecting := true, reauth := false),
      hist := s1.hist.(emitted := [], reauths := 0, successes := 0, authMethods := []));
    s2.(clock := StartDeadline(c, s2.clock.(nextReconnect := None), ConnectOp, None))
  }

  function DoConnect(c: Options, s: Engine): (r: (Engine, Result<()>)) {
    var s1 := CreateSession(c, s);
    var e := ConnectError(c, s1);
    if e.Some? then (s1, Err(e.value)) else (Connecting(c, s1), Ok(()))
  }

  // ----- Resuming or abandoning the session -----

  function PubRelsOf(xs: seq<Held>): (r: seq<Held>) {
    if xs == [] then [] else if xs[0].packet.PubRel? then [xs[0]] + PubRelsOf(xs[1..]) else PubRelsOf(xs[1..])
  }

  function OthersOf(xs: seq<Held>): (r: seq<Held>) {
    if xs == [] then [] else if xs[0].packet.PubRel? then OthersOf(xs[1..]) else [xs[0]] + OthersOf(xs[1..])
  }

  /** The stable sort that puts releases before everything else. */
  function ReleasesFirst(xs: seq<Held>): (r: seq<Held>) { PubRelsOf(xs) + OthersOf(xs) }

  function RestoreOne(s: Engine, h: Held, resume: bool): (r: Engine) {
    if resume && IsExchange(h.packet) then
      s.(sess := s.sess.(inflight := Acknowledge(s.sess.inflight, h.id),
        replay := s.sess.replay + [Held(h.id, ForReplay(h.packet))]))
    else FailOperation(s, h.id, h.packet, SessionExpired)
  }

  function RestoreAll(s: Engine, hs: seq<Held>, resume: bool): (r: Engine)
    decreases hs
  {
    if hs == [] then s else RestoreAll(RestoreOne(s, hs[0], resume), hs[1..], resume)
  }

  predicate Resumes(c: Options, present: bool) {
    !c.sessionless && (present || (!c.v5 && !c.cleanStart))
  }

  /** Decide about every captured entry. */
  function Settle(c: Options, s: Engine, present: bool): (r: Engine) {
    var resume := Resumes(c, present);
    var captured := if resume then ReleasesFirst(s.sess.previous) else s.sess.previous;
    RestoreAll(s.(sess := s.sess.(previous := [])), captured, resume)
  }

  function Restore(c: Options, s: Engine, present: bool): (r: (Engine, seq<Event>)) {
    var s1 := Settle(c, s, present);
    var s2 := s1.(hist := s1.hist.(credit := Credit(s1.sess.inflight.limit, {}, 0)));
    if (present && !c.sessionless) || c.topics == [] then (ProcessReplay(c, s2), [])
    else
      var (s3, id) := DoRequest(c, s2, SubscribeOp, None, c.topics, false);
      (ProcessReplay(c, s3), if id.Err? then [Failure(id.error)] else [])
  }

  // ----- Incoming packets -----

  function Accepts(c: Options, s: Engine, p: Incoming): (r: bool) {
    match p
    case ConnAck(_, _, _) => s.link.connecting && !s.link.connected
    case AuthIn(_, _) => s.link.connected || (c.v5 && s.link.connecting)
    case DisconnectIn(_) => s.link.connected || (c.v5 && s.link.connecting)
    case _ => s.link.connected
  }

  /** The acknowledgement fits the stage of the exchange. */
  predicate Answers(p: Incoming, sent: Packet) {
    match p
    case PubAck(_, _) => sent.Publish? && sent.qos == 1
    case PubRec(_, _) => (sent.Publish? && sent.qos == 2) || sent.PubRel?
    case PubComp(_, _) => sent.PubRel?
    case SubAck(_, _) => sent.Subscribe?
    case UnsubAck(_) => sent.Unsubscribe?
    case _ => false
  }

  predicate IsAck(p: Incoming) {
    p.PubAck? || p.PubRec? || p.PubComp? || p.SubAck? || p.UnsubAck?
  }

  function ValidateAck(q: Inflight, p: Incoming): (r: Option<Error>) {
    if !IsAck(p) then None
    else
      var i := Find(q.items, p.id);
      if i == |q.items| || !Answers(p, q.items[i].packet) || q.items[i].stream.Some? then Some(InvalidPacketId)
      else if p.SubAck? && |q.items[i].packet.filters| != p.codes then Some(ProtocolViolation)
      else None
  }

  function Negotiate(c: Options, s: Engine, t: Terms): (r: Result<Engine>) {
    var reserve := Max(EncodedLength(c, Connect(c.client)), 6);
    if t.rejected || t.receiveMaximum == Some(0) || t.maxPacket == Some(0)
      || (t.maxQos.Some? && t.maxQos.value > 1) then Err(InvalidConfiguration)
    else if c.encode(Connect(c.client)).None? then Err(EncodingFailed)
    else if c.maxBytes.Some? && reserve > c.maxBytes.value then Err(InvalidConfiguration)
    else
      var q := if t.receiveMaximum.Some? then SetLimit(s.sess.inflight, Min(t.receiveMaximum.value, c.receiveMaximum))
        else s.sess.inflight;
      Ok(s.(
        sess := s.sess.(inflight := q),
        caps := s.caps.(
          maxPacket := if t.maxPacket.Some? then t.maxPacket else s.caps.maxPacket,
          maxQos := t.maxQos.GetOr(s.caps.maxQos),
          retain := t.retain.GetOr(s.caps.retain),
          aliasMaximum := t.aliasMaximum.GetOr(s.caps.aliasMaximum),
          keepAlive := t.keepAlive.GetOr(s.caps.keepAlive),
          control := reserve)))
  }

  function FinishConnAck(c: Options, s: Engine, reason: nat, present: bool,
      server: Option<u16>): (r: (Engine, seq<Event>))
  {
    var s1 := s.(link := s.link.(connected := reason == 0));
    if reason == 0 then
      var s2 := ResetReconnect(s1.(link := s1.link.(hasSession := true), hist := s1.hist.(serverMaximum := server)));
      var (s3, more) := Restore(c, s2, present);
      (s3, [Connected(reason, present)] + more)
    else (ConnectionLost(c, s1, s1.clock.now), [Connected(reason, present)])
  }

  /** CONNACK must name the authentication method of the CONNECT on success, and none if there was none. */
  predicate WrongMethod(c: Options, reason: nat, received: Option<string>) {
    c.strict && ((reason == 0 && received != c.authMethod) || (c.authMethod.None? && received.Some?))
  }

  function HandleConnAck(c: Options, s: Engine, reason: nat, present: bool, terms: Terms): (r: (Engine, seq<Event>)) {
    if (present && !s.link.hasSession) || (c.v5 && WrongMethod(c, reason, terms.authMethod))
      then (FailConnection(c, s, ProtocolViolation), [])
    else AcceptConnAck(c, s, reason, present, terms)
  }

  /** The attempt is over: negotiate, and resume or abandon the session. */
  function AcceptConnAck(c: Options, s: Engine, reason: nat, present: bool, terms: Terms): (r: (Engine, seq<Event>)) {
    var s1 := s.(link := s.link.(connecting := false),
      clock := s.clock.(deadlines := DropDeadline(s.clock.deadlines, ConnectOp, None)));
    if !c.v5 then FinishConnAck(c, s1, reason, present, None)
    else
      match Negotiate(c, s1, terms)
      case Err(e) => (FailConnection(c, s1, e), [])
      case Ok(s2) => FinishConnAck(c, s2, reason, present, terms.receiveMaximum)
  }

  /** The exchange is complete: release its identifier and report it. */
  function Complete(s: Engine, id: nat): (r: Engine) {
    var s1 := Release(s.(sess := s.sess.(inflight := Acknowledge(s.sess.inflight, id))), id);
    s1.(hist := s1.hist.(tickets := MarkPublished(s1.hist.tickets, id),
                         credit := Earn(s1.hist.credit, s.sess.inflight, id)))
  }

  /** SUBACK or UNSUBACK. */
  function Confirm(s: Engine, id: nat): (r: Engine) {
    Release(s.(sess := s.sess.(inflight := Acknowledge(s.sess.inflight, id))), id)
  }

  function Advance(c: Options, s: Engine, id: nat): (r: Engine) {
    s.(sess := s.sess.(inflight := Transition(LineOf(c), s.sess.inflight, id, PubRel(id), s.clock.now)))
  }

  function HandleAuth(c: Options, s: Engine, reason: nat, methods: seq<string>): (r: (Engine, seq<Event>)) {
    var valid := if reason == 0 then s.link.connected && s.link.reauth
                 else if reason == 0x18 then s.link.connecting || s.link.reauth
                 else false;
    if c.authMethod.None? || !valid || methods != [c.authMethod.value]
      then (FailConnection(c, s, ProtocolViolation), [])
    else
      var s1 := s.(hist := s.hist.(authMethods := s.hist.authMethods + [methods]));
      (if reason == 0 then s1.(link := s1.link.(reauth := false), hist := s1.hist.(successes := s1.hist.successes + 1))
        else s1,
       [AuthReceived(reason)])
  }

  function HandleAccepted(c: Options, s: Engine, p: Incoming): (r: (Engine, seq<Event>, seq<Packet>)) {
    match p
    case ConnAck(reason, present, terms) => var (s1, ev) := HandleConnAck(c, s, reason, present, terms); (s1, ev, [])
    case PubAck(id, reason) => (Complete(s, id), [Published(id, reason)], [])
    case PubRec(id, reason) =>
      if c.v5 && reason >= 0x80 then (Complete(s, id), [Published(id, reason)], [])
      else (Advance(c, s, id), [], [PubRel(id)])
    case PubComp(id, reason) => (Complete(s, id), [Published(id, reason)], [])
    case SubAck(id, _) => (Confirm(s, id), [Subscribed(id)], [])
    case UnsubAck(id) => (Confirm(s, id), [Unsubscribed(id)], [])
    case PingResp => (s.(clock := s.clock.(pingSent := None)), [PingResponse], [])
    case AuthIn(reason, methods) => var (s1, ev) := HandleAuth(c, s, reason, methods); (s1, ev, [])
    case DisconnectIn(reason) =>
      if c.v5 then (ConnectionLost(c, s, s.clock.now), [DisconnectReceived(reason)], []) else (s, [], [])
    case Message(failure, response) =>
      if failure.Some? then (FailConnection(c, s, failure.value), [], [])
      else (s, [MessageReceived], if response.Some? then [response.value] else [])
    case Oversized => (FailConnection(c, s, BufferFull), [], [])
    case Malformed => (FailConnection(c, s, ProtocolViolation), [], [])
  }

  function HandlePacket(c: Options, s: Engine, p: Incoming): (r: (Engine, seq<Event>, seq<Packet>)) {
    if s.link.closed then (s, [], [])
    else if p.Oversized? || p.Malformed? then HandleAccepted(c, s, p)
    else if !Accepts(c, s, p) then (FailConnection(c, s, ProtocolViolation), [], [])
    else
      match ValidateAck(s.sess.inflight, p)
      case Some(e) =>
        if !c.v5 || e == ProtocolViolation then (FailConnection(c, s, e), [], [])
        else (s, [Failure(e)], [])
      case None => HandleAccepted(c, s, p)
  }

  function CountPublished(es: seq<Event>): (n: nat) {
    if es == [] then 0 else (if es[0].Published? then 1 else 0) + CountPublished(es[1..])
  }

  /** The events and responses of a packet are queued. */
  function Record(s: Engine, events: seq<Event>, responses: seq<Packet>): (r: Engine) {
    s.(events := s.events + events, link := s.link.(responses := s.link.responses + responses),
       hist := s.hist.(reports := s.hist.reports + CountPublished(events)))
  }

  /** Take one packet from the parser, handle it, queue and flush its response. */
  function ParseOne(c: Options, s: Engine): (r: Engine)
    requires s.link.parser != []
  {
    var p := s.link.parser[0];
    var (s1, events, responses) := HandlePacket(c, s.(link := s.link.(parser := s.link.parser[1..])), p);
    Flush(c, Record(s1, events, responses))
  }

  /** Parsing pauses while a response is waiting, when the event buffer is full, and on a closed input. */
  predicate ParserPaused(c: Options, s: Engine) {
    s.link.responses != [] || s.link.closed || s.link.parser == []
    || (|s.events| >= c.maxEvents && !s.link.parser[0].Oversized?)
  }

  // ----- Closing, authentication, keep-alive -----

  predicate ClientReason(reason: nat) {
    reason == 0 || reason == 4 || 0x80 <= reason <= 0x83 || reason == 0x90 || 0x93 <= reason <= 0x99
  }

  function StopReconnect(s: Engine): (r: Engine) {
    s.(clock := s.clock.(nextReconnect := None))
  }

  function DoDisconnect(c: Options, s: Engine, reason: nat): (r: (Engine, Result<()>)) {
    if !ClientReason(reason) || (!c.v5 && reason != 0) then (s, Err(InvalidConfiguration))
    else if !s.link.connected then (CloseInput(StopReconnect(s)), Ok(()))
    else
      var e := EnqueueError(c, s, Disconnect(reason));
      if e.Some? then (s, Err(e.value))
      else (CloseInput(StopReconnect(Enqueue(c, s, Disconnect(reason)))), Ok(()))
  }

  /** The error of a client AUTH with the given authentication methods in its properties. */
  function AuthError(c: Options, s: Engine, reason: nat, methods: seq<string>): (r: Option<Error>) {
    if !c.v5 || (reason != 0x18 && reason != 0x19) || c.authMethod.None? then Some(InvalidConfiguration)
    else if exists m :: m in methods && m != c.authMethod.value then Some(ProtocolViolation)
    else if s.link.closed || !(if reason == 0x19 then s.link.connected && !s.link.reauth
      else s.link.connecting || s.link.reauth) then Some(ProtocolViolation)
    else EnqueueError(c, s, Auth(reason, AuthMethods(c, methods)))
  }

  function AuthMethods(c: Options, methods: seq<string>): (r: seq<string>) {
    if methods == [] && c.authMethod.Some? then [c.authMethod.value] else methods
  }

  function DoAuth(c: Options, s: Engine, reason: nat, methods: seq<string>): (r: (Engine, Result<()>)) {
    var e := AuthError(c, s, reason, methods);
    if e.Some? then (s, Err(e.value))
    else
      var ms := AuthMethods(c, methods);
      var s1 := Enqueue(c, s, Auth(reason, ms));
      var s2 := s1.(hist := s1.hist.(authMethods := s1.hist.authMethods + [ms]));
      (if reason == 0x19 then s2.(link := s2.link.(reauth := true), hist := s2.hist.(reauths := s2.hist.reauths + 1))
        else s2, Ok(()))
  }

  function DoPing(c: Options, s: Engine): (r: (Engine, Result<()>)) {
    var e := EnqueueError(c, s, PingReq);
    if e.Some? then (s, Err(e.value))
    else
      var s1 := Enqueue(c, s, PingReq);
      (s1.(clock := s1.clock.(pingSent := Some(s1.clock.now))), Ok(()))
  }

  /** The application puts a packet into the outgoing buffer itself; the engine does not track it. */
  function DoEnqueue(c: Options, s: Engine, p: Packet): (r: (Engine, Result<()>)) {
    var e := EnqueueError(c, s, p);
    if e.Some? then (s, Err(e.value)) else (Enqueue(c, s, p), Ok(()))
  }

  /** Turning reconnection off cancels the pending attempt and its undelivered events. */
  function SetReconnect(s: Engine, enabled: bool): (r: Engine) {
    var s1 := s.(clock := s.clock.(reconnect := enabled));
    if enabled then s1
    else s1.(clock := s1.clock.(nextReconnect := None), events := WithoutReconnect(s1.events))
  }

  function WithoutReconnect(es: seq<Event>): (r: seq<Event>) {
    if es == [] then []
    else if es[0].ReconnectNeeded? || es[0].ReconnectScheduled? then WithoutReconnect(es[1..])
    else [es[0]] + WithoutReconnect(es[1..])
  }

  // ----- Time -----

  /** The durations that may be added to the current time. */
  function LongestKeepAlive(c: Options): (d: Duration) { 65535 * NANOS_PER_SECOND * Max(c.pingMultiplier, 1) }

  predicate Fits(now: Time, d: Option<Duration>) { d.Some? ==> now + d.value < LIMIT }

  /** Every deadline the configuration allows is representable from `now`. */
  predicate Horizon(c: Options, now: Time) {
    && now + LongestKeepAlive(c) < LIMIT && now + c.retransmission < LIMIT
    && now + c.baseDelayMs * NANOS_PER_MILLI < LIMIT && now + c.maxDelayMs * NANOS_PER_MILLI < LIMIT
    && Fits(now, c.timeouts.connect) && Fits(now, c.timeouts.publish)
    && Fits(now, c.timeouts.subscribe) && Fits(now, c.timeouts.unsubscribe)
  }

  datatype Action = Expire(kind: Kind, id: Option<nat>) | SignalReconnect | PingTimeout | PingAttempt | Retransmit

  function DueDeadlines(ds: seq<Deadline>, now: Time): (r: seq<Deadline>)
    ensures r == [] <==> forall d :: d in ds ==> now < d.at
  {
    if ds == [] then [] else if ds[0].at <= now then [ds[0]] + DueDeadlines(ds[1..], now)
      else DueDeadlines(ds[1..], now)
  }

  function ExpireOne(c: Options, s: Engine, d: Deadline): (r: Engine) {
    var s1 := s.(
      clock := s.clock.(deadlines := DropDeadline(s.clock.deadlines, d.kind, d.id)),
      events := s.events + [OperationFailed(d.kind, d.id, OperationTimeout)]);
    if d.kind == ConnectOp then ConnectionLost(c, s1, s1.clock.now) else s1
  }

  function ExpireAll(c: Options, s: Engine, ds: seq<Deadline>): (r: Engine)
    decreases ds
  {
    if ds == [] then s else ExpireAll(c, ExpireOne(c, s, ds[0]), ds[1..])
  }

  function Expirations(ds: seq<Deadline>): (r: seq<Action>)
    ensures |r| == |ds|
  {
    seq(|ds|, i requires 0 <= i < |ds| => Expire(ds[i].kind, ds[i].id))
  }

  /** Send one expired packet again, on its stream or through the outgoing buffer. */
  function ResendOne(c: Options, s: Engine, x: Resend): (r: Engine) {
    var p := SetDup(x.packet);
    if c.encode(p).None? then s
    else
      var s1 :=
        if x.stream.Some? then s.(resends := s.resends + [(x.stream.value, c.encode(p).value)])
        else
          var e := EnqueueError(c, s, p);
          if e.None? then Enqueue(c, s, p)
          else if e.value == BufferFull then s
          else s.(events := s.events + [Failure(e.value)]);
      s1.(clock := s1.clock.(lastSent := s1.clock.now))
  }

  function ResendAll(c: Options, s: Engine, xs: seq<Resend>): (r: Engine)
    decreases xs
  {
    if xs == [] then s else ResendAll(c, ResendOne(c, s, xs[0]), xs[1..])
  }

  function Retransmissions(c: Options, s: Engine): (r: Engine) {
    var due := DueResends(s.sess.inflight, s.clock.now);
    ResendAll(c, s.(sess := s.sess.(inflight := Expired(LineOf(c), s.sess.inflight, s.clock.now))), due)
  }

  function KeepAliveOf(s: Engine): (d: Duration) { s.caps.keepAlive * NANOS_PER_SECOND }

  predicate PingOverdue(c: Options, s: Engine) {
    KeepAliveOf(s) > 0 && s.clock.pingSent.Some?
    && SaturatingSince(s.clock.now, s.clock.pingSent.value) >= KeepAliveOf(s) * c.pingMultiplier
  }

  predicate PingDue(c: Options, s: Engine) {
    s.clock.pingSent.None? && c.autoKeepAlive && KeepAliveOf(s) > 0
    && SaturatingSince(s.clock.now, s.clock.lastSent) >= KeepAliveOf(s)
  }

  /** The connected part of a tick after the deadlines. */
  function TickConnected(c: Options, s: Engine): (r: (Engine, seq<Action>)) {
    if PingOverdue(c, s) then
      var s1 := ConnectionLost(c, s, s.clock.now);
      (s1.(events := s1.events + [Disconnected]), [PingTimeout])
    else
      var s1 := if PingDue(c, s) then DoPing(c, s).0 else s;
      var s2 := ProcessQueue(c, s1, None);
      (Retransmissions(c, s2),
       (if PingDue(c, s) then [PingAttempt] else []) + (if DueResends(s2.sess.inflight, s2.clock.now) != []
         then [Retransmit] else []))
  }

  function TickDisconnected(s: Engine): (r: (Engine, seq<Action>)) {
    if s.clock.nextReconnect.Some? && s.clock.nextReconnect.value <= s.clock.now then
      (s.(events := s.events + [ReconnectNeeded], clock := s.clock.(nextReconnect := None),
        hist := s.hist.(needed := s.hist.needed + 1)), [SignalReconnect])
    else (s, [])
  }

  /** `handle_tick` at the current time, with the timed actions it took. */
  function DoTick(c: Options, s: Engine): (r: (Engine, seq<Action>)) {
    var due := DueDeadlines(s.clock.deadlines, s.clock.now);
    var s1 := Flush(c, ExpireAll(c, s, due));
    var (s2, more) := if s1.link.connected then TickConnected(c, s1) else TickDisconnected(s1);
    (s2, Expirations(due) + more)
  }

  function Earliest(a: Option<Time>, b: Option<Time>): (r: Option<Time>) {
    if a.None? then b else if b.None? then a else Some(Min(a.value, b.value))
  }

  function FirstDeadline(ds: seq<Deadline>): (r: Option<Time>) {
    if ds == [] then None else Earliest(Some(ds[0].at), FirstDeadline(ds[1..]))
  }

  function KeepAliveDeadline(c: Options, s: Engine): (r: Option<Time>) {
    if KeepAliveOf(s) == 0 then None
    else if s.clock.pingSent.Some? then Some(s.clock.pingSent.value + KeepAliveOf(s) * c.pingMultiplier)
    else if c.autoKeepAlive then Some(s.clock.lastSent + KeepAliveOf(s))
    else None
  }

  /** When the next tick is needed. */
  function NextTick(c: Options, s: Engine): (r: Option<Time>) {
    var d := FirstDeadline(s.clock.deadlines);
    if !s.link.connected then Earliest(s.clock.nextReconnect, d)
    else Earliest(Earliest(KeepAliveDeadline(c, s), NextExpiration(s.sess.inflight)), d)
  }
}
