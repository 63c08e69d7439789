/** Concrete runs on which a plausible law fails. The laws that do hold are in `Reachable` and `ConnectionControl`. */
module Counterexamples {
  import opened Basics
  import opened Timestamps
  import opened Packets
  import opened PriorityQueues
  import opened InflightQueues
  import opened EngineModel
  import opened EngineRuns
  import opened SessionBooks
  import opened SessionInvariant

  /** The packets that occur on these runs, and that every encoder accepts. */
  predicate Ordinary(p: Packet) {
    match p
    case Publish(qos, id, _, _, topic, props, payload) =>
      qos <= 2 && (id.Some? ==> 0 < id.value <= MAX_ID) && topic == "t" && props == [] && payload == []
    case PubRel(id) => 0 < id <= MAX_ID
    case Connect(client) => client == ""
    case Disconnect(reason) => reason == 0
    case _ => false
  }

  /** A small configuration without a byte limit. */
  function Config(sessionless: bool, receiveMaximum: u16, encode: Packet -> Option<Bytes>): (c: Options) {
    Options(true, true, receiveMaximum, 20, 20, None, sessionless, false, 0, false, 1, 0, false, 0, 0, 0,
            Timeouts(None, None, None, None), None, [], "", encode)
  }

  /** The small configuration with any encoder that accepts ordinary packets. */
  ghost predicate Small(c: Options, sessionless: bool, receiveMaximum: nat) {
    && receiveMaximum <= 65535 && c == Config(sessionless, receiveMaximum, c.encode)
    && forall p :: Ordinary(p) ==> c.encode(p).Some?
  }

  function Refusing(p: Packet): (r: Option<Bytes>) { None }

  const TERMS := Terms(false, None, None, None, None, None, None, None)

  const CAPS := Caps(None, 2, true, 0, 0, map[], 6, 0)

  const CLOCK := Clock(0, 0, None, false, 0, None, [])

  const BLANK := Initial(Config(false, 0, Refusing), 0).hist

  function Send(qos: nat, id: Option<u16>, priority: nat): (cmd: Command) {
    Command(qos, id, false, false, "t", [], [], priority)
  }

  function Sent(qos: nat, id: nat): (p: Packet) { Publish(qos, Some(id), false, false, "t", [], []) }

  function State(connected: bool, connecting: bool, closed: bool, known: bool, out: seq<Bytes>, q: Session,
      cursor: Option<u16>): (s: Engine)
  {
    Engine(Link(connected, connecting, closed, false, known, out, [], []), q, CAPS, CLOCK, cursor, [], [], BLANK)
  }

  /** The same engine, whatever its history and however long its packets are. */
  predicate Looks(s: Engine, t: Engine) {
    && |s.link.out| == |t.link.out|
    && s == t.(hist := s.hist, link := t.link.(out := s.link.out),
               sess := t.sess.(queuedBytes := s.sess.queuedBytes),
               caps := t.caps.(control := s.caps.control, replayReserve := s.caps.replayReserve))
  }

  function Out(n: nat): (r: seq<Bytes>)
    ensures |r| == n
  {
    seq(n, _ => [])
  }

  function Idle(limit: nat): (q: Session) { Session([], 0, {}, Inflight([], [], limit, 0, None), [], []) }

  function Now(input: Input): (t: Timed) { Timed(0, input) }

  lemma {:induction false} RunAppend(c: Options, s: Engine, ts: seq<Timed>, t: Timed)
    ensures Run(c, s, ts + [t]) == Step(c, Run(c, s, ts), t)
    decreases ts
  {
    if ts == [] {
      assert [t][1..] == [] && ts + [t] == [t];
    } else {
      assert (ts + [t])[1..] == ts[1..] + [t];
      RunAppend(c, Step(c, s, ts[0]), ts[1..], t);
    }
  }

  /** One more input at time zero. */
  lemma NextInput(c: Options, s0: Engine, ts: seq<Timed>, n: nat)
    requires n < |ts| && ts[n].now == 0 && Horizon(c, 0) && Run(c, s0, ts[..n]).clock == CLOCK
    ensures Run(c, s0, ts[..n + 1]) == Apply(c, Run(c, s0, ts[..n]), ts[n].input)
  {
    var mid := Run(c, s0, ts[..n]);
    assert ts[..n + 1] == ts[..n] + [ts[n]];
    RunAppend(c, s0, ts[..n], ts[n]);
    assert At(mid, 0) == mid;
  }

  /** From every engine that looks like `a`, the input leads to one that looks like `r`. */
  ghost predicate Moves(c: Options, a: Engine, i: Input, r: Engine) {
    forall s {:trigger Apply(c, s, i)} :: Looks(s, a) ==> Looks(Apply(c, s, i), r)
  }

  lemma OneMove(c: Options, s0: Engine, ts: seq<Timed>, n: nat, a: Engine, r: Engine)
    requires n < |ts| && ts[n].now == 0 && Horizon(c, 0) && a.clock == CLOCK
    requires Looks(Run(c, s0, ts[..n]), a) && Moves(c, a, ts[n].input, r)
    ensures Looks(Run(c, s0, ts[..n + 1]), r)
  {
    NextInput(c, s0, ts, n);
  }

  lemma NoMove(c: Options, s0: Engine, ts: seq<Timed>)
    ensures Looks(Run(c, s0, ts[..0]), s0)
  {
  }

  // ----- Steps that several runs share -----

  function Dialling(limit: nat): (s: Engine) { State(false, true, false, false, Out(1), Idle(limit), Some(0)) }

  function Open(limit: nat): (s: Engine) { State(true, false, false, true, Out(1), Idle(limit), Some(0)) }

  lemma ConnectDials(c: Options, limit: nat)
    requires Small(c, c.sessionless, c.receiveMaximum) && limit == Initial(c, 0).sess.inflight.limit
    ensures Moves(c, Initial(c, 0), ConnectInput, Dialling(limit))
  {
    forall s | Looks(s, Initial(c, 0)) ensures Looks(Apply(c, s, ConnectInput), Dialling(limit)) {
      var s1 := CreateSession(c, s);
      assert ConnectError(c, s1).None?;
      assert Snapshot([]) + [] == [] && Outstanding(Idle(limit)) == [];
      assert Looks(Connecting(c, s1), Dialling(limit));
    }
  }

  lemma LoopOnce(c: Options, s: Engine, r: Engine)
    requires !ParserPaused(c, s) && r == ParseOne(c, s) && r.link.parser == []
    ensures ParseLoop(c, s) == r
  {
    assert ParseLoop(c, r) == r;
  }

  /** One buffered packet that asks for no response. */
  lemma ParsedAs(c: Options, t: Engine, p: Incoming, s: Engine, es: seq<Event>)
    requires t.link.parser == [p] && !t.link.closed && t.link.responses == [] && |t.events| < c.maxEvents
    requires
      var (m, events, responses) := HandlePacket(c, t.(link := t.link.(parser := [])), p);
      Looks(m, s) && events == es && responses == [] && s.link.responses == [] && s.link.parser == []
    ensures Looks(ParseLoop(c, t), s.(events := s.events + es))
  {
    assert [p][1..] == [] && s.link.responses + [] == [];
    var (m, events, responses) := HandlePacket(c, t.(link := t.link.(parser := [])), p);
    var r := Record(m, events, responses);
    assert Flush(c, r) == r;
    LoopOnce(c, t, r);
  }

  predicate Listening(s: Engine) {
    s.clock == CLOCK && s.link.responses == [] && s.link.parser == [] && !s.link.closed
  }

  function Buffered(s: Engine, p: Incoming): (r: Engine) { s.(link := s.link.(parser := [p])) }

  /** Receiving one packet and sending what then can be sent. */
  lemma Receives(c: Options, s: Engine, p: Incoming)
    requires Listening(s)
    ensures Apply(c, s, DataInput([p])) == ProcessQueue(c, ParseLoop(c, Buffered(s, p)), None).(events := [])
  {
    var t := Buffered(s, p);
    assert s.link.parser + [p] == [p];
    assert Flush(c, t) == t;
  }

  predicate NothingQueued(s: Engine) {
    s.link.responses == [] && s.sess.queue == [] && s.sess.replay == []
  }

  lemma NothingToSend(c: Options, s: Engine)
    requires NothingQueued(s)
    ensures ProcessQueue(c, s, None) == s
  {
  }

  lemma AnswerHandled(c: Options, s: Engine, limit: u16)
    requires Small(c, c.sessionless, limit) && limit > 0 && Looks(s, Dialling(limit))
    ensures
      var (m, events, responses) := HandlePacket(c, s, ConnAck(0, false, TERMS));
      Looks(m, Open(limit)) && events == [Connected(0, false)] && responses == []
  {
    var s1 := s.(link := s.link.(connecting := false));
    assert s1 == s.(link := s.link.(connecting := false),
        clock := s.clock.(deadlines := DropDeadline(s.clock.deadlines, ConnectOp, None)));
    var s0 := s1.(caps := s1.caps.(control := Max(EncodedLength(c, Connect("")), 6)));
    assert Ordinary(Connect(""));
    assert Negotiate(c, s1, TERMS) == Ok(s0);
    var s2 := ResetReconnect(s0.(link := s0.link.(connected := true, hasSession := true),
      hist := s0.hist.(serverMaximum := None)));
    assert Settle(c, s2, false) == s2;
    assert Looks(Restore(c, s2, false).0, Open(limit)) && Restore(c, s2, false).1 == [];
    assert [Connected(0, false)] + [] == [Connected(0, false)];
  }

  lemma AnswerParsed(c: Options, s: Engine, limit: u16)
    requires Small(c, c.sessionless, limit) && limit > 0 && Looks(s, Dialling(limit))
    ensures
      var m := ParseLoop(c, Buffered(s, ConnAck(0, false, TERMS)));
      Looks(m, Open(limit).(events := [Connected(0, false)])) && ProcessQueue(c, m, None) == m
  {
    var t, p := Buffered(s, ConnAck(0, false, TERMS)), ConnAck(0, false, TERMS);
    AnswerHandled(c, t.(link := t.link.(parser := [])), limit);
    ParsedAs(c, t, p, Open(limit), [Connected(0, false)]);
    NothingToSend(c, ParseLoop(c, t));
  }

  lemma AnswerOpens(c: Options, limit: u16, p: Incoming)
    requires Small(c, c.sessionless, limit) && limit > 0 && p == ConnAck(0, false, TERMS)
    ensures Moves(c, Dialling(limit), DataInput([p]), Open(limit))
  {
    forall s | Looks(s, Dialling(limit)) ensures Looks(Apply(c, s, DataInput([p])), Open(limit)) {
      AnswerParsed(c, s, limit);
      Receives(c, s, p);
    }
  }

  lemma Opens(c: Options, s0: Engine, ts: seq<Timed>, limit: u16)
    requires Small(c, c.sessionless, limit) && limit > 0 && s0 == Initial(c, 0)
    requires |ts| > 1 && ts[0] == Now(ConnectInput) && ts[1] == Now(DataInput([ConnAck(0, false, TERMS)]))
    ensures Looks(Run(c, s0, ts[..2]), Open(limit))
  {
    NoMove(c, s0, ts);
    ConnectDials(c, limit);
    OneMove(c, s0, ts, 0, s0, Dialling(limit));
    AnswerOpens(c, limit, ConnAck(0, false, TERMS));
    OneMove(c, s0, ts, 1, Dialling(limit), Open(limit));
  }

  /** The engine after the publication at the head of its queue went out. */
  function HeadGone(s: Engine): (r: Engine)
    requires s.sess.queue != [] && s.sess.queue[0].item.Publish? && s.sess.queue[0].item.id.Some?
  {
    var p, q := s.sess.queue[0].item, s.sess.inflight;
    s.(link := s.link.(out := s.link.out + [[]]),
       sess := s.sess.(
         queue := s.sess.queue[1..],
         inflight := q.(items := q.items + [Entry(p.id.value, p, p.qos, None, 0, 0)], quota := q.quota + 1,
           last := Some(0))))
  }

  /** A connection on which the head of the queue can go out. */
  ghost predicate Ready(c: Options, s: Engine) {
    && Small(c, c.sessionless, c.receiveMaximum) && s.clock == CLOCK && s.caps.maxPacket.None? && s.link.connected
    && s.link.responses == [] && s.sess.replay == [] && |s.link.out| < 20
      && s.sess.inflight.last.GetOr(0) == 0
  }

  lemma HeadSends(c: Options, s: Engine)
    requires Ready(c, s) && s.sess.queue != [] && CanPublish(s.sess.inflight)
    requires
      var p := s.sess.queue[0].item;
      Ordinary(p) && p.Publish? && 0 < p.qos <= s.caps.maxQos && !p.retain && p.id.Some?
        && !Has(s.sess.inflight, p.id.value)
    ensures EmitReady(c, s) && Looks(EmitOne(c, s, None), HeadGone(s))
  {
  }

  /** The engine after an acknowledged publication went out at once. */
  function Published(s: Engine, qos: nat): (r: Engine)
    requires s.cursor.Some? && s.cursor.value < 100
  {
    var id, q := s.cursor.value + 1, s.sess.inflight;
    s.(link := s.link.(out := Out(|s.link.out| + 1)),
       sess := s.sess.(
         reserved := s.sess.reserved + {id},
         inflight := q.(items := q.items + [Entry(id, Sent(qos, id), qos, None, 0, 0)], quota := q.quota + 1,
           last := Some(0))),
       cursor := Some(id))
  }

  predicate Sending(s: Engine) {
    && Looks(s, State(true, false, false, true, Out(|s.link.out|), s.sess, s.cursor)) && |s.link.out| < 10
    && s.sess == Session([], s.sess.queuedBytes, s.sess.reserved, s.sess.inflight, [], [])
    && s.cursor.Some? && s.cursor.value < 100
    && CanPublish(s.sess.inflight) && !Busy(s.sess, s.cursor.value + 1) && s.sess.inflight.last.GetOr(0) == 0
  }

  lemma PublishAdmits(c: Options, s: Engine, qos: nat)
    requires Small(c, c.sessionless, c.receiveMaximum) && Sending(s) && (qos == 1 || qos == 2)
    ensures
      var id := s.cursor.value + 1;
      var bytes := c.encode(Sent(qos, id));
      bytes.Some? && Decide(c, s, Send(qos, None, 0))
        == (s.(cursor := Some(id)), Accepted(Sent(qos, id), Some(id), None, bytes.value))
  {
    var id := s.cursor.value + 1;
    assert Ordinary(Sent(qos, id));
    assert NextId(s) == (s.(cursor := Some(id)), Ok(id));
  }

  /** The publication waits alone. */
  function Alone(s: Engine, p: Packet, id: nat): (r: Engine) {
    s.(sess := s.sess.(queue := [Ranked(0, p)], reserved := s.sess.reserved + {id}))
  }

  lemma AloneGoes(c: Options, s: Engine, t: Engine, qos: nat, bytes: Bytes)
    requires Small(c, c.sessionless, c.receiveMaximum) && Sending(s) && (qos == 1 || qos == 2)
    requires
      var id := s.cursor.value + 1;
      Looks(t, Alone(s.(cursor := Some(id)), Sent(qos, id), id)) && c.encode(Sent(qos, id)) == Some(bytes)
    ensures Looks(ProcessQueue(c, t, Some(bytes)), Published(s, qos))
  {
    var id := s.cursor.value + 1;
    assert Flush(c, t) == t && ProcessReplay(c, t) == t;
    HeadSends(c, t);
    var r := EmitOne(c, t, Some(bytes));
    assert r == EmitOne(c, t, None);
    assert r.sess.queue == [] && !EmitReady(c, r);
    assert EmitLoop(c, t, Some(bytes)) == r;
  }

  /** Publishing on an idle connection with quota to spare. */
  lemma PublishSends(c: Options, s: Engine, qos: nat, cmd: Command)
    requires Small(c, c.sessionless, c.receiveMaximum) && Sending(s) && (qos == 1 || qos == 2)
    requires cmd == Send(qos, None, 0)
    ensures Looks(DoPublish(c, s, cmd).0, Published(s, qos))
  {
    var id := s.cursor.value + 1;
    PublishAdmits(c, s, qos);
    var s1, bytes := s.(cursor := Some(id)), c.encode(Sent(qos, id)).value;
    var s2 := Admit(s1, Sent(qos, id), 0, Some(id), None, bytes);
    assert Looks(s2, Alone(s1, Sent(qos, id), id));
    AloneGoes(c, s, s2, qos, bytes);
  }

  lemma SendingAlike(s: Engine, a: Engine, qos: nat)
    requires Looks(s, a) && Sending(a)
    ensures Sending(s) && Looks(Published(s, qos), Published(a, qos))
  {
  }

  lemma PublishLeads(c: Options, s: Engine, a: Engine, qos: nat, r: Engine, cmd: Command)
    requires Small(c, c.sessionless, c.receiveMaximum) && Sending(a) && (qos == 1 || qos == 2) && Looks(s, a)
    requires Looks(Published(a, qos), r) && cmd == Send(qos, None, 0)
    ensures Looks(DoPublish(c, s, cmd).0, r)
  {
    SendingAlike(s, a, qos);
    PublishSends(c, s, qos, cmd);
  }

  lemma PublishMoves(c: Options, a: Engine, qos: nat, r: Engine, cmd: Command)
    requires Small(c, c.sessionless, c.receiveMaximum) && Sending(a) && (qos == 1 || qos == 2)
    requires Looks(Published(a, qos), r) && cmd == Send(qos, None, 0)
    ensures Moves(c, a, PublishInput(cmd), r)
  {
    forall s | Looks(s, a) ensures Looks(Apply(c, s, PublishInput(cmd)), r) { PublishLeads(c, s, a, qos, r, cmd); }
  }

  // ----- A sessionless engine reuses the identifier of a parked exchange -----

  const COLLISION: seq<Timed> := [
    Now(ConnectInput), Now(DataInput([ConnAck(0, false, TERMS)])), Now(PublishInput(Send(1, None, 0))),
      Now(DisconnectInput(0)),
    Now(ConnectInput), Now(LostInput), Now(PublishInput(Send(1, Some(1), 0)))]

  const SENT_ONE := Inflight([Entry(1, Sent(1, 1), 1, None, 0, 0)], [], 10, 1, Some(0))

  function InFlight(): (s: Engine) {
    State(true, false, false, true, Out(2), Session([], 0, {1}, SENT_ONE, [], []), Some(1))
  }

  function Closed(): (s: Engine) {
    State(false, false, true, true, Out(3), Session([], 0, {1}, SENT_ONE, [], []), Some(1))
  }

  function Parked(): (s: Engine) {
    State(false, true, false, true, Out(4), Session([], 0, {1}, SENT_ONE, [Held(1, Sent(1, 1))], []), Some(1))
  }

  function Forgotten(): (s: Engine) {
    State(false, false, true, false, [], Session([], 0, {}, Inflight([], [], 10, 0, Some(0)), [Held(1, Sent(1, 1))],
      []), Some(1))
    .(events := [OperationFailed(PublishOp, Some(1), SessionExpired)])
  }

  lemma FirstSent()
    ensures Published(Open(10), 1) == InFlight() && Sending(Open(10))
  {
  }

  lemma DisconnectCloses(c: Options)
    requires Small(c, true, 10)
    ensures Moves(c, InFlight(), DisconnectInput(0), Closed())
  {
  }

  lemma ConnectParks(c: Options)
    requires Small(c, true, 10)
    ensures Moves(c, Closed(), ConnectInput, Parked())
  {
    var h := Held(1, Sent(1, 1));
    assert Snapshot(SENT_ONE.items) + [] == [h];
    assert [h][1..] == [];
    assert Outstanding(Closed().sess) == Merge([], [h]);
    assert Put([], h) == [h];
  }

  lemma SessionEnds(s: Engine)
    requires Looks(s, CloseInput(Parked()).(link := CloseInput(Parked()).link.(out := [])))
    ensures Looks(EndSession(s), Forgotten())
  {
    var h := Held(1, Sent(1, 1));
    assert Snapshot(SENT_ONE.items) == [h] && [h][1..] == [];
    var s3 := s.(link := s.link.(hasSession := false));
    var s4 := FailOperation(s3, 1, h.packet, SessionExpired);
    assert SENT_ONE.items[1..] == [];
    assert Acknowledge(SENT_ONE, 1) == Inflight([], [], 10, 0, Some(0));
    assert Looks(s4, Forgotten());
    assert FailAll(s3, [h], SessionExpired) == s4;
  }

  lemma LossForgets(c: Options)
    requires Small(c, true, 10)
    ensures Moves(c, Parked(), LostInput, Forgotten())
  {
    forall s | Looks(s, Parked()) ensures Looks(Apply(c, s, LostInput), Forgotten()) {
      Forgets(c, s);
    }
  }

  lemma Forgets(c: Options, s: Engine)
    requires Small(c, true, 10) && Looks(s, Parked())
    ensures Looks(Apply(c, s, LostInput), Forgotten())
  {
    assert StripQueue([]) == [];
    SessionEnds(Detached(c, s));
    assert Looks(Reset(c, s), Forgotten());
  }

  function Collided(): (s: Engine) {
    Forgotten().(sess := Forgotten().sess.(queue := [Ranked(0, Sent(1, 1))], reserved := {1}))
  }

  lemma ReuseCollides(c: Options)
    requires Small(c, true, 10)
    ensures Moves(c, Forgotten(), PublishInput(Send(1, Some(1), 0)), Collided())
  {
    forall s | Looks(s, Forgotten()) ensures Looks(Apply(c, s, PublishInput(Send(1, Some(1), 0))), Collided()) {
      ReuseAdmits(c, s);
      assert {} + {1} == {1};
    }
  }

  lemma ReuseAdmits(c: Options, s: Engine)
    requires Small(c, true, 10) && Looks(s, Forgotten())
    ensures c.encode(Sent(1, 1)).Some?
    ensures Apply(c, s, PublishInput(Send(1, Some(1), 0)))
         == Admit(s, Sent(1, 1), 0, Some(1), None, c.encode(Sent(1, 1)).value)
  {
    assert Ordinary(Sent(1, 1));
    var (s1, a) := Decide(c, s, Send(1, Some(1), 0));
    assert a == Accepted(Sent(1, 1), Some(1), None, c.encode(Sent(1, 1)).value) && s1 == s;
  }

  lemma ReuseHolds(c: Options, s: Engine)
    requires Looks(s, Collided())
    ensures !Conserved(s)
  {
    var q := s.sess;
    assert [Ranked(0, Sent(1, 1))][1..] == [] && QueueIds(q.queue) == [1];
    assert Retain(q.previous, q.reserved) == [Held(1, Sent(1, 1))];
    assert Outstanding(q) == [Held(1, Sent(1, 1))];
    assert Ids(Outstanding(q))[0] == 1;
    assert 1 in QueueIds(q.queue);
  }

  lemma CollisionBegins(c: Options, s0: Engine, ts: seq<Timed>)
    requires Small(c, true, 10) && ts == COLLISION && s0 == Initial(c, 0)
    ensures Looks(Run(c, s0, ts[..3]), InFlight())
  {
    Opens(c, s0, ts, 10);
    FirstSent();
    PublishMoves(c, Open(10), 1, InFlight(), Send(1, None, 0));
    OneMove(c, s0, ts, 2, Open(10), InFlight());
  }

  lemma CollisionEnds(c: Options, s0: Engine, ts: seq<Timed>)
    requires Small(c, true, 10) && ts == COLLISION && Looks(Run(c, s0, ts[..3]), InFlight())
    ensures Looks(Run(c, s0, ts[..7]), Collided())
  {
    DisconnectCloses(c);
    OneMove(c, s0, ts, 3, InFlight(), Closed());
    ConnectParks(c);
    OneMove(c, s0, ts, 4, Closed(), Parked());
    LossForgets(c);
    OneMove(c, s0, ts, 5, Parked(), Forgotten());
    ReuseCollides(c);
    OneMove(c, s0, ts, 6, Forgotten(), Collided());
  }

  /** Connect, publish, disconnect, connect again, lose the transport, publish with the first identifier: that
      identifier is then both queued and outstanding. `Commands.PublishConservesIff` and `Reachable.ConservationIff`
      say exactly when. */
  lemma SessionlessCollision(c: Options)
    requires Small(c, true, 10)
    ensures !Conserved(Run(c, Initial(c, 0), COLLISION))
  {
    CollisionBegins(c, Initial(c, 0), COLLISION);
    CollisionEnds(c, Initial(c, 0), COLLISION);
    assert COLLISION[..7] == COLLISION;
    ReuseHolds(c, Run(c, Initial(c, 0), COLLISION));
  }

  // ----- A replayed release returns quota it never took -----

  const OVERSHOOT: seq<Timed> := [
    Now(ConnectInput), Now(DataInput([ConnAck(0, false, TERMS)])), Now(PublishInput(Send(2, None, 0))),
      Now(DataInput([PubRec(1, 0)])),
    Now(LostInput), Now(ConnectInput), Now(DataInput([ConnAck(0, true, TERMS)])), Now(PublishInput(Send(1, None, 0))),
    Now(DataInput([PubComp(1, 0)])), Now(PublishInput(Send(1, None, 0)))]

  const RELEASE := Held(1, PubRel(1))

  function Exchange(p: Packet, quota: nat): (q: Inflight) {
    Inflight([Entry(1, p, 2, None, 0, 0)], [], 1, quota, Some(0))
  }

  function Started(): (s: Engine) {
    State(true, false, false, true, Out(2), Session([], 0, {1}, Exchange(Sent(2, 1), 1), [], []), Some(1))
  }

  function Releasing(): (s: Engine) {
    State(true, false, false, true, Out(3), Session([], 0, {1}, Exchange(PubRel(1), 1), [], []), Some(1))
  }

  function Interrupted(): (s: Engine) {
    State(false, false, true, true, Out(0), Session([], 0, {1}, Exchange(PubRel(1), 1), [], []), Some(1))
  }

  function Retrying(): (s: Engine) {
    State(false, true, false, true, Out(1), Session([], 0, {1}, Exchange(PubRel(1), 1), [RELEASE], []), Some(1))
  }

  function Resumed(): (s: Engine) {
    State(true, false, false, true, Out(2), Session([], 0, {1}, Exchange(PubRel(1), 0), [], []), Some(1))
  }

  const BOTH := Inflight([Entry(1, PubRel(1), 2, None, 0, 0), Entry(2, Sent(1, 2), 1, None, 0, 0)], [], 1, 1, Some(0))

  function Second(): (s: Engine) {
    State(true, false, false, true, Out(3), Session([], 0, {1, 2}, BOTH, [], []), Some(2))
  }

  function Released(): (s: Engine) {
    State(true, false, false, true, Out(3), Session([], 0, {2},
      Inflight([Entry(2, Sent(1, 2), 1, None, 0, 0)], [], 1, 0, Some(0)), [], []), Some(2))
  }

  lemma ExchangeStarts()
    ensures Published(Open(1), 2) == Started() && Sending(Open(1))
  {
  }

  lemma ReceiptMoves(c: Options, t: Engine)
    requires Small(c, false, 1) && Looks(t, Started().(link := Started().link.(parser := [PubRec(1, 0)])))
    ensures Looks(ParseLoop(c, t), Releasing())
  {
    var s := t.(link := t.link.(parser := []));
    assert [PubRec(1, 0)][1..] == [];
    var s1 := Advance(c, s, 1);
    assert s1.sess.inflight == Exchange(PubRel(1), 1);
    assert HandlePacket(c, s, PubRec(1, 0)) == (s1, [], [PubRel(1)]);
    var s2 := Record(s1, [], [PubRel(1)]);
    assert [] + [PubRel(1)] == [PubRel(1)];
    var s3 := FlushOne(c, s2);
    assert [PubRel(1)][1..] == [];
    assert Looks(s3, Releasing());
    assert FlushOut(c, s3) == s3 && FlushOut(c, s2) == s3 && Flush(c, s2) == s3;
    LoopOnce(c, t, s3);
  }

  lemma ReceiptReleases(c: Options, p: Incoming)
    requires Small(c, false, 1) && p == PubRec(1, 0)
    ensures Moves(c, Started(), DataInput([p]), Releasing())
  {
    forall s | Looks(s, Started()) ensures Looks(Apply(c, s, DataInput([p])), Releasing()) {
      ReceiptMoves(c, Buffered(s, p));
      NothingToSend(c, ParseLoop(c, Buffered(s, p)));
      Receives(c, s, p);
    }
  }

  lemma LossInterrupts(c: Options)
    requires Small(c, false, 1)
    ensures Moves(c, Releasing(), LostInput, Interrupted())
  {
    assert StripQueue([]) == [] && Out(0) == [];
  }

  lemma ConnectRetries(c: Options)
    requires Small(c, false, 1)
    ensures Moves(c, Interrupted(), ConnectInput, Retrying())
  {
    assert Snapshot(Exchange(PubRel(1), 1).items) + [] == [RELEASE];
    assert [RELEASE][1..] == [];
    assert Outstanding(Interrupted().sess) == Merge([], [RELEASE]);
    assert Put([], RELEASE) == [RELEASE];
  }

  lemma SettleReleases(c: Options, s: Engine)
    requires Small(c, false, 1) && Looks(s,
        Retrying().(link := Retrying().link.(connecting := false, connected := true)))
    ensures Looks(Settle(c, s, true), s.(sess := Session([], 0, {1}, Inflight([], [], 1, 0, Some(0)), [], [RELEASE])))
  {
    assert [RELEASE][1..] == [];
    assert PubRelsOf([]) == [] && OthersOf([]) == [] && [RELEASE] + [] == [RELEASE];
    assert PubRelsOf([RELEASE]) == [RELEASE] && OthersOf([RELEASE]) == [];
    assert ReleasesFirst([RELEASE]) == [RELEASE];
    assert ForReplay(PubRel(1)) == PubRel(1);
    var e := Exchange(PubRel(1), 1);
    assert e.items[1..] == [];
    assert Acknowledge(e, 1) == Inflight([], [], 1, 0, Some(0));
    var s0 := s.(sess := s.sess.(previous := []));
    var s1 := RestoreOne(s0, RELEASE, true);
    assert s1.sess.replay == [RELEASE];
    assert RestoreAll(s0, [RELEASE], true) == s1;
  }

  lemma ResumeReplays(c: Options, s: Engine)
    requires Small(c, false, 1) && Looks(s,
        Retrying().(link := Retrying().link.(connecting := false, connected := true)))
    ensures Looks(Restore(c, s, true).0, Resumed()) && Restore(c, s, true).1 == []
  {
    SettleReleases(c, s);
    var s1 := Settle(c, s, true);
    var s2 := s1.(hist := s1.hist.(credit := Credit(s1.sess.inflight.limit, {}, 0)));
    var s3 := ReplayOne(c, s2);
    assert [RELEASE][1..] == [];
    assert Looks(s3, Resumed());
    assert ProcessReplay(c, s3) == s3 && ProcessReplay(c, s2) == s3;
  }

  lemma ConnAckHandled(c: Options, s: Engine)
    requires Small(c, false, 1) && Looks(s, Retrying())
    ensures
      var (m, events, responses) := HandlePacket(c, s, ConnAck(0, true, TERMS));
      Looks(m, Resumed()) && events == [Connected(0, true)] && responses == []
  {
    var s1 := s.(link := s.link.(connecting := false));
    assert s1 == s.(link := s.link.(connecting := false),
        clock := s.clock.(deadlines := DropDeadline(s.clock.deadlines, ConnectOp, None)));
    var s0 := s1.(caps := s1.caps.(control := Max(EncodedLength(c, Connect("")), 6)));
    assert Ordinary(Connect(""));
    assert Negotiate(c, s1, TERMS) == Ok(s0);
    var s2 := ResetReconnect(s0.(link := s0.link.(connected := true, hasSession := true),
      hist := s0.hist.(serverMaximum := None)));
    ResumeReplays(c, s2);
    assert [Connected(0, true)] + [] == [Connected(0, true)];
  }

  lemma ConnAckParsed(c: Options, s: Engine)
    requires Small(c, false, 1) && Looks(s, Retrying())
    ensures
      var m := ParseLoop(c, Buffered(s, ConnAck(0, true, TERMS)));
      Looks(m, Resumed().(events := [Connected(0, true)])) && ProcessQueue(c, m, None) == m
  {
    var t, p := Buffered(s, ConnAck(0, true, TERMS)), ConnAck(0, true, TERMS);
    ConnAckHandled(c, t.(link := t.link.(parser := [])));
    ParsedAs(c, t, p, Resumed(), [Connected(0, true)]);
    NothingToSend(c, ParseLoop(c, t));
  }

  lemma ConnAckResumes(c: Options, p: Incoming)
    requires Small(c, false, 1) && p == ConnAck(0, true, TERMS)
    ensures Moves(c, Retrying(), DataInput([p]), Resumed())
  {
    forall s | Looks(s, Retrying()) ensures Looks(Apply(c, s, DataInput([p])), Resumed()) {
      ConnAckParsed(c, s);
      Receives(c, s, p);
    }
  }

  lemma SecondSent()
    ensures Published(Resumed(), 1) == Second() && Sending(Resumed())
  {
    assert {1} + {2} == {1, 2};
  }

  lemma CompletionReturnsQuota(c: Options, s: Engine)
    requires Small(c, false, 1) && Looks(s, Second())
    ensures
      var (m, events, responses) := HandlePacket(c, s, PubComp(1, 0));
      Looks(m, Released()) && events == [Event.Published(1, 0)] && responses == []
  {
    assert Drop(s.sess.inflight.items, 1) == [Entry(2, Sent(1, 2), 1, None, 0, 0)];
    assert Looks(Complete(s, 1), Released());
  }

  lemma CompletionReceived(c: Options, s: Engine)
    requires Small(c, false, 1) && Looks(s, Second())
    ensures
      var m := ParseLoop(c, Buffered(s, PubComp(1, 0)));
      Looks(m, Released().(events := [Event.Published(1, 0)])) && ProcessQueue(c, m, None) == m
  {
    var t, p := Buffered(s, PubComp(1, 0)), PubComp(1, 0);
    CompletionReturnsQuota(c, t.(link := t.link.(parser := [])));
    ParsedAs(c, t, p, Released(), [Event.Published(1, 0)]);
    NothingToSend(c, ParseLoop(c, t));
  }

  lemma CompletionReleases(c: Options, p: Incoming)
    requires Small(c, false, 1) && p == PubComp(1, 0)
    ensures Moves(c, Second(), DataInput([p]), Released())
  {
    forall s | Looks(s, Second()) ensures Looks(Apply(c, s, DataInput([p])), Released()) {
      CompletionReceived(c, s);
      Receives(c, s, p);
    }
  }

  lemma ThirdSent()
    ensures Sending(Released())
    ensures
      var s := Published(Released(), 1);
      s.link.connected && Publishes(s.sess.inflight.items) == 2 && s.sess.inflight.limit == 1
  {
    var items := [Entry(2, Sent(1, 2), 1, None, 0, 0)] + [Entry(3, Sent(1, 3), 1, None, 0, 0)];
    assert items[1..] == [Entry(3, Sent(1, 3), 1, None, 0, 0)] && items[1..][1..] == [];
    assert Publishes(items[1..]) == 1;
  }

  lemma OvershootBegins(c: Options, s0: Engine, ts: seq<Timed>)
    requires Small(c, false, 1) && ts == OVERSHOOT && s0 == Initial(c, 0)
    ensures Looks(Run(c, s0, ts[..3]), Started())
  {
    Opens(c, s0, ts, 1);
    ExchangeStarts();
    PublishMoves(c, Open(1), 2, Started(), Send(2, None, 0));
    OneMove(c, s0, ts, 2, Open(1), Started());
  }

  lemma OvershootReleases(c: Options, s0: Engine, ts: seq<Timed>)
    requires Small(c, false, 1) && ts == OVERSHOOT && Looks(Run(c, s0, ts[..3]), Started())
    ensures Looks(Run(c, s0, ts[..4]), Releasing())
  {
    ReceiptReleases(c, PubRec(1, 0));
    OneMove(c, s0, ts, 3, Started(), Releasing());
  }

  lemma OvershootResumes(c: Options, s0: Engine, ts: seq<Timed>)
    requires Small(c, false, 1) && ts == OVERSHOOT && Looks(Run(c, s0, ts[..4]), Releasing())
    ensures Looks(Run(c, s0, ts[..7]), Resumed())
  {
    LossInterrupts(c);
    OneMove(c, s0, ts, 4, Releasing(), Interrupted());
    ConnectRetries(c);
    OneMove(c, s0, ts, 5, Interrupted(), Retrying());
    ConnAckResumes(c, ConnAck(0, true, TERMS));
    OneMove(c, s0, ts, 6, Retrying(), Resumed());
  }

  lemma OvershootEnds(c: Options, s0: Engine, ts: seq<Timed>)
    requires Small(c, false, 1) && ts == OVERSHOOT && Looks(Run(c, s0, ts[..7]), Resumed())
    ensures Looks(Run(c, s0, ts[..10]), Published(Released(), 1))
  {
    SecondSent();
    PublishMoves(c, Resumed(), 1, Second(), Send(1, None, 0));
    OneMove(c, s0, ts, 7, Resumed(), Second());
    CompletionReleases(c, PubComp(1, 0));
    OneMove(c, s0, ts, 8, Second(), Released());
    ThirdSent();
    PublishMoves(c, Released(), 1, Published(Released(), 1), Send(1, None, 0));
    OneMove(c, s0, ts, 9, Released(), Published(Released(), 1));
  }

  /** With a limit of one, two publications end up unacknowledged: the release replayed on the resumed session took
      no quota, and its completion gave a unit back. `FlowControl.FlowOverRuns` says exactly when; the standard's own
      send quota is followed to the letter. */
  lemma ReleaseOvershoot(c: Options)
    requires Small(c, false, 1)
    ensures
      var s := Run(c, Initial(c, 0), OVERSHOOT);
      s.link.connected && Publishes(s.sess.inflight.items) > s.sess.inflight.limit
  {
    OvershootBegins(c, Initial(c, 0), OVERSHOOT);
    OvershootReleases(c, Initial(c, 0), OVERSHOOT);
    OvershootResumes(c, Initial(c, 0), OVERSHOOT);
    OvershootEnds(c, Initial(c, 0), OVERSHOOT);
    ThirdSent();
    assert OVERSHOOT[..10] == OVERSHOOT;
  }

  // ----- A configured zero makes the engine ignore the server's limit -----

  const FIVE := Terms(false, Some(5), None, None, None, None, None, None)

  const IGNORED: seq<Timed> := [Now(ConnectInput), Now(DataInput([ConnAck(0, false, FIVE)]))]

  lemma FiveHandled(c: Options, s: Engine)
    requires Small(c, false, 0) && Looks(s, Dialling(MAX_ID))
    ensures
      var (m, events, responses) := HandlePacket(c, s, ConnAck(0, false, FIVE));
      Looks(m, Open(MAX_ID)) && m.hist.serverMaximum == Some(5) && events == [Connected(0, false)] && responses == []
  {
    var s1 := s.(link := s.link.(connecting := false));
    assert s1 == s.(link := s.link.(connecting := false),
        clock := s.clock.(deadlines := DropDeadline(s.clock.deadlines, ConnectOp, None)));
    var s0 := s1.(caps := s1.caps.(control := Max(EncodedLength(c, Connect("")), 6)));
    assert Ordinary(Connect(""));
    assert Negotiate(c, s1, FIVE) == Ok(s0);
    var s2 := ResetReconnect(s0.(link := s0.link.(connected := true, hasSession := true),
      hist := s0.hist.(serverMaximum := Some(5))));
    assert Settle(c, s2, false) == s2;
    assert Looks(Restore(c, s2, false).0, Open(MAX_ID)) && Restore(c, s2, false).1 == [];
    assert [Connected(0, false)] + [] == [Connected(0, false)];
  }

  lemma FiveParsed(c: Options, t: Engine)
    requires Small(c, false, 0) && Looks(t,
        Dialling(MAX_ID).(link := Dialling(MAX_ID).link.(parser := [ConnAck(0, false, FIVE)])))
    ensures Looks(ParseLoop(c, t), Open(MAX_ID).(events := [Connected(0, false)]))
        && ParseLoop(c, t).hist.serverMaximum == Some(5)
  {
    var p := ConnAck(0, false, FIVE);
    FiveHandled(c, t.(link := t.link.(parser := [])));
    ParsedAs(c, t, p, Open(MAX_ID), [Connected(0, false)]);
    var (m, events, responses) := HandlePacket(c, t.(link := t.link.(parser := [])), p);
    assert [p][1..] == [] && [] + responses == [];
    var r := Record(m, events, responses);
    assert Flush(c, r) == r;
    LoopOnce(c, t, r);
  }

  /** The server allows five; the engine goes on with 65535. `ConnectionControl.ServerLimitIff` says exactly when. */
  lemma ServerLimitIgnored(c: Options)
    requires Small(c, false, 0)
    ensures
      var s := Run(c, Initial(c, 0), IGNORED);
      s.link.connected && s.hist.serverMaximum == Some(5) && s.sess.inflight.limit == MAX_ID
  {
    NoMove(c, Initial(c, 0), IGNORED);
    ConnectDials(c, MAX_ID);
    OneMove(c, Initial(c, 0), IGNORED, 0, Initial(c, 0), Dialling(MAX_ID));
    IgnoredEnds(c, Initial(c, 0), IGNORED);
    assert IGNORED[..2] == IGNORED;
  }

  lemma IgnoredEnds(c: Options, s0: Engine, ts: seq<Timed>)
    requires Small(c, false, 0) && ts == IGNORED && Looks(Run(c, s0, ts[..1]), Dialling(MAX_ID))
    ensures
      var s := Run(c, s0, ts[..2]);
      s.link.connected && s.hist.serverMaximum == Some(5) && s.sess.inflight.limit == MAX_ID
  {
    FiveReceived(c, Run(c, s0, ts[..1]), ConnAck(0, false, FIVE));
    NextInput(c, s0, ts, 1);
  }

  lemma FiveReceived(c: Options, s: Engine, p: Incoming)
    requires Small(c, false, 0) && Looks(s, Dialling(MAX_ID)) && p == ConnAck(0, false, FIVE)
    ensures
      var r := Apply(c, s, DataInput([p]));
      r.link.connected && r.hist.serverMaximum == Some(5) && r.sess.inflight.limit == MAX_ID
  {
    FiveParsed(c, Buffered(s, p));
    NothingToSend(c, ParseLoop(c, Buffered(s, p)));
    Receives(c, s, p);
  }

  // ----- An identifier on an unacknowledged publication -----

  /** An unacknowledged retained publication that carries identifier 1. */
  function Plain(): (cmd: Command) { Command(0, Some(1), false, true, "t", [], [], 1) }

  function Retained(): (p: Packet) { Packet.Publish(0, Some(1), false, true, "t", [], []) }

  const NO_RETAIN := Terms(false, Some(2), None, None, Some(false), None, None, None)

  /** Three acknowledged publications and the unacknowledged one wait for a connection that allows two exchanges and
      no retained messages; then identifier 1 is requested again, and the two exchanges complete. */
  const REUSE: seq<Timed> := [
    Now(PublishInput(Send(1, Some(2), 5))), Now(PublishInput(Send(1, Some(3), 4))),
      Now(PublishInput(Send(1, Some(1), 0))),
    Now(PublishInput(Plain())), Now(ConnectInput), Now(DataInput([ConnAck(0, false, NO_RETAIN)])),
    Now(PublishInput(Send(1, Some(1), 0))), Now(DataInput([PubAck(2, 0)])), Now(DataInput([PubAck(3, 0)]))]

  const R2 := Ranked(5, Sent(1, 2))

  const R3 := Ranked(4, Sent(1, 3))

  const R0 := Ranked(1, Retained())

  const R1 := Ranked(0, Sent(1, 1))

  function Waiting(queue: seq<Ranked<Packet>>, reserved: set<nat>): (s: Engine) {
    State(false, false, false, false, [], Session(queue, 0, reserved, Inflight([], [], 10, 0, None), [], []), None)
  }

  predicate Offline(s: Engine) {
    Looks(s, State(false, false, false, false, [], s.sess, s.cursor)) && |s.sess.queue| < 10
  }

  /** Publishing while there is no connection. */
  lemma PublishWaits(c: Options, s: Engine, cmd: Command, p: Packet)
    requires Small(c, false, 10) && Offline(s) && cmd.topic == "t" && cmd.props == [] && cmd.qos <= 1
    requires cmd.id.Some? && cmd.id.value > 0 && (cmd.qos > 0 ==> !Busy(s.sess, cmd.id.value))
    requires p == Packet.Publish(cmd.qos, Some(cmd.id.value), cmd.dup, cmd.retain, "t", [], cmd.payload) && Ordinary(p)
    ensures
      var reserved := if cmd.qos > 0 then s.sess.reserved + {cmd.id.value} else s.sess.reserved;
      Looks(Apply(c, s, PublishInput(cmd)), s.(sess :=
        s.sess.(queue := InsertDraining(s.sess.queue, Ranked(cmd.priority, p)), reserved := reserved)))
  {
    var id: Option<nat> := if cmd.qos > 0 then Some(cmd.id.value) else None;
    assert Decide(c, s, cmd) == (s, Accepted(p, id, None, c.encode(p).value));
  }

  lemma WaitMoves(c: Options, a: Engine, cmd: Command, p: Packet, r: Engine)
    requires Small(c, false, 10) && Offline(a) && cmd.topic == "t" && cmd.props == [] && cmd.qos <= 1
    requires cmd.id.Some? && cmd.id.value > 0 && (cmd.qos > 0 ==> !Busy(a.sess, cmd.id.value))
    requires p == Packet.Publish(cmd.qos, Some(cmd.id.value), cmd.dup, cmd.retain, "t", [], cmd.payload) && Ordinary(p)
    requires
      var reserved := if cmd.qos > 0 then a.sess.reserved + {cmd.id.value} else a.sess.reserved;
      var queue := InsertDraining(a.sess.queue, Ranked(cmd.priority, p));
      Looks(a.(sess := a.sess.(queue := queue, reserved := reserved)), r)
    ensures Moves(c, a, PublishInput(cmd), r)
  {
    forall s | Looks(s, a) ensures Looks(Apply(c, s, PublishInput(cmd)), r) { PublishWaits(c, s, cmd, p); }
  }

  lemma FirstWaits(c: Options)
    requires Small(c, false, 10)
    ensures Moves(c, Initial(c, 0), PublishInput(Send(1, Some(2), 5)), Waiting([R2], {2}))
  {
    assert {} + {2} == {2};
    WaitMoves(c, Initial(c, 0), Send(1, Some(2), 5), Sent(1, 2), Waiting([R2], {2}));
  }

  lemma SecondWaits(c: Options)
    requires Small(c, false, 10)
    ensures Moves(c, Waiting([R2], {2}), PublishInput(Send(1, Some(3), 4)), Waiting([R2, R3], {2, 3}))
  {
    assert InsertDraining([R2], R3) == [R2, R3] && {2} + {3} == {2, 3};
    WaitMoves(c, Waiting([R2], {2}), Send(1, Some(3), 4), Sent(1, 3), Waiting([R2, R3], {2, 3}));
  }

  lemma ThirdWaits(c: Options)
    requires Small(c, false, 10)
    ensures Moves(c, Waiting([R2, R3], {2, 3}), PublishInput(Send(1, Some(1), 0)), Waiting([R2, R3, R1], {1, 2, 3}))
  {
    assert [R2, R3][1..] == [R3] && InsertDraining([R3], R1) == [R3, R1];
    assert InsertDraining([R2, R3], R1) == [R2, R3, R1] && {2, 3} + {1} == {1, 2, 3};
    WaitMoves(c, Waiting([R2, R3], {2, 3}), Send(1, Some(1), 0), Sent(1, 1), Waiting([R2, R3, R1], {1, 2, 3}));
  }

  lemma PlainPlace()
    ensures InsertDraining([R2, R3, R1], R0) == [R2, R3, R0, R1]
  {
    var q := [R2, R3, R1];
    assert q[1..] == [R3, R1] && q[1..][1..] == [R1];
    assert InsertDraining([R1], R0) == [R0, R1] && InsertDraining([R3, R1], R0) == [R3, R0, R1];
  }

  lemma FourthWaits(c: Options)
    requires Small(c, false, 10)
    ensures Moves(c, Waiting([R2, R3, R1], {1, 2, 3}), PublishInput(Plain()), Waiting([R2, R3, R0, R1], {1, 2, 3}))
  {
    PlainPlace();
    WaitMoves(c, Waiting([R2, R3, R1], {1, 2, 3}), Plain(), Retained(), Waiting([R2, R3, R0, R1], {1, 2, 3}));
  }

  function Calling(): (s: Engine) {
    State(false, true, false, false, Out(1), Session([R2, R3, R0, R1], 0, {1, 2, 3}, Inflight([], [], 10, 0, None), [],
      []), Some(0))
  }

  lemma ReuseConnects(c: Options)
    requires Small(c, false, 10)
    ensures Moves(c, Waiting([R2, R3, R0, R1], {1, 2, 3}), ConnectInput, Calling())
  {
    forall s | Looks(s, Waiting([R2, R3, R0, R1], {1, 2, 3})) ensures Looks(Apply(c, s, ConnectInput), Calling()) {
      var s1 := CreateSession(c, s);
      assert ConnectError(c, s1).None?;
      assert Snapshot([]) + [] == [] && Outstanding(s1.sess) == [];
      assert Looks(Connecting(c, s1), Calling());
    }
  }

  /** On the connection: no retained messages, two exchanges at a time. */
  function Online(out: nat, queue: seq<Ranked<Packet>>, reserved: set<nat>, items: seq<Entry>,
      last: Option<Time>): (s: Engine)
  {
    State(true, false, false, true, Out(out), Session(queue, 0, reserved, Inflight(items, [], 2, |items|, last), [],
      []), Some(0))
    .(caps := CAPS.(retain := false))
  }

  function Tracked(id: nat): (e: Entry) { Entry(id, Sent(1, id), 1, None, 0, 0) }

  lemma NoRetainHandled(c: Options, s: Engine)
    requires Small(c, false, 10) && Looks(s, Calling())
    ensures
      var (m, events, responses) := HandlePacket(c, s, ConnAck(0, false, NO_RETAIN));
      Looks(m, Online(1, [R2, R3, R0, R1], {1, 2, 3}, [], None)) && events == [Connected(0, false)] && responses == []
  {
    var s1 := s.(link := s.link.(connecting := false));
    assert s1 == s.(link := s.link.(connecting := false),
        clock := s.clock.(deadlines := DropDeadline(s.clock.deadlines, ConnectOp, None)));
    var s2 := s1.(sess := s1.sess.(inflight := Inflight([], [], 2, 0, None)),
      caps := s1.caps.(retain := false, control := Max(EncodedLength(c, Connect("")), 6)));
    assert Ordinary(Connect(""));
    assert Negotiate(c, s1, NO_RETAIN) == Ok(s2);
    var s3 := ResetReconnect(s2.(link := s2.link.(connected := true, hasSession := true),
      hist := s2.hist.(serverMaximum := Some(2))));
    assert Settle(c, s3, false) == s3;
    assert Looks(Restore(c, s3, false).0, Online(1, [R2, R3, R0, R1], {1, 2, 3}, [], None))
        && Restore(c, s3, false).1 == [];
    assert [Connected(0, false)] + [] == [Connected(0, false)];
  }

  /** The connection cannot carry the unacknowledged publication: identifier 1 is released. */
  lemma PlainRejected(c: Options, s: Engine)
    requires Ready(c, s) && !s.caps.retain && s.sess.queue == [R0, R1] && !Has(s.sess.inflight, 1)
        && s.sess.reserved == {1, 2, 3}
    ensures EmitReady(c, s)
    ensures Looks(EmitOne(c, s, None), s.(sess := s.sess.(queue := [R1], reserved := {2, 3}),
                                          events := s.events + [OperationFailed(PublishOp, Some(1),
                                            InvalidConfiguration)]))
  {
    assert {1, 2, 3} - {1} == {2, 3};
    assert [R0, R1][1..] == [R1];
  }

  lemma TwoSent(c: Options, s: Engine)
    requires Small(c, false, 10) && Looks(s, Online(1, [R2, R3, R0, R1], {1, 2, 3}, [], None).(events := s.events))
    ensures
      var t := Online(3, [R0, R1], {1, 2, 3}, [Tracked(2), Tracked(3)], Some(0)).(events := s.events);
      Looks(EmitOne(c, EmitOne(c, s, None), None), t) && EmitReady(c, s) && EmitReady(c, EmitOne(c, s, None))
  {
    HeadSends(c, s);
    assert [R2, R3, R0, R1][1..] == [R3, R0, R1] && [] + [Tracked(2)] == [Tracked(2)];
    var s1 := EmitOne(c, s, None);
    HeadSends(c, s1);
    assert [R3, R0, R1][1..] == [R0, R1]
        && [Tracked(2)] + [Tracked(3)] == [Tracked(2), Tracked(3)];
  }

  function Unreserved(): (s: Engine) { Online(3, [R1], {2, 3}, [Tracked(2), Tracked(3)], Some(0)) }

  lemma EmittedTwo(c: Options, s: Engine)
    requires Small(c, false, 10) && Looks(s, Online(1, [R2, R3, R0, R1], {1, 2, 3}, [], None).(events := s.events))
    ensures Looks(EmitLoop(c, s, None), Unreserved().(events := s.events
        + [OperationFailed(PublishOp, Some(1), InvalidConfiguration)]))
  {
    TwoSent(c, s);
    ThenRejected(c, EmitOne(c, EmitOne(c, s, None), None));
  }

  lemma ThenRejected(c: Options, s: Engine)
    requires Small(c, false, 10)
    requires Looks(s, Online(3, [R0, R1], {1, 2, 3}, [Tracked(2), Tracked(3)], Some(0)).(events := s.events))
    ensures Looks(EmitLoop(c, s, None), Unreserved().(events := s.events
        + [OperationFailed(PublishOp, Some(1), InvalidConfiguration)]))
  {
    PlainRejected(c, s);
    var r := EmitOne(c, s, None);
    assert !EmitReady(c, r);
    assert EmitLoop(c, r, None) == r && EmitLoop(c, s, None) == r;
  }

  lemma NoRetainParsed(c: Options, s: Engine)
    requires Small(c, false, 10) && Looks(s, Calling())
    ensures
      var m := ParseLoop(c, Buffered(s, ConnAck(0, false, NO_RETAIN)));
      Looks(m, Online(1, [R2, R3, R0, R1], {1, 2, 3}, [], None).(events := [Connected(0, false)]))
  {
    var t, p := Buffered(s, ConnAck(0, false, NO_RETAIN)), ConnAck(0, false, NO_RETAIN);
    NoRetainHandled(c, t.(link := t.link.(parser := [])));
    ParsedAs(c, t, p, Online(1, [R2, R3, R0, R1], {1, 2, 3}, [], None), [Connected(0, false)]);
  }

  /** With nothing to respond and nothing to replay, only the queue is worked off. */
  lemma OnlyQueue(c: Options, m: Engine)
    requires m.link.connected && m.link.responses == [] && m.sess.replay == []
    ensures ProcessQueue(c, m, None) == EmitLoop(c, m, None)
  {
    assert Flush(c, m) == m && ProcessReplay(c, m) == m;
  }

  const REJECTED := OperationFailed(PublishOp, Some(1), InvalidConfiguration)

  lemma NoRetainReceived(c: Options, s: Engine)
    requires Small(c, false, 10) && Looks(s, Calling())
    ensures
      var m := ParseLoop(c, Buffered(s, ConnAck(0, false, NO_RETAIN)));
      Looks(ProcessQueue(c, m, None), Unreserved().(events := [Connected(0, false)] + [REJECTED]))
  {
    var m := ParseLoop(c, Buffered(s, ConnAck(0, false, NO_RETAIN)));
    NoRetainParsed(c, s);
    OnlyQueue(c, m);
    EmittedTwo(c, m);
  }

  lemma NoRetainOpens(c: Options, p: Incoming)
    requires Small(c, false, 10) && p == ConnAck(0, false, NO_RETAIN)
    ensures Moves(c, Calling(), DataInput([p]), Unreserved())
  {
    forall s | Looks(s, Calling()) ensures Looks(Apply(c, s, DataInput([p])), Unreserved()) {
      NoRetainReceived(c, s);
      Receives(c, s, p);
    }
  }

  lemma TwoWait(c: Options, s0: Engine, ts: seq<Timed>)
    requires Small(c, false, 10) && ts == REUSE && s0 == Initial(c, 0)
    ensures Looks(Run(c, s0, ts[..2]), Waiting([R2, R3], {2, 3}))
  {
    NoMove(c, s0, ts);
    FirstWaits(c);
    OneMove(c, s0, ts, 0, s0, Waiting([R2], {2}));
    SecondWaits(c);
    OneMove(c, s0, ts, 1, Waiting([R2], {2}), Waiting([R2, R3], {2, 3}));
  }

  lemma FourWait(c: Options, s0: Engine, ts: seq<Timed>)
    requires Small(c, false, 10) && ts == REUSE && Looks(Run(c, s0, ts[..2]), Waiting([R2, R3], {2, 3}))
    ensures Looks(Run(c, s0, ts[..4]), Waiting([R2, R3, R0, R1], {1, 2, 3}))
  {
    ThirdWaits(c);
    OneMove(c, s0, ts, 2, Waiting([R2, R3], {2, 3}), Waiting([R2, R3, R1], {1, 2, 3}));
    FourthWaits(c);
    OneMove(c, s0, ts, 3, Waiting([R2, R3, R1], {1, 2, 3}), Waiting([R2, R3, R0, R1], {1, 2, 3}));
  }

  lemma ReuseBegins(c: Options, s0: Engine, ts: seq<Timed>)
    requires Small(c, false, 10) && ts == REUSE && s0 == Initial(c, 0)
    ensures Looks(Run(c, s0, ts[..6]), Unreserved())
  {
    TwoWait(c, s0, ts);
    FourWait(c, s0, ts);
    ReuseConnects(c);
    OneMove(c, s0, ts, 4, Waiting([R2, R3, R0, R1], {1, 2, 3}), Calling());
    NoRetainOpens(c, ConnAck(0, false, NO_RETAIN));
    OneMove(c, s0, ts, 5, Calling(), Unreserved());
  }

  /** After the first six inputs identifier 1 is queued but no longer reserved. `Reachable.ConservationIff` says
      exactly when this happens. */
  lemma PlainRejectionLoses(c: Options)
    requires Small(c, false, 10)
    ensures
      var s := Run(c, Initial(c, 0), REUSE[..6]);
      1 in QueueIds(s.sess.queue) && 1 !in s.sess.reserved && !Conserved(s)
  {
    ReuseBegins(c, Initial(c, 0), REUSE);
    UnreservedBreaks(c, Run(c, Initial(c, 0), REUSE[..6]));
  }

  lemma UnreservedBreaks(c: Options, s: Engine)
    requires Looks(s, Unreserved())
    ensures 1 in QueueIds(s.sess.queue) && 1 !in s.sess.reserved && !Conserved(s)
  {
    assert [R1][1..] == [] && QueueIds([R1]) == [1];
  }

  function Doubled(): (s: Engine) { Online(3, [R1, R1], {1, 2, 3}, [Tracked(2), Tracked(3)], Some(0)) }

  lemma ReuseTaken(c: Options)
    requires Small(c, false, 10)
    ensures Moves(c, Unreserved(), PublishInput(Send(1, Some(1), 0)), Doubled())
  {
    forall s | Looks(s, Unreserved()) ensures Looks(Apply(c, s, PublishInput(Send(1, Some(1), 0))), Doubled()) {
      assert Ordinary(Sent(1, 1));
      var bytes := c.encode(Sent(1, 1)).value;
      assert Decide(c, s, Send(1, Some(1), 0)) == (s, Accepted(Sent(1, 1), Some(1), None, bytes));
      var m := Admit(s, Sent(1, 1), 0, Some(1), None, bytes);
      assert InsertDraining([R1], R1) == [R1, R1] && {2, 3} + {1} == {1, 2, 3};
      assert Looks(m, Doubled());
      assert ProcessQueue(c, m, None) == m;
    }
  }

  lemma AckHandled(c: Options, s: Engine, id: nat, queue: seq<Ranked<Packet>>, reserved: set<nat>, other: nat, out: nat)
    requires Small(c, false, 10) && id != other && |queue| < 10 && other in reserved
    requires Looks(s, Online(out, queue, reserved, [Tracked(id), Tracked(other)], Some(0)))
    ensures
      var (m, events, responses) := HandlePacket(c, s, PubAck(id, 0));
      Looks(m, Online(out, queue, reserved - {id}, [Tracked(other)], Some(0))) && events == [Event.Published(id, 0)]
        && responses == []
  {
    var items := [Tracked(id), Tracked(other)];
    assert items[1..] == [Tracked(other)] && [Tracked(other)][1..] == [];
    assert Drop([Tracked(other)], id) == [Tracked(other)];
    assert Drop(items, id) == [Tracked(other)];
    assert other in reserved - {id};
  }

  lemma AckParsed(c: Options, s: Engine, id: nat, queue: seq<Ranked<Packet>>, reserved: set<nat>, other: nat, out: nat)
    requires Small(c, false, 10) && id != other && |queue| < 10 && other in reserved
    requires Looks(s, Online(out, queue, reserved, [Tracked(id), Tracked(other)], Some(0)))
    ensures
      var m := ParseLoop(c, Buffered(s, PubAck(id, 0)));
      Looks(m, Online(out, queue, reserved - {id}, [Tracked(other)], Some(0)).(events := [Event.Published(id, 0)]))
  {
    var t, p := Buffered(s, PubAck(id, 0)), PubAck(id, 0);
    AckHandled(c, t.(link := t.link.(parser := [])), id, queue, reserved, other, out);
    ParsedAs(c, t, p, Online(out, queue, reserved - {id}, [Tracked(other)], Some(0)), [Event.Published(id, 0)]);
  }

  lemma FirstReused(c: Options, m: Engine)
    requires Small(c, false, 10) && Looks(m, Online(3, [R1, R1], {1, 3}, [Tracked(3)], Some(0)).(events := m.events))
    ensures Looks(ProcessQueue(c, m, None), Online(4, [R1], {1, 3}, [Tracked(3), Tracked(1)],
        Some(0)).(events := m.events))
  {
    OnlyQueue(c, m);
    HeadSends(c, m);
    var r := EmitOne(c, m, None);
    assert [R1, R1][1..] == [R1] && [Tracked(3)] + [Tracked(1)] == [Tracked(3), Tracked(1)];
    assert !EmitReady(c, r) && EmitLoop(c, m, None) == r;
  }

  function Halfway(): (s: Engine) { Online(4, [R1], {1, 3}, [Tracked(3), Tracked(1)], Some(0)) }

  lemma FirstReceived(c: Options, s: Engine)
    requires Small(c, false, 10) && Looks(s, Doubled())
    ensures
      var m := ParseLoop(c, Buffered(s, PubAck(2, 0)));
      Looks(ProcessQueue(c, m, None), Halfway().(events := [Event.Published(2, 0)]))
  {
    AckParsed(c, s, 2, [R1, R1], {1, 2, 3}, 3, 3);
    assert {1, 2, 3} - {2} == {1, 3};
    FirstReused(c, ParseLoop(c, Buffered(s, PubAck(2, 0))));
  }

  lemma FirstAcked(c: Options, p: Incoming)
    requires Small(c, false, 10) && p == PubAck(2, 0)
    ensures Moves(c, Doubled(), DataInput([p]), Halfway())
  {
    forall s | Looks(s, Doubled()) ensures Looks(Apply(c, s, DataInput([p])), Halfway()) {
      FirstReceived(c, s);
      Receives(c, s, p);
    }
  }

  /** The second publication with identifier 1 goes out while the first is in flight. */
  lemma SendFails(c: Options, m: Engine)
    requires Ready(c, m) && m.sess.queue == [R1] && Has(m.sess.inflight, 1) && CanPublish(m.sess.inflight)
        && 1 <= m.caps.maxQos
    ensures 1 in EmitLoop(c, m, None).hist.failures
  {
    var r := EmitOne(c, m, None);
    assert r.hist.failures == m.hist.failures + [1];
    assert r.sess.queue == [] && EmitLoop(c, m, None) == r;
  }

  lemma SecondReused(c: Options, s: Engine, p: Incoming)
    requires Small(c, false, 10) && Looks(s, Online(4, [R1], {1, 3}, [Tracked(3), Tracked(1)], Some(0)))
        && p == PubAck(3, 0)
    ensures 1 in Apply(c, s, DataInput([p])).hist.failures
  {
    AckParsed(c, s, 3, [R1], {1, 3}, 1, 4);
    var m := ParseLoop(c, Buffered(s, p));
    OnlyQueue(c, m);
    SendFails(c, m);
    Receives(c, s, p);
  }

  /** From every engine that looks like `a`, the input makes tracking fail for the identifier. */
  ghost predicate Breaks(c: Options, a: Engine, i: Input, id: nat) {
    forall s {:trigger Apply(c, s, i)} :: Looks(s, a) ==> id in Apply(c, s, i).hist.failures
  }

  lemma LastMove(c: Options, s0: Engine, ts: seq<Timed>, n: nat, a: Engine, id: nat)
    requires n < |ts| && ts[n].now == 0 && Horizon(c, 0) && a.clock == CLOCK
    requires Looks(Run(c, s0, ts[..n]), a) && Breaks(c, a, ts[n].input, id)
    ensures id in Run(c, s0, ts[..n + 1]).hist.failures
  {
    NextInput(c, s0, ts, n);
  }

  lemma SecondAcked(c: Options, p: Incoming)
    requires Small(c, false, 10) && p == PubAck(3, 0)
    ensures Breaks(c, Halfway(), DataInput([p]), 1)
  {
    forall s | Looks(s, Halfway()) ensures 1 in Apply(c, s, DataInput([p])).hist.failures { SecondReused(c, s, p); }
  }

  lemma ReuseDoubles(c: Options, s0: Engine, ts: seq<Timed>)
    requires Small(c, false, 10) && ts == REUSE && Looks(Run(c, s0, ts[..6]), Unreserved())
    ensures Looks(Run(c, s0, ts[..8]), Halfway())
  {
    ReuseTaken(c);
    OneMove(c, s0, ts, 6, Unreserved(), Doubled());
    FirstAcked(c, PubAck(2, 0));
    OneMove(c, s0, ts, 7, Doubled(), Halfway());
  }

  /** The whole run: tracking the second publication under identifier 1 fails, which the implementation takes to be
      impossible. `Reachable.TrackingOverRuns` says exactly when. */
  lemma TrackingFails(c: Options)
    requires Small(c, false, 10)
    ensures 1 in Run(c, Initial(c, 0), REUSE).hist.failures
  {
    var s0 := Initial(c, 0);
    ReuseBegins(c, s0, REUSE);
    ReuseDoubles(c, s0, REUSE);
    SecondAcked(c, PubAck(3, 0));
    LastMove(c, s0, REUSE, 8, Halfway(), 1);
    assert REUSE[..9] == REUSE;
  }
}
