/** Whole operations that loop until nothing more can be done, and runs of the engine. */
module EngineRuns {
  import opened Basics
  import opened Timestamps
  import opened Packets
  import opened PriorityQueues
  import opened InflightQueues
  import opened EngineModel

  // ----- Everything that can still become output -----

  /** An upper bound on the packets that can reach the output without further input. */
  function Potential(s: Engine): (n: nat) {
    3 * |s.link.parser| + |s.link.responses| + |s.sess.queue| + |s.sess.replay| + |s.sess.previous| + |s.link.out|
  }

  lemma {:induction false} FailAllPotential(s: Engine, hs: seq<Held>, e: Error)
    ensures Potential(FailAll(s, hs, e)) == Potential(s)
    decreases hs
  {
    if hs == [] {
    } else {
      FailAllPotential(FailOperation(s, hs[0].id, hs[0].packet, e), hs[1..], e);
    }
  }

  lemma EndSessionPotential(s: Engine)
    ensures Potential(EndSession(s)) <= Potential(s)
  {
    var s0 := s.(link := s.link.(hasSession := false));
    var s1 := FailAll(s0, Snapshot(s.sess.inflight.items), SessionExpired);
    FailAllPotential(s0, Snapshot(s.sess.inflight.items), SessionExpired);
    FailAllPotential(s1.(sess := s1.sess.(replay := [])), s1.sess.replay, SessionExpired);
  }

  lemma ResetPotential(c: Options, s: Engine)
    ensures Potential(Reset(c, s)) <= Potential(s)
  {
    EndSessionPotential(Detached(c, s));
  }

  lemma ConnectionLostPotential(c: Options, s: Engine, now: Time)
    ensures Potential(ConnectionLost(c, s, now)) <= Potential(s)
  {
    ResetPotential(c, s);
  }

  lemma FailConnectionPotential(c: Options, s: Engine, e: Error)
    ensures Potential(FailConnection(c, s, e)) <= Potential(s)
  {
    ConnectionLostPotential(c, s, s.clock.now);
  }

  lemma {:induction false} FlushOutPotential(c: Options, s: Engine)
    ensures Potential(FlushOut(c, s)) == Potential(s)
    decreases |s.link.responses|
  {
    if FlushReady(c, s) { FlushOutPotential(c, FlushOne(c, s)); }
  }

  lemma FlushPotential(c: Options, s: Engine)
    ensures Potential(Flush(c, s)) <= Potential(s)
  {
    FlushOutPotential(c, s);
    var s1 := FlushOut(c, s);
    if FlushError(c, s1).Some? { FailConnectionPotential(c, s1, FlushError(c, s1).value); }
  }

  lemma {:induction false} ProcessReplayPotential(c: Options, s: Engine)
    ensures Potential(ProcessReplay(c, s)) <= Potential(s)
    decreases |s.sess.replay|
  {
    if ReplayReady(c, s) {
      ReplayOnePotential(c, s);
      ProcessReplayPotential(c, ReplayOne(c, s));
    }
  }

  lemma ReplayOnePotential(c: Options, s: Engine)
    requires ReplayReady(c, s)
    ensures Potential(ReplayOne(c, s)) <= Potential(s)
  {
  }

  lemma EmitOnePotential(c: Options, s: Engine, encoding: Option<Bytes>)
    requires EmitReady(c, s)
    ensures Potential(EmitOne(c, s, encoding)) <= Potential(s)
  {
  }

  lemma {:induction false} EmitLoopPotential(c: Options, s: Engine, encoding: Option<Bytes>)
    ensures Potential(EmitLoop(c, s, encoding)) <= Potential(s)
    decreases |s.sess.queue|
  {
    if EmitReady(c, s) {
      EmitOnePotential(c, s, encoding);
      EmitLoopPotential(c, EmitOne(c, s, encoding), None);
    }
  }

  lemma ProcessQueuePotential(c: Options, s: Engine, encoding: Option<Bytes>)
    ensures Potential(ProcessQueue(c, s, encoding)) <= Potential(s)
  {
    FlushPotential(c, s);
    var s1 := Flush(c, s);
    ProcessReplayPotential(c, s1);
    EmitLoopPotential(c, ProcessReplay(c, s1), encoding);
  }

  lemma {:induction false} RestoreAllPotential(s: Engine, hs: seq<Held>, resume: bool)
    ensures Potential(RestoreAll(s, hs, resume)) <= Potential(s) + |hs|
    decreases hs
  {
    if hs == [] {
    } else {
      RestoreOnePotential(s, hs[0], resume);
      RestoreAllPotential(RestoreOne(s, hs[0], resume), hs[1..], resume);
    }
  }

  lemma RestoreOnePotential(s: Engine, h: Held, resume: bool)
    ensures Potential(RestoreOne(s, h, resume)) <= Potential(s) + 1
  {
  }

  lemma {:induction false} ReleasesFirstLength(xs: seq<Held>)
    ensures |ReleasesFirst(xs)| == |xs|
  {
    if xs == [] {
    } else {
      ReleasesFirstLength(xs[1..]);
    }
  }

  lemma SettlePotential(c: Options, s: Engine, present: bool)
    ensures Potential(Settle(c, s, present)) <= Potential(s)
  {
    var resume := Resumes(c, present);
    var captured := if resume then ReleasesFirst(s.sess.previous) else s.sess.previous;
    ReleasesFirstLength(s.sess.previous);
    RestoreAllPotential(s.(sess := s.sess.(previous := [])), captured, resume);
  }

  lemma DoRequestPotential(c: Options, s: Engine, kind: Kind, requested: Option<u16>, filters: seq<string>,
      refused: bool)
    ensures Potential(DoRequest(c, s, kind, requested, filters, refused).0) <= Potential(s) + 1
  {
  }

  lemma RestorePotential(c: Options, s: Engine, present: bool)
    ensures Potential(Restore(c, s, present).0) <= Potential(s) + 1
  {
    SettlePotential(c, s, present);
    var s1 := Settle(c, s, present);
    var s2 := s1.(hist := s1.hist.(credit := Credit(s1.sess.inflight.limit, {}, 0)));
    DoRequestPotential(c, s2, SubscribeOp, None, c.topics, false);
    ProcessReplayPotential(c, s2);
    ProcessReplayPotential(c, DoRequest(c, s2, SubscribeOp, None, c.topics, false).0);
  }

  lemma FinishConnAckPotential(c: Options, s: Engine, reason: nat, present: bool, server: Option<u16>)
    ensures Potential(FinishConnAck(c, s, reason, present, server).0) <= Potential(s) + 1
  {
    var s1 := s.(link := s.link.(connected := reason == 0));
    var s2 := ResetReconnect(s1.(link := s1.link.(hasSession := true), hist := s1.hist.(serverMaximum := server)));
    RestorePotential(c, s2, present);
    ConnectionLostPotential(c, s1, s1.clock.now);
  }

  lemma HandleConnAckPotential(c: Options, s: Engine, reason: nat, present: bool, terms: Terms)
    ensures Potential(HandleConnAck(c, s, reason, present, terms).0) <= Potential(s) + 1
  {
    if (present && !s.link.hasSession) || (c.v5 && WrongMethod(c, reason, terms.authMethod)) {
      FailConnectionPotential(c, s, ProtocolViolation);
    } else {
      var s1 := s.(link := s.link.(connecting := false),
        clock := s.clock.(deadlines := DropDeadline(s.clock.deadlines, ConnectOp, None)));
      if !c.v5 {
        FinishConnAckPotential(c, s1, reason, present, None);
      } else {
        match Negotiate(c, s1, terms)
        case Err(e) => FailConnectionPotential(c, s1, e);
        case Ok(s2) => FinishConnAckPotential(c, s2, reason, present, terms.receiveMaximum);
      }
    }
  }

  lemma HandleAuthPotential(c: Options, s: Engine, reason: nat, methods: seq<string>)
    ensures Potential(HandleAuth(c, s, reason, methods).0) <= Potential(s)
  {
    FailConnectionPotential(c, s, ProtocolViolation);
  }

  lemma HandleAcceptedPotential(c: Options, s: Engine, p: Incoming)
    ensures Potential(HandleAccepted(c, s, p).0) + |HandleAccepted(c, s, p).2| <= Potential(s) + 1
  {
    match p
    case ConnAck(reason, present, terms) => HandleConnAckPotential(c, s, reason, present, terms);
    case AuthIn(reason, methods) => HandleAuthPotential(c, s, reason, methods);
    case DisconnectIn(_) => ConnectionLostPotential(c, s, s.clock.now);
    case Message(failure, _) => if failure.Some? { FailConnectionPotential(c, s, failure.value); }
    case Oversized => FailConnectionPotential(c, s, BufferFull);
    case Malformed => FailConnectionPotential(c, s, ProtocolViolation);
    case _ =>
  }

  lemma HandlePacketPotential(c: Options, s: Engine, p: Incoming)
    ensures Potential(HandlePacket(c, s, p).0) + |HandlePacket(c, s, p).2| <= Potential(s) + 1
  {
    if s.link.closed {
    } else if p.Oversized? || p.Malformed? {
      HandleAcceptedPotential(c, s, p);
    } else if !Accepts(c, s, p) {
      FailConnectionPotential(c, s, ProtocolViolation);
    } else {
      match ValidateAck(s.sess.inflight, p)
      case Some(e) => FailConnectionPotential(c, s, e);
      case None => HandleAcceptedPotential(c, s, p);
    }
  }

  /** Handling a packet uses up more than it can put out. */
  lemma ParseOnePotential(c: Options, s: Engine)
    requires s.link.parser != []
    ensures Potential(ParseOne(c, s)) < Potential(s)
  {
    var p, s0 := s.link.parser[0], s.(link := s.link.(parser := s.link.parser[1..]));
    HandlePacketPotential(c, s0, p);
    var (s1, events, responses) := HandlePacket(c, s0, p);
    FlushPotential(c, Record(s1, events, responses));
  }

  // ----- The loops -----

  /** Handle buffered packets until parsing pauses. */
  function ParseLoop(c: Options, s: Engine): (r: Engine)
    ensures Potential(r) <= Potential(s)
    decreases Potential(s)
  {
    if ParserPaused(c, s) then s
    else
      ParseOnePotential(c, s);
      ParseLoop(c, ParseOne(c, s))
  }

  /** `handle_incoming`, before the events are handed over. */
  function Ingest(c: Options, s: Engine, data: seq<Incoming>): (r: Engine) {
    if s.link.closed then s
    else ProcessQueue(c, ParseLoop(c, Flush(c, s.(link := s.link.(parser := s.link.parser + data)))), None)
  }

  lemma IngestPotential(c: Options, s: Engine)
    ensures Potential(Ingest(c, s, [])) <= Potential(s)
  {
    var s0 := s.(link := s.link.(parser := s.link.parser + []));
    FlushPotential(c, s0);
    ProcessQueuePotential(c, ParseLoop(c, Flush(c, s0)), None);
  }

  /** One round of draining: take what is there, then let everything that waited move up. */
  function Refill(c: Options, s: Engine): (r: Engine) {
    ProcessQueue(c, Ingest(c, Flush(c, s.(link := s.link.(out := []))), []), None)
  }

  lemma RefillPotential(c: Options, s: Engine)
    ensures Potential(Refill(c, s)) + |s.link.out| <= Potential(s)
  {
    var s0 := s.(link := s.link.(out := []));
    FlushPotential(c, s0);
    IngestPotential(c, Flush(c, s0));
    ProcessQueuePotential(c, Ingest(c, Flush(c, s0), []), None);
  }

  /** `take_outgoing`: the engine afterwards, and everything taken. */
  function TakeOutput(c: Options, s: Engine): (r: (Engine, seq<Bytes>))
    ensures r.0.link.out == []
    decreases Potential(s) - |s.link.out|
  {
    var s1 := Refill(c, s);
    if s1.link.out == [] then (s1, s.link.out)
    else
      RefillPotential(c, s);
      var (s2, rest) := TakeOutput(c, s1);
      (s2, s.link.out + rest)
  }

  // ----- Inputs and runs -----

  datatype Input =
    | ConnectInput
    | PublishInput(cmd: Command)
    | RequestInput(kind: Kind, requested: Option<u16>, filters: seq<string>, refused: bool)
    | DisconnectInput(reason: nat)
    | AuthInput(reason: nat, methods: seq<string>)
    | PingInput
    | PacketInput(packet: Packet)
    | DataInput(data: seq<Incoming>)
    | TakeInput
    | TickInput
    | LostInput
    | ResetInput
    | ScheduleInput
    | ReconnectInput(enabled: bool)
    | EventsInput

  /** Operations that touch neither the queue nor the session. */
  predicate IsLocal(i: Input) {
    i.DisconnectInput? || i.AuthInput? || i.PingInput? || i.PacketInput? || i.ScheduleInput? || i.ReconnectInput?
    || i.EventsInput?
  }

  function ApplyLocal(c: Options, s: Engine, i: Input): (r: Engine)
    requires IsLocal(i)
  {
    match i
    case DisconnectInput(reason) => DoDisconnect(c, s, reason).0
    case AuthInput(reason, methods) => DoAuth(c, s, reason, methods).0
    case PingInput => DoPing(c, s).0
    case PacketInput(packet) => DoEnqueue(c, s, packet).0
    case ScheduleInput => ScheduleReconnect(c, s, s.clock.now)
    case ReconnectInput(enabled) => SetReconnect(s, enabled)
    case EventsInput => s.(events := [])
  }

  function Apply(c: Options, s: Engine, i: Input): (r: Engine) {
    match i
    case ConnectInput => DoConnect(c, s).0
    case PublishInput(cmd) => DoPublish(c, s, cmd).0
    case RequestInput(kind, requested, filters, refused) => DoRequest(c, s, kind, requested, filters, refused).0
    case DataInput(data) => Ingest(c, s, data).(events := [])
    case TakeInput => TakeOutput(c, s).0
    case TickInput => DoTick(c, s).0.(events := [])
    case LostInput => ConnectionLost(c, s, s.clock.now)
    case ResetInput => Reset(c, s)
    case _ => ApplyLocal(c, s, i)
  }

  /** Every operation carries a time; one that runs backwards or leaves the horizon is refused. */
  datatype Timed = Timed(now: Time, input: Input)

  predicate TimeAccepted(c: Options, s: Engine, now: Time) {
    s.clock.now <= now && Horizon(c, now)
  }

  function At(s: Engine, now: Time): (r: Engine) { s.(clock := s.clock.(now := now)) }

  function Step(c: Options, s: Engine, t: Timed): (r: Engine) {
    if TimeAccepted(c, s, t.now) then Apply(c, At(s, t.now), t.input) else s
  }

  function Run(c: Options, s: Engine, ts: seq<Timed>): (r: Engine)
    decreases ts
  {
    if ts == [] then s else Run(c, Step(c, s, ts[0]), ts[1..])
  }

  function Initial(c: Options, now: Time): (s: Engine) {
    Engine(
      Link(false, false, false, false, false, [], [], []),
      Session([], 0, {}, New(c.receiveMaximum), [], []),
      Caps(None, 2, true, 0, c.keepAlive, map[], 6, 0),
      Clock(now, now, None, c.reconnect, 0, None, []),
      None, [], [],
      History(Tickets(0, map[], [], []), Credit(0, {}, 0), None, [], [], 0, 0, 0, 0, [], [], [], [],
        Arrivals([], 0, []), 0, 0, 0))
  }
}
