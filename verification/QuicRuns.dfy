/** Runs of the QUIC transport, and the main results about them. */
module QuicRuns {
  import opened Basics
  import opened QuicModel
  import opened QuicSafety

  datatype Step =
    | OpenStep(role: Role, id: Option<nat>)
    | PubStep(id: Option<nat>)
    | SubStep(id: Option<nat>)
    | EnqueueStep(stream: nat, bytes: Bytes, room: bool, limit: nat)
    | RawStep(stream: nat, bytes: Bytes)
    | RespondStep(stream: nat, bytes: Bytes, limit: nat)
    | PriorityStep(stream: nat, priority: nat)
    | FinishStep(stream: nat)
    | ResetStep(stream: nat)
    | PeerOpensStep(stream: nat)
    | PeerEndsStep(stream: nat)
    | FinAckStep(stream: nat)
    | EmitStep(bytes: Bytes)
    | ConnAckStep
    | LayerLostStep
    | DisconnectStep(bytes: Bytes)
    | TickStep(take: nat, takes: map<nat, nat>)
    | EstablishStep(early: Option<nat>, connect: Bytes)
    | HandshakeStep(accepted: bool, replay: bool, ids: seq<nat>, connect: Bytes)
    | GoneStep

  /** What QUIC and the MQTT layer can do: stream identifiers are fresh, FIN is acknowledged only after it was
      issued, and nothing arrives from the peer before the handshake is complete. */
  ghost predicate Possible(u: Quic, t: Step) {
    match t
    case OpenStep(role, id) => Unused(u, id) && (role.PriorityPub? || role == ExplicitData)
    case PubStep(id) => Unused(u, id)
    case SubStep(id) => Unused(u, id)
    case PeerOpensStep(id) => u.phase == Established && (id in u.streams || id !in u.used)
    case PeerEndsStep(_) => u.phase == Established
    case FinAckStep(id) => u.phase == Established && (id in u.streams && id in u.wires ==> u.wires[id].fins == 1)
    case EmitStep(_) => u.layer != Down
    case ConnAckStep => u.status != Attempted && u.layer == Connecting
    case HandshakeStep(_, _, ids, _) => u.phase == Handshaking
      && if u.status == Attempted then NoDup(ids) else FreshIds(u, ids)
    case _ => true
  }

  ghost function After(u: Quic, t: Step): (v: Quic)
    requires QuicInv(u)
  {
    match t
    case OpenStep(role, id) => OpenStream(u, role, id).0
    case PubStep(id) => EnsurePub(u, id).0
    case SubStep(id) => EnsureSub(u, id).0
    case EnqueueStep(id, bytes, room, limit) => EnqueueOnStream(u, id, bytes, room, limit).0
    case RawStep(id, bytes) => SendRaw(u, id, bytes).0
    case RespondStep(id, bytes, limit) => Respond(u, id, bytes, limit)
    case PriorityStep(id, priority) => SetPriority(u, id, priority).0
    case FinishStep(id) => FinishStream(u, id).0
    case ResetStep(id) => ResetStream(u, id).0
    case PeerOpensStep(id) => PeerOpens(u, id)
    case PeerEndsStep(id) => PeerEnds(u, id)
    case FinAckStep(id) => FinAcknowledged(u, id)
    case EmitStep(bytes) => Emit(u, bytes)
    case ConnAckStep => u.(layer := Up)
    case LayerLostStep => LayerLost(u)
    case DisconnectStep(bytes) => DisconnectAndClose(u, bytes).0
    case TickStep(n, takes) => Tick(u, n, takes)
    case EstablishStep(early, connect) => Establish(u, early, connect)
    case HandshakeStep(accepted, replay, ids, connect) => Handshake(u, accepted, replay, ids, connect)
    case GoneStep => ConnectionGone(u)
  }

  lemma FinAckKeeps(u: Quic, id: nat)
    requires QuicInv(u) && (id in u.streams ==> u.wires[id].fins == 1)
    ensures QuicInv(FinAcknowledged(u, id))
  {
    if id in u.streams { assert u.streams[id := u.streams[id].(finished := true)] == u.streams; }
  }

  lemma AfterKeeps(u: Quic, t: Step)
    requires QuicInv(u) && Possible(u, t)
    ensures QuicInv(After(u, t))
  {
    match t
    case OpenStep(role, id) => OpenKeeps(u, role, id);
    case PubStep(id) => EnsurePubKeeps(u, id);
    case SubStep(id) => EnsureSubKeeps(u, id);
    case EnqueueStep(id, bytes, room, limit) => EnqueueKeeps(u, id, bytes, room, limit);
    case RawStep(id, bytes) => SendRawKeeps(u, id, bytes);
    case RespondStep(id, bytes, limit) => RespondKeeps(u, id, bytes, limit);
    case PriorityStep(id, priority) => SetPriorityKeeps(u, id, priority);
    case FinishStep(id) => FinishKeeps(u, id);
    case ResetStep(id) => ResetStreamKeeps(u, id);
    case PeerOpensStep(id) => PeerOpensKeeps(u, id);
    case PeerEndsStep(id) => PeerEndsKeeps(u, id);
    case FinAckStep(id) => FinAckKeeps(u, id);
    case EmitStep(bytes) => EmitKeeps(u, bytes);
    case ConnAckStep => ConnAckKeeps(u);
    case LayerLostStep => LayerLostKeeps(u);
    case DisconnectStep(bytes) => DisconnectKeeps(u, bytes);
    case TickStep(n, takes) => TickKeeps(u, n, takes);
    case EstablishStep(early, connect) => EstablishKeeps(u, early, connect);
    case HandshakeStep(accepted, replay, ids, connect) => HandshakeKeeps(u, accepted, replay, ids, connect);
    case GoneStep => GoneKeeps(u);
  }

  const START: Quic := Quic(Gone, Unavailable, Down, [], false, NO_CONTROL, map[], None, None, [], map[], FRESH, {}, [],
    0, [])

  /** A run; steps that cannot happen are skipped. */
  ghost function Steps(u: Quic, ts: seq<Step>): (v: Quic)
    requires QuicInv(u)
    ensures QuicInv(v)
    decreases ts
  {
    if ts == [] then u
    else if Possible(u, ts[0]) then
      AfterKeeps(u, ts[0]);
      Steps(After(u, ts[0]), ts[1..])
    else Steps(u, ts[1..])
  }

  // ----- FIN and the deferred close -----

  /** On every run: FIN of a data stream is issued at most once, only when its buffer is empty, and no byte is
      written after it; unless bytes were thrown away, everything accepted was written before it. */
  lemma FinOverRuns(ts: seq<Step>, id: nat)
    requires id in Steps(START, ts).streams
    ensures
      var s, w := Steps(START, ts).streams[id], Steps(START, ts).wires[id];
      && w.fins <= 1 && (s.finished ==> s.outgoing == [])
      && (w.fins == 1 ==> w.finAt == |w.written| && (w.dropped == 0 ==> w.written == w.accepted))
      && (w.dropped == 0 ==> w.written + s.outgoing == w.accepted)
  {
    assert SideOk(Steps(START, ts).streams[id].outgoing, Steps(START, ts).streams[id].finished,
        Steps(START, ts).wires[id]);
  }

  /** The same for the control stream. */
  lemma ControlFinOverRuns(ts: seq<Step>)
    ensures
      var u := Steps(START, ts);
      u.ctlWire.fins <= 1 && (u.ctlWire.fins == 1 ==>
        u.ctl.finished && u.ctl.out == [] && u.ctlWire.finAt == |u.ctlWire.written|)
  {
  }

  lemma FlushDropsNothing(u: Quic, n: nat)
    ensures Pull(u).ctlWire.dropped == u.ctlWire.dropped && FlushControl(u, n).ctlWire.dropped == u.ctlWire.dropped
    ensures FlushControl(u, n).layerOut == u.layerOut && FlushControl(u, n).streams == u.streams
        && FlushControl(u, n).wires == u.wires
  {
  }

  lemma CloseDropsNothing(u: Quic, takes: map<nat, nat>)
    requires u.layerOut == [] && u.streams.Keys <= u.wires.Keys
    ensures CloseIfDrained(FlushData(u, takes)).ctlWire.dropped == u.ctlWire.dropped
  {
    var v := FlushData(u, takes);
    assert v.ctlWire == u.ctlWire && v.layerOut == u.layerOut;
  }

  lemma TickDropsNothing(u: Quic, n: nat, takes: map<nat, nat>)
    requires QuicInv(u)
    ensures Tick(u, n, takes).ctlWire.dropped == u.ctlWire.dropped
  {
    if u.phase != Gone {
      var u1 := Pull(u);
      PullKeeps(u);
      FlushDropsNothing(u, n);
      FlushDropsNothing(u1, n);
      CloseDropsNothing(FlushControl(u1, n), takes);
    }
  }

  lemma {:induction false} ReplayDropsNothing(u: Quic, js: seq<Journal>, ids: seq<nat>)
    ensures ReplayAll(u, js, ids).ctlWire.dropped == u.ctlWire.dropped
    ensures ReplayAll(u, js, ids).closes == u.closes
    decreases js
  {
    if js == [] || ids == [] {
    } else {
      ReplayDropsNothing(ReplayOne(u, js[0], ids[0]), js[1..], ids[1..]);
    }
  }

  /** A connection begins or ends, or its early data are rejected: the control stream starts again. */
  predicate Begins(u: Quic, t: Step) {
    t.EstablishStep? || t.GoneStep? || (t.HandshakeStep? && u.status == Attempted && !t.accepted)
  }

  /** The control stream is reset or ended by the peer, or the MQTT layer loses its transport, while bytes for the
      control stream are still waiting. */
  predicate Harmful(u: Quic, t: Step) {
    match t
    case ResetStep(id) => u.ctl.id == Some(id) && (u.ctl.out != [] || u.layerOut != [])
    case PeerEndsStep(id) => u.ctl.id == Some(id) && (u.ctl.out != [] || u.layerOut != [])
    case LayerLostStep => u.layerOut != []
    case _ => false
  }

  /** Bytes of the control stream are thrown away by a harmful step and by nothing else: not by a flush, a requested
      FIN, or the deferred close. */
  lemma DroppedOnlyBy(u: Quic, t: Step)
    requires QuicInv(u) && Possible(u, t)
    ensures Begins(u, t) ==> After(u, t).ctlWire.dropped == 0
    ensures !Begins(u, t) ==> (After(u, t).ctlWire.dropped == 0 <==> u.ctlWire.dropped == 0 && !Harmful(u, t))
  {
    match t
    case TickStep(n, takes) => TickDropsNothing(u, n, takes);
    case HandshakeStep(accepted, replay, ids, connect) => HandshakeDropped(u, accepted, replay, ids, connect);
    case EstablishStep(early, connect) => EstablishDropped(u, early, connect);
    case FinishStep(id) => FinishDropsNothing(u, id);
    case ResetStep(id) => ResetDrops(u, id);
    case PeerEndsStep(id) => PeerEndsDrops(u, id);
    case RawStep(id, bytes) => RawDropsNothing(u, id, bytes);
    case _ => OthersDropNothing(u, t);
  }

  lemma HandshakeDropped(u: Quic, accepted: bool, replay: bool, ids: seq<nat>, connect: Bytes)
    ensures
      Handshake(u, accepted, replay, ids, connect).ctlWire.dropped
      == if u.status == Attempted && !accepted then 0 else u.ctlWire.dropped
  {
    ReplayDropsNothing(Cleared(u).(phase := Established, status := Rejected), u.journal, ids);
  }

  lemma ResetDrops(u: Quic, id: nat)
    requires QuicInv(u)
    ensures ResetStream(u, id).0.ctlWire.dropped == 0 <==> u.ctlWire.dropped == 0 && !Harmful(u, ResetStep(id))
  {
  }

  lemma PeerEndsDrops(u: Quic, id: nat)
    requires QuicInv(u)
    ensures PeerEnds(u, id).ctlWire.dropped == 0 <==> u.ctlWire.dropped == 0 && !Harmful(u, PeerEndsStep(id))
  {
  }

  lemma RawDropsNothing(u: Quic, id: nat, bytes: Bytes)
    requires QuicInv(u)
    ensures SendRaw(u, id, bytes).0.ctlWire.dropped == u.ctlWire.dropped
  {
    SendRawCases(u, id, bytes);
  }

  /** The steps that leave the control stream alone, add to it, or lose the MQTT layer. */
  lemma OthersDropNothing(u: Quic, t: Step)
    requires QuicInv(u) && Possible(u, t) && !t.TickStep? && !t.HandshakeStep? && !t.EstablishStep? && !t.FinishStep?
    requires !t.ResetStep? && !t.PeerEndsStep? && !t.RawStep?
    ensures t.GoneStep? ==> After(u, t).ctlWire.dropped == 0
    ensures !t.GoneStep? ==> (After(u, t).ctlWire.dropped == 0 <==> u.ctlWire.dropped == 0 && !Harmful(u, t))
  {
  }

  lemma FinishDropsNothing(u: Quic, id: nat)
    ensures FinishStream(u, id).0.ctlWire.dropped == u.ctlWire.dropped
  {
  }

  lemma EstablishDropped(u: Quic, early: Option<nat>, connect: Bytes)
    ensures Establish(u, early, connect).ctlWire.dropped == 0
  {
  }

  /** Whether a harmful step happened since the control stream last started. */
  ghost predicate Harmed(u: Quic, ts: seq<Step>, before: bool)
    requires QuicInv(u)
    decreases ts
  {
    if ts == [] then before
    else if Possible(u, ts[0]) then
      AfterKeeps(u, ts[0]);
      Harmed(After(u, ts[0]), ts[1..], !Begins(u, ts[0]) && (before || Harmful(u, ts[0])))
    else Harmed(u, ts[1..], before)
  }

  lemma {:induction false} HarmedIffDropped(u: Quic, ts: seq<Step>, before: bool)
    requires QuicInv(u) && (before <==> u.ctlWire.dropped != 0)
    ensures Harmed(u, ts, before) <==> Steps(u, ts).ctlWire.dropped != 0
    decreases ts
  {
    if ts == [] {
    } else {
      if Possible(u, ts[0]) {
        AfterKeeps(u, ts[0]);
        DroppedOnlyBy(u, ts[0]);
        HarmedIffDropped(After(u, ts[0]), ts[1..], !Begins(u, ts[0]) && (before || Harmful(u, ts[0])));
      } else {
        HarmedIffDropped(u, ts[1..], before);
      }
    }
  }

  /** Only a tick performs a deferred close. */
  lemma ClosesOnlyByTick(u: Quic, t: Step)
    requires QuicInv(u) && Possible(u, t) && !t.TickStep?
    ensures After(u, t).closes == u.closes
  {
    if t.HandshakeStep? {
      HandshakeCloses(u, t.accepted, t.replay, t.ids, t.connect);
    } else if OnStream(t) || t.FinishStep? || t.ResetStep? {
      StreamCloses(u, t);
    }
  }

  lemma HandshakeCloses(u: Quic, accepted: bool, replay: bool, ids: seq<nat>, connect: Bytes)
    ensures Handshake(u, accepted, replay, ids, connect).closes == u.closes
  {
    ReplayDropsNothing(Cleared(u).(phase := Established, status := Rejected), u.journal, ids);
  }

  lemma StreamCloses(u: Quic, t: Step)
    requires QuicInv(u) && Possible(u, t) && (OnStream(t) || t.FinishStep? || t.ResetStep?)
    ensures After(u, t).closes == u.closes
  {
  }

  lemma DrainedCloses(u: Quic)
    ensures
      var v := CloseIfDrained(u);
      v.closes == u.closes || (|v.closes| == |u.closes| + 1 && v.closes[|u.closes|].dropped == u.ctlWire.dropped)
  {
  }

  lemma FlushKeepsCloses(u: Quic, n: nat)
    ensures Pull(u).closes == u.closes && FlushControl(u, n).closes == u.closes
  {
  }

  lemma TickCloses(u: Quic, n: nat, takes: map<nat, nat>)
    requires QuicInv(u)
    ensures
      var v := Tick(u, n, takes);
      v.closes == u.closes || (|v.closes| == |u.closes| + 1 && v.closes[|u.closes|].dropped == u.ctlWire.dropped)
  {
    if u.phase != Gone {
      var u1 := Pull(u);
      PullKeeps(u);
      FlushDropsNothing(u, n);
      FlushDropsNothing(u1, n);
      FlushKeepsCloses(u, n);
      FlushKeepsCloses(u1, n);
      var u2 := FlushData(FlushControl(u1, n), takes);
      assert u2.ctlWire == FlushControl(u1, n).ctlWire && u2.closes == FlushControl(u1, n).closes;
      DrainedCloses(u2);
    }
  }

  /** On every run, whenever a tick performs the deferred close: every byte offered to the control stream since it
      started, the DISCONNECT among them, was written, if and only if no harmful step happened since then. */
  lemma CloseOverRuns(ts: seq<Step>, n: nat, takes: map<nat, nat>)
    requires Tick(Steps(START, ts), n, takes).closes != Steps(START, ts).closes
    ensures
      var u, v := Steps(START, ts), Tick(Steps(START, ts), n, takes);
      |v.closes| == |u.closes| + 1 && (v.closes[|u.closes|].complete <==> !Harmed(START, ts, false))
  {
    var u := Steps(START, ts);
    HarmedIffDropped(START, ts, false);
    TickCloses(u, n, takes);
    TickKeeps(u, n, takes);
    var v := Tick(u, n, takes);
    assert v.closes[|u.closes|] in v.closes;
  }

  /** The application resets the control stream between asking for the close and the next tick. */
  const ABANDONED: seq<Step> := [
    EstablishStep(None, []), HandshakeStep(true, false, [0], [1]), TickStep(10, map[]), ConnAckStep,
      DisconnectStep([2]), ResetStep(0)]

  lemma StepsOnce(u: Quic, t: Step, ts: seq<Step>)
    requires QuicInv(u) && Possible(u, t)
    ensures QuicInv(After(u, t)) && Steps(u, [t] + ts) == Steps(After(u, t), ts)
  {
    AfterKeeps(u, t);
    assert ([t] + ts)[1..] == ts;
  }

  /** The engine side of the run: established, CONNECT written, CONNACK received. */
  function Linked(layer: Layer, layerOut: Bytes, ctl: Control, pending: bool, w: Wire, offered: nat): (u: Quic) {
    START.(phase := Established, layer := layer, layerOut := layerOut, ctl := ctl, pendingClose := pending,
      ctlWire := w, used := {0}, offered := offered)
  }

  const CONNECT_SENT: Wire := Wire([1], [1], 0, 0, 0)

  const OPEN_CONTROL: Control := Control(Some(0), [], false, false)

  lemma AbandonedOpens(u: Quic)
    requires u == Cleared(LayerLost(START)).(phase := Handshaking, status := Unavailable) && QuicInv(u)
    ensures After(u, HandshakeStep(true, false, [0], [1])) == Linked(Connecting, [1], OPEN_CONTROL, false, FRESH, 1)
    ensures Possible(u, HandshakeStep(true, false, [0], [1]))
  {
    assert {} + {0} == {0} && [] + [1] == [1];
  }

  lemma AbandonedBegins()
    ensures Steps(START, ABANDONED[..3]) == Linked(Connecting, [], OPEN_CONTROL, false, CONNECT_SENT, 1)
  {
    var u1 := Cleared(LayerLost(START)).(phase := Handshaking, status := Unavailable);
    var t1, t2, t3 := EstablishStep(None, []), HandshakeStep(true, false, [0], [1]), TickStep(10, map[]);
    assert ABANDONED[..3] == [t1] + [t2, t3];
    StepsOnce(START, t1, [t2, t3]);
    assert After(START, t1) == u1;
    AbandonedConnects(u1, t2, t3);
  }

  lemma AbandonedConnects(u: Quic, t2: Step, t3: Step)
    requires u == Cleared(LayerLost(START)).(phase := Handshaking, status := Unavailable) && QuicInv(u)
    requires t2 == HandshakeStep(true, false, [0], [1]) && t3 == TickStep(10, map[])
    ensures Steps(u, [t2, t3]) == Linked(Connecting, [], OPEN_CONTROL, false, CONNECT_SENT, 1)
  {
    AbandonedOpens(u);
    assert [t2, t3] == [t2] + [t3] && [t3] == [t3] + [];
    StepsOnce(u, t2, [t3]);
    var u2 := After(u, t2);
    TickSends(u2, Linked(Connecting, [], OPEN_CONTROL, false, CONNECT_SENT, 1));
    StepsOnce(u2, t3, []);
  }

  lemma TickSends(u: Quic, v: Quic)
    requires u == Linked(Connecting, [1], OPEN_CONTROL, false, FRESH, 1)
    requires v == Linked(Connecting, [], OPEN_CONTROL, false, CONNECT_SENT, 1)
    ensures Tick(u, 10, map[]) == v
  {
    var u1 := Pull(u);
    assert [] + [1] == [1];
    assert u1 == u.(layerOut := [], ctl := u.ctl.(out := [1]), ctlWire := Wire([1], [], 0, 0, 0));
    assert u1.ctl.out[..1] == [1] && u1.ctl.out[1..] == [];
    assert FlushControl(u1, 10) == v;
    assert FlushData(v, map[]) == v;
  }

  lemma AbandonedAsks(u: Quic)
    requires u == Linked(Up, [], OPEN_CONTROL, false, CONNECT_SENT, 1) && QuicInv(u)
    ensures After(u, DisconnectStep([2])) == Linked(Down, [2], OPEN_CONTROL, true, CONNECT_SENT, 2)
  {
    assert [] + [2] == [2];
  }

  lemma AbandonedResets(u: Quic)
    requires u == Linked(Down, [2], OPEN_CONTROL, true, CONNECT_SENT, 2) && QuicInv(u)
    ensures After(u, ResetStep(0)) == Linked(Down, [], OPEN_CONTROL.(finished := true), true,
        CONNECT_SENT.(dropped := 1), 2)
  {
  }

  lemma AbandonedEnds(u: Quic, a: Step, b: Step, d: Step)
    requires u == Linked(Connecting, [], OPEN_CONTROL, false, CONNECT_SENT, 1) && QuicInv(u)
    requires a == ConnAckStep && b == DisconnectStep([2]) && d == ResetStep(0)
    ensures Steps(u, [a, b, d]) == Linked(Down, [], OPEN_CONTROL.(finished := true), true, CONNECT_SENT.(dropped := 1),
        2)
  {
    assert [a, b, d] == [a] + [b, d] && [b, d] == [b] + [d] && [d] == [d] + [];
    StepsOnce(u, a, [b, d]);
    var u1 := After(u, a);
    AbandonedAsks(u1);
    StepsOnce(u1, b, [d]);
    var u2 := After(u1, b);
    AbandonedResets(u2);
    StepsOnce(u2, d, []);
  }

  lemma {:induction false} StepsAppend(u: Quic, xs: seq<Step>, ys: seq<Step>)
    requires QuicInv(u)
    ensures Steps(u, xs + ys) == Steps(Steps(u, xs), ys)
    decreases xs
  {
    if xs == [] {
      assert xs + ys == ys;
    } else {
      assert (xs + ys)[1..] == xs[1..] + ys;
      if Possible(u, xs[0]) {
        AfterKeeps(u, xs[0]);
        StepsAppend(After(u, xs[0]), xs[1..], ys);
      } else {
        StepsAppend(u, xs[1..], ys);
      }
    }
  }

  lemma AbandonedRun()
    ensures Steps(START, ABANDONED) == Linked(Down, [], OPEN_CONTROL.(finished := true), true,
        CONNECT_SENT.(dropped := 1), 2)
  {
    var rest := [ConnAckStep, DisconnectStep([2]), ResetStep(0)];
    AbandonedBegins();
    AbandonedEnds(Steps(START, ABANDONED[..3]), ConnAckStep, DisconnectStep([2]), ResetStep(0));
    assert ABANDONED == ABANDONED[..3] + rest;
    StepsAppend(START, ABANDONED[..3], rest);
  }

  lemma AbandonedCloses(u: Quic)
    requires u == Linked(Down, [], OPEN_CONTROL.(finished := true), true, CONNECT_SENT.(dropped := 1), 2)
    ensures Tick(u, 10, map[]).closes == [Closing(false, 1)]
  {
    assert [1] + [] == [1];
    assert FlushControl(u, 10) == u;
  }

  /** On this run from the start the next tick closes the connection, and the DISCONNECT was never written. */
  lemma CloseWithoutDisconnect()
    ensures Harmed(START, ABANDONED, false)
    ensures Tick(Steps(START, ABANDONED), 10, map[]).closes == [Closing(false, 1)]
  {
    AbandonedRun();
    AbandonedCloses(Steps(START, ABANDONED));
    HarmedIffDropped(START, ABANDONED, false);
  }

  // ----- Early data -----

  /** On every run, while early data may be rejected, the journal lists the opened streams in order, and each
      entry holds exactly the bytes accepted for its stream since it was opened, however many were written. */
  lemma JournalOverRuns(ts: seq<Step>, i: nat)
    requires Steps(START, ts).status == Attempted && i < |Steps(START, ts).journal|
    ensures
      var u := Steps(START, ts);
      var j := u.journal[i];
      && |u.journal| == |u.order| && j.id == u.order[i] && (j.role == ControlRole <==> i == 0)
      && (i == 0 ==> j.bytes == u.ctlWire.accepted)
      && (i > 0 ==> j.id in u.wires && j.bytes == u.wires[j.id].accepted && (j.id in u.streams ==>
        Matches(u.streams[j.id], j)))
  {
    assert EntryOk(Steps(START, ts), Steps(START, ts).journal[i]);
  }

  /** A data stream as the journal describes it, not yet written. */
  function Rebuilt(j: Journal): (s: Stream) {
    Stream(j.priority, if j.role.PriorityPub? then Some(j.role.level) else None, j.bytes, j.packets, false, false)
  }

  /** The stream that ends up bound to a role. */
  function Bind(js: seq<Journal>, ids: seq<nat>, role: Role, bound: Option<nat>): (r: Option<nat>)
    decreases js
  {
    if js == [] || ids == [] then bound
    else Bind(js[1..], ids[1..], role, if js[0].role == role then Some(ids[0]) else bound)
  }

  /** Streams that no later entry replaces keep their rebuilt state. */
  lemma {:induction false} ReplayKeepsOthers(u: Quic, js: seq<Journal>, ids: seq<nat>, id: nat)
    requires id !in ids
    ensures
      var r := ReplayAll(u, js, ids);
      (id in r.streams <==> id in u.streams) && (id in u.streams ==> r.streams[id] == u.streams[id])
    decreases js
  {
    if js == [] || ids == [] {
    } else {
      assert ids[0] in ids && id !in ids[1..];
      ReplayKeepsOthers(ReplayOne(u, js[0], ids[0]), js[1..], ids[1..], id);
    }
  }

  lemma {:induction false} ReplayRebuilds(u: Quic, js: seq<Journal>, ids: seq<nat>, i: nat)
    requires NoDup(ids) && i < |js| <= |ids| && js[i].role != ControlRole
    ensures
      var r := ReplayAll(u, js, ids);
      ids[i] in r.streams && r.streams[ids[i]] == Rebuilt(js[i])
    decreases js
  {
    var v := ReplayOne(u, js[0], ids[0]);
    if i == 0 {
      forall k | 0 <= k < |ids[1..]| ensures ids[1..][k] != ids[0] { assert ids[1..][k] == ids[k + 1]; }
      ReplayKeepsOthers(v, js[1..], ids[1..], ids[0]);
    } else {
      ReplayRebuilds(v, js[1..], ids[1..], i - 1);
    }
  }

  lemma {:induction false} ReplayBindings(u: Quic, js: seq<Journal>, ids: seq<nat>)
    ensures ReplayAll(u, js, ids).pub == Bind(js, ids, DefaultPub, u.pub)
    ensures ReplayAll(u, js, ids).sub == Bind(js, ids, DefaultSub, u.sub)
    decreases js
  {
    if js == [] || ids == [] {
    } else {
      ReplayBindings(ReplayOne(u, js[0], ids[0]), js[1..], ids[1..]);
    }
  }

  /** Entries other than the first leave the control stream alone. */
  lemma {:induction false} ReplayControl(u: Quic, js: seq<Journal>, ids: seq<nat>)
    requires forall i :: 0 <= i < |js| ==> js[i].role != ControlRole
    ensures ReplayAll(u, js, ids).ctl == u.ctl
    decreases js
  {
    if js == [] || ids == [] {
    } else {
      ReplayControl(ReplayOne(u, js[0], ids[0]), js[1..], ids[1..]);
    }
  }

  /** No stream appears that the journal does not list. */
  lemma {:induction false} ReplayAddsOnly(u: Quic, js: seq<Journal>, ids: seq<nat>, id: nat)
    requires id in ReplayAll(u, js, ids).streams && |js| <= |ids|
    ensures id in u.streams || exists i :: 0 <= i < |js| && js[i].role != ControlRole && ids[i] == id
    decreases js
  {
    if js == [] || ids == [] {
    } else {
      var v := ReplayOne(u, js[0], ids[0]);
      ReplayAddsOnly(v, js[1..], ids[1..], id);
      if id !in v.streams {
        var i :| 0 <= i < |js[1..]| && js[1..][i].role != ControlRole && ids[1..][i] == id;
        assert js[i + 1].role != ControlRole && ids[i + 1] == id;
      }
    }
  }

  /** Rejected early data with replay and enough stream credit: the new connection holds one stream per
      journaled stream, in opening order, each with exactly the bytes accepted for the old one, unwritten, and
      with its priority and purpose; the control stream likewise. */
  lemma ReplayExact(u: Quic, ids: seq<nat>, connect: Bytes, i: nat)
    requires QuicInv(u) && u.status == Attempted && u.phase == Handshaking && NoDup(ids) && i < |u.journal| <= |ids|
    ensures
      var v, j := Handshake(u, false, true, ids, connect), u.journal[i];
      && v.ctl == Control(Some(ids[0]), u.ctlWire.accepted, false, false)
      && (i > 0 ==>
            && j.id in u.wires && ids[i] in v.streams && v.streams[ids[i]].outgoing == u.wires[j.id].accepted
            && !v.streams[ids[i]].finishing && !v.streams[ids[i]].finished
            && Matches(v.streams[ids[i]], j) && (j.id in u.streams ==> Matches(u.streams[j.id], j)))
  {
    var u1 := Cleared(u).(phase := Established, status := Rejected);
    var js := u.journal;
    assert EntryOk(u, js[0]) && js[0].role == ControlRole && EntryOk(u, js[i]);
    var v1 := ReplayOne(u1, js[0], ids[0]);
    assert v1.ctl.out == [] + js[0].bytes == js[0].bytes;
    forall k | 0 <= k < |js[1..]| ensures js[1..][k].role != ControlRole { assert js[1..][k] == js[k + 1]; }
    ReplayControl(v1, js[1..], ids[1..]);
    if i > 0 { ReplayRebuilds(u1, js, ids, i); }
  }

  /** And it holds no other data stream. */
  lemma ReplayComplete(u: Quic, ids: seq<nat>, connect: Bytes, id: nat)
    requires QuicInv(u) && u.status == Attempted && u.phase == Handshaking && |u.journal| <= |ids|
    requires id in Handshake(u, false, true, ids, connect).streams
    ensures exists i :: 0 < i < |u.journal| && ids[i] == id
  {
    ReplayAddsOnly(Cleared(u).(phase := Established, status := Rejected), u.journal, ids, id);
  }

  /** The position of the last entry with a role. */
  function LastAt(js: seq<Journal>, role: Role): (k: nat)
    ensures k <= |js| && (k < |js| ==> js[k].role == role)
  {
    if js == [] then 0
    else
      var k := LastAt(js[1..], role);
      if k < |js| - 1 then k + 1 else if js[0].role == role then 0 else |js|
  }

  lemma {:induction false} BindLast(js: seq<Journal>, ids: seq<nat>, role: Role, bound: Option<nat>)
    requires |js| <= |ids|
    ensures Bind(js, ids, role, bound) == if LastAt(js, role) < |js| then Some(ids[LastAt(js, role)]) else bound
    decreases js
  {
    if js == [] {
    } else {
      BindLast(js[1..], ids[1..], role, if js[0].role == role then Some(ids[0]) else bound);
    }
  }

  lemma {:induction false} LastOfAt(js: seq<Journal>, role: Role)
    ensures LastOf(js, role) == if LastAt(js, role) < |js| then Some(js[LastAt(js, role)].id) else None
    decreases js
  {
    if js == [] {
    } else {
      LastOfAt(js[1..], role);
      LastOfFront(js, role);
    }
  }

  lemma {:induction false} LastOfFront(js: seq<Journal>, role: Role)
    requires js != []
    ensures LastOf(js, role) == if LastOf(js[1..], role).Some? then LastOf(js[1..], role) else if js[0].role == role
        then Some(js[0].id) else None
    decreases js
  {
    var n := |js| - 1;
    if n > 0 && js[n].role != role {
      LastOfFront(js[..n], role);
      assert js[..n][1..] == js[1..][..n - 1];
    }
  }

  lemma BoundPosition(u: Quic, ids: seq<nat>, role: Role, i: nat)
    requires QuicInv(u) && u.status == Attempted && NoDup(ids) && i < |u.journal| <= |ids|
    ensures
      var b, o := Bind(u.journal, ids, role, None), LastOf(u.journal, role);
      (b == Some(ids[i]) <==> o == Some(u.journal[i].id)) && (b.Some? <==> o.Some?)
  {
    BindLast(u.journal, ids, role, None);
    LastOfAt(u.journal, role);
    var k := LastAt(u.journal, role);
    if k < |u.journal| { assert u.journal[k].id == u.order[k] && u.journal[i].id == u.order[i]; }
  }

  /** Whatever identifiers QUIC hands out, the default streams are bound after replay as before: the stream that takes
      the place of a journaled one is the default if and only if the old one was. */
  lemma ReplayBinds(u: Quic, ids: seq<nat>, connect: Bytes, i: nat)
    requires QuicInv(u) && u.status == Attempted && u.phase == Handshaking && NoDup(ids) && i < |u.journal| <= |ids|
    ensures
      var v := Handshake(u, false, true, ids, connect);
      && (v.pub == Some(ids[i]) <==> u.pub == Some(u.journal[i].id)) && (v.pub.Some? <==> u.pub.Some?)
      && (v.sub == Some(ids[i]) <==> u.sub == Some(u.journal[i].id)) && (v.sub.Some? <==> u.sub.Some?)
  {
    ReplayBindings(Cleared(u).(phase := Established, status := Rejected), u.journal, ids);
    BoundPosition(u, ids, DefaultPub, i);
    BoundPosition(u, ids, DefaultSub, i);
  }

  /** The send side of a stream is ended, or will be once its buffer has drained. */
  predicate Ends(s: Stream) { s.finishing || s.finished }

  predicate Ending(t: Step, id: nat) { t == FinishStep(id) || t == ResetStep(id) }

  /** Whether the application asked to end the stream since it was opened. */
  ghost predicate EndedSince(u: Quic, ts: seq<Step>, id: nat, before: bool)
    requires QuicInv(u)
    decreases ts
  {
    if ts == [] then before
    else if Possible(u, ts[0]) then
      AfterKeeps(u, ts[0]);
      EndedSince(After(u, ts[0]), ts[1..], id, id in u.streams && (before || Ending(ts[0], id)))
    else EndedSince(u, ts[1..], id, before)
  }

  lemma PullStreams(u: Quic)
    ensures Pull(u).streams == u.streams && Pull(u).wires == u.wires
  {
  }

  lemma FlushEnds(u: Quic, takes: map<nat, nat>, id: nat)
    requires u.streams.Keys <= u.wires.Keys
    ensures
      var v := CloseIfDrained(FlushData(u, takes));
      (id in v.streams <==> id in u.streams) && (id in u.streams ==> (Ends(v.streams[id]) <==> Ends(u.streams[id])))
  {
    var v := FlushData(u, takes);
    assert CloseIfDrained(v).streams == v.streams;
    if id in u.streams {
      assert v.streams[id] == FlushedStream(u.streams[id], if id in takes then takes[id] else 0);
    }
  }

  lemma TickEnds(u: Quic, n: nat, takes: map<nat, nat>, id: nat)
    requires u.streams.Keys <= u.wires.Keys
    ensures
      var v := Tick(u, n, takes);
      (id in v.streams <==> id in u.streams) && (id in u.streams ==> (Ends(v.streams[id]) <==> Ends(u.streams[id])))
  {
    if u.phase != Gone {
      PullStreams(u);
      FlushDropsNothing(Pull(u), n);
      FlushEnds(FlushControl(Pull(u), n), takes, id);
    }
  }

  /** A stream is new and unended, or it was there and ends only if `asked`. */
  predicate EndsBy(u: Quic, v: Quic, id: nat, asked: bool) {
    id in v.streams ==>
      if id in u.streams then u.phase == v.phase && (Ends(v.streams[id]) <==> Ends(u.streams[id]) || asked)
      else !Ends(v.streams[id])
  }

  lemma OpenEnds(u: Quic, t: Step, id: nat)
    requires QuicInv(u) && Possible(u, t) && (t.OpenStep? || t.PubStep? || t.SubStep?)
    ensures EndsBy(u, After(u, t), id, false)
  {
  }

  lemma BytesEnds(u: Quic, t: Step, id: nat)
    requires QuicInv(u) && (t.EnqueueStep? || t.RespondStep? || t.PriorityStep?)
    ensures EndsBy(u, After(u, t), id, false)
  {
  }

  lemma RawEnds(u: Quic, k: nat, bytes: Bytes, id: nat)
    requires QuicInv(u)
    ensures EndsBy(u, SendRaw(u, k, bytes).0, id, false)
  {
    SendRawCases(u, k, bytes);
  }

  lemma FinishEnds(u: Quic, k: nat, id: nat)
    requires QuicInv(u) && u.phase != Gone
    ensures EndsBy(u, FinishStream(u, k).0, id, k == id) && EndsBy(u, ResetStream(u, k).0, id, k == id)
  {
  }

  lemma LayerEnds(u: Quic, t: Step, id: nat)
    requires QuicInv(u) && (t.EmitStep? || t.ConnAckStep? || t.LayerLostStep? || t.DisconnectStep?)
    ensures EndsBy(u, After(u, t), id, false)
  {
  }

  lemma {:induction false} ReplayPhase(u: Quic, js: seq<Journal>, ids: seq<nat>)
    ensures ReplayAll(u, js, ids).phase == u.phase
    decreases js
  {
    if js == [] || ids == [] {
    } else {
      ReplayPhase(ReplayOne(u, js[0], ids[0]), js[1..], ids[1..]);
    }
  }

  lemma HandshakePhase(u: Quic, accepted: bool, replay: bool, ids: seq<nat>, connect: Bytes)
    ensures Handshake(u, accepted, replay, ids, connect).phase == Established
  {
    ReplayPhase(Cleared(u).(phase := Established, status := Rejected), u.journal, ids);
  }

  lemma EstablishEnds(u: Quic, early: Option<nat>, connect: Bytes)
    ensures Establish(u, early, connect).streams == map[]
  {
  }

  /** The steps of the application on one stream. */
  predicate OnStream(t: Step) {
    t.OpenStep? || t.PubStep? || t.SubStep? || t.EnqueueStep? || t.RespondStep? || t.PriorityStep? || t.RawStep?
  }

  lemma StreamEnds(u: Quic, t: Step, id: nat)
    requires QuicInv(u) && Possible(u, t) && OnStream(t)
    ensures EndsBy(u, After(u, t), id, false)
  {
    if t.RawStep? {
      RawEnds(u, t.stream, t.bytes, id);
    } else if t.EnqueueStep? || t.RespondStep? || t.PriorityStep? {
      BytesEnds(u, t, id);
    } else {
      OpenEnds(u, t, id);
    }
  }

  /** The steps of QUIC and of the MQTT layer. */
  lemma OtherEnds(u: Quic, t: Step, id: nat)
    requires QuicInv(u) && Possible(u, t) && !OnStream(t) && !t.FinishStep? && !t.ResetStep?
    ensures After(u, t).phase == Handshaking ==> EndsBy(u, After(u, t), id, false)
  {
    match t
    case TickStep(n, takes) => TickEnds(u, n, takes, id);
    case EstablishStep(early, connect) => EstablishEnds(u, early, connect);
    case HandshakeStep(accepted, replay, ids, connect) => HandshakePhase(u, accepted, replay, ids, connect);
    case _ => if t.EmitStep? || t.ConnAckStep? || t.LayerLostStep? || t.DisconnectStep? { LayerEnds(u, t, id); }
  }

  /** Until the handshake is complete only the application ends a stream, and it opens unended. */
  lemma EndsOnlyBy(u: Quic, t: Step, id: nat)
    requires QuicInv(u) && Possible(u, t)
    ensures After(u, t).phase == Handshaking ==> EndsBy(u, After(u, t), id, Ending(t, id))
  {
    if t.FinishStep? || t.ResetStep? {
      if u.phase != Gone { FinishEnds(u, t.stream, id); }
    } else if OnStream(t) {
      StreamEnds(u, t, id);
    } else {
      OtherEnds(u, t, id);
    }
  }

  lemma {:induction false} EndedIff(u: Quic, ts: seq<Step>, id: nat, before: bool)
    requires QuicInv(u) && (u.phase == Handshaking && id in u.streams ==> (before <==> Ends(u.streams[id])))
    requires Steps(u, ts).phase == Handshaking && id in Steps(u, ts).streams
    ensures EndedSince(u, ts, id, before) <==> Ends(Steps(u, ts).streams[id])
    decreases ts
  {
    if ts == [] {
    } else if Possible(u, ts[0]) {
      var v := After(u, ts[0]);
      AfterKeeps(u, ts[0]);
      EndsOnlyBy(u, ts[0], id);
      EndedIff(v, ts[1..], id, id in u.streams && (before || Ending(ts[0], id)));
    } else {
      EndedIff(u, ts[1..], id, before);
    }
  }

  /** On every run whose early data are rejected and replayed: the stream in the place of a journaled one ends like the
      old one if and only if the application had not asked to end that one since it was opened. */
  lemma ReplayFinishOverRuns(ts: seq<Step>, ids: seq<nat>, connect: Bytes, i: nat)
    requires Steps(START, ts).status == Attempted && Steps(START, ts).phase == Handshaking
    requires NoDup(ids) && 0 < i < |Steps(START, ts).journal| <= |ids|
    requires Steps(START, ts).journal[i].id in Steps(START, ts).streams
    ensures
      var u := Steps(START, ts);
      var id, t := u.journal[i].id, Handshake(u, false, true, ids, connect).streams;
      && ids[i] in t
      && (t[ids[i]].finishing == u.streams[id].finishing && t[ids[i]].finished == u.streams[id].finished <==>
        !EndedSince(START, ts, id, false))
  {
    var u := Steps(START, ts);
    ReplayExact(u, ids, connect, i);
    EndedIff(START, ts, u.journal[i].id, false);
  }

  // ----- What replay forgets -----

  /** FIN is requested on a stream opened before the handshake is complete. */
  const FORGOTTEN: seq<Step> := [EstablishStep(Some(0), []), OpenStep(ExplicitData, Some(4)), FinishStep(4)]

  /** A connection with early data: the control stream is open and journaled. */
  function Early(): (u: Quic) { Establish(START, Some(0), []) }

  lemma EarlyOpens()
    ensures QuicInv(Early()) && Early().used == {0} && Early().phase == Handshaking && Early().status == Attempted
    ensures Early().journal == [Journal(0, ControlRole, DEFAULT_PRIORITY, [], 0)] && Early().order == [0]
        && Early().pub == None
    ensures Early().ctl == OPEN_CONTROL && Early().streams == map[] && Early().wires == map[]
  {
    EstablishKeeps(START, Some(0), []);
  }

  /** FIN is requested on the only data stream of a connection whose early data may still be rejected. */
  ghost predicate Asked(u: Quic) {
    && u.phase == Handshaking && u.status == Attempted && |u.journal| == 2 && u.journal[1].id == 4
    && 4 in u.streams && u.streams[4].finishing
  }

  lemma ForgottenAsks(u: Quic, t2: Step, t3: Step)
    requires u == Early() && QuicInv(u) && t2 == OpenStep(ExplicitData, Some(4)) && t3 == FinishStep(4)
    ensures Asked(Steps(u, [t2, t3]))
  {
    EarlyOpens();
    assert [t2, t3] == [t2] + [t3] && [t3] == [t3] + [];
    StepsOnce(u, t2, [t3]);
    StepsOnce(After(u, t2), t3, []);
  }

  lemma ForgottenRun()
    ensures Asked(Steps(START, FORGOTTEN))
  {
    var t1, t2, t3 := EstablishStep(Some(0), []), OpenStep(ExplicitData, Some(4)), FinishStep(4);
    assert FORGOTTEN == [t1] + [t2, t3];
    StepsOnce(START, t1, [t2, t3]);
    ForgottenAsks(After(START, t1), t2, t3);
  }

  /** On this run from the start the application ends a stream, early data are rejected and replayed, and the stream
      stays open. */
  lemma FinForgotten()
    ensures
      var u, t := Steps(START, FORGOTTEN), HandshakeStep(false, true, [0, 4], []);
      var v := Steps(START, FORGOTTEN + [t]);
      && EndedSince(START, FORGOTTEN, 4, false) && 4 in u.streams && u.streams[4].finishing
      && 4 in v.streams && !v.streams[4].finishing && !v.streams[4].finished
  {
    var u, t := Steps(START, FORGOTTEN), HandshakeStep(false, true, [0, 4], []);
    ForgottenRun();
    EndedIff(START, FORGOTTEN, 4, false);
    StepsAppend(START, FORGOTTEN, [t]);
    assert [t] == [t] + [];
    StepsOnce(u, t, []);
    ReplayExact(u, [0, 4], [], 1);
  }
}
