/** The QUIC transport as an object: streams, journal and buffers are updated in place. Every method is proved
    equal to the function of `QuicModel` or `SessionRouting` that the theorems speak about. */
module QuicClass {
  import opened Basics
  import opened Timestamps
  import opened Packets
  import opened InflightQueues
  import opened InflightClass
  import EngineModel
  import opened EngineClass
  import opened QuicModel
  import opened QuicSafety
  import opened SessionRouting

  // ----- The order in which streams are served -----

  /** Higher priority first; among equals, the older stream. */
  predicate Sooner(streams: map<nat, Stream>, a: nat, b: nat)
    requires a in streams && b in streams
  {
    streams[a].priority > streams[b].priority || (streams[a].priority == streams[b].priority && a < b)
  }

  ghost predicate Served(streams: map<nat, Stream>, order: seq<nat>) {
    && (forall i :: 0 <= i < |order| ==> order[i] in streams)
    && forall i, j :: 0 <= i < j < |order| ==> Sooner(streams, order[i], order[j])
  }

  method Insert(streams: map<nat, Stream>, order: seq<nat>, id: nat) returns (r: seq<nat>)
    requires Served(streams, order) && id in streams && id !in order
    ensures Served(streams, r) && forall k :: k in r <==> k in order || k == id
  {
    var i := 0;
    while i < |order| && Sooner(streams, order[i], id)
      invariant 0 <= i <= |order|
      invariant forall k :: 0 <= k < i ==> Sooner(streams, order[k], id)
    {
      i := i + 1;
    }
    if i < |order| { assert order[i] in order && order[i] != id; }
    r := order[..i] + [id] + order[i..];
    assert order == order[..i] + order[i..];
  }

  /** Every stream once, in serving order. */
  method StreamSendOrder(streams: map<nat, Stream>) returns (order: seq<nat>)
    ensures Served(streams, order) && forall id :: id in order <==> id in streams
  {
    order := [];
    var rest := streams.Keys;
    while rest != {}
      invariant Served(streams, order) && rest <= streams.Keys
      invariant forall id :: id in order <==> id in streams && id !in rest
      decreases |rest|
    {
      var id :| id in rest;
      order := Insert(streams, order, id);
      rest := rest - {id};
    }
  }

  /** Where a stream is journaled. */
  method PositionInJournal(journal: seq<Journal>, id: nat) returns (i: nat)
    ensures i == FindJournal(journal, id)
  {
    i := 0;
    assert journal[0..] == journal;
    while i < |journal| && journal[i].id != id
      invariant i <= |journal| && FindJournal(journal, id) == i + FindJournal(journal[i..], id)
    {
      assert journal[i..][1..] == journal[i + 1..];
      i := i + 1;
    }
  }

  lemma ServedOnce(streams: map<nat, Stream>, order: seq<nat>)
    requires Served(streams, order)
    ensures NoDup(order)
  {
    forall i, j | 0 <= i < j < |order| ensures order[i] != order[j] { assert Sooner(streams, order[i], order[j]); }
  }

  function TakeOf(takes: map<nat, nat>, id: nat): (n: nat) { if id in takes then takes[id] else 0 }

  /** Flushing the listed streams one after the other. */
  ghost function Serve(streams: map<nat, Stream>, wires: map<nat, Wire>, ids: seq<nat>, takes: map<nat,
      nat>): (r: (map<nat, Stream>, map<nat, Wire>))
    requires forall id :: id in ids ==> id in streams && id in wires
    decreases ids
  {
    if ids == [] then (streams, wires)
    else
      var id := ids[0];
      Serve(streams[id := FlushedStream(streams[id], TakeOf(takes, id))],
        wires[id := FlushedWire(streams[id], wires[id], TakeOf(takes, id))], ids[1..], takes)
  }

  /** Serving leaves the other streams alone. */
  lemma {:induction false} ServeOther(streams: map<nat, Stream>, wires: map<nat, Wire>, ids: seq<nat>, takes: map<nat,
      nat>, id: nat)
    requires (forall k :: k in ids ==> k in streams && k in wires) && id !in ids
    ensures
      var (s, w) := Serve(streams, wires, ids, takes);
      && s.Keys == streams.Keys && w.Keys == wires.Keys
      && (id in streams ==> s[id] == streams[id]) && (id in wires ==> w[id] == wires[id])
    decreases ids
  {
    if ids == [] {
    } else {
      var k := ids[0];
      var s1, w1 := streams[k := FlushedStream(streams[k], TakeOf(takes, k))],
        wires[k := FlushedWire(streams[k], wires[k], TakeOf(takes, k))];
      ServeOther(s1, w1, ids[1..], takes, id);
    }
  }

  lemma {:induction false} ServeOne(streams: map<nat, Stream>, wires: map<nat, Wire>, ids: seq<nat>, takes: map<nat,
      nat>, id: nat)
    requires (forall k :: k in ids ==> k in streams && k in wires) && NoDup(ids) && id in ids
    ensures
      var (s, w) := Serve(streams, wires, ids, takes);
      && s.Keys == streams.Keys && w.Keys == wires.Keys
      && s[id] == FlushedStream(streams[id], TakeOf(takes, id))
        && w[id] == FlushedWire(streams[id], wires[id], TakeOf(takes, id))
    decreases ids
  {
    var k := ids[0];
    var s1, w1 := streams[k := FlushedStream(streams[k], TakeOf(takes, k))],
      wires[k := FlushedWire(streams[k], wires[k], TakeOf(takes, k))];
    forall j | 0 <= j < |ids[1..]| ensures ids[1..][j] != k { assert ids[1..][j] == ids[j + 1]; }
    if id == k {
      ServeOther(s1, w1, ids[1..], takes, id);
    } else {
      ServeOne(s1, w1, ids[1..], takes, id);
    }
  }

  /** Serving every stream once, in whatever order, is flushing all of them. */
  lemma ServeAll(u: Quic, ids: seq<nat>, takes: map<nat, nat>)
    requires u.streams.Keys <= u.wires.Keys && NoDup(ids) && forall id :: id in ids <==> id in u.streams
    ensures
      var (s, w) := Serve(u.streams, u.wires, ids, takes);
      u.(streams := s, wires := w) == FlushData(u, takes)
  {
    var (s, w) := Serve(u.streams, u.wires, ids, takes);
    var v := FlushData(u, takes);
    if ids == [] {
      assert v.streams == u.streams && v.wires == u.wires;
    } else {
      ServeOne(u.streams, u.wires, ids, takes, ids[0]);
      forall id | id in u.streams
        ensures s[id] == v.streams[id] && w[id] == v.wires[id]
      {
        ServeOne(u.streams, u.wires, ids, takes, id);
      }
      forall id | id in u.wires && id !in u.streams
        ensures w[id] == v.wires[id]
      {
        ServeOther(u.streams, u.wires, ids, takes, id);
      }
      assert s == v.streams;
      assert w == v.wires;
    }
  }

  class QuicTransport {
    var phase: Phase
    var status: Status
    var layer: Layer
    var layerOut: Bytes
    var pendingClose: bool
    var control: Control
    var streams: map<nat, Stream>
    var defaultPub: Option<nat>
    var defaultSub: Option<nat>
    var journal: seq<Journal>
    const limit: nat
    ghost var wires: map<nat, Wire>
    ghost var ctlWire: Wire
    ghost var used: set<nat>
    ghost var order: seq<nat>
    ghost var offered: nat
    ghost var closes: seq<Closing>

    ghost function View(): (u: Quic)
      reads this
    {
      Quic(phase, status, layer, layerOut, pendingClose, control, streams, defaultPub, defaultSub, journal, wires,
        ctlWire, used, order, offered, closes)
    }

    ghost predicate Valid()
      reads this
    {
      QuicInv(View())
    }

    // ----- Accepting bytes -----

    method JournalStreamBytes(id: nat, bytes: Bytes, packets: nat)
      modifies this`journal
      ensures journal == JournalBytes(old(journal), id, bytes, packets)
    {
      if bytes == [] && packets == 0 {
        return;
      }
      var i := PositionInJournal(journal, id);
      if i < |journal| {
        journal := journal[i := journal[i].(bytes := journal[i].bytes + bytes,
          packets := journal[i].packets + packets)];
      }
    }

    method AppendControlOutgoing(bytes: Bytes, packets: nat)
      modifies this
      ensures View() == AppendControl(old(View()), bytes, packets)
    {
      if bytes == [] {
        return;
      }
      control := control.(out := control.out + bytes);
      ctlWire := Grow(ctlWire, bytes);
      if status == Attempted && control.id.Some? {
        JournalStreamBytes(control.id.value, bytes, packets);
      }
    }

    method AppendToStream(id: nat, bytes: Bytes)
      requires id in streams && id in wires
      modifies this
      ensures View() == Note(Append(old(View()), id, bytes, 1), id, bytes, 1)
    {
      var s := streams[id];
      streams := streams[id := s.(outgoing := s.outgoing + bytes, pending := s.pending + 1)];
      wires := wires[id := Grow(wires[id], bytes)];
      if status == Attempted {
        JournalStreamBytes(id, bytes, 1);
      }
    }

    method EnqueueOnStream(id: nat, bytes: Bytes, room: bool) returns (r: Result<()>)
      requires Valid()
      modifies this
      ensures Valid() && (View(), r) == QuicModel.EnqueueOnStream(old(View()), id, bytes, room, limit)
    {
      EnqueueKeeps(View(), id, bytes, room, limit);
      if !room {
        return Err(BufferFull);
      }
      if id in streams {
        if streams[id].finishing || streams[id].finished {
          return Err(InvalidState);
        }
        if streams[id].pending >= limit {
          return Err(BufferFull);
        }
        AppendToStream(id, bytes);
      }
      r := Ok(());
    }

    // ----- Opening streams -----

    method RegisterStream(id: nat, role: Role)
      modifies this`streams, this`wires, this`used
      ensures View() == Register(old(View()), id, NewStream(role))
    {
      streams := streams[id := NewStream(role)];
      wires, used := wires[id := FRESH], used + {id};
    }

    method OpenBidiStream(role: Role, offer: Option<nat>) returns (r: Result<nat>)
      modifies this
      ensures (View(), r) == OpenStream(old(View()), role, offer)
    {
      if (layer != Up && status != Attempted) || phase == Gone {
        return Err(InvalidState);
      }
      if offer.None? {
        return Err(InternalError);
      }
      var id := offer.value;
      RegisterStream(id, role);
      if status == Attempted {
        journal := journal + [Journal(id, role, PriorityOf(role), [], 0)];
        order := order + [id];
      }
      r := Ok(id);
    }

    method EnsureDefaultPubStream(offer: Option<nat>) returns (r: Result<nat>)
      requires Valid() && (defaultPub.Some? || Unused(View(), offer))
      modifies this
      ensures Valid() && (View(), r) == EnsurePub(old(View()), offer)
    {
      EnsureExact(View(), offer);
      if defaultPub.Some? {
        return Ok(defaultPub.value);
      }
      r := OpenBidiStream(DefaultPub, offer);
      if r.Ok? {
        defaultPub := Some(r.value);
      }
    }

    method SetStreamPriority(id: nat, priority: nat) returns (r: Result<()>)
      requires Valid()
      modifies this
      ensures Valid() && (View(), r) == SetPriority(old(View()), id, priority)
    {
      SetPriorityKeeps(View(), id, priority);
      if id !in streams || streams[id].finishing || streams[id].finished {
        return Err(InvalidState);
      }
      var s := streams[id];
      streams := streams[id := s.(priority := priority, publishPriority := if s.publishPriority.Some?
        then Some(priority) else None)];
      var i := PositionInJournal(journal, id);
      if i < |journal| {
        var role := if journal[i].role.PriorityPub? then PriorityPub(priority) else journal[i].role;
        journal := journal[i := journal[i].(priority := priority, role := role)];
      }
      r := Ok(());
    }

    // ----- Ending streams -----

    method LoseLayer()
      modifies this
      ensures View() == LayerLost(old(View()))
    {
      ctlWire := ctlWire.(dropped := ctlWire.dropped + |layerOut|);
      layer, layerOut := Down, [];
    }

    method FinishControl()
      modifies this
      ensures
        var u := LayerLost(AppendControl(old(View()).(layerOut := []), old(layerOut), 0));
        View() == u.(ctl := u.ctl.(finishing := true))
    {
      var waiting := layerOut;
      layerOut := [];
      AppendControlOutgoing(waiting, 0);
      LoseLayer();
      control := control.(finishing := true);
    }

    method FinishStream(id: nat) returns (r: Result<()>)
      requires Valid()
      modifies this
      ensures Valid() && (View(), r) == QuicModel.FinishStream(old(View()), id)
    {
      FinishKeeps(View(), id);
      if phase == Gone {
        return Err(InvalidState);
      }
      if control.id == Some(id) {
        FinishControl();
      } else if id in streams {
        streams := streams[id := streams[id].(finishing := true)];
      } else {
        return Err(InvalidState);
      }
      r := Ok(());
    }

    method AbandonControl()
      modifies this
      ensures View() == DropControl(old(View()))
    {
      ctlWire := ctlWire.(dropped := ctlWire.dropped + |control.out|);
      control := control.(out := [], finishing := false, finished := true);
      LoseLayer();
    }

    method AbandonData(id: nat)
      requires id in streams && id in wires
      modifies this`streams, this`wires
      ensures
        var s, w := old(streams)[id], old(wires)[id];
        View() == old(View()).(
          streams := old(streams)[id := s.(outgoing := [], pending := 0, finishing := false, finished := true)],
          wires := old(wires)[id := w.(dropped := w.dropped + |s.outgoing|)])
    {
      var s := streams[id];
      wires := wires[id := wires[id].(dropped := wires[id].dropped + |s.outgoing|)];
      streams := streams[id := s.(outgoing := [], pending := 0, finishing := false, finished := true)];
    }

    method ResetStream(id: nat) returns (r: Result<()>)
      requires Valid()
      modifies this
      ensures Valid() && (View(), r) == QuicModel.ResetStream(old(View()), id)
    {
      ResetStreamKeeps(View(), id);
      r := if phase == Gone then Err(InvalidState) else Ok(());
      if control.id == Some(id) {
        AbandonControl();
      } else if id in streams {
        AbandonData(id);
      } else {
        r := Err(InvalidState);
      }
    }

    // ----- Flushing -----

    method FlushControlStream(take: nat)
      requires Valid()
      modifies this
      ensures Valid() && View() == FlushControl(old(View()), take)
    {
      FlushControlKeeps(View(), take);
      if control.id.None? {
        return;
      }
      if !control.finished && control.out != [] {
        var k := Min(take, |control.out|);
        ctlWire := Written(ctlWire, control.out[..k]);
        control := control.(out := control.out[k..]);
      } else {
        assert control.out[0..] == control.out && ctlWire.written + control.out[..0] == ctlWire.written;
        assert QuicModel.Taken(take, []) == 0;
      }
      if control.finishing && !control.finished && control.out == [] {
        control := control.(finishing := false, finished := true);
        ctlWire := Fin(ctlWire);
      }
    }

    /** One stream: write what QUIC takes, then issue a requested FIN if nothing is left. */
    method FlushStream(id: nat, take: nat)
      requires id in streams && id in wires
      modifies this`streams, this`wires
      ensures streams == old(streams)[id := FlushedStream(old(streams)[id], take)]
      ensures wires == old(wires)[id := FlushedWire(old(streams)[id], old(wires)[id], take)]
    {
      var s := streams[id];
      var k := 0;
      if s.outgoing != [] {
        k := Min(take, |s.outgoing|);
        var rest := s.outgoing[k..];
        wires := wires[id := Written(wires[id], s.outgoing[..k])];
        s := s.(outgoing := rest, pending := if rest == [] then 0 else s.pending);
      } else {
        assert wires[id].written + [] == wires[id].written;
        wires := wires[id := Written(wires[id], [])];
      }
      if s.finishing && !s.finished && s.outgoing == [] {
        s := s.(finishing := false, finished := true);
        wires := wires[id := Fin(wires[id])];
      }
      streams := streams[id := s];
    }

    method FlushDataStreams(takes: map<nat, nat>)
      requires Valid()
      modifies this`streams, this`wires
      ensures Valid() && View() == FlushData(old(View()), takes)
    {
      ghost var u := View();
      FlushDataKeeps(u, takes);
      var serving := StreamSendOrder(streams);
      ServedOnce(streams, serving);
      ServeAll(u, serving, takes);
      FlushInOrder(serving, takes);
    }

    method FlushInOrder(serving: seq<nat>, takes: map<nat, nat>)
      requires (forall id :: id in serving ==> id in streams && id in wires)
      modifies this`streams, this`wires
      ensures (streams, wires) == Serve(old(streams), old(wires), serving, takes)
    {
      ghost var goal := Serve(streams, wires, serving, takes);
      assert serving[0..] == serving;
      for i := 0 to |serving|
        invariant forall id :: id in serving ==> id in streams && id in wires
        invariant goal == Serve(streams, wires, serving[i..], takes)
      {
        assert serving[i..][1..] == serving[i + 1..];
        FlushStream(serving[i], TakeOf(takes, serving[i]));
      }
    }

    method CloseWhenDrained()
      modifies this
      ensures View() == CloseIfDrained(old(View()))
    {
      if pendingClose && control.out == [] {
        pendingClose := false;
        closes := closes + [Closing(|ctlWire.written| == offered, ctlWire.dropped)];
        LoseLayer();
      }
    }

    /** The flush and close part of a tick. */
    method HandleTick(take: nat, takes: map<nat, nat>)
      requires Valid()
      modifies this
      ensures Valid() && View() == Tick(old(View()), take, takes)
    {
      TickKeeps(View(), take, takes);
      if phase == Gone {
        return;
      }
      PullKeeps(View());
      if !control.finishing && !control.finished {
        var waiting := layerOut;
        layerOut := [];
        AppendControlOutgoing(waiting, 0);
      }
      FlushControlStream(take);
      FlushDataStreams(takes);
      CloseWhenDrained();
    }

    // ----- Replaying rejected early data -----

    method ReplayControl(j: Journal, id: nat)
      requires j.role == ControlRole
      modifies this`control, this`ctlWire, this`offered, this`used
      ensures View() == ReplayOne(old(View()), j, id)
    {
      control := control.(id := Some(id), out := control.out + j.bytes);
      ctlWire, offered, used := Grow(ctlWire, j.bytes), offered + |j.bytes|, used + {id};
    }

    method ReplayData(j: Journal, id: nat)
      requires j.role != ControlRole
      modifies this`streams, this`wires, this`used, this`defaultPub, this`defaultSub
      ensures View() == ReplayOne(old(View()), j, id)
    {
      var s := Stream(j.priority, None, j.bytes, j.packets, false, false);
      if j.role.PriorityPub? {
        s := s.(publishPriority := Some(j.role.level));
      }
      streams := streams[id := s];
      wires, used := wires[id := Grow(FRESH, j.bytes)], used + {id};
      if j.role == DefaultPub {
        defaultPub := Some(id);
      } else if j.role == DefaultSub {
        defaultSub := Some(id);
      }
    }

    method ReplayEntry(j: Journal, id: nat)
      modifies this
      ensures View() == ReplayOne(old(View()), j, id)
    {
      if j.role == ControlRole {
        ReplayControl(j, id);
      } else {
        ReplayData(j, id);
      }
    }

    /** `ids` are the streams QUIC opens, one after the other; the loop ends when it opens no more. */
    method ReplayEarlyStreamJournals(journals: seq<Journal>, ids: seq<nat>)
      modifies this
      ensures View() == ReplayAll(old(View()), journals, ids)
    {
      ghost var u := View();
      var i := 0;
      assert journals[0..] == journals && ids[0..] == ids;
      while i < |journals|
        invariant i <= |journals| && i <= |ids|
        invariant ReplayAll(View(), journals[i..], ids[i..]) == ReplayAll(u, journals, ids)
      {
        if i == |ids| {
          return;
        }
        assert journals[i..][1..] == journals[i + 1..] && ids[i..][1..] == ids[i + 1..];
        ReplayEntry(journals[i], ids[i]);
        i := i + 1;
      }
    }

    // ----- Session replay -----

    method BufferOnDefaultStream(bytes: Bytes, offer: Option<nat>, room: bool) returns (r: Result<nat>)
      requires Valid() && (defaultPub.Some? || Unused(View(), offer))
      modifies this
      ensures Valid() && (View(), r) == BufferOnDefault(old(View()), bytes, offer, limit, room)
    {
      r := EnsureDefaultPubStream(offer);
      if r.Err? {
        return;
      }
      var id := r.value;
      if id in streams {
        if streams[id].finishing || streams[id].finished {
          return Err(InvalidState);
        }
        if streams[id].pending >= limit {
          return Err(BufferFull);
        }
      }
      var queued := EnqueueOnStream(id, bytes, room);
      if queued.Err? {
        r := Err(queued.error);
      }
    }

    /** The connection cannot carry the packet: the exchange fails. */
    method DropFirst(engine: MqttEngine, error: Error)
      requires engine.Wired() && engine.replay != []
      modifies engine, engine.inflight
      ensures engine.Wired()
      ensures
        var s, h := old(engine.View()), old(engine.replay)[0];
        engine.View() == EngineModel.FailOperation(s.(sess := s.sess.(replay := s.sess.replay[1..])), h.id, h.packet,
          error)
    {
      var h := engine.replay[0];
      engine.replay := engine.replay[1..];
      engine.FailOperation(h.id, h.packet, error);
    }

    /** The packet is on its stream: track it there. */
    method TrackFirst(engine: MqttEngine, stream: nat) returns (error: Option<Error>)
      requires engine.Wired() && engine.replay != []
      modifies engine, engine.inflight
      ensures engine.Wired()
      ensures
        var s, h := old(engine.View()), old(engine.replay)[0];
        match Push(EngineModel.LineOf(engine.options), s.sess.inflight, h.id, h.packet, EngineModel.QosOf(h.packet),
          Some(stream), s.clock.now)
        case Err(e) => error == Some(e) && engine.View() == s
        case Ok(q) =>
          && error == None
          && engine.View() == s.(sess := s.sess.(replay := s.sess.replay[1..], inflight := q),
                                 clock := EngineModel.StartDeadline(engine.options, s.clock, EngineModel.PublishOp,
                                   Some(h.id)))
    {
      var h := engine.replay[0];
      var pushed := engine.inflight.PushWithStreamAt(h.id, h.packet, EngineModel.QosOf(h.packet), Some(stream),
        engine.clock.now);
      if pushed.Err? {
        return Some(pushed.error);
      }
      engine.StartDeadline(EngineModel.PublishOp, Some(h.id));
      engine.replay := engine.replay[1..];
      error := None;
    }

    method UnsendableFirst(engine: MqttEngine) returns (error: Option<Error>)
      requires engine.Wired() && engine.replay != []
      ensures error == Unsendable(engine.options, engine.View(), engine.replay[0].packet)
    {
      var packet := engine.replay[0].packet;
      var encoded := engine.options.encode(packet);
      if encoded.None? {
        return Some(EncodingFailed);
      }
      if !EngineModel.Capable(engine.caps, packet) {
        return Some(InvalidConfiguration);
      }
      error := EngineModel.CheckSize(engine.options, engine.caps, |encoded.value|);
    }

    /** Hand the first deferred exchange to the default stream, or fail it, or say why it has to wait. */
    method RouteEntry(engine: MqttEngine, offer: Option<nat>, room: bool)
        returns (going: bool, failure: Option<Error>, ghost turn: Turn)
      requires Valid() && engine.Wired() && engine.replay != [] && (defaultPub.Some? || Unused(View(), offer))
      modifies this, engine, engine.inflight
      ensures engine.Wired() && Valid() && View() == turn.transport && (going <==> turn.Go?)
      ensures turn == RouteOne(engine.options, old(engine.View()), old(View()), offer, limit, room)
      ensures engine.View() == if turn.Go? then turn.engine else old(engine.View())
      ensures turn.Stop? ==> failure == turn.failure
    {
      turn := RouteOne(engine.options, engine.View(), View(), offer, limit, room);
      going, failure := false, None;
      var error := UnsendableFirst(engine);
      if error.Some? {
        DropFirst(engine, error.value);
        return true, None, turn;
      }
      var h := engine.replay[0];
      if h.packet.Publish? && !engine.inflight.CanPushPublish() {
        return;
      }
      var stream := BufferOnDefaultStream(engine.options.encode(h.packet).value, offer, room);
      if stream.Err? {
        failure := Some(stream.error);
        return;
      }
      failure := TrackFirst(engine, stream.value);
      going := failure.None?;
    }

    /** One round, relative to the outcome of the whole loop. */
    method RouteNext(engine: MqttEngine, offer: Option<nat>, room: nat -> bool, handled: nat, ghost log: seq<Routed>,
        ghost goal: Outcome)
      returns (going: bool, failure: Option<Error>, ghost more: seq<Routed>)
      requires Valid() && engine.Wired() && engine.replay != [] && (defaultPub.Some? || Unused(View(), offer))
          && handled == |log|
      requires Route(engine.options, engine.View(), View(), offer, limit, room, log) == goal
      modifies this, engine, engine.inflight
      ensures engine.Wired() && Valid() && (defaultPub.Some? || Unused(View(), offer))
      ensures !going ==> Outcome(engine.View(), View(), log, failure) == goal
      ensures going ==> |more| == handled + 1 && |engine.replay| < old(|engine.replay|)
      ensures going ==> Route(engine.options, engine.View(), View(), offer, limit, room, more) == goal
    {
      ghost var s, u, turn := engine.View(), View(), Stop(View(), None);
      going, failure, turn := RouteEntry(engine, offer, room(handled));
      RouteUnfold(engine.options, s, u, offer, limit, room, log, turn);
      more := if turn.Go? then log + [turn.routed] else log;
    }

    method RouteSessionWork(engine: MqttEngine, offer: Option<nat>, room: nat -> bool)
        returns (failure: Option<Error>, ghost log: seq<Routed>)
      requires Valid() && engine.Wired() && (defaultPub.Some? || Unused(View(), offer))
      modifies this, engine, engine.inflight
      ensures engine.Wired() && Valid()
      ensures Outcome(engine.View(), View(), log, failure)
          == Route(engine.options, old(engine.View()), old(View()), offer, limit, room, [])
    {
      log := [];
      var handled := 0;
      ghost var goal := Route(engine.options, engine.View(), View(), offer, limit, room, []);
      while engine.replay != []
        invariant engine.Wired() && Valid() && (defaultPub.Some? || Unused(View(), offer)) && handled == |log|
        invariant Route(engine.options, engine.View(), View(), offer, limit, room, log) == goal
        decreases |engine.replay|
      {
        var going, why;
        ghost var more;
        going, why, more := RouteNext(engine, offer, room, handled, log, goal);
        if !going {
          return why, log;
        }
        log, handled := more, handled + 1;
      }
      failure := None;
    }
  }
}
