/** The engine as an object: its fields are updated in place, its queues are the objects of `PriorityQueues`
    and `InflightClass`, and its loops are loops. Every method is proved equal to the function of
    `EngineModel` or `EngineRuns` that the whole-run theorems speak about. */
module EngineClass {
  import opened Basics
  import opened Timestamps
  import opened Packets
  import opened PriorityQueues
  import opened InflightQueues
  import opened InflightClass
  import opened EngineModel
  import opened EngineRuns
  import opened SessionBooks
  import opened SessionInvariant
  import opened Commands
  import opened Resumption
  import opened IncomingPackets
  import opened TimeRange
  import opened FlowControl
  import opened Safety
  import opened ConnectionControl
  import opened Timers
  import opened Reachable

  /** The engine once CONNECT is in the outgoing buffer. */
  function Awaiting(c: Options, s: Engine, control: nat): (r: Engine) {
    s.(sess := s.sess.(previous := Outstanding(s.sess), replay := []),
       caps := s.caps.(control := control),
       link := s.link.(closed := false, connecting := true, reauth := false),
       hist := s.hist.(emitted := [], reauths := 0, successes := 0, authMethods := []),
       clock := EngineModel.StartDeadline(c, s.clock.(nextReconnect := None), ConnectOp, None))
  }

  class MqttEngine {
    const options: Options
    const queue: PriorityQueue<Packet>
    const inflight: InflightQueue
    var link: Link
    var queuedBytes: nat
    var reserved: set<nat>
    var previous: seq<Held>
    var replay: seq<Held>
    var caps: Caps
    var clock: Clock
    var cursor: Option<u16>
    var events: seq<Event>
    var resends: seq<(nat, Bytes)>
    ghost var hist: History

    /** The two queues are well formed and configured like the engine. */
    ghost predicate Wired()
      reads this, queue, inflight
    {
      queue.Valid() && inflight.Valid() && inflight.line == LineOf(options) && queue.capacity == options.maxPackets
    }

    ghost function Sess(): (q: Session)
      requires inflight.Valid()
      reads this, queue, inflight
    {
      Session(queue.Queued(), queuedBytes, reserved, inflight.View(), previous, replay)
    }

    ghost function View(): (s: Engine)
      requires inflight.Valid()
      reads this, queue, inflight
    {
      Engine(link, Sess(), caps, clock, cursor, events, resends, hist)
    }

    /** What holds also inside operations. */
    ghost predicate Running()
      reads this, queue, inflight
    {
      Wired() && Always(options, View())
    }

    /** What holds between operations, however they are called. */
    ghost predicate Valid()
      reads this, queue, inflight
    {
      Wired() && Codec(options) && Healthy(options, View())
    }

    constructor (options: Options, now: Time)
      requires Codec(options) && Horizon(options, now)
      ensures Valid() && fresh(queue) && fresh(inflight) && this.options == options && View() == Initial(options, now)
    {
      this.options := options;
      queue := new PriorityQueue<Packet>(options.maxPackets);
      inflight := new InflightQueue(options.receiveMaximum, Line(options.v5, options.retransmission));
      link := Link(false, false, false, false, false, [], [], []);
      queuedBytes, reserved, previous, replay := 0, {}, [], [];
      caps := Caps(None, 2, true, 0, options.keepAlive, map[], 6, 0);
      clock := Clock(now, now, None, options.reconnect, 0, None, []);
      cursor, events, resends := None, [], [];
      hist := History(Tickets(0, map[], [], []), Credit(0, {}, 0), None, [], [], 0, 0, 0, 0, [], [], [], [],
        Arrivals([], 0, []), 0, 0, 0);
      new;
      InitialHealthy(options, now);
    }

    // ----- Finishing operations -----

    method FinishOperation(id: nat)
      requires Wired()
      modifies this
      ensures Wired() && View() == Release(old(View()), id)
    {
      reserved := reserved - {id};
      if reserved == {} {
        caps := caps.(replayReserve := 0);
      }
      clock := clock.(deadlines := DropDeadlinesOf(clock.deadlines, id));
    }

    method FailOperation(id: nat, packet: Packet, error: Error)
      requires Wired()
      modifies this, inflight
      ensures Wired() && View() == EngineModel.FailOperation(old(View()), id, packet, error)
    {
      hist := hist.(tickets := MarkFailed(hist.tickets, id), credit := GiveBack(hist.credit, inflight.View(), id));
      var _ := inflight.AcknowledgeEntry(id);
      FinishOperation(id);
      events := events + [OperationFailed(KindOf(packet), Some(id), error)];
    }

    method FailEach(entries: seq<Held>, error: Error)
      requires Wired()
      modifies this, inflight
      ensures Wired() && View() == FailAll(old(View()), entries, error)
    {
      ghost var start := View();
      assert entries[0..] == entries;
      for i := 0 to |entries|
        invariant Wired() && FailAll(View(), entries[i..], error) == FailAll(start, entries, error)
      {
        assert entries[i..][1..] == entries[i + 1..];
        FailOperation(entries[i].id, entries[i].packet, error);
      }
    }

    // ----- Losing the connection -----

    method CloseInput()
      requires Wired()
      modifies this
      ensures Wired() && View() == EngineModel.CloseInput(old(View()))
    {
      link := link.(connected := false, connecting := false, closed := true, reauth := false, responses := [],
        parser := []);
      clock := clock.(deadlines := [], pingSent := None);
    }

    /** Remove stale aliases from every queued packet and count its bytes again. The implementation panics on a packet
        that it cannot encode; here the history counts it. */
    method NormalizeQueue()
      requires Wired()
      modifies this`queuedBytes, this`hist, queue
      ensures
        && Wired() && queue.Queued() == StripQueue(old(queue.Queued()))
        && queuedBytes == QueueLength(options, queue.Queued())
        && hist == old(hist).(unencodable := old(hist).unencodable + Unencodable(options, queue.Queued()))
    {
      queue.UpdateItems(StripAliases);
      assert queue.Queued() == StripQueue(old(queue.Queued()));
      var waiting := queue.Iterate();
      queuedBytes := 0;
      for i := 0 to |waiting|
        invariant Wired() && queue.Queued() == waiting == StripQueue(old(queue.Queued()))
        invariant queuedBytes + QueueLength(options, waiting[i..]) == QueueLength(options, waiting)
        invariant hist == old(hist).(unencodable := hist.unencodable)
        invariant hist.unencodable + Unencodable(options, waiting[i..])
               == old(hist.unencodable) + Unencodable(options, waiting)
      {
        assert waiting[i..][1..] == waiting[i + 1..];
        var encoded := options.encode(waiting[i].item);
        if encoded.Some? {
          queuedBytes := queuedBytes + |encoded.value|;
        } else {
          hist := hist.(unencodable := hist.unencodable + 1);
        }
      }
    }

    method EndSession()
      requires Wired()
      modifies this, inflight
      ensures Wired() && View() == EngineModel.EndSession(old(View()))
    {
      link := link.(hasSession := false);
      var outstanding := inflight.SnapshotForReconnect();
      FailEach(outstanding, SessionExpired);
      var deferred := replay;
      replay := [];
      FailEach(deferred, SessionExpired);
    }

    /** Forget what belongs to the old transport. */
    method Detach()
      requires Wired()
      modifies this, queue, inflight
      ensures Wired() && View() == Detached(options, old(View()))
    {
      CloseInput();
      link := link.(out := []);
      resends := [];
      inflight.UpdateReceiveMaximum(options.receiveMaximum);
      NormalizeQueue();
      caps := InitialCaps(options, caps);
    }

    method ResetForNewTransport()
      requires Wired()
      modifies this, queue, inflight
      ensures Wired() && View() == Reset(options, old(View()))
    {
      Detach();
      if options.sessionless {
        EndSession();
      }
      clock := clock.(nextReconnect := None, lastSent := clock.now, pingSent := None);
    }

    method ScheduleReconnect(now: Time)
      requires Wired()
      modifies this
      ensures Wired() && View() == EngineModel.ScheduleReconnect(options, old(View()), now)
    {
      if clock.nextReconnect.Some? {
        return;
      }
      if options.maxAttempts > 0 && clock.attempts >= options.maxAttempts {
        return;
      }
      var multiplier := 1;
      for i := 0 to Min(clock.attempts, 10)
        invariant multiplier == Pow2(i)
      {
        multiplier := 2 * multiplier;
      }
      var delay := Min(options.baseDelayMs * multiplier, options.maxDelayMs);
      clock := clock.(nextReconnect := Some(now + delay * NANOS_PER_MILLI),
        attempts := (clock.attempts + 1) % ATTEMPT_WRAP);
      events := events + [ReconnectScheduled(clock.attempts, delay)];
      hist := hist.(delays := hist.delays + [delay], scheduled := hist.scheduled + 1);
    }

    method ConnectionLostAt(now: Time)
      requires Wired()
      modifies this, queue, inflight
      ensures Wired() && View() == ConnectionLost(options, old(View()), now)
    {
      var scheduled := clock.nextReconnect;
      ResetForNewTransport();
      clock := clock.(nextReconnect := scheduled);
      if clock.reconnect {
        ScheduleReconnect(now);
      }
    }

    method FailConnection(error: Error)
      requires Wired()
      modifies this, queue, inflight
      ensures Wired() && View() == EngineModel.FailConnection(options, old(View()), error)
    {
      ConnectionLostAt(clock.now);
      events := events + [Failure(error), Disconnected];
    }

    // ----- Output -----

    method EnqueuePacket(packet: Packet) returns (error: Option<Error>)
      requires Wired()
      modifies this
      ensures Wired() && error == EnqueueError(options, old(View()), packet)
      ensures View() == if error.None? then Enqueue(options, old(View()), packet) else old(View())
    {
      if options.strict && options.v5 && link.connecting && options.authMethod.Some? && !packet.Auth?
        && !packet.Disconnect? {
        return Some(InvalidState);
      }
      if |link.out| >= options.maxPackets {
        return Some(BufferFull);
      }
      if !Capable(caps, packet) {
        return Some(InvalidConfiguration);
      }
      var encoded := options.encode(packet);
      if encoded.None? {
        return Some(EncodingFailed);
      }
      error := CheckSize(options, caps, |encoded.value|);
      if error.Some? {
        return;
      }
      if options.maxBytes.Some? && queuedBytes + TotalLength(link.out) + |encoded.value| > options.maxBytes.value {
        return Some(BufferFull);
      }
      link := link.(out := link.out + [encoded.value]);
      clock := clock.(lastSent := clock.now);
    }

    method FlushResponses()
      requires Wired()
      modifies this, queue, inflight
      ensures Wired() && View() == Flush(options, old(View()))
    {
      ghost var start := View();
      while link.responses != []
        invariant Wired() && FlushOut(options, View()) == FlushOut(options, start)
        decreases |link.responses|
      {
        var packet := link.responses[0];
        var encoded := options.encode(packet);
        if options.maxBytes.Some? && encoded.Some? && |encoded.value| > options.maxBytes.value {
          FailConnection(BufferFull);
          return;
        }
        var error := EnqueuePacket(packet);
        if error.None? {
          link := link.(responses := link.responses[1..]);
        } else if error.value == BufferFull {
          return;
        } else {
          FailConnection(error.value);
          return;
        }
      }
    }

    method StartDeadline(kind: Kind, id: Option<nat>)
      requires Wired()
      modifies this`clock
      ensures Wired() && View() == old(View()).(clock := EngineModel.StartDeadline(options, old(clock), kind, id))
    {
      var timeout := TimeoutOf(options.timeouts, kind);
      if timeout.Some? {
        var rest := DropDeadline(clock.deadlines, kind, id);
        clock := clock.(deadlines := rest + [Deadline(kind, id, clock.now + timeout.value, timeout.value)]);
      }
    }

    /** Track a replayed packet that was just put into the outgoing buffer. */
    method TrackReplay(h: Held)
      requires Wired() && replay != [] && h == replay[0]
      modifies this, inflight
      ensures Wired()
      ensures
        var s2 := old(View()).(sess := old(View()).sess.(replay := old(replay)[1..]), hist := LogReplay(old(hist), h));
        View() == match Push(LineOf(options), s2.sess.inflight, h.id, h.packet, QosOf(h.packet), None, s2.clock.now)
                  case Ok(q) => s2.(sess := s2.sess.(inflight := q),
                    clock := EngineModel.StartDeadline(options, s2.clock, PublishOp, Some(h.id)),
                    hist := Exempt(s2.hist, h))
                  case Err(e) => EngineModel.FailOperation(s2, h.id, h.packet, e)
    {
      replay := replay[1..];
      hist := LogReplay(hist, h);
      var pushed := inflight.PushWithStreamAt(h.id, h.packet, QosOf(h.packet), None, clock.now);
      if pushed.Err? {
        FailOperation(h.id, h.packet, pushed.error);
      } else {
        hist := Exempt(hist, h);
        StartDeadline(PublishOp, Some(h.id));
      }
    }

    method ProcessReplay()
      requires Wired()
      modifies this, inflight
      ensures Wired() && View() == EngineModel.ProcessReplay(options, old(View()))
    {
      ghost var start := View();
      while replay != []
        invariant Wired() && EngineModel.ProcessReplay(options, View()) == EngineModel.ProcessReplay(options, start)
        decreases |replay|
      {
        var h := replay[0];
        if h.packet.Publish? && !inflight.CanPushPublish() {
          return;
        }
        var error := EnqueuePacket(h.packet);
        if error.None? {
          TrackReplay(h);
        } else if error.value == BufferFull {
          return;
        } else {
          replay := replay[1..];
          FailOperation(h.id, h.packet, error.value);
        }
      }
    }

    /** Take the head of the queue out and its bytes off the count. */
    method DequeueHead(bytes: Bytes) returns (head: Ranked<Packet>)
      requires Wired() && queue.Queued() != []
      modifies this`queuedBytes, this`hist, queue
      ensures Wired() && View() == EngineModel.Dequeue(old(View()), bytes) && head == old(queue.Queued())[0]
    {
      hist := hist.(arrivals := DropStamp(hist.arrivals),
        shortfall := hist.shortfall + Monus(|bytes|, queuedBytes));
      queuedBytes := Monus(queuedBytes, |bytes|);
      var first := queue.Dequeue();
      head := first.value;
    }

    /** Take the head of the queue out and report that the connection cannot carry it. */
    method RejectHead(bytes: Bytes, error: Error)
      requires Wired() && queue.Queued() != []
      modifies this, queue, inflight
      ensures Wired() && View() == EngineModel.RejectHead(old(View()), bytes, error)
    {
      ghost var before := Shelf(Sess(), hist.tickets);
      var head := DequeueHead(bytes);
      var packet := head.item;
      if packet.Publish? && packet.id.Some? {
        FailOperation(packet.id.value, packet, error);
      } else {
        events := events + [Failure(error)];
      }
      hist := hist.(points := hist.points + [Rejected(packet, before, Shelf(Sess(), hist.tickets))]);
    }

    /** Take the head of the queue out to send it. */
    method DepartHead(bytes: Bytes) returns (head: Ranked<Packet>)
      requires Wired() && queue.Queued() != []
      modifies this`queuedBytes, this`hist, queue
      ensures Wired() && View() == Departed(old(View()), bytes) && head == old(queue.Queued())[0]
    {
      hist := hist.(arrivals := Depart(hist.arrivals, queue.Queued()[0]));
      head := DequeueHead(bytes);
    }

    /** Track a publication that is being sent. The implementation panics if this fails; here the history says so. */
    method TrackSent(packet: Packet, id: nat)
      requires Wired()
      modifies this, inflight
      ensures Wired() && View() == EngineModel.TrackSent(options, old(View()), packet, id)
    {
      var pushed := inflight.PushWithStreamAt(id, packet, QosOf(packet), None, clock.now);
      if pushed.Ok? {
        StartDeadline(PublishOp, Some(id));
      } else {
        hist := hist.(failures := hist.failures + [id]);
      }
    }

    /** Take the head of the queue out, track it if it needs an acknowledgement, and send it. */
    method SendHead(bytes: Bytes)
      requires Wired() && queue.Queued() != []
      modifies this, queue, inflight
      ensures Wired() && View() == EngineModel.SendHead(options, old(View()), bytes)
    {
      var head := DepartHead(bytes);
      var packet := head.item;
      var acknowledged := packet.Publish? && packet.qos > 0 && packet.id.Some?;
      ghost var reused := acknowledged && Has(inflight.View(), packet.id.value);
      if acknowledged {
        TrackSent(packet, packet.id.value);
      }
      link := link.(out := link.out + [bytes]);
      clock := clock.(lastSent := clock.now);
      hist := LogSend(hist, head, acknowledged, reused);
    }

    method EmitHead(encoding: Option<Bytes>)
      requires Wired() && EmitReady(options, View())
      modifies this, queue, inflight
      ensures Wired() && View() == EmitOne(options, old(View()), encoding)
    {
      var head := queue.Peek();
      var packet := head.value.item;
      var encoded := if encoding.Some? then encoding else options.encode(packet);
      if encoded.None? {
        var _ := queue.Dequeue();
        events := events + [Failure(EncodingFailed)];
        hist := hist.(arrivals := DropStamp(hist.arrivals));
        return;
      }
      var error := if !Capable(caps, packet) then Some(InvalidConfiguration)
        else CheckSize(options, caps, |encoded.value|);
      if error.Some? {
        RejectHead(encoded.value, error.value);
      } else {
        SendHead(encoded.value);
      }
    }

    method ProcessQueueWithEncoding(firstEncoding: Option<Bytes>)
      requires Wired()
      modifies this, queue, inflight
      ensures Wired() && View() == ProcessQueue(options, old(View()), firstEncoding)
    {
      if !link.connected {
        return;
      }
      FlushResponses();
      if !link.connected {
        return;
      }
      ProcessReplay();
      if !link.connected || link.responses != [] || replay != [] {
        return;
      }
      EmitWaiting(firstEncoding);
    }

    method EmitWaiting(firstEncoding: Option<Bytes>)
      requires Wired()
      modifies this, queue, inflight
      ensures Wired() && View() == EmitLoop(options, old(View()), firstEncoding)
    {
      ghost var start := View();
      var encoding := firstEncoding;
      while |link.out| < options.maxPackets
        invariant Wired() && EmitLoop(options, View(), encoding) == EmitLoop(options, start, firstEncoding)
        decreases |queue.Queued()|
      {
        var head := queue.Peek();
        if head.None? {
          return;
        }
        var packet := head.value.item;
        if packet.Publish? && packet.qos > 0 && !inflight.CanPushPublish() {
          return;
        }
        EmitHead(encoding);
        encoding := None;
      }
    }

    // ----- Packet identifiers -----

    method InUse(id: nat) returns (r: bool)
      requires Wired()
      ensures r <==> Busy(Sess(), id)
    {
      r := inflight.Contains(id);
      r := r || id in reserved;
    }

    /** At most one round through all identifiers, starting after the last one handed out. */
    method NextPacketId() returns (r: Result<nat>)
      requires Wired()
      modifies this`cursor
      ensures Wired() && (View(), r) == NextId(old(View()))
    {
      if cursor.None? {
        return Err(ProtocolViolation);
      }
      ghost var q, first := Sess(), cursor.value;
      var i := 0;
      while i < MAX_ID
        invariant 0 <= i <= MAX_ID && Wired() && cursor.Some? && Sess() == q
        invariant View() == old(View()).(cursor := cursor)
        invariant SearchId(q, first, MAX_ID) == SearchId(q, cursor.value, MAX_ID - i)
      {
        var id := NextCursor(cursor.value);
        cursor := Some(id);
        var used := InUse(id);
        if !used {
          return Ok(id);
        }
        i := i + 1;
      }
      r := Err(PacketIdExhausted);
    }

    method CandidatePacketId(requested: Option<u16>) returns (r: Result<nat>)
      requires Wired()
      modifies this`cursor
      ensures Wired() && (View(), r) == CandidateId(old(View()), requested)
    {
      if requested.Some? {
        var used := InUse(requested.value);
        r := if requested.value == 0 || used then Err(InvalidPacketId) else Ok(requested.value);
      } else {
        r := NextPacketId();
      }
    }

    // ----- Commands -----

    /** Validate, identify and encode a publication; nothing but the cursor changes. */
    method AdmissionOf(cmd: Command) returns (a: Admission)
      requires Wired()
      modifies this`cursor
      ensures Wired() && (View(), a) == Decide(options, old(View()), cmd)
    {
      var valid := ValidatePublish(caps, cmd);
      if valid.Err? {
        return Refused(valid.error);
      }
      var waiting := queue.Iterate();
      if |waiting| >= options.maxPackets {
        return Refused(BufferFull);
      }
      var id: Option<nat> := None;
      if cmd.qos > 0 {
        var candidate := CandidatePacketId(cmd.id);
        if candidate.Err? {
          return Refused(candidate.error);
        }
        id := Some(candidate.value);
      }
      var packet := PublishPacket(options, cmd, valid.value.0, id);
      var encoded := options.encode(packet);
      if encoded.None? {
        return Refused(EncodingFailed);
      }
      var reserve := Max(caps.control, caps.replayReserve);
      var size := CheckSize(options, caps, |encoded.value|);
      if size.Some? {
        return Refused(size.value);
      }
      if options.maxBytes.Some? && queuedBytes + TotalLength(link.out)
        + (|encoded.value| + reserve) > options.maxBytes.value {
        return Refused(BufferFull);
      }
      a := Accepted(packet, id, valid.value.1, encoded.value);
    }

    /** Reserve the identifier of an accepted publication, and space to replay it. */
    method ReserveId(id: nat, bytes: Bytes)
      requires Wired()
      modifies this
      ensures Wired()
      ensures
        View() == old(View()).(
          sess := old(Sess()).(reserved := old(reserved) + {id}),
          caps := old(caps).(replayReserve := Max(old(caps).replayReserve, |bytes|)),
          hist := old(hist).(tickets := Issue(old(hist).tickets, id)))
    {
      reserved := reserved + {id};
      caps := caps.(replayReserve := Max(caps.replayReserve, |bytes|));
      hist := hist.(tickets := Issue(hist.tickets, id));
    }

    method PushQueue(packet: Packet, priority: nat, bytes: Bytes)
      requires Wired() && queue.size < options.maxPackets
      modifies this`queuedBytes, queue
      ensures Wired()
      ensures
        View() == old(View()).(
          sess := old(Sess()).(queue := InsertDraining(old(queue.Queued()), Ranked(priority, packet)),
            queuedBytes := old(queuedBytes) + |bytes|))
    {
      queuedBytes := queuedBytes + |bytes|;
      queue.Enqueue(priority, packet);
    }

    method AdmitPacket(packet: Packet, priority: nat, id: Option<nat>, alias: Option<nat>, bytes: Bytes)
      requires Wired() && packet.Publish? && queue.size < options.maxPackets
      modifies this, queue
      ensures Wired() && View() == Admit(old(View()), packet, priority, id, alias, bytes)
    {
      ghost var before := Shelf(Sess(), hist.tickets);
      hist := hist.(arrivals := Arrive(hist.arrivals, queue.Queued(), priority));
      if id.Some? {
        ReserveId(id.value, bytes);
      }
      if alias.Some? {
        caps := caps.(aliases := caps.aliases[alias.value := packet.topic]);
      }
      PushQueue(packet, priority, bytes);
      hist := hist.(points := hist.points + [Admitted(packet, before, Shelf(Sess(), hist.tickets))]);
    }

    /** The number of waiting packets is what the queue says it is. */
    lemma QueueSize()
      requires Wired()
      ensures queue.size == |queue.Queued()|
    {
      SameItems(queue.buckets);
    }

    method Publish(cmd: Command) returns (r: Result<Option<nat>>)
      requires Valid()
      modifies this, queue, inflight
      ensures Valid() && (View(), r) == DoPublish(options, old(View()), cmd)
    {
      PublishHealthy(options, View(), cmd);
      r := PublishNow(cmd);
    }

    method PublishNow(cmd: Command) returns (r: Result<Option<nat>>)
      requires Wired()
      modifies this, queue, inflight
      ensures Wired() && (View(), r) == DoPublish(options, old(View()), cmd)
    {
      var a := AdmissionOf(cmd);
      if a.Refused? {
        return Err(a.error);
      }
      QueueSize();
      DecideFacts(options, old(View()), cmd);
      var head := queue.Peek();
      var first := if head.None? then Some(a.bytes) else None;
      AdmitPacket(a.packet, cmd.priority, a.id, a.alias, a.bytes);
      ProcessQueueWithEncoding(first);
      r := Ok(a.id);
    }

    method Request(kind: Kind, requested: Option<u16>, filters: seq<string>, refused: bool) returns (r: Result<nat>)
      requires Wired()
      modifies this, inflight
      ensures Wired() && (View(), r) == DoRequest(options, old(View()), kind, requested, filters, refused)
    {
      if options.strict && options.v5 && link.connecting && options.authMethod.Some? {
        return Err(InvalidState);
      }
      if refused {
        return Err(InvalidConfiguration);
      }
      r := CandidatePacketId(requested);
      if r.Ok? {
        r := SendRequest(kind, r.value, filters);
      }
    }

    method SendRequest(kind: Kind, id: nat, filters: seq<string>) returns (r: Result<nat>)
      requires Wired()
      modifies this, inflight
      ensures Wired() && (View(), r) == EngineModel.SendRequest(options, old(View()), kind, id, filters)
    {
      var packet := if kind == SubscribeOp then Subscribe(id, filters) else Unsubscribe(id, filters);
      var error := EnqueuePacket(packet);
      if error.Some? {
        return Err(error.value);
      }
      var pushed := inflight.PushWithStreamAt(id, packet, 1, None, clock.now);
      if pushed.Err? {
        return Err(pushed.error);
      }
      reserved := reserved + {id};
      StartDeadline(kind, Some(id));
      r := Ok(id);
    }

    // ----- Connecting -----

    /** Forget captured entries whose identifier was released. */
    method RetainReserved() returns (kept: seq<Held>)
      ensures kept == Retain(previous, reserved)
    {
      kept := [];
      assert previous[0..] == previous;
      for i := 0 to |previous|
        invariant kept + Retain(previous[i..], reserved) == Retain(previous, reserved)
      {
        assert previous[i..][1..] == previous[i + 1..];
        if previous[i].id in reserved {
          kept := kept + [previous[i]];
        }
      }
    }

    /** Capture everything outstanding until CONNACK resolves the session. */
    method CaptureOutstanding()
      requires Wired() && NoDup(Ids(previous))
      modifies this`previous, this`replay
      ensures Wired() && View() == old(View()).(sess := old(Sess()).(previous := Outstanding(old(Sess())),
          replay := []))
    {
      RetainNoDup(previous, reserved);
      var kept := RetainReserved();
      var live := inflight.SnapshotForReconnect();
      previous := MergeEntries(kept, live + replay);
      replay := [];
    }

    method Connect() returns (r: Result<()>)
      requires Valid()
      modifies this
      ensures Valid() && (View(), r) == DoConnect(options, old(View()))
    {
      ConnectHealthy(options, View());
      r := ConnectInner();
    }

    method ConnectInner() returns (r: Result<()>)
      requires Wired() && NoDup(Ids(previous))
      modifies this
      ensures Wired() && (View(), r) == DoConnect(options, old(View()))
    {
      if link.connected {
        return Err(AlreadyConnected);
      }
      if link.connecting {
        return Err(InvalidState);
      }
      if options.maxPackets == 0 || options.maxEvents == 0 {
        return Err(InvalidConfiguration);
      }
      if cursor.None? {
        cursor := Some(0);
      }
      var packet := Packet.Connect(options.client);
      var encoded := options.encode(packet);
      if encoded.None? {
        return Err(EncodingFailed);
      }
      var error := EnqueuePacket(packet);
      if error.Some? {
        return Err(error.value);
      }
      AwaitConnAck(Max(|encoded.value|, 6));
      r := Ok(());
    }

    /** CONNECT is in the outgoing buffer. */
    method AwaitConnAck(control: nat)
      requires Wired() && NoDup(Ids(previous))
      modifies this
      ensures Wired() && View() == Awaiting(options, old(View()), control)
    {
      CaptureOutstanding();
      caps := caps.(control := control);
      link := link.(closed := false, connecting := true, reauth := false);
      hist := hist.(emitted := [], reauths := 0, successes := 0, authMethods := []);
      clock := clock.(nextReconnect := None);
      StartDeadline(ConnectOp, None);
    }

    // ----- Resuming or abandoning the session -----

    method RestoreEntries(entries: seq<Held>, resume: bool)
      requires Wired()
      modifies this, inflight
      ensures Wired() && View() == RestoreAll(old(View()), entries, resume)
    {
      ghost var start := View();
      assert entries[0..] == entries;
      for i := 0 to |entries|
        invariant Wired() && RestoreAll(View(), entries[i..], resume) == RestoreAll(start, entries, resume)
      {
        assert entries[i..][1..] == entries[i + 1..];
        RestoreEntry(entries[i], resume);
      }
    }

    method RestoreEntry(h: Held, resume: bool)
      requires Wired()
      modifies this, inflight
      ensures Wired() && View() == RestoreOne(old(View()), h, resume)
    {
      if resume && IsExchange(h.packet) {
        var _ := inflight.AcknowledgeEntry(h.id);
        replay := replay + [Held(h.id, ForReplay(h.packet))];
      } else {
        FailOperation(h.id, h.packet, SessionExpired);
      }
    }

    method RestoreSession(present: bool) returns (more: seq<Event>)
      requires Wired()
      modifies this, inflight
      ensures Wired() && (View(), more) == Restore(options, old(View()), present)
    {
      var captured := previous;
      previous := [];
      var resumed := present && !options.sessionless;
      var resume := resumed || (!options.v5 && !options.cleanStart && !options.sessionless);
      if resume {
        captured := StableSort(captured);
      }
      RestoreEntries(captured, resume);
      hist := hist.(credit := Credit(inflight.receiveMaximum, {}, 0));
      more := [];
      if !resumed && options.topics != [] {
        var subscribed := Request(SubscribeOp, None, options.topics, false);
        if subscribed.Err? {
          more := [Failure(subscribed.error)];
        }
      }
      ProcessReplay();
    }

    // ----- Incoming packets -----

    method Negotiate(terms: Terms) returns (error: Option<Error>)
      requires Wired()
      modifies this`caps, inflight
      ensures Wired()
      ensures
        match EngineModel.Negotiate(options, old(View()), terms)
        case Ok(s) => error == None && View() == s
        case Err(e) => error == Some(e) && View() == old(View())
    {
      var encoded := options.encode(Packet.Connect(options.client));
      if terms.rejected || terms.receiveMaximum == Some(0) || terms.maxPacket == Some(0)
        || (terms.maxQos.Some? && terms.maxQos.value > 1) {
        return Some(InvalidConfiguration);
      }
      if encoded.None? {
        return Some(EncodingFailed);
      }
      var reserve := Max(|encoded.value|, 6);
      if options.maxBytes.Some? && reserve > options.maxBytes.value {
        return Some(InvalidConfiguration);
      }
      if terms.receiveMaximum.Some? {
        inflight.UpdateReceiveMaximum(Min(terms.receiveMaximum.value, options.receiveMaximum));
      }
      caps := caps.(
        maxPacket := if terms.maxPacket.Some? then terms.maxPacket else caps.maxPacket,
        maxQos := terms.maxQos.GetOr(caps.maxQos),
        retain := terms.retain.GetOr(caps.retain),
        aliasMaximum := terms.aliasMaximum.GetOr(caps.aliasMaximum),
        keepAlive := terms.keepAlive.GetOr(caps.keepAlive),
        control := reserve);
      error := None;
    }

    method FinishConnAck(reason: nat, present: bool, ghost server: Option<u16>) returns (out: seq<Event>)
      requires Wired()
      modifies this, queue, inflight
      ensures Wired() && (View(), out) == EngineModel.FinishConnAck(options, old(View()), reason, present, server)
    {
      link := link.(connected := reason == 0);
      out := [Connected(reason, present)];
      if reason == 0 {
        link := link.(hasSession := true);
        hist := hist.(serverMaximum := server);
        ResetReconnectState();
        var more := RestoreSession(present);
        out := out + more;
      } else {
        ConnectionLostAt(clock.now);
      }
    }

    method ResetReconnectState()
      requires Wired()
      modifies this`clock, this`hist
      ensures Wired() && View() == ResetReconnect(old(View()))
    {
      clock := clock.(attempts := 0, nextReconnect := None);
      hist := hist.(delays := []);
    }

    method HandleConnAck(reason: nat, present: bool, terms: Terms) returns (out: seq<Event>)
      requires Wired()
      modifies this, queue, inflight
      ensures Wired() && (View(), out) == EngineModel.HandleConnAck(options, old(View()), reason, present, terms)
    {
      var refused := present && !link.hasSession;
      if options.v5 && options.strict {
        var expected := options.authMethod;
        refused := refused || (reason == 0 && terms.authMethod != expected)
          || (expected.None? && terms.authMethod.Some?);
      }
      if refused {
        FailConnection(ProtocolViolation);
        out := [];
      } else {
        out := AcceptConnAck(reason, present, terms);
      }
    }

    method AcceptConnAck(reason: nat, present: bool, terms: Terms) returns (out: seq<Event>)
      requires Wired()
      modifies this, queue, inflight
      ensures Wired() && (View(), out) == EngineModel.AcceptConnAck(options, old(View()), reason, present, terms)
    {
      link := link.(connecting := false);
      clock := clock.(deadlines := DropDeadline(clock.deadlines, ConnectOp, None));
      if !options.v5 {
        out := FinishConnAck(reason, present, None);
        return;
      }
      var error := Negotiate(terms);
      if error.Some? {
        FailConnection(error.value);
        return [];
      }
      out := FinishConnAck(reason, present, terms.receiveMaximum);
    }

    method Complete(id: nat)
      requires Wired()
      modifies this, inflight
      ensures Wired() && View() == EngineModel.Complete(old(View()), id)
    {
      hist := hist.(tickets := MarkPublished(hist.tickets, id), credit := Earn(hist.credit, inflight.View(), id));
      var _ := inflight.AcknowledgeEntry(id);
      FinishOperation(id);
    }

    method Confirm(id: nat)
      requires Wired()
      modifies this, inflight
      ensures Wired() && View() == EngineModel.Confirm(old(View()), id)
    {
      var _ := inflight.AcknowledgeEntry(id);
      FinishOperation(id);
    }

    method AuthReceived(reason: nat, methods: seq<string>) returns (out: seq<Event>)
      requires Wired()
      modifies this, queue, inflight
      ensures Wired() && (View(), out) == HandleAuth(options, old(View()), reason, methods)
    {
      var valid := if reason == 0 then link.connected && link.reauth
                   else if reason == 0x18 then link.connecting || link.reauth
                   else false;
      if options.authMethod.None? || !valid || methods != [options.authMethod.value] {
        FailConnection(ProtocolViolation);
        return [];
      }
      hist := hist.(authMethods := hist.authMethods + [methods]);
      if reason == 0 {
        link := link.(reauth := false);
        hist := hist.(successes := hist.successes + 1);
      }
      out := [Event.AuthReceived(reason)];
    }

    /** The acknowledgement cases; the state of the exchange was checked before. */
    method HandleAck(p: Incoming) returns (out: seq<Event>, responses: seq<Packet>)
      requires Wired() && IsAck(p) && TimeOk(inflight.line, inflight.View(), clock.now)
      modifies this, inflight
      ensures Wired() && (View(), out, responses) == HandleAccepted(options, old(View()), p)
    {
      responses := [];
      match p
      case PubAck(id, reason) =>
        Complete(id);
        out := [Published(id, reason)];
      case PubRec(id, reason) =>
        if options.v5 && reason >= 0x80 {
          Complete(id);
          out := [Published(id, reason)];
        } else {
          var _ := inflight.TransitionPubRelAt(id, PubRel(id), clock.now);
          out, responses := [], [PubRel(id)];
        }
      case PubComp(id, reason) =>
        Complete(id);
        out := [Published(id, reason)];
      case SubAck(id, _) =>
        Confirm(id);
        out := [Subscribed(id)];
      case UnsubAck(id) =>
        Confirm(id);
        out := [Unsubscribed(id)];
    }

    method HandleOther(p: Incoming) returns (out: seq<Event>, responses: seq<Packet>)
      requires Wired() && !IsAck(p)
      modifies this, queue, inflight
      ensures Wired() && (View(), out, responses) == HandleAccepted(options, old(View()), p)
    {
      out, responses := [], [];
      match p
      case ConnAck(reason, present, terms) => out := HandleConnAck(reason, present, terms);
      case PingResp =>
        clock := clock.(pingSent := None);
        out := [PingResponse];
      case AuthIn(reason, methods) => out := AuthReceived(reason, methods);
      case DisconnectIn(reason) =>
        if options.v5 {
          ConnectionLostAt(clock.now);
          out := [DisconnectReceived(reason)];
        }
      case Message(failure, response) =>
        if failure.Some? {
          FailConnection(failure.value);
        } else {
          out := [MessageReceived];
          responses := if response.Some? then [response.value] else [];
        }
      case Oversized => FailConnection(BufferFull);
      case Malformed => FailConnection(ProtocolViolation);
    }

    /** Refuse a packet that does not fit the connection or the exchange it answers. */
    method Screen(p: Incoming) returns (refused: bool, out: seq<Event>)
      requires Wired() && !link.closed && !p.Oversized? && !p.Malformed?
      modifies this, queue, inflight
      ensures Wired()
      ensures refused ==> (View(), out, []) == EngineModel.HandlePacket(options, old(View()), p)
      ensures !refused ==> View() == old(View()) && Accepts(options, View(), p) && ValidateAck(inflight.View(), p).None?
    {
      out := [];
      var accepted := AcceptIncoming(p);
      if !accepted {
        FailConnection(ProtocolViolation);
        return true, [];
      }
      var error := ValidateAcknowledgement(p);
      if error.None? {
        return false, [];
      }
      refused := true;
      if !options.v5 || error.value == ProtocolViolation {
        FailConnection(error.value);
      } else {
        out := [Failure(error.value)];
      }
    }

    method Dispatch(p: Incoming) returns (out: seq<Event>, responses: seq<Packet>)
      requires Wired() && TimeOk(inflight.line, inflight.View(), clock.now)
      modifies this, queue, inflight
      ensures Wired() && (View(), out, responses) == HandleAccepted(options, old(View()), p)
    {
      if IsAck(p) {
        out, responses := HandleAck(p);
      } else {
        out, responses := HandleOther(p);
      }
    }

    method HandlePacket(p: Incoming) returns (out: seq<Event>, responses: seq<Packet>)
      requires Wired() && TimeOk(inflight.line, inflight.View(), clock.now)
      modifies this, queue, inflight
      ensures Wired() && (View(), out, responses) == EngineModel.HandlePacket(options, old(View()), p)
    {
      if link.closed {
        return [], [];
      }
      if !p.Oversized? && !p.Malformed? {
        var refused, why := Screen(p);
        if refused {
          return why, [];
        }
      }
      out, responses := Dispatch(p);
    }

    /** The packet may arrive in this state of the connection. */
    method AcceptIncoming(p: Incoming) returns (r: bool)
      requires Wired()
      ensures r == Accepts(options, View(), p)
    {
      match p
      case ConnAck(_, _, _) => r := link.connecting && !link.connected;
      case AuthIn(_, _) => r := link.connected || (options.v5 && link.connecting);
      case DisconnectIn(_) => r := link.connected || (options.v5 && link.connecting);
      case _ => r := link.connected;
    }

    method ValidateAcknowledgement(p: Incoming) returns (error: Option<Error>)
      requires Wired()
      ensures error == ValidateAck(inflight.View(), p)
    {
      if !IsAck(p) {
        return None;
      }
      ListedFind(inflight.entries, inflight.admissionOrder, p.id);
      if p.id !in inflight.entries {
        return Some(InvalidPacketId);
      }
      var entry := inflight.entries[p.id];
      if !Answers(p, entry.packet) || entry.stream.Some? {
        return Some(InvalidPacketId);
      }
      if p.SubAck? && |entry.packet.filters| != p.codes {
        return Some(ProtocolViolation);
      }
      error := None;
    }

    method ParseNext()
      requires Running() && link.parser != []
      modifies this, queue, inflight
      ensures Running() && View() == ParseOne(options, old(View()))
    {
      ParseOneTimely(options, View());
      HandleFirst();
      FlushResponses();
    }

    /** Take one packet from the parser, handle it, and queue its response. */
    method HandleFirst()
      requires Wired() && link.parser != [] && TimeOk(inflight.line, inflight.View(), clock.now)
      modifies this, queue, inflight
      ensures Wired()
      ensures
        var s := old(View());
        var (s1, out, responses) := EngineModel.HandlePacket(options, s.(link := s.link.(parser := s.link.parser[1..])),
          s.link.parser[0]);
        View() == Record(s1, out, responses)
    {
      var p := link.parser[0];
      link := link.(parser := link.parser[1..]);
      var out, responses := HandlePacket(p);
      events := events + out;
      link := link.(responses := link.responses + responses);
      hist := hist.(reports := hist.reports + CountPublished(out));
    }

    method Ingest(data: seq<Incoming>)
      requires Running()
      modifies this, queue, inflight
      ensures Running() && View() == EngineRuns.Ingest(options, old(View()), data)
    {
      IngestTimely(options, View(), data);
      if link.closed {
        return;
      }
      link := link.(parser := link.parser + data);
      FlushSteady(options, View());
      FlushResponses();
      ParseBuffered();
      ProcessQueueWithEncoding(None);
    }

    /** Handle buffered packets until a response waits, the events are full, or nothing is left. */
    method ParseBuffered()
      requires Running()
      modifies this, queue, inflight
      ensures Running() && View() == ParseLoop(options, old(View()))
    {
      ghost var start := View();
      while !(link.responses != [] || link.closed || link.parser == []
        || (|events| >= options.maxEvents && !link.parser[0].Oversized?))
        invariant Running() && ParseLoop(options, View()) == ParseLoop(options, start)
        decreases Potential(View())
      {
        ParseOnePotential(options, View());
        ParseNext();
      }
    }

    method TakeEvents() returns (out: seq<Event>)
      requires Valid()
      modifies this`events
      ensures Valid() && View() == old(View()).(events := []) && out == old(events)
    {
      EventsHealthy(options, View());
      out := HandOver();
    }

    method HandOver() returns (out: seq<Event>)
      requires Wired()
      modifies this`events
      ensures Wired() && View() == old(View()).(events := []) && out == old(events)
    {
      out := events;
      events := [];
    }

    method HandleIncoming(data: seq<Incoming>) returns (out: seq<Event>)
      requires Valid()
      modifies this, queue, inflight
      ensures Valid() && View().(events := out) == EngineRuns.Ingest(options, old(View()), data) && events == []
    {
      DataHealthy(options, View(), data);
      Ingest(data);
      out := HandOver();
    }

    method TakeOutgoing() returns (taken: seq<Bytes>)
      requires Valid()
      modifies this, queue, inflight
      ensures Valid() && (View(), taken) == TakeOutput(options, old(View()))
    {
      TakeHealthy(options, View());
      ghost var goal := TakeOutput(options, View());
      taken := DrainFirst(goal);
      while link.out != []
        invariant Running() && goal == Taken(options, View(), taken)
        decreases Potential(View())
      {
        taken := DrainNext(goal, taken);
      }
    }

    method DrainFirst(ghost goal: (Engine, seq<Bytes>)) returns (taken: seq<Bytes>)
      requires Running() && goal == TakeOutput(options, View())
      modifies this, queue, inflight
      ensures Running() && goal == Taken(options, View(), taken)
    {
      TakenStep(options, View(), []);
      taken := link.out;
      RefillOutput();
    }

    method DrainNext(ghost goal: (Engine, seq<Bytes>), taken: seq<Bytes>) returns (more: seq<Bytes>)
      requires Running() && link.out != [] && goal == Taken(options, View(), taken)
      modifies this, queue, inflight
      ensures Running() && goal == Taken(options, View(), more)
      ensures Potential(View()) < old(Potential(View()))
    {
      ghost var before := View();
      more := taken + link.out;
      RefillOutput();
      TakenNext(options, before, View(), goal, taken);
    }

    /** Empty the outgoing buffer, then let everything that waited move up. */
    method RefillOutput()
      requires Running()
      modifies this, queue, inflight
      ensures Running() && View() == Refill(options, old(View()))
    {
      RefillTimely(options, View());
      link := link.(out := []);
      FlushSteady(options, View());
      FlushResponses();
      Ingest([]);
      ProcessQueueWithEncoding(None);
    }

    method HandleConnectionLost()
      requires Valid()
      modifies this, queue, inflight
      ensures Valid() && View() == ConnectionLost(options, old(View()), old(clock).now)
    {
      LossHealthy(options, View());
      ConnectionLostAt(clock.now);
    }

    method ResetTransport()
      requires Valid()
      modifies this, queue, inflight
      ensures Valid() && View() == Reset(options, old(View()))
    {
      ResetHealthy(options, View());
      ResetForNewTransport();
    }

    method SubmitRequest(kind: Kind, requested: Option<u16>, filters: seq<string>, refused: bool)
        returns (r: Result<nat>)
      requires Valid()
      modifies this, inflight
      ensures Valid() && (View(), r) == DoRequest(options, old(View()), kind, requested, filters, refused)
    {
      RequestHealthy(options, View(), kind, requested, filters, refused);
      r := Request(kind, requested, filters, refused);
    }

    // ----- Closing, authentication, reconnection -----

    method Disconnect(reason: nat) returns (r: Result<()>)
      requires Valid()
      modifies this
      ensures Valid() && (View(), r) == DoDisconnect(options, old(View()), reason)
    {
      DisconnectHealthy(options, View(), reason);
      r := DisconnectNow(reason);
    }

    method DisconnectNow(reason: nat) returns (r: Result<()>)
      requires Wired()
      modifies this
      ensures Wired() && (View(), r) == DoDisconnect(options, old(View()), reason)
    {
      if !ClientReason(reason) || (!options.v5 && reason != 0) {
        return Err(InvalidConfiguration);
      }
      if link.connected {
        var error := EnqueuePacket(Packet.Disconnect(reason));
        if error.Some? {
          return Err(error.value);
        }
      }
      clock := clock.(nextReconnect := None);
      CloseInput();
      r := Ok(());
    }

    /** Why a client AUTH is not allowed, before it is encoded. */
    method AuthRefusal(reason: nat, methods: seq<string>) returns (error: Option<Error>)
      requires Wired()
      ensures error.Some? ==> error == AuthError(options, View(), reason, methods)
      ensures error.None? ==>
        && options.authMethod.Some?
        && AuthError(options, View(), reason, methods)
          == EnqueueError(options, View(), Auth(reason, AuthMethods(options, methods)))
    {
      if !options.v5 || (reason != 0x18 && reason != 0x19) || options.authMethod.None? {
        return Some(InvalidConfiguration);
      }
      var matching := AllEqual(methods, options.authMethod.value);
      if !matching {
        return Some(ProtocolViolation);
      }
      var allowed := if reason == 0x19 then link.connected && !link.reauth else link.connecting || link.reauth;
      error := if link.closed || !allowed then Some(ProtocolViolation) else None;
    }

    method Authenticate(reason: nat, methods: seq<string>) returns (r: Result<()>)
      requires Valid()
      modifies this
      ensures Valid() && (View(), r) == DoAuth(options, old(View()), reason, methods)
    {
      AuthHealthy(options, View(), reason, methods);
      r := AuthenticateNow(reason, methods);
    }

    method AuthenticateNow(reason: nat, methods: seq<string>) returns (r: Result<()>)
      requires Wired()
      modifies this
      ensures Wired() && (View(), r) == DoAuth(options, old(View()), reason, methods)
    {
      var error := AuthRefusal(reason, methods);
      if error.None? {
        var sent := if methods == [] then [options.authMethod.value] else methods;
        error := EnqueuePacket(Auth(reason, sent));
        if error.None? {
          NoteAuth(reason, sent);
        }
      }
      r := if error.Some? then Err(error.value) else Ok(());
    }

    /** AUTH is in the outgoing buffer; a client that starts it is re-authenticating. */
    method NoteAuth(reason: nat, sent: seq<string>)
      modifies this`link, this`hist
      ensures link == if reason == 0x19 then old(link).(reauth := true) else old(link)
      ensures
        var h := old(hist).(authMethods := old(hist).authMethods + [sent]);
        hist == if reason == 0x19 then h.(reauths := h.reauths + 1) else h
    {
      hist := hist.(authMethods := hist.authMethods + [sent]);
      if reason == 0x19 {
        link := link.(reauth := true);
        hist := hist.(reauths := hist.reauths + 1);
      }
    }

    method SendPing() returns (r: Result<()>)
      requires Valid()
      modifies this
      ensures Valid() && (View(), r) == DoPing(options, old(View()))
    {
      PingHealthy(options, View());
      r := PingNow();
    }

    /** Put a packet of the application into the outgoing buffer. */
    method SendPacket(packet: Packet) returns (r: Result<()>)
      requires Valid()
      modifies this
      ensures Valid() && (View(), r) == DoEnqueue(options, old(View()), packet)
    {
      EnqueueHealthy(options, View(), packet);
      var error := EnqueuePacket(packet);
      r := if error.Some? then Err(error.value) else Ok(());
    }

    method PingNow() returns (r: Result<()>)
      requires Wired()
      modifies this
      ensures Wired() && (View(), r) == DoPing(options, old(View()))
    {
      var error := EnqueuePacket(PingReq);
      if error.Some? {
        return Err(error.value);
      }
      clock := clock.(pingSent := Some(clock.now));
      r := Ok(());
    }

    method SetReconnect(enabled: bool)
      requires Valid()
      modifies this`clock, this`events
      ensures Valid() && View() == EngineModel.SetReconnect(old(View()), enabled)
    {
      ReconnectHealthy(options, View(), enabled);
      SwitchReconnect(enabled);
    }

    method SwitchReconnect(enabled: bool)
      requires Wired()
      modifies this`clock, this`events
      ensures Wired() && View() == EngineModel.SetReconnect(old(View()), enabled)
    {
      clock := clock.(reconnect := enabled);
      if !enabled {
        clock := clock.(nextReconnect := None);
        var kept := [];
        assert events[0..] == events;
        for i := 0 to |events|
          invariant kept + WithoutReconnect(events[i..]) == WithoutReconnect(events)
        {
          assert events[i..][1..] == events[i + 1..];
          if !events[i].ReconnectNeeded? && !events[i].ReconnectScheduled? {
            kept := kept + [events[i]];
          }
        }
        events := kept;
      }
    }

    // ----- Time -----

    /** Every operation starts here: a time that runs backwards or leaves the horizon is refused. */
    method BeginUpdate(now: Time) returns (accepted: bool)
      requires Valid()
      modifies this`clock
      ensures accepted <==> TimeAccepted(options, old(View()), now)
      ensures Valid() && View() == if accepted then At(old(View()), now) else old(View())
    {
      accepted := clock.now <= now && Horizon(options, now);
      if accepted {
        AtHealthy(options, View(), now);
        clock := clock.(now := now);
      }
    }

    method CheckDeadlines() returns (due: seq<Deadline>)
      requires Running()
      modifies this, queue, inflight
      ensures due == DueDeadlines(old(clock).deadlines, old(clock).now)
      ensures Running() && View() == ExpireAll(options, old(View()), due)
    {
      due := [];
      var all := clock.deadlines;
      assert all[0..] == all;
      for i := 0 to |all|
        invariant due + DueDeadlines(all[i..], clock.now) == DueDeadlines(all, clock.now)
      {
        assert all[i..][1..] == all[i + 1..];
        if all[i].at <= clock.now {
          due := due + [all[i]];
        }
      }
      ghost var start := View();
      assert due[0..] == due;
      for i := 0 to |due|
        invariant Running() && ExpireAll(options, View(), due[i..]) == ExpireAll(options, start, due)
      {
        assert due[i..][1..] == due[i + 1..];
        ExpireDeadline(due[i]);
      }
    }

    method ExpireDeadline(d: Deadline)
      requires Running()
      modifies this, queue, inflight
      ensures Running() && View() == ExpireOne(options, old(View()), d)
    {
      ExpireOneSteady(options, View(), d);
      clock := clock.(deadlines := DropDeadline(clock.deadlines, d.kind, d.id));
      events := events + [OperationFailed(d.kind, d.id, OperationTimeout)];
      if d.kind == ConnectOp {
        ConnectionLostAt(clock.now);
      }
    }

    method ResendPacket(x: Resend)
      requires Wired()
      modifies this
      ensures Wired() && View() == ResendOne(options, old(View()), x)
    {
      var packet := SetDup(x.packet);
      var encoded := options.encode(packet);
      if encoded.None? {
        return;
      }
      if x.stream.Some? {
        resends := resends + [(x.stream.value, encoded.value)];
      } else {
        var error := EnqueuePacket(packet);
        if error.Some? && error.value != BufferFull {
          events := events + [Failure(error.value)];
        }
      }
      clock := clock.(lastSent := clock.now);
    }

    method ResendEach(expired: seq<Resend>)
      requires Wired()
      modifies this
      ensures Wired() && View() == ResendAll(options, old(View()), expired)
    {
      ghost var start := View();
      assert expired[0..] == expired;
      for i := 0 to |expired|
        invariant Wired() && ResendAll(options, View(), expired[i..]) == ResendAll(options, start, expired)
      {
        assert expired[i..][1..] == expired[i + 1..];
        ResendPacket(expired[i]);
      }
    }

    method HandleRetransmissions()
      requires Wired() && Sound(inflight.line, inflight.View()) && TimeOk(inflight.line, inflight.View(), clock.now)
      modifies this, inflight
      ensures Wired() && View() == Retransmissions(options, old(View()))
    {
      var expired := inflight.GetExpiredWithStreamAt(clock.now);
      ResendEach(expired.value);
    }

    /** Send what waits, then send again what expired. */
    method SendWaiting() returns (ghost resent: bool)
      requires Running() && link.connected
      modifies this, queue, inflight
      ensures Wired() && View() == Retransmissions(options, ProcessQueue(options, old(View()), None))
      ensures
        var s := ProcessQueue(options, old(View()), None);
        resent <==> DueResends(s.sess.inflight, s.clock.now) != []
    {
      ProcessQueueTimely(options, View());
      ProcessQueueWithEncoding(None);
      resent := DueResends(inflight.View(), clock.now) != [];
      HandleRetransmissions();
    }

    /** The time without traffic has reached the keep-alive interval. */
    method KeepAliveDue() returns (due: bool)
      requires Wired()
      ensures due <==> PingDue(options, View())
    {
      var keepAlive := caps.keepAlive * NANOS_PER_SECOND;
      due := clock.pingSent.None? && options.autoKeepAlive && keepAlive > 0
        && SaturatingSince(clock.now, clock.lastSent) >= keepAlive;
    }

    method PingTimedOut() returns (overdue: bool)
      requires Wired()
      ensures overdue <==> PingOverdue(options, View())
    {
      var keepAlive := caps.keepAlive * NANOS_PER_SECOND;
      overdue := keepAlive > 0 && clock.pingSent.Some?
                 && SaturatingSince(clock.now, clock.pingSent.value) >= keepAlive * options.pingMultiplier;
    }

    /** Keep-alive, waiting packets and retransmission, in this order. */
    method TickAlive() returns (ghost actions: seq<Action>)
      requires Running() && link.connected && !PingOverdue(options, View())
      modifies this, queue, inflight
      ensures Wired() && (View(), actions) == EngineModel.TickConnected(options, old(View()))
    {
      var due := KeepAliveDue();
      if due {
        DoPingSteady(options, View());
        var _ := PingNow();
      }
      ghost var resent := SendWaiting();
      actions := (if due then [PingAttempt] else []) + (if resent then [Retransmit] else []);
    }

    /** The peer did not answer a ping in time. */
    method GiveUp()
      requires Wired()
      modifies this, queue, inflight
      ensures
        var s := ConnectionLost(options, old(View()), old(clock).now);
        Wired() && View() == s.(events := s.events + [Disconnected])
    {
      ConnectionLostAt(clock.now);
      events := events + [Disconnected];
    }

    method TickConnected() returns (ghost actions: seq<Action>)
      requires Running() && link.connected
      modifies this, queue, inflight
      ensures Running() && (View(), actions) == EngineModel.TickConnected(options, old(View()))
    {
      TickConnectedTimely(options, View());
      var overdue := PingTimedOut();
      if overdue {
        GiveUp();
        actions := [PingTimeout];
      } else {
        actions := TickAlive();
      }
    }

    method TickDisconnected() returns (ghost actions: seq<Action>)
      requires Running()
      modifies this
      ensures Running() && (View(), actions) == EngineModel.TickDisconnected(old(View()))
    {
      actions := [];
      if clock.nextReconnect.Some? && clock.nextReconnect.value <= clock.now {
        events := events + [ReconnectNeeded];
        clock := clock.(nextReconnect := None);
        hist := hist.(needed := hist.needed + 1);
        actions := [SignalReconnect];
      }
    }

    method Tick() returns (ghost actions: seq<Action>)
      requires Running()
      modifies this, queue, inflight
      ensures Running() && (View(), actions) == DoTick(options, old(View()))
    {
      var due := CheckDeadlines();
      FlushSteady(options, View());
      FlushResponses();
      ghost var more;
      if link.connected {
        more := TickConnected();
      } else {
        more := TickDisconnected();
      }
      actions := Expirations(due) + more;
    }

    /** A tick acts if and only if the engine asked to be called by now, and otherwise changes nothing. */
    method HandleTick() returns (out: seq<Event>, ghost actions: seq<Action>)
      requires Valid()
      modifies this, queue, inflight
      ensures Valid() && events == [] && (View().(events := out), actions) == DoTick(options, old(View()))
      ensures TickAgrees(options, old(View()))
    {
      TickHealthy(options, View());
      TickAgreesNow(options, View());
      actions := Tick();
      out := HandOver();
    }

    method FirstOfDeadlines() returns (first: Option<Time>)
      ensures first == FirstDeadline(clock.deadlines)
    {
      var ds := clock.deadlines;
      first := None;
      var i := |ds|;
      while i > 0
        invariant 0 <= i <= |ds| && first == FirstDeadline(ds[i..])
      {
        assert ds[i - 1..][1..] == ds[i..];
        i := i - 1;
        first := Earliest(Some(ds[i].at), first);
      }
      assert ds[0..] == ds;
    }

    method KeepAliveAt() returns (at: Option<Time>)
      requires Wired()
      ensures at == KeepAliveDeadline(options, View())
    {
      var keepAlive := caps.keepAlive * NANOS_PER_SECOND;
      at := None;
      if keepAlive > 0 {
        if clock.pingSent.Some? {
          at := Some(clock.pingSent.value + keepAlive * options.pingMultiplier);
        } else if options.autoKeepAlive {
          at := Some(clock.lastSent + keepAlive);
        }
      }
    }

    method NextTickAt() returns (next: Option<Time>)
      requires Valid()
      ensures next == NextTick(options, View()) && (next.Some? ==> next.value < LIMIT)
      ensures DoTick(options, View()).1 != [] <==> next.Some? && next.value <= clock.now
    {
      TickAgreesNow(options, View());
      var deadline := FirstOfDeadlines();
      if !link.connected {
        return Earliest(clock.nextReconnect, deadline);
      }
      var ping := KeepAliveAt();
      var expiration := inflight.FirstExpiration();
      next := Earliest(Earliest(ping, expiration), deadline);
    }
  }

  /** What draining still takes after `taken` was taken and the buffer refilled. */
  ghost function Taken(c: Options, s: Engine, taken: seq<Bytes>): (r: (Engine, seq<Bytes>)) {
    if s.link.out == [] then (s, taken)
    else
      var (s1, rest) := TakeOutput(c, s);
      (s1, taken + rest)
  }

  lemma TakenStep(c: Options, s: Engine, taken: seq<Bytes>)
    ensures TakeOutput(c, s) == Taken(c, Refill(c, s), s.link.out)
    ensures s.link.out != [] ==> Taken(c, s, taken) == Taken(c, Refill(c, s), taken + s.link.out)
    ensures Potential(Refill(c, s)) + |s.link.out| <= Potential(s)
  {
    RefillPotential(c, s);
    var r := Refill(c, s);
    if r.link.out != [] { assert taken + s.link.out + TakeOutput(c, r).1 == taken + (s.link.out + TakeOutput(c, r).1); }
  }

  lemma TakenNext(c: Options, s: Engine, r: Engine, goal: (Engine, seq<Bytes>), taken: seq<Bytes>)
    requires r == Refill(c, s) && s.link.out != [] && goal == Taken(c, s, taken)
    ensures goal == Taken(c, r, taken + s.link.out) && Potential(r) < Potential(s)
  {
    TakenStep(c, s, taken);
  }

  /** Every given method is the expected one. */
  method AllEqual(methods: seq<string>, expected: string) returns (r: bool)
    ensures r <==> !exists m :: m in methods && m != expected
  {
    for i := 0 to |methods|
      invariant forall k :: 0 <= k < i ==> methods[k] == expected
    {
      if methods[i] != expected {
        assert methods[i] in methods;
        return false;
      }
    }
    r := true;
  }

  /** `positions` is an index of the list by identifier. */
  ghost predicate Indexed(positions: map<nat, nat>, xs: seq<Held>) {
    && (forall id :: id in positions ==> positions[id] < |xs| && xs[positions[id]].id == id)
    && (forall i :: 0 <= i < |xs| ==> xs[i].id in positions)
  }

  lemma IndexedPosition(positions: map<nat, nat>, xs: seq<Held>, id: nat)
    requires Indexed(positions, xs) && NoDup(Ids(xs))
    ensures id in positions <==> Position(xs, id) < |xs|
    ensures id in positions ==> positions[id] == Position(xs, id)
  {
    if id in positions { assert Ids(xs)[positions[id]] == id && Ids(xs)[Position(xs, id)] == id; }
  }

  method Positions(xs: seq<Held>) returns (positions: map<nat, nat>)
    ensures Indexed(positions, xs)
  {
    positions := map[];
    for i := 0 to |xs|
      invariant Indexed(positions, xs[..i])
    {
      positions := positions[xs[i].id := i];
    }
    assert xs[..|xs|] == xs;
  }

  /** The keyed merge, through an index of positions: an entry that is already there is replaced where it
      stands, any other goes to the end. */
  method MergeEntries(kept: seq<Held>, live: seq<Held>) returns (merged: seq<Held>)
    requires NoDup(Ids(kept))
    ensures merged == Merge(kept, live)
  {
    var positions: map<nat, nat> := Positions(kept);
    merged := kept;
    assert live[0..] == live;
    for i := 0 to |live|
      invariant NoDup(Ids(merged)) && Indexed(positions, merged)
      invariant Merge(merged, live[i..]) == Merge(kept, live)
    {
      var h := live[i];
      assert live[i..][1..] == live[i + 1..];
      IndexedPosition(positions, merged, h.id);
      PutIds(merged, h);
      ghost var next := Put(merged, h);
      if h.id in positions {
        merged := merged[positions[h.id] := h];
      } else {
        positions := positions[h.id := |merged|];
        merged := merged + [h];
      }
      assert merged == next;
    }
  }

  /** A stable sort on one bit: releases first, each group in its original order. */
  method StableSort(xs: seq<Held>) returns (r: seq<Held>)
    ensures r == ReleasesFirst(xs)
  {
    var releases, others := [], [];
    assert xs[0..] == xs;
    for i := 0 to |xs|
      invariant releases + PubRelsOf(xs[i..]) == PubRelsOf(xs) && others + OthersOf(xs[i..]) == OthersOf(xs)
    {
      assert xs[i..][1..] == xs[i + 1..];
      if xs[i].packet.PubRel? {
        releases := releases + [xs[i]];
      } else {
        others := others + [xs[i]];
      }
    }
    r := releases + others;
  }
}
