/** Safety over whole runs: exactly when the conservation law holds after every sequence of operations, and what else
    holds then. */
module Safety {
  import opened Basics
  import opened Timestamps
  import opened Packets
  import opened PriorityQueues
  import opened InflightQueues
  import opened EngineModel
  import opened EngineRuns
  import opened SessionBooks
  import opened SessionInvariant
  import opened Commands
  import opened Resumption
  import opened IncomingPackets
  import opened TimeRange
  import opened FlowControl
  import opened SendQuota

  /** Every reported publication finished one ticket. */
  predicate Tally(s: Engine) {
    s.hist.reports == |s.hist.tickets.published|
  }

  /** A clash that did harm; at admission only a sessionless engine lets it happen. */
  ghost predicate Fatal(c: Options, pt: Point) {
    Clash(pt) && !Lawful(pt) && (pt.Admitted? ==> c.sessionless)
  }

  ghost predicate Broken(c: Options, s: Engine) {
    exists pt :: pt in s.hist.points && Fatal(c, pt)
  }

  ghost predicate Clean(h: History) {
    (forall pt :: pt in h.points ==> !Clash(pt) && Lawful(pt)) && h.failures == []
  }

  ghost predicate Whole(c: Options, s: Engine) {
    Inv(c, s) && Paid(s) && Tally(s) && Clean(s.hist)
  }

  /** Either some clash did harm, or everything is as it should be and nothing ever clashed. */
  ghost predicate Fine(c: Options, s: Engine) {
    Broken(c, s) || Whole(c, s)
  }

  lemma BrokenStays(c: Options, s: Engine, r: Engine)
    requires Broken(c, s) && s.hist.points <= r.hist.points
    ensures Broken(c, r)
  {
    var pt :| pt in s.hist.points && Fatal(c, pt);
    assert pt in r.hist.points;
  }

  lemma SteadyFine(c: Options, s: Engine, r: Engine)
    requires Fine(c, s) && SameLog(s.hist, r.hist) && (Whole(c, s) ==> Inv(c, r) && Paid(r))
    ensures Fine(c, r)
  {
    if Broken(c, s) { BrokenStays(c, s, r); }
  }

  // ----- Losing the connection, output -----

  lemma ResetFine(c: Options, s: Engine)
    requires Fine(c, s)
    ensures Fine(c, Reset(c, s))
  {
    ResetSteady(c, s);
    LossPaid(c, s, ProtocolViolation);
    if Whole(c, s) { ResetKeeps(c, s); }
    SteadyFine(c, s, Reset(c, s));
  }

  lemma ConnectionLostFine(c: Options, s: Engine)
    requires Fine(c, s)
    ensures Fine(c, ConnectionLost(c, s, s.clock.now))
  {
    ConnectionLostSteady(c, s);
    LossPaid(c, s, ProtocolViolation);
    if Whole(c, s) { ConnectionLostKeeps(c, s, s.clock.now); }
    SteadyFine(c, s, ConnectionLost(c, s, s.clock.now));
  }

  lemma FlushFine(c: Options, s: Engine)
    requires Fine(c, s)
    ensures Fine(c, Flush(c, s))
  {
    FlushSteady(c, s);
    if Whole(c, s) {
      FlushKeeps(c, s);
      FlushPaid(c, s);
    }
    SteadyFine(c, s, Flush(c, s));
  }

  lemma ProcessReplayFine(c: Options, s: Engine)
    requires Fine(c, s) && s.link.connected
    ensures Fine(c, ProcessReplay(c, s))
  {
    ProcessReplaySteady(c, s);
    if Whole(c, s) {
      ProcessReplayKeeps(c, s);
      ProcessReplayPaid(c, s);
    }
    SteadyFine(c, s, ProcessReplay(c, s));
  }

  // ----- The queue -----

  /** One more point, lawful or fatal. */
  lemma PointFine(c: Options, s: Engine, r: Engine, pt: Point)
    requires Whole(c, s) && r.hist.points == s.hist.points + [pt] && r.hist.failures == s.hist.failures
    requires Fatal(c, pt) || (!Clash(pt) && Lawful(pt) && Inv(c, r) && Paid(r) && Tally(r))
    ensures Fine(c, r)
  {
    assert pt in r.hist.points;
  }

  lemma RejectedInv(c: Options, s: Engine, bytes: Bytes, e: Error)
    requires Inv(c, s) && s.link.connected && s.sess.queue != [] && c.encode(s.sess.queue[0].item) == Some(bytes)
    ensures
      var p, r := s.sess.queue[0].item, RejectHead(s, bytes, e);
      var pt := Rejected(p, Shelf(s.sess, s.hist.tickets), Shelf(r.sess, r.hist.tickets));
      if Clash(pt) then !Lawful(pt) else Inv(c, r) && Spared(p, pt.before, pt.after)
  {
    var p, q := s.sess.queue[0].item, s.sess;
    assert q.queue[0] in q.queue;
    if p.qos > 0 {
      RejectOwn(c, s, bytes, e);
    } else if p.id.Some? && (p.id.value in QueueIds(q.queue) || p.id.value in Ids(Live(q))) {
      RejectClashes(c, s, bytes, e);
    } else {
      RejectPlain(c, s, bytes, e);
    }
  }

  /** A rejection finishes no publication and leaves flow control alone. */
  lemma RejectedLog(s: Engine, bytes: Bytes, e: Error)
    requires s.sess.queue != []
    ensures
      var r := RejectHead(s, bytes, e);
      && r.hist.tickets.published == s.hist.tickets.published && r.hist.reports == s.hist.reports
      && (r.sess.inflight == s.sess.inflight && Paid(s) ==> Paid(r))
  {
    RejectHeadSess(s, bytes, e);
  }

  lemma RejectHeadFine(c: Options, s: Engine, bytes: Bytes, e: Error)
    requires Whole(c, s) && s.link.connected && s.sess.queue != [] && c.encode(s.sess.queue[0].item) == Some(bytes)
    ensures Fine(c, RejectHead(s, bytes, e))
  {
    var r := RejectHead(s, bytes, e);
    var pt := Rejected(s.sess.queue[0].item, Shelf(s.sess, s.hist.tickets), Shelf(r.sess, r.hist.tickets));
    RejectedInv(c, s, bytes, e);
    RejectedLog(s, bytes, e);
    RejectHeadSess(s, bytes, e);
    if !Clash(pt) { InvConserved(c, r); }
    PointFine(c, s, r, pt);
  }

  lemma SendHeadFine(c: Options, s: Engine, bytes: Bytes)
    requires Whole(c, s) && s.link.connected && s.sess.queue != [] && s.sess.replay == [] && !QueueBlocked(s)
    requires c.encode(s.sess.queue[0].item) == Some(bytes)
    ensures Whole(c, SendHead(c, s, bytes))
  {
    assert s.sess.queue[0] in s.sess.queue;
    SendHeadKeeps(c, s, bytes);
    SendHeadPaid(c, s, bytes);
    SendHeadSess(c, s, bytes);
  }

  lemma EmitOneFine(c: Options, s: Engine)
    requires Whole(c, s) && s.link.connected && s.sess.replay == [] && EmitReady(c, s)
    ensures Fine(c, EmitOne(c, s, None))
  {
    var x := s.sess.queue[0];
    assert x in s.sess.queue;
    var bytes := c.encode(x.item).value;
    var e := RejectionOf(c, s, x.item, |bytes|);
    if e.Some? { RejectHeadFine(c, s, bytes, e.value); } else { SendHeadFine(c, s, bytes); }
  }

  lemma {:induction false} EmitLoopFine(c: Options, s: Engine)
    requires Fine(c, s) && s.link.connected && s.sess.replay == []
    ensures Fine(c, EmitLoop(c, s, None))
    decreases |s.sess.queue|
  {
    if Broken(c, s) {
      EmitLoopTimely(c, s);
      BrokenStays(c, s, EmitLoop(c, s, None));
    } else if EmitReady(c, s) {
      EmitOneFine(c, s);
      EmitOneFrame(c, s, None);
      EmitLoopFine(c, EmitOne(c, s, None));
    }
  }

  lemma ProcessQueueFine(c: Options, s: Engine)
    requires Fine(c, s)
    ensures Fine(c, ProcessQueue(c, s, None))
  {
    if s.link.connected {
      FlushFine(c, s);
      var s1 := Flush(c, s);
      if s1.link.connected {
        ProcessReplayFine(c, s1);
        var s2 := ProcessReplay(c, s1);
        if s2.link.connected && s2.link.responses == [] && s2.sess.replay == [] { EmitLoopFine(c, s2); }
      }
    }
  }

  // ----- Commands -----

  lemma AdmitFine(c: Options, s: Engine, cmd: Command)
    requires Codec(c) && Named(s.caps.aliases) && Whole(c, s) && Decide(c, s, cmd).1.Accepted?
    ensures Fine(c, Admitting(c, s, cmd))
  {
    var (s1, a) := Decide(c, s, cmd);
    var r := Admitting(c, s, cmd);
    var pt := Admitted(a.packet, Shelf(s.sess, s.hist.tickets), Shelf(r.sess, r.hist.tickets));
    DecideFacts(c, s, cmd);
    AdmitSess(s1, a.packet, cmd.priority, a.id, a.alias, a.bytes);
    AdmissionConservesIff(c, s, cmd);
    assert Paid(r);
    if !Reuses(s.sess, a) { AdmitKeeps(c, s, cmd); }
    PointFine(c, s, r, pt);
  }

  lemma DoPublishFine(c: Options, s: Engine, cmd: Command)
    requires Codec(c) && Named(s.caps.aliases) && Fine(c, s)
    ensures Fine(c, DoPublish(c, s, cmd).0)
  {
    DecideFacts(c, s, cmd);
    if Decide(c, s, cmd).1.Refused? {
      SteadyFine(c, s, DoPublish(c, s, cmd).0);
    } else {
      PublishIsAdmission(c, s, cmd);
      var r := Admitting(c, s, cmd);
      if Broken(c, s) {
        AdmitTimely(c, s, cmd);
        BrokenStays(c, s, r);
      } else {
        AdmitFine(c, s, cmd);
      }
      ProcessQueueFine(c, r);
    }
  }

  lemma DoRequestFine(c: Options, s: Engine, kind: Kind, requested: Option<u16>, filters: seq<string>, refused: bool)
    requires Fine(c, s)
    ensures Fine(c, DoRequest(c, s, kind, requested, filters, refused).0)
  {
    DoRequestSteady(c, s, kind, requested, filters, refused);
    if Whole(c, s) {
      DoRequestKeeps(c, s, kind, requested, filters, refused);
      DoRequestPaid(c, s, kind, requested, filters, refused);
    }
    SteadyFine(c, s, DoRequest(c, s, kind, requested, filters, refused).0);
  }

  lemma DoConnectFine(c: Options, s: Engine)
    requires Fine(c, s)
    ensures Fine(c, DoConnect(c, s).0)
  {
    DoConnectSteady(c, s);
    if Whole(c, s) { DoConnectKeeps(c, s); }
    SteadyFine(c, s, DoConnect(c, s).0);
  }

  // ----- Incoming packets -----

  lemma RefusedEvents(c: Options, s: Engine, p: Incoming)
    requires s.link.closed || !IsAck(p) || Unfit(c, s, p)
    ensures CountPublished(HandlePacket(c, s, p).1) == 0
  {
    OneEvent(Failure(InvalidPacketId));
    if !IsAck(p) { HandleOtherEvents(c, s, p); }
  }

  /** Handling a packet neither admits nor rejects, and reports exactly what it finishes. */
  lemma HandlePacketTally(c: Options, s: Engine, p: Incoming)
    requires Inv(c, s)
    ensures
      var (r, events, _) := HandlePacket(c, s, p);
      && r.hist.points == s.hist.points && r.hist.failures == s.hist.failures && r.hist.reports == s.hist.reports
      && |r.hist.tickets.published| == |s.hist.tickets.published| + CountPublished(events)
  {
    if s.link.closed || !IsAck(p) || Unfit(c, s, p) {
      HandlePacketSteady(c, s, p);
      RefusedEvents(c, s, p);
    } else {
      HandleAckAcked(c, s, p);
      HandleAckTally(c, s, p);
    }
  }

  lemma ParseOneLog(c: Options, s: Engine)
    requires Inv(c, s) && Tally(s) && s.link.parser != []
    ensures
      var r := ParseOne(c, s);
      Tally(r) && r.hist.points == s.hist.points && r.hist.failures == s.hist.failures
  {
    var p, s0 := s.link.parser[0], s.(link := s.link.(parser := s.link.parser[1..]));
    HandlePacketTally(c, s0, p);
    var (s1, events, responses) := HandlePacket(c, s0, p);
    FlushSteady(c, Record(s1, events, responses));
  }

  lemma ParseOneFine(c: Options, s: Engine)
    requires Fine(c, s) && s.link.parser != []
    ensures Fine(c, ParseOne(c, s))
  {
    if Broken(c, s) {
      ParseOneTimely(c, s);
      BrokenStays(c, s, ParseOne(c, s));
    } else {
      ParseOneKeeps(c, s);
      ParseOnePaid(c, s);
      ParseOneLog(c, s);
    }
  }

  lemma {:induction false} ParseLoopFine(c: Options, s: Engine)
    requires Fine(c, s)
    ensures Fine(c, ParseLoop(c, s))
    decreases Potential(s)
  {
    if !ParserPaused(c, s) {
      ParseOneFine(c, s);
      ParseOnePotential(c, s);
      ParseLoopFine(c, ParseOne(c, s));
    }
  }

  lemma IngestFine(c: Options, s: Engine, data: seq<Incoming>)
    requires Fine(c, s)
    ensures Fine(c, Ingest(c, s, data))
  {
    if !s.link.closed {
      var s0 := s.(link := s.link.(parser := s.link.parser + data));
      SteadyFine(c, s, s0);
      FlushFine(c, s0);
      ParseLoopFine(c, Flush(c, s0));
      ProcessQueueFine(c, ParseLoop(c, Flush(c, s0)));
    }
  }

  lemma RefillFine(c: Options, s: Engine)
    requires Fine(c, s)
    ensures Fine(c, Refill(c, s))
  {
    var s0 := s.(link := s.link.(out := []));
    SteadyFine(c, s, s0);
    FlushFine(c, s0);
    IngestFine(c, Flush(c, s0), []);
    ProcessQueueFine(c, Ingest(c, Flush(c, s0), []));
  }

  lemma {:induction false} TakeOutputFine(c: Options, s: Engine)
    requires Fine(c, s)
    ensures Fine(c, TakeOutput(c, s).0)
    decreases Potential(s) - |s.link.out|
  {
    RefillFine(c, s);
    RefillPotential(c, s);
    if Refill(c, s).link.out != [] { TakeOutputFine(c, Refill(c, s)); }
  }

  // ----- Ticks -----

  lemma ExpireOneFine(c: Options, s: Engine, d: Deadline)
    requires Fine(c, s)
    ensures Fine(c, ExpireOne(c, s, d))
  {
    var s1 := s.(
      clock := s.clock.(deadlines := DropDeadline(s.clock.deadlines, d.kind, d.id)),
      events := s.events + [OperationFailed(d.kind, d.id, OperationTimeout)]);
    SteadyFine(c, s, s1);
    if d.kind == ConnectOp { ConnectionLostFine(c, s1); }
  }

  lemma {:induction false} ExpireAllFine(c: Options, s: Engine, ds: seq<Deadline>)
    requires Fine(c, s)
    ensures Fine(c, ExpireAll(c, s, ds))
    decreases ds
  {
    if ds == [] {
    } else {
      ExpireOneFine(c, s, ds[0]);
      ExpireAllFine(c, ExpireOne(c, s, ds[0]), ds[1..]);
    }
  }

  lemma RetransmissionsKeeps(c: Options, s: Engine)
    requires Inv(c, s) && Paid(s) && !s.link.connecting
    ensures Inv(c, Retransmissions(c, s)) && Paid(Retransmissions(c, s))
  {
    var q := Expired(LineOf(c), s.sess.inflight, s.clock.now);
    ExpiredSound(LineOf(c), s.sess.inflight, s.clock.now);
    var s1 := s.(sess := s.sess.(inflight := q));
    BooksSameLive(s.sess, s1.sess, s.hist.tickets, s.sess.previous);
    ResendAllFrame(c, s1, DueResends(s.sess.inflight, s.clock.now));
  }

  lemma RetransmissionsFine(c: Options, s: Engine)
    requires Fine(c, s) && !s.link.connecting
    ensures Fine(c, Retransmissions(c, s))
  {
    RetransmissionsSteady(c, s);
    if Whole(c, s) { RetransmissionsKeeps(c, s); }
    SteadyFine(c, s, Retransmissions(c, s));
  }

  lemma DoPingFine(c: Options, s: Engine)
    requires Fine(c, s)
    ensures Fine(c, DoPing(c, s).0) && DoPing(c, s).0.link.connecting == s.link.connecting
  {
    DoPingSteady(c, s);
    SteadyFine(c, s, DoPing(c, s).0);
  }

  lemma TickConnectedFine(c: Options, s: Engine)
    requires Fine(c, s) && !s.link.connecting
    ensures Fine(c, TickConnected(c, s).0)
  {
    if PingOverdue(c, s) {
      ConnectionLostFine(c, s);
      SteadyFine(c, ConnectionLost(c, s, s.clock.now), TickConnected(c, s).0);
    } else {
      var s1 := if PingDue(c, s) then DoPing(c, s).0 else s;
      DoPingFine(c, s);
      ProcessQueueFine(c, s1);
      ProcessQueueLink(c, s1);
      RetransmissionsFine(c, ProcessQueue(c, s1, None));
    }
  }

  lemma DoTickFine(c: Options, s: Engine)
    requires Fine(c, s) && (s.link.connected ==> !s.link.connecting)
    ensures Fine(c, DoTick(c, s).0)
  {
    var due := DueDeadlines(s.clock.deadlines, s.clock.now);
    var s0 := ExpireAll(c, s, due);
    ExpireAllFine(c, s, due);
    FlushFine(c, s0);
    ExpireAllLink(c, s, due);
    FlushCases(c, s0);
    var s1 := Flush(c, s0);
    if s1.link.connected { TickConnectedFine(c, s1); } else { SteadyFine(c, s1, TickDisconnected(s1).0); }
  }

  lemma {:induction false} ExpireAllLink(c: Options, s: Engine, ds: seq<Deadline>)
    ensures ExpireAll(c, s, ds).link == s.link || Lost(ExpireAll(c, s, ds))
    decreases ds
  {
    if ds == [] {
    } else {
      var s1 := s.(
        clock := s.clock.(deadlines := DropDeadline(s.clock.deadlines, ds[0].kind, ds[0].id)),
        events := s.events + [OperationFailed(ds[0].kind, ds[0].id, OperationTimeout)]);
      ResetLink(c, s1);
      ExpireAllLink(c, ExpireOne(c, s, ds[0]), ds[1..]);
    }
  }

  // ----- Steps and runs -----

  lemma LocalKeeps(c: Options, s: Engine, i: Input)
    requires Inv(c, s) && IsLocal(i)
    ensures Inv(c, ApplyLocal(c, s, i))
  {
  }

  lemma LocalPaid(c: Options, s: Engine, i: Input)
    requires Paid(s) && IsLocal(i)
    ensures Paid(ApplyLocal(c, s, i))
  {
  }

  lemma LocalFine(c: Options, s: Engine, i: Input)
    requires Fine(c, s) && IsLocal(i)
    ensures Fine(c, ApplyLocal(c, s, i))
  {
    LocalSteady(c, s, i);
    if Whole(c, s) {
      LocalKeeps(c, s, i);
      LocalPaid(c, s, i);
    }
    SteadyFine(c, s, ApplyLocal(c, s, i));
  }

  lemma EventsFine(c: Options, s: Engine)
    requires Fine(c, s)
    ensures Fine(c, s.(events := []))
  {
    SteadyFine(c, s, s.(events := []));
  }

  lemma RequestFine(c: Options, s: Engine, i: Input)
    requires Fine(c, s) && (i.ConnectInput? || i.RequestInput?)
    ensures Fine(c, Apply(c, s, i))
  {
    match i
    case ConnectInput => DoConnectFine(c, s);
    case RequestInput(kind, requested, filters, refused) => DoRequestFine(c, s, kind, requested, filters, refused);
  }

  lemma EndFine(c: Options, s: Engine, i: Input)
    requires Fine(c, s) && (i.LostInput? || i.ResetInput?)
    ensures Fine(c, Apply(c, s, i))
  {
    if i.LostInput? { ConnectionLostFine(c, s); } else { ResetFine(c, s); }
  }

  lemma CalmFine(c: Options, s: Engine, i: Input)
    requires Fine(c, s) && IsCalm(i)
    ensures Fine(c, Apply(c, s, i))
  {
    if IsLocal(i) {
      LocalFine(c, s, i);
    } else if i.ConnectInput? || i.RequestInput? {
      RequestFine(c, s, i);
    } else {
      EndFine(c, s, i);
    }
  }

  lemma ApplyFine(c: Options, s: Engine, i: Input)
    requires Codec(c) && Named(s.caps.aliases) && (s.link.connected ==> !s.link.connecting) && Fine(c, s)
    ensures Fine(c, Apply(c, s, i))
  {
    if IsCalm(i) {
      CalmFine(c, s, i);
    } else {
      match i
      case PublishInput(cmd) => DoPublishFine(c, s, cmd);
      case DataInput(data) => IngestFine(c, s, data); EventsFine(c, Ingest(c, s, data));
      case TakeInput => TakeOutputFine(c, s);
      case TickInput => DoTickFine(c, s); EventsFine(c, DoTick(c, s).0);
    }
  }

  lemma AtFine(c: Options, s: Engine, now: Time)
    requires Fine(c, s) && TimeAccepted(c, s, now)
    ensures Fine(c, At(s, now))
  {
    SteadyFine(c, s, At(s, now));
  }

  lemma InitialFine(c: Options, now: Time)
    requires Horizon(c, now)
    ensures Fine(c, Initial(c, now))
  {
    NewSound(LineOf(c), c.receiveMaximum);
  }
}
