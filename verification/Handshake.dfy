/** Interrupted handshakes: however often the connection is lost between CONNECT and CONNACK, no exchange is
    dropped, duplicated or reordered, and the CONNACK that finally resumes the session replays exactly what
    was outstanding before the first attempt. */
module InterruptedHandshakes {
  import opened Basics
  import opened Timestamps
  import opened Packets
  import opened PriorityQueues
  import opened InflightQueues
  import opened EngineModel
  import opened EngineRuns
  import opened SessionBooks
  import opened SessionInvariant
  import opened Commands
  import opened Resumption
  import opened IncomingPackets
  import opened TimeRange
  import opened Safety
  import opened ConnectionControl
  import opened Timers
  import opened Reachable

  lemma {:induction false} OnlyExchangesAppend(xs: seq<Held>, ys: seq<Held>)
    ensures OnlyExchanges(xs + ys) == OnlyExchanges(xs) + OnlyExchanges(ys)
  {
    if xs == [] {
      assert xs + ys == ys;
    } else {
      assert (xs + ys)[1..] == xs[1..] + ys;
      OnlyExchangesAppend(xs[1..], ys);
    }
  }

  // ----- Removing one identifier from a merge -----

  lemma PutStep(xs: seq<Held>, h: Held)
    ensures xs == [] ==> Put(xs, h) == [h]
    ensures xs != [] && xs[0].id == h.id ==> Put(xs, h) == [h] + xs[1..]
    ensures xs != [] && xs[0].id != h.id ==> Put(xs, h) == [xs[0]] + Put(xs[1..], h)
  {
  }

  lemma {:induction false} RemovePut(xs: seq<Held>, h: Held, id: nat)
    ensures h.id == id ==> Remove(Put(xs, h), id) == Remove(xs, id)
    ensures h.id != id ==> Remove(Put(xs, h), id) == Put(Remove(xs, id), h)
    decreases xs
  {
    PutStep(xs, h);
    if xs == [] {
      assert [h][1..] == [];
    } else {
      RemovePut(xs[1..], h, id);
      PutStep(Remove(xs, id), h);
      var r := Put(xs, h);
      if xs[0].id == h.id {
        assert r[1..] == xs[1..];
      } else {
        assert r[1..] == Put(xs[1..], h);
      }
    }
  }

  lemma {:induction false} RemoveMerge(xs: seq<Held>, hs: seq<Held>, id: nat)
    ensures Remove(Merge(xs, hs), id) == Merge(Remove(xs, id), Remove(hs, id))
    decreases hs
  {
    if hs == [] {
    } else {
      RemovePut(xs, hs[0], id);
      RemoveMerge(Put(xs, hs[0]), hs[1..], id);
    }
  }

  lemma {:induction false} RemovePlain(xs: seq<Held>, id: nat)
    requires forall h :: h in xs && h.id == id ==> !IsExchange(h.packet)
    ensures OnlyExchanges(Remove(xs, id)) == OnlyExchanges(xs)
    decreases xs
  {
    if xs == [] {
    } else {
      assert xs[0] in xs;
      forall h | h in xs[1..] && h.id == id ensures !IsExchange(h.packet) { assert h in xs; }
      RemovePlain(xs[1..], id);
      if xs[0].id != id { OnlyExchangesAppend([xs[0]], Remove(xs[1..], id)); }
    }
  }

  /** Merging entries that are known, or new and not resumable, keeps the resumable entries. */
  lemma {:induction false} MergePlain(xs: seq<Held>, hs: seq<Held>)
    requires NoDup(Ids(xs)) && NoDup(Ids(hs))
    requires forall h :: h in hs ==> h in xs || (!IsExchange(h.packet) && h.id !in Ids(xs))
    ensures OnlyExchanges(Merge(xs, hs)) == OnlyExchanges(xs)
    decreases hs
  {
    if hs == [] {
    } else {
      var h := hs[0];
      assert h in hs;
      IdsHead(hs);
      IdsIn(xs, h.id);
      PutIds(xs, h);
      if h in xs {
        MergeKnown(xs, [h]);
        assert [h][1..] == [] && Put(xs, h) == xs;
      } else {
        assert Put(xs, h) == xs + [h];
        OnlyExchangesAppend(xs, [h]);
        assert [h][1..] == [];
      }
      forall g | g in hs[1..] ensures g in Put(xs, h) || (!IsExchange(g.packet) && g.id !in Ids(Put(xs, h))) {
        assert g in hs;
        var i :| 0 <= i < |hs[1..]| && hs[1..][i] == g;
        assert Ids(hs[1..])[i] == g.id;
      }
      MergePlain(Put(xs, h), hs[1..]);
    }
  }

  // ----- What does not depend on the connection -----

  ghost predicate SameExchanges(q: Session, r: Session) {
    OnlyExchanges(Outstanding(r)) == OnlyExchanges(Outstanding(q))
  }

  /** Nothing but the queue changed, and no parked identifier lost its reservation. */
  lemma QueueOnly(c: Options, q: Session, r: Session)
    requires r.previous == q.previous && r.replay == q.replay
        && Snapshot(r.inflight.items) == Snapshot(q.inflight.items)
    requires q.reserved <= r.reserved && forall id :: id in Ids(q.previous) ==> id in q.reserved
    ensures Outstanding(r) == Outstanding(q)
  {
    RetainAll(q.previous, q.reserved);
    RetainAll(q.previous, r.reserved);
  }

  /** A request adds one entry that is not resumable. */
  lemma RequestExchanges(c: Options, s: Engine, h: Held)
    requires Inv(c, s) && !c.sessionless && !IsExchange(h.packet) && !Busy(s.sess, h.id)
    requires Push(LineOf(c), s.sess.inflight, h.id, h.packet, 1, None, s.clock.now).Ok?
    ensures SameExchanges(s.sess, Requested(c, s.sess, h, s.clock.now))
  {
    var q, r := s.sess, Requested(c, s.sess, h, s.clock.now);
    var a, b := Snapshot(q.inflight.items), q.replay;
    PushSnapshot(LineOf(c), q.inflight, h.id, h.packet, 1, None, s.clock.now);
    assert Live(r) == a + [h] + b && h.id !in q.reserved;
    assert h.id !in Ids(Live(q)) && h.id !in Ids(q.previous);
    InsertedIds(a, h, b);
    RequestRemoved(q.previous, a, b, h);
    RetainAll(q.previous, q.reserved);
    RetainAll(q.previous, r.reserved);
    forall g | g in Outstanding(r) && g.id == h.id ensures !IsExchange(g.packet) {
      OutstandingHolds(r, g);
      assert h in Live(r);
      HeldUnique(Live(r), g, h);
    }
    RemovePlain(Outstanding(r), h.id);
  }

  lemma RequestRemoved(xs: seq<Held>, a: seq<Held>, b: seq<Held>, h: Held)
    requires h.id !in Ids(xs) && h.id !in Ids(a + b)
    ensures Remove(Merge(xs, a + [h] + b), h.id) == Merge(xs, a + b)
  {
    IdsAppend(a, b);
    RemoveMerge(xs, a + [h] + b, h.id);
    RemoveAbsent(xs, h.id);
    RemoveAbsent(a, h.id);
    RemoveAbsent(b, h.id);
    RemoveAppend(a + [h], b, h.id);
    RemoveAppend(a, [h], h.id);
    assert Remove([h], h.id) == [] && a + [] == a;
  }

  // ----- Operations while no CONNACK arrives -----

  ghost predicate NoConnAck(data: seq<Incoming>) {
    forall p :: p in data ==> !p.ConnAck?
  }

  ghost predicate Unanswered(s: Engine) {
    !s.link.connected && s.link.responses == [] && NoConnAck(s.link.parser)
  }

  ghost predicate Tracked(c: Options, s: Engine) {
    Inv(c, s) && !c.sessionless
  }

  ghost predicate Carries(c: Options, s: Engine, r: Engine) {
    SameExchanges(s.sess, r.sess) && Unanswered(r) && Tracked(c, r)
  }

  lemma LossCarries(c: Options, s: Engine, now: Time)
    requires Tracked(c, s)
    ensures Carries(c, s, ConnectionLost(c, s, now)) && Carries(c, s, Reset(c, s))
  {
    ResetKeeps(c, s);
    ConnectionLostKeeps(c, s, now);
    QueueOnly(c, s.sess, ResetSession(c, s.sess));
    var s1 := Reset(c, s);
    ScheduleReconnectFrame(c, s1.(clock := s1.clock.(nextReconnect := s.clock.nextReconnect)), now);
  }

  lemma FailCarries(c: Options, s: Engine, e: Error)
    requires Tracked(c, s)
    ensures Carries(c, s, FailConnection(c, s, e))
  {
    LossCarries(c, s, s.clock.now);
  }

  lemma ConnectCarries(c: Options, s: Engine)
    requires Tracked(c, s) && Unanswered(s)
    ensures Carries(c, s, DoConnect(c, s).0)
  {
    var s1 := CreateSession(c, s);
    assert s1.sess == s.sess && s1.link == s.link;
    DoConnectKeeps(c, s);
    if ConnectError(c, s1).None? {
      CaptureIdempotent(s.sess, s.hist.tickets);
      assert Connecting(c, s1).sess == s.sess.(previous := Outstanding(s.sess), replay := []);
    }
  }

  /** In an engine that tracks sessions parked identifiers are reserved, so none is handed out again. */
  lemma PublishCarries(c: Options, s: Engine, cmd: Command)
    requires Codec(c) && Named(s.caps.aliases) && Tracked(c, s) && Unanswered(s)
    ensures Carries(c, s, DoPublish(c, s, cmd).0)
  {
    var (s1, a) := Decide(c, s, cmd);
    DecideFacts(c, s, cmd);
    if a.Accepted? {
      PublishIsAdmission(c, s, cmd);
      AdmitSess(s1, a.packet, cmd.priority, a.id, a.alias, a.bytes);
      AdmitKeeps(c, s, cmd);
      QueueOnly(c, s.sess, Admitting(c, s, cmd).sess);
    }
  }

  lemma RequestCarries(c: Options, s: Engine, kind: Kind, requested: Option<u16>, filters: seq<string>, refused: bool)
    requires Tracked(c, s) && Unanswered(s)
    ensures Carries(c, s, DoRequest(c, s, kind, requested, filters, refused).0)
  {
    DoRequestSess(c, s, kind, requested, filters, refused);
    DoRequestKeeps(c, s, kind, requested, filters, refused);
    var id := CandidateId(s, requested).1;
    if id.Ok? {
      var h := Held(id.value, RequestPacket(kind, id.value, filters));
      if Push(LineOf(c), s.sess.inflight, h.id, h.packet, 1, None, s.clock.now).Ok? { RequestExchanges(c, s, h); }
    }
  }

  lemma IdleOutput(c: Options, s: Engine)
    requires Unanswered(s)
    ensures Flush(c, s) == s && ProcessQueue(c, s, None) == s
  {
  }

  lemma HandlePacketCarries(c: Options, s: Engine, p: Incoming)
    requires Tracked(c, s) && Unanswered(s) && !p.ConnAck?
    ensures Carries(c, s, HandlePacket(c, s, p).0) && HandlePacket(c, s, p).2 == []
  {
    if s.link.closed || p.Malformed? || p.Oversized? || !Accepts(c, s, p) {
      RefusedCarries(c, s, p);
    } else if p.DisconnectIn? {
      DisconnectCarries(c, s, p);
    } else {
      AuthCarries(c, s, p);
    }
  }

  /** What handling the packet comes to if it is refused. */
  lemma RefusedOutcome(c: Options, s: Engine, p: Incoming)
    requires s.link.closed || p.Malformed? || p.Oversized? || !Accepts(c, s, p)
    ensures
      var e := if p.Oversized? then BufferFull else ProtocolViolation;
      HandlePacket(c, s, p) == (if s.link.closed then s else FailConnection(c, s, e), [], [])
  {
  }

  lemma RefusedCarries(c: Options, s: Engine, p: Incoming)
    requires Tracked(c, s) && Unanswered(s)
    requires s.link.closed || p.Malformed? || p.Oversized? || !Accepts(c, s, p)
    ensures Carries(c, s, HandlePacket(c, s, p).0) && HandlePacket(c, s, p).2 == []
  {
    var e := if p.Oversized? then BufferFull else ProtocolViolation;
    RefusedOutcome(c, s, p);
    FailCarries(c, s, e);
  }

  lemma DisconnectCarries(c: Options, s: Engine, p: Incoming)
    requires Tracked(c, s) && Unanswered(s) && !s.link.closed && Accepts(c, s, p) && p.DisconnectIn?
    ensures Carries(c, s, HandlePacket(c, s, p).0) && HandlePacket(c, s, p).2 == []
  {
    LossCarries(c, s, s.clock.now);
  }

  lemma AuthCarries(c: Options, s: Engine, p: Incoming)
    requires Tracked(c, s) && Unanswered(s) && !s.link.closed && Accepts(c, s, p)
    requires !p.ConnAck? && !p.DisconnectIn? && !p.Oversized? && !p.Malformed?
    ensures Carries(c, s, HandlePacket(c, s, p).0) && HandlePacket(c, s, p).2 == []
  {
    assert p.AuthIn?;
    HandlePacketKeeps(c, s, p);
    FailCarries(c, s, ProtocolViolation);
  }

  lemma ParseOneCarries(c: Options, s: Engine)
    requires Tracked(c, s) && Unanswered(s) && s.link.parser != []
    ensures Carries(c, s, ParseOne(c, s))
  {
    var p, s0 := s.link.parser[0], s.(link := s.link.(parser := s.link.parser[1..]));
    assert p in s.link.parser && Unanswered(s0) && Tracked(c, s0);
    HandlePacketCarries(c, s0, p);
    var (s1, events, responses) := HandlePacket(c, s0, p);
    IdleOutput(c, Record(s1, events, responses));
  }

  lemma {:induction false} ParseLoopCarries(c: Options, s: Engine)
    requires Tracked(c, s) && Unanswered(s)
    ensures Carries(c, s, ParseLoop(c, s))
    decreases Potential(s)
  {
    if !ParserPaused(c, s) {
      ParseOneCarries(c, s);
      ParseOnePotential(c, s);
      ParseLoopCarries(c, ParseOne(c, s));
    }
  }

  lemma IngestCarries(c: Options, s: Engine, data: seq<Incoming>)
    requires Tracked(c, s) && Unanswered(s) && NoConnAck(data)
    ensures Carries(c, s, Ingest(c, s, data))
  {
    var s0 := s.(link := s.link.(parser := s.link.parser + data));
    IdleOutput(c, s0);
    ParseLoopCarries(c, s0);
    IdleOutput(c, ParseLoop(c, s0));
  }

  lemma {:induction false} TakeOutputCarries(c: Options, s: Engine)
    requires Tracked(c, s) && Unanswered(s)
    ensures Carries(c, s, TakeOutput(c, s).0)
    decreases Potential(s) - |s.link.out|
  {
    var s0 := s.(link := s.link.(out := []));
    IdleOutput(c, s0);
    IngestCarries(c, s0, []);
    IdleOutput(c, Ingest(c, s0, []));
    assert Refill(c, s) == Ingest(c, s0, []);
    RefillPotential(c, s);
    if Refill(c, s).link.out != [] { TakeOutputCarries(c, Refill(c, s)); }
  }

  lemma {:induction false} ExpireAllCarries(c: Options, s: Engine, ds: seq<Deadline>)
    requires Tracked(c, s) && Unanswered(s)
    ensures Carries(c, s, ExpireAll(c, s, ds))
    decreases ds
  {
    if ds == [] {
    } else {
      var s1 := s.(
        clock := s.clock.(deadlines := DropDeadline(s.clock.deadlines, ds[0].kind, ds[0].id)),
        events := s.events + [OperationFailed(ds[0].kind, ds[0].id, OperationTimeout)]);
      LossCarries(c, s1, s1.clock.now);
      ExpireAllCarries(c, ExpireOne(c, s, ds[0]), ds[1..]);
    }
  }

  lemma TickCarries(c: Options, s: Engine)
    requires Tracked(c, s) && Unanswered(s)
    ensures Carries(c, s, DoTick(c, s).0)
  {
    var due := DueDeadlines(s.clock.deadlines, s.clock.now);
    ExpireAllCarries(c, s, due);
    IdleOutput(c, ExpireAll(c, s, due));
  }

  ghost predicate NoAnswer(i: Input) {
    i.DataInput? ==> NoConnAck(i.data)
  }

  lemma EventsCarry(c: Options, s: Engine, r: Engine)
    requires Carries(c, s, r)
    ensures Carries(c, s, r.(events := []))
  {
  }

  lemma LocalCarries(c: Options, s: Engine, i: Input)
    requires Tracked(c, s) && Unanswered(s) && IsLocal(i)
    ensures Carries(c, s, ApplyLocal(c, s, i))
  {
    LocalKeeps(c, s, i);
    ScheduleReconnectFrame(c, s, s.clock.now);
    assert ApplyLocal(c, s, i).sess == s.sess;
  }

  lemma CommandCarries(c: Options, s: Engine, i: Input)
    requires Codec(c) && Named(s.caps.aliases) && Tracked(c, s) && Unanswered(s)
    requires (i.ConnectInput? || i.PublishInput? || i.RequestInput? || i.LostInput? || i.ResetInput?)
    ensures Carries(c, s, Apply(c, s, i))
  {
    match i
    case ConnectInput => ConnectCarries(c, s);
    case PublishInput(cmd) => PublishCarries(c, s, cmd);
    case RequestInput(kind, requested, filters, refused) => RequestCarries(c, s, kind, requested, filters, refused);
    case LostInput => LossCarries(c, s, s.clock.now);
    case ResetInput => LossCarries(c, s, s.clock.now);
  }

  lemma ApplyCarries(c: Options, s: Engine, i: Input)
    requires Codec(c) && Named(s.caps.aliases) && Tracked(c, s) && Unanswered(s) && NoAnswer(i)
    ensures Carries(c, s, Apply(c, s, i))
  {
    if IsLocal(i) {
      LocalCarries(c, s, i);
    } else {
      match i
      case DataInput(data) => IngestCarries(c, s, data); EventsCarry(c, s, Ingest(c, s, data));
      case TakeInput => TakeOutputCarries(c, s);
      case TickInput => TickCarries(c, s); EventsCarry(c, s, DoTick(c, s).0);
      case _ => CommandCarries(c, s, i);
    }
  }

  /** Whatever happens while no CONNACK arrives — losses, timeouts, new attempts, publications, requests, any
      other packet of the peer — the resumable exchanges stay the same, in the same order. */
  lemma {:induction false} ExchangesSurviveInterruptions(c: Options, s: Engine, ts: seq<Timed>)
    requires Codec(c) && Always(c, s) && Tracked(c, s) && Unanswered(s)
    requires forall t :: t in ts ==> NoAnswer(t.input)
    ensures Carries(c, s, Run(c, s, ts))
    decreases ts
  {
    if ts == [] {
    } else {
      var t := ts[0];
      assert t in ts;
      if TimeAccepted(c, s, t.now) {
        AtAlways(c, s, t.now);
        ApplyTimely(c, At(s, t.now), t.input);
        ApplyCarries(c, At(s, t.now), t.input);
      }
      ExchangesSurviveInterruptions(c, Step(c, s, t), ts[1..]);
    }
  }

  // ----- The CONNACK that finally arrives -----

  lemma {:induction false} ReplayedParts(hs: seq<Held>)
    ensures PubRelsOf(OnlyExchanges(hs)) == PubRelsOf(hs) && PublishesOf(OnlyExchanges(hs)) == PublishesOf(hs)
  {
    if hs == [] {
    } else {
      ReplayedParts(hs[1..]);
      if IsExchange(hs[0].packet) { assert OnlyExchanges(hs)[1..] == OnlyExchanges(hs[1..]); }
    }
  }

  /** While connecting, the captured entries are the resumable ones. */
  lemma CapturedExchanges(c: Options, s: Engine)
    requires Inv(c, s) && s.link.connecting && !c.sessionless
    ensures OnlyExchanges(Outstanding(s.sess)) == OnlyExchanges(s.sess.previous)
  {
    var q := s.sess;
    var live := Snapshot(q.inflight.items);
    assert Live(q) == live;
    RetainAll(q.previous, q.reserved);
    forall h | h in live ensures h in q.previous || (!IsExchange(h.packet) && h.id !in Ids(q.previous)) {
      CapturedEntry(q, h);
    }
    MergePlain(q.previous, live);
  }

  lemma CapturedEntry(q: Session, h: Held)
    requires Captured(q) && NoDup(Ids(Snapshot(q.inflight.items))) && h in Snapshot(q.inflight.items)
    ensures h in q.previous || (!IsExchange(h.packet) && h.id !in Ids(q.previous))
  {
    var live := Snapshot(q.inflight.items);
    ExchangeIdsIn(live, h.id);
    var i :| 0 <= i < |live| && live[i] == h;
    assert Ids(live)[i] == h.id && LiveIds(q.inflight) == Ids(live);
    if h.id in Ids(q.previous) {
      var k :| 0 <= k < |q.previous| && Ids(q.previous)[k] == h.id;
      assert q.previous[k] in q.previous && q.previous[k].id == h.id;
      HeldUnique(live, q.previous[k], h);
    }
  }

  /** After any number of interrupted handshakes, a CONNACK that resumes the session replays exactly what was
      outstanding at the start: all releases and then all publications, each in their original order. */
  lemma InterruptedResume(c: Options, s: Engine, ts: seq<Timed>, present: bool)
    requires Codec(c) && Always(c, s) && Tracked(c, s) && Unanswered(s)
    requires forall t :: t in ts ==> NoAnswer(t.input)
    requires Run(c, s, ts).link.connecting && Resumes(c, present)
    ensures
      var before := Outstanding(s.sess);
      Settle(c, Run(c, s, ts), present).sess.replay == PubRelsOf(before) + ReplayForms(PublishesOf(before))
  {
    var r := Run(c, s, ts);
    ExchangesSurviveInterruptions(c, s, ts);
    CapturedExchanges(c, r);
    ReplayedParts(r.sess.previous);
    ReplayedParts(Outstanding(s.sess));
    SettleExact(c, r, present);
  }

  /** The same for every run of an engine that tracks sessions, as long as no identifier clashed before. */
  lemma InterruptedRuns(c: Options, now: Time, first: seq<Timed>, ts: seq<Timed>, present: bool)
    requires Codec(c) && Horizon(c, now) && !c.sessionless
    requires
      var s := Run(c, Initial(c, now), first);
      NoClash(s) && Unanswered(s) && Run(c, s, ts).link.connecting
    requires (forall t :: t in ts ==> NoAnswer(t.input)) && Resumes(c, present)
    ensures
      var s := Run(c, Initial(c, now), first);
      var before := Outstanding(s.sess);
      Settle(c, Run(c, s, ts), present).sess.replay == PubRelsOf(before) + ReplayForms(PublishesOf(before))
  {
    var s := Run(c, Initial(c, now), first);
    Reached(c, now, first);
    HealthyLaw(c, s);
    InterruptedResume(c, s, ts, present);
  }
}
