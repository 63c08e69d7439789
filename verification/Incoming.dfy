/** Incoming packets keep the session invariant. */
module IncomingPackets {
  import opened Basics
  import opened Timestamps
  import opened Packets
  import opened PriorityQueues
  import opened InflightQueues
  import opened EngineModel
  import opened SessionBooks
  import opened SessionInvariant
  import opened Commands
  import opened Resumption

  /** A validated acknowledgement names an exchange in flight, neither queued nor waiting for replay. */
  lemma InFlight(q: Session, t: Tickets, id: nat)
    requires Books(q, t, q.previous) && Has(q.inflight, id)
    ensures
      var h := Held(id, q.inflight.items[Find(q.inflight.items, id)].packet);
      && h in Live(q) && id in Ids(Live(q)) && id !in QueueIds(q.queue) && id !in Ids(q.replay)
      && (id in ExchangeIds(Live(q)) <==> IsExchange(h.packet))
  {
    var a, i := Snapshot(q.inflight.items), Find(q.inflight.items, id);
    var h := Held(id, q.inflight.items[i].packet);
    assert a[i] == h && h in a && h in Live(q);
    HasIds(q.inflight, id);
    IdsAppend(a, q.replay);
    NoDupAppend(Ids(a), Ids(q.replay));
    ExchangeOf(Live(q), h);
  }

  lemma CompleteSess(s: Engine, id: nat)
    ensures
      var r := Complete(s, id);
      && r.sess == Without(s.sess, id) && r.link == s.link && r.clock.now == s.clock.now
      && r.hist.tickets == MarkPublished(s.hist.tickets, id)
  {
  }

  lemma CompleteKeeps(c: Options, s: Engine, id: nat)
    requires Inv(c, s) && s.link.connected && Has(s.sess.inflight, id)
    ensures Inv(c, Complete(s, id)) && Complete(s, id).link == s.link && Complete(s, id).clock.now == s.clock.now
  {
    var q, t := s.sess, s.hist.tickets;
    CompleteSess(s, id);
    WithoutKept(c, q, id, s.clock.now);
    CompleteBooks(q, t, id);
  }

  lemma CompleteBooks(q: Session, t: Tickets, id: nat)
    requires Books(q, t, q.previous) && Has(q.inflight, id)
    ensures Books(Without(q, id), MarkPublished(t, id), q.previous)
  {
    InFlight(q, t, id);
    MarkPublishedOk(t, id);
    BooksRelease(q, t, MarkPublished(t, id), q.previous, id);
  }

  /** Completing an exchange publishes the ticket of its publication and no other. */
  lemma CompletePublishes(c: Options, s: Engine, id: nat)
    requires Inv(c, s) && s.link.connected && Has(s.sess.inflight, id)
    requires IsExchange(s.sess.inflight.items[Find(s.sess.inflight.items, id)].packet)
    ensures id in s.hist.tickets.owner
    ensures
      var t, r := s.hist.tickets, Complete(s, id).hist.tickets;
      r.published == t.published + [t.owner[id]] && r.failed == t.failed && r.issued == t.issued
        && r.owner == t.owner - {id}
  {
    InFlight(s.sess, s.hist.tickets, id);
  }

  lemma ConfirmKeeps(c: Options, s: Engine, id: nat)
    requires Inv(c, s) && s.link.connected && Has(s.sess.inflight, id)
    requires !IsExchange(s.sess.inflight.items[Find(s.sess.inflight.items, id)].packet)
    ensures Inv(c, Confirm(s, id)) && Confirm(s, id).link == s.link && Confirm(s, id).clock.now == s.clock.now
    ensures Confirm(s, id).sess == Without(s.sess, id)
  {
    var q, t := s.sess, s.hist.tickets;
    InFlight(q, t, id);
    assert id !in t.owner;
    assert t.owner - {id} == t.owner;
    WithoutKept(c, q, id, s.clock.now);
    BooksRelease(q, t, t, q.previous, id);
  }

  lemma {:induction false} ExchangeIdsReplace(hs: seq<Held>, i: nat, h: Held)
    requires i < |hs| && hs[i].id == h.id && IsExchange(hs[i].packet) && IsExchange(h.packet)
    ensures ExchangeIds(hs[i := h]) == ExchangeIds(hs) && Ids(hs[i := h]) == Ids(hs)
  {
    assert Ids(hs[i := h]) == Ids(hs);
    if i > 0 {
      ExchangeIdsReplace(hs[1..], i - 1, h);
      assert hs[i := h][1..] == hs[1..][i - 1 := h];
    } else {
      assert hs[i := h][1..] == hs[1..];
    }
  }

  /** The session after PUBREC. */
  function Advanced(c: Options, q: Session, id: nat, now: Time): (r: Session) {
    q.(inflight := Transition(LineOf(c), q.inflight, id, PubRel(id), now))
  }

  lemma AdvancedBooks(c: Options, q: Session, t: Tickets, id: nat, now: Time)
    requires Books(q, t, q.previous) && Has(q.inflight, id)
    requires IsExchange(q.inflight.items[Find(q.inflight.items, id)].packet)
    ensures Books(Advanced(c, q, id, now), t, q.previous)
    ensures Live(Advanced(c, q, id, now)) == Live(q)[Find(q.inflight.items, id) := Held(id, PubRel(id))]
  {
    var i, h, r := Find(q.inflight.items, id), Held(id, PubRel(id)), Advanced(c, q, id, now);
    TransitionSnapshot(LineOf(c), q.inflight, id, PubRel(id), now);
    assert Live(r) == Live(q)[i := h];
    assert Live(q)[i] == Snapshot(q.inflight.items)[i];
    ExchangeIdsReplace(Live(q), i, h);
  }

  lemma AdvanceKeeps(c: Options, s: Engine, id: nat)
    requires Inv(c, s) && s.link.connected && Has(s.sess.inflight, id)
    requires IsExchange(s.sess.inflight.items[Find(s.sess.inflight.items, id)].packet)
    ensures Inv(c, Advance(c, s, id)) && Advance(c, s, id).link == s.link && Advance(c, s, id).clock == s.clock
  {
    TransitionSound(LineOf(c), s.sess.inflight, id, PubRel(id), s.clock.now);
    AdvancedBooks(c, s.sess, s.hist.tickets, id, s.clock.now);
    assert Advance(c, s, id).sess == Advanced(c, s.sess, id, s.clock.now);
  }

  // ----- CONNACK -----

  /** Negotiation can only lower the limit, and changes nothing else of the session. */
  lemma NegotiateFacts(c: Options, s: Engine, t: Terms)
    requires Negotiate(c, s, t).Ok?
    ensures
      var r := Negotiate(c, s, t).value;
      && r.sess == s.sess.(inflight := r.sess.inflight)
        && r.sess.inflight == s.sess.inflight.(limit := r.sess.inflight.limit)
      && (0 < s.sess.inflight.limit ==> 0 < r.sess.inflight.limit)
      && r.link == s.link && r.clock == s.clock && r.hist == s.hist && r.events == s.events
  {
  }

  lemma LimitGood(c: Options, q: Session, t: Tickets, connected: bool, connecting: bool, now: Time, limit: nat)
    requires Good(c, q, t, connected, connecting, now) && 0 < limit
    ensures Good(c, q.(inflight := q.inflight.(limit := limit)), t, connected, connecting, now)
  {
    var r := q.(inflight := q.inflight.(limit := limit));
    BooksSameLive(q, r, t, q.previous);
  }

  lemma RestoreKeeps(c: Options, s: Engine, present: bool)
    requires Good(c, s.sess, s.hist.tickets, false, true, s.clock.now)
    requires s.link.connected && !s.link.connecting
    ensures Inv(c, Restore(c, s, present).0)
    ensures
      var r := Restore(c, s, present).0;
      r.link == s.link.(out := r.link.out) && r.clock.now == s.clock.now
  {
    SettleKeeps(c, s, present);
    var s1 := Settle(c, s, present);
    var s2 := s1.(hist := s1.hist.(credit := Credit(s1.sess.inflight.limit, {}, 0)));
    DoRequestKeeps(c, s2, SubscribeOp, None, c.topics, false);
    ProcessReplayKeeps(c, s2);
    ProcessReplayKeeps(c, DoRequest(c, s2, SubscribeOp, None, c.topics, false).0);
  }

  lemma FinishConnAckKeeps(c: Options, s: Engine, reason: nat, present: bool, server: Option<u16>)
    requires Good(c, s.sess, s.hist.tickets, false, true, s.clock.now)
    requires !s.link.connected && !s.link.connecting
    ensures Inv(c, FinishConnAck(c, s, reason, present, server).0)
    ensures FinishConnAck(c, s, reason, present, server).0.clock.now == s.clock.now
  {
    var s1 := s.(link := s.link.(connected := reason == 0));
    if reason == 0 {
      var s2 := ResetReconnect(s1.(link := s1.link.(hasSession := true), hist := s1.hist.(serverMaximum := server)));
      RestoreKeeps(c, s2, present);
    } else {
      ConnectionLostKeeps(c, s1, s1.clock.now);
    }
  }

  lemma HandleConnAckKeeps(c: Options, s: Engine, reason: nat, present: bool, terms: Terms)
    requires Inv(c, s) && s.link.connecting
    ensures Inv(c, HandleConnAck(c, s, reason, present, terms).0)
    ensures HandleConnAck(c, s, reason, present, terms).0.clock.now == s.clock.now
  {
    if (present && !s.link.hasSession) || (c.v5 && WrongMethod(c, reason, terms.authMethod)) {
      FailConnectionKeeps(c, s, ProtocolViolation);
    } else {
      var s1 := s.(link := s.link.(connecting := false),
        clock := s.clock.(deadlines := DropDeadline(s.clock.deadlines, ConnectOp, None)));
      if !c.v5 {
        FinishConnAckKeeps(c, s1, reason, present, None);
      } else {
        match Negotiate(c, s1, terms)
        case Err(e) => FailConnectionKeeps(c, s1, e);
        case Ok(s2) =>
          NegotiateFacts(c, s1, terms);
          LimitGood(c, s1.sess, s1.hist.tickets, false, true, s1.clock.now, s2.sess.inflight.limit);
          FinishConnAckKeeps(c, s2, reason, present, terms.receiveMaximum);
      }
    }
  }

  // ----- All packets -----

  lemma HandleAuthKeeps(c: Options, s: Engine, reason: nat, methods: seq<string>)
    requires Inv(c, s)
    ensures Inv(c, HandleAuth(c, s, reason, methods).0) && HandleAuth(c, s, reason, methods).0.clock.now == s.clock.now
  {
    FailConnectionKeeps(c, s, ProtocolViolation);
  }

  lemma AckFacts(q: Inflight, p: Incoming)
    requires IsAck(p) && ValidateAck(q, p).None?
    ensures Has(q, p.id) && Answers(p, q.items[Find(q.items, p.id)].packet) && q.items[Find(q.items, p.id)].stream.None?
  {
  }

  lemma HandleAckKeeps(c: Options, s: Engine, p: Incoming)
    requires Inv(c, s) && IsAck(p) && s.link.connected && ValidateAck(s.sess.inflight, p).None?
    ensures Inv(c, HandleAccepted(c, s, p).0) && HandleAccepted(c, s, p).0.clock.now == s.clock.now
  {
    AckFacts(s.sess.inflight, p);
    match p
    case PubAck(id, _) => CompleteKeeps(c, s, id);
    case PubComp(id, _) => CompleteKeeps(c, s, id);
    case PubRec(id, reason) => if c.v5 && reason >= 0x80 { CompleteKeeps(c, s, id); } else { AdvanceKeeps(c, s, id); }
    case SubAck(id, _) => ConfirmKeeps(c, s, id);
    case UnsubAck(id) => ConfirmKeeps(c, s, id);
  }

  lemma HandleOtherKeeps(c: Options, s: Engine, p: Incoming)
    requires Inv(c, s) && !IsAck(p) && (p.ConnAck? ==> s.link.connecting)
    ensures Inv(c, HandleAccepted(c, s, p).0) && HandleAccepted(c, s, p).0.clock.now == s.clock.now
  {
    match p
    case ConnAck(reason, present, terms) => HandleConnAckKeeps(c, s, reason, present, terms);
    case AuthIn(reason, methods) => HandleAuthKeeps(c, s, reason, methods);
    case DisconnectIn(_) => ConnectionLostKeeps(c, s, s.clock.now);
    case Message(failure, _) => if failure.Some? { FailConnectionKeeps(c, s, failure.value); }
    case Oversized => FailConnectionKeeps(c, s, BufferFull);
    case Malformed => FailConnectionKeeps(c, s, ProtocolViolation);
    case PingResp =>
  }

  lemma HandlePacketKeeps(c: Options, s: Engine, p: Incoming)
    requires Inv(c, s)
    ensures Inv(c, HandlePacket(c, s, p).0) && HandlePacket(c, s, p).0.clock.now == s.clock.now
  {
    if s.link.closed {
    } else if p.Oversized? || p.Malformed? {
      HandleOtherKeeps(c, s, p);
    } else if !Accepts(c, s, p) {
      FailConnectionKeeps(c, s, ProtocolViolation);
    } else {
      match ValidateAck(s.sess.inflight, p)
      case Some(e) => FailConnectionKeeps(c, s, e);
      case None => if IsAck(p) { HandleAckKeeps(c, s, p); } else { HandleOtherKeeps(c, s, p); }
    }
  }

  lemma ParseOneKeeps(c: Options, s: Engine)
    requires Inv(c, s) && s.link.parser != []
    ensures Inv(c, ParseOne(c, s)) && ParseOne(c, s).clock.now == s.clock.now
  {
    var p, s0 := s.link.parser[0], s.(link := s.link.(parser := s.link.parser[1..]));
    HandlePacketKeeps(c, s0, p);
    var (s1, events, responses) := HandlePacket(c, s0, p);
    FlushKeeps(c, Record(s1, events, responses));
  }

  // ----- What is reported -----

  lemma {:induction false} CountPublishedAppend(xs: seq<Event>, ys: seq<Event>)
    ensures CountPublished(xs + ys) == CountPublished(xs) + CountPublished(ys)
  {
    if xs == [] {
      assert xs + ys == ys;
    } else {
      assert (xs + ys)[1..] == xs[1..] + ys;
      CountPublishedAppend(xs[1..], ys);
    }
  }

  lemma OneEvent(e: Event)
    ensures CountPublished([e]) == if e.Published? then 1 else 0
  {
    assert [e][1..] == [];
  }

  lemma RestoreEvents(c: Options, s: Engine, present: bool)
    ensures CountPublished(Restore(c, s, present).1) == 0
  {
    var s1 := Settle(c, s, present);
    var s2 := s1.(hist := s1.hist.(credit := Credit(s1.sess.inflight.limit, {}, 0)));
    var id := DoRequest(c, s2, SubscribeOp, None, c.topics, false).1;
    if id.Err? { OneEvent(Failure(id.error)); }
  }

  lemma FinishConnAckEvents(c: Options, s: Engine, reason: nat, present: bool, server: Option<u16>)
    ensures CountPublished(FinishConnAck(c, s, reason, present, server).1) == 0
  {
    OneEvent(Connected(reason, present));
    if reason == 0 {
      var s1 := s.(link := s.link.(connected := reason == 0));
      var s2 := ResetReconnect(s1.(link := s1.link.(hasSession := true), hist := s1.hist.(serverMaximum := server)));
      RestoreEvents(c, s2, present);
      CountPublishedAppend([Connected(reason, present)], Restore(c, s2, present).1);
    }
  }

  lemma ConnAckEvents(c: Options, s: Engine, reason: nat, present: bool, terms: Terms)
    ensures CountPublished(HandleConnAck(c, s, reason, present, terms).1) == 0
  {
    var s1 := s.(link := s.link.(connecting := false),
      clock := s.clock.(deadlines := DropDeadline(s.clock.deadlines, ConnectOp, None)));
    if !c.v5 {
      FinishConnAckEvents(c, s1, reason, present, None);
    } else if Negotiate(c, s1, terms).Ok? {
      FinishConnAckEvents(c, Negotiate(c, s1, terms).value, reason, present, terms.receiveMaximum);
    }
  }

  /** Only an acknowledgement reports a publication. */
  lemma HandleOtherEvents(c: Options, s: Engine, p: Incoming)
    requires !IsAck(p)
    ensures CountPublished(HandleAccepted(c, s, p).1) == 0
  {
    match p
    case ConnAck(reason, present, terms) => ConnAckEvents(c, s, reason, present, terms);
    case AuthIn(reason, _) => OneEvent(AuthReceived(reason));
    case DisconnectIn(reason) => OneEvent(DisconnectReceived(reason));
    case Message(_, _) => OneEvent(MessageReceived);
    case PingResp => OneEvent(PingResponse);
    case _ =>
  }

  /** A valid acknowledgement reports a publication exactly when it finishes the ticket of one. */
  lemma HandleAckTally(c: Options, s: Engine, p: Incoming)
    requires Inv(c, s) && IsAck(p) && s.link.connected && ValidateAck(s.sess.inflight, p).None?
    ensures
      var (r, events, _) := HandleAccepted(c, s, p);
      |r.hist.tickets.published| == |s.hist.tickets.published| + CountPublished(events)
  {
    AckFacts(s.sess.inflight, p);
    match p
    case PubAck(id, reason) => CompletePublishes(c, s, id); OneEvent(Published(id, reason));
    case PubComp(id, reason) => CompletePublishes(c, s, id); OneEvent(Published(id, reason));
    case PubRec(id, reason) => if c.v5 && reason >= 0x80 { CompletePublishes(c, s, id);
      } OneEvent(Published(id, reason));
    case SubAck(id, _) => OneEvent(Subscribed(id));
    case UnsubAck(id) => OneEvent(Unsubscribed(id));
  }
}
