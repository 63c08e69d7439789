/** The send quota of section 4.9 of MQTT 5.0: while the books are right, the engine follows it exactly. */
module SendQuota {
  import opened Basics
  import opened Timestamps
  import opened Packets
  import opened PriorityQueues
  import opened InflightQueues
  import opened EngineModel
  import opened EngineRuns
  import opened SessionBooks
  import opened SessionInvariant
  import opened Commands
  import opened Resumption
  import opened IncomingPackets
  import opened TimeRange
  import opened FlowControl

  /** The quota in use and the send quota of the standard add up to the limit. */
  ghost predicate Balances(q: Inflight, k: Credit) {
    k.sendQuota + q.quota == q.limit
  }

  ghost predicate Paid(s: Engine) {
    s.link.connected ==> Balances(s.sess.inflight, s.hist.credit)
  }

  /** Sending a PUBLISH spends one unit of the send quota, and it is never sent at zero. */
  lemma SentPaid(w: Line, q: Inflight, h: History, id: nat, p: Packet, qos: nat, now: Time)
    requires Balances(q, h.credit) && p.Publish? && Push(w, q, id, p, qos, None, now).Ok?
    ensures Balances(Push(w, q, id, p, qos, None, now).value, Spend(h).credit) && h.credit.sendQuota > 0
  {
  }

  lemma ReplayOnePaid(c: Options, s: Engine)
    requires Inv(c, s) && s.link.connected && ReplayReady(c, s) && Paid(s)
    ensures Paid(ReplayOne(c, s))
  {
    var q, t, h := s.sess, s.hist.tickets, s.sess.replay[0];
    if EnqueueError(c, s, h.packet).None? {
      ReplayPush(c, q, t, s.clock.now);
      ReplayHeadSess(c, s);
      if h.packet.Publish? {
        SentPaid(LineOf(c), q.inflight, s.hist, h.id, h.packet, QosOf(h.packet), s.clock.now);
      }
    } else {
      ReplayFailKeeps(c, s, EnqueueError(c, s, h.packet).value);
    }
  }

  lemma {:induction false} ProcessReplayPaid(c: Options, s: Engine)
    requires Inv(c, s) && s.link.connected && Paid(s)
    ensures Paid(ProcessReplay(c, s))
    decreases |s.sess.replay|
  {
    if ReplayReady(c, s) {
      ReplayOnePaid(c, s);
      ReplayOneKeeps(c, s);
      ReplayOneFrame(c, s);
      ProcessReplayPaid(c, ReplayOne(c, s));
    }
  }

  lemma SendHeadPaid(c: Options, s: Engine, bytes: Bytes)
    requires Inv(c, s) && s.link.connected && s.sess.queue != [] && s.sess.replay == [] && !QueueBlocked(s) && Paid(s)
    ensures Paid(SendHead(c, s, bytes))
  {
    var x := s.sess.queue[0];
    assert x in s.sess.queue;
    SendHeadSess(c, s, bytes);
    if x.item.qos > 0 {
      PushSucceeds(c, s.sess, s.hist.tickets, s.clock.now);
      SentPaid(LineOf(c), s.sess.inflight, s.hist, x.item.id.value, x.item, x.item.qos, s.clock.now);
    }
  }

  lemma LossPaid(c: Options, s: Engine, e: Error)
    ensures Paid(FailConnection(c, s, e)) && Paid(ConnectionLost(c, s, s.clock.now)) && Paid(Reset(c, s))
  {
    ResetLink(c, s);
  }

  lemma FlushPaid(c: Options, s: Engine)
    requires Paid(s)
    ensures Paid(Flush(c, s))
  {
    FlushCases(c, s);
  }

  lemma DoRequestPaid(c: Options, s: Engine, kind: Kind, requested: Option<u16>, filters: seq<string>, refused: bool)
    requires Paid(s)
    ensures Paid(DoRequest(c, s, kind, requested, filters, refused).0)
  {
    DoRequestSess(c, s, kind, requested, filters, refused);
  }

  // ----- Acknowledgements -----

  /** An exchange that completes gives its unit back to both counts. */
  lemma CompletePaid(s: Engine, id: nat)
    requires Paid(s) && Has(s.sess.inflight, id)
    requires IsExchange(s.sess.inflight.items[Find(s.sess.inflight.items, id)].packet)
    ensures Paid(Complete(s, id))
  {
  }

  lemma ConfirmPaid(s: Engine, id: nat)
    requires Paid(s) && Has(s.sess.inflight, id)
    requires !IsExchange(s.sess.inflight.items[Find(s.sess.inflight.items, id)].packet)
    ensures Paid(Confirm(s, id))
  {
  }

  lemma HandleAckPaid(c: Options, s: Engine, p: Incoming)
    requires Paid(s) && IsAck(p) && ValidateAck(s.sess.inflight, p).None?
    ensures Paid(HandleAccepted(c, s, p).0)
  {
    AckFacts(s.sess.inflight, p);
    match p
    case PubAck(id, _) => CompletePaid(s, id);
    case PubComp(id, _) => CompletePaid(s, id);
    case PubRec(id, reason) => CompletePaid(s, id);
    case SubAck(id, _) => ConfirmPaid(s, id);
    case UnsubAck(id) => ConfirmPaid(s, id);
  }

  // ----- A new connection starts with the full quota -----

  lemma RestorePaid(c: Options, s: Engine, present: bool)
    requires Good(c, s.sess, s.hist.tickets, false, true, s.clock.now)
    requires s.link.connected && !s.link.connecting
    ensures Paid(Restore(c, s, present).0)
  {
    SettleKeeps(c, s, present);
    SettleQuota(c, s, present);
    var s1 := Settle(c, s, present);
    var s2 := s1.(hist := s1.hist.(credit := Credit(s1.sess.inflight.limit, {}, 0)));
    assert Paid(s2) && Inv(c, s2);
    if (present && !c.sessionless) || c.topics == [] {
      ProcessReplayPaid(c, s2);
    } else {
      DoRequestPaid(c, s2, SubscribeOp, None, c.topics, false);
      DoRequestKeeps(c, s2, SubscribeOp, None, c.topics, false);
      ProcessReplayPaid(c, DoRequest(c, s2, SubscribeOp, None, c.topics, false).0);
    }
  }

  lemma FinishConnAckPaid(c: Options, s: Engine, reason: nat, present: bool, server: Option<u16>)
    requires Good(c, s.sess, s.hist.tickets, false, true, s.clock.now)
    requires !s.link.connected && !s.link.connecting
    ensures Paid(FinishConnAck(c, s, reason, present, server).0)
  {
    var s1 := s.(link := s.link.(connected := reason == 0));
    if reason == 0 {
      RestorePaid(c, ResetReconnect(s1.(link := s1.link.(hasSession := true),
        hist := s1.hist.(serverMaximum := server))), present);
    } else {
      LossPaid(c, s1, ProtocolViolation);
    }
  }

  lemma HandleConnAckPaid(c: Options, s: Engine, reason: nat, present: bool, terms: Terms)
    requires Inv(c, s) && s.link.connecting
    ensures Paid(HandleConnAck(c, s, reason, present, terms).0)
  {
    if (present && !s.link.hasSession) || (c.v5 && WrongMethod(c, reason, terms.authMethod)) {
      LossPaid(c, s, ProtocolViolation);
    } else {
      var s1 := s.(link := s.link.(connecting := false),
        clock := s.clock.(deadlines := DropDeadline(s.clock.deadlines, ConnectOp, None)));
      if !c.v5 {
        FinishConnAckPaid(c, s1, reason, present, None);
      } else {
        match Negotiate(c, s1, terms)
        case Err(e) => LossPaid(c, s1, e);
        case Ok(s2) =>
          NegotiateFacts(c, s1, terms);
          LimitGood(c, s1.sess, s1.hist.tickets, false, true, s1.clock.now, s2.sess.inflight.limit);
          FinishConnAckPaid(c, s2, reason, present, terms.receiveMaximum);
      }
    }
  }

  // ----- Every packet -----

  lemma HandleOtherPaid(c: Options, s: Engine, p: Incoming)
    requires Inv(c, s) && Paid(s) && !IsAck(p) && (p.ConnAck? ==> s.link.connecting)
    ensures Paid(HandleAccepted(c, s, p).0)
  {
    match p
    case ConnAck(reason, present, terms) => HandleConnAckPaid(c, s, reason, present, terms);
    case AuthIn(_, _) => LossPaid(c, s, ProtocolViolation);
    case DisconnectIn(_) => LossPaid(c, s, ProtocolViolation);
    case Message(failure, _) => if failure.Some? { LossPaid(c, s, failure.value); }
    case Oversized => LossPaid(c, s, BufferFull);
    case Malformed => LossPaid(c, s, ProtocolViolation);
    case PingResp =>
  }

  /** A packet that is refused changes nothing or ends the connection. */
  lemma RefusedPaid(c: Options, s: Engine, p: Incoming)
    requires Paid(s) && (s.link.closed || Unfit(c, s, p))
    ensures Paid(HandlePacket(c, s, p).0)
  {
    LossPaid(c, s, ProtocolViolation);
    LossPaid(c, s, InvalidPacketId);
  }

  lemma HandlePacketPaid(c: Options, s: Engine, p: Incoming)
    requires Inv(c, s) && Paid(s)
    ensures Paid(HandlePacket(c, s, p).0)
  {
    if p.Oversized? || p.Malformed? {
      HandleOtherPaid(c, s, p);
    } else if s.link.closed || Unfit(c, s, p) {
      RefusedPaid(c, s, p);
    } else if IsAck(p) {
      HandleAckPaid(c, s, p);
    } else {
      HandleOtherPaid(c, s, p);
    }
  }

  lemma ParseOnePaid(c: Options, s: Engine)
    requires Inv(c, s) && Paid(s) && s.link.parser != []
    ensures Paid(ParseOne(c, s))
  {
    var p, s0 := s.link.parser[0], s.(link := s.link.(parser := s.link.parser[1..]));
    HandlePacketPaid(c, s0, p);
    var (s1, events, responses) := HandlePacket(c, s0, p);
    FlushPaid(c, Record(s1, events, responses));
  }
}
