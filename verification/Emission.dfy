/** Emission from the queue, and the commands, keep the session invariant. */
module Commands {
  import opened Basics
  import opened Timestamps
  import opened Packets
  import opened PriorityQueues
  import opened InflightQueues
  import opened EngineModel
  import opened SessionBooks
  import opened SessionInvariant

  /** An encoding handed over from admission is the encoding of the head of the queue. */
  ghost predicate FirstEncoding(c: Options, s: Engine, encoding: Option<Bytes>) {
    encoding.Some? ==> s.sess.queue != [] && c.encode(s.sess.queue[0].item) == encoding
  }

  /** Emission touches the output, the queue and what is tracked, nothing else of the connection. */
  ghost predicate EmitFrame(s: Engine, r: Engine) {
    && r.link == s.link.(out := r.link.out) && r.clock.now == s.clock.now
    && r.sess.replay == s.sess.replay && r.sess.previous == s.sess.previous && r.cursor == s.cursor
  }

  lemma RejectHeadFrame(s: Engine, bytes: Bytes, e: Error)
    requires s.sess.queue != []
    ensures EmitFrame(s, RejectHead(s, bytes, e)) && RejectHead(s, bytes, e).link == s.link
  {
    RejectHeadSess(s, bytes, e);
  }

  lemma SendHeadFrame(c: Options, s: Engine, bytes: Bytes)
    requires s.sess.queue != []
    ensures EmitFrame(s, SendHead(c, s, bytes)) && SendHead(c, s, bytes).link.out == s.link.out + [bytes]
  {
  }

  lemma EmitOneFrame(c: Options, s: Engine, encoding: Option<Bytes>)
    requires EmitReady(c, s)
    ensures EmitFrame(s, EmitOne(c, s, encoding))
  {
    var p := s.sess.queue[0].item;
    match if encoding.Some? then encoding else c.encode(p)
    case None =>
    case Some(bytes) =>
      var e := RejectionOf(c, s, p, |bytes|);
      if e.Some? { RejectHeadFrame(s, bytes, e.value); } else { SendHeadFrame(c, s, bytes); }
  }

  /** A cached encoding is used for one packet only, and it is the encoding of that packet. */
  lemma EmitLoopCached(c: Options, s: Engine, encoding: Option<Bytes>)
    requires FirstEncoding(c, s, encoding)
    ensures EmitLoop(c, s, encoding) == EmitLoop(c, s, None)
  {
  }

  lemma {:induction false} ProcessReplayQueue(c: Options, s: Engine)
    ensures ProcessReplay(c, s).sess.queue == s.sess.queue
        && ProcessReplay(c, s).link == s.link.(out := ProcessReplay(c, s).link.out)
    decreases |s.sess.replay|
  {
    if ReplayReady(c, s) {
      ReplayOneFrame(c, s);
      ProcessReplayQueue(c, ReplayOne(c, s));
    }
  }

  /** Handing the encoding of an admitted publication over to the queue makes no difference, in any state: it is used
      only while it is the encoding of the head, and dropped when a response ends the connection. */
  lemma CachedEncodingIsFresh(c: Options, s: Engine, encoding: Option<Bytes>)
    requires FirstEncoding(c, s, encoding)
    ensures ProcessQueue(c, s, encoding) == ProcessQueue(c, s, None)
  {
    if s.link.connected {
      FlushCases(c, s);
      var s1 := Flush(c, s);
      if s1.link.connected {
        ProcessReplayQueue(c, s1);
        EmitLoopCached(c, ProcessReplay(c, s1), encoding);
      }
    }
  }

  // ----- Packet identifiers -----

  /** The identifiers tried by the allocation loop from a cursor position. */
  function Tried(cursor: u16, n: nat): (r: seq<nat>)
    decreases n
  {
    if n == 0 then [] else [NextCursor(cursor)] + Tried(NextCursor(cursor), n - 1)
  }

  /** The search returns the first free identifier it tries, and nothing only if all tried ones are taken. */
  lemma {:induction false} SearchFirstFree(q: Session, cursor: u16, n: nat)
    ensures
      var (next, id) := SearchId(q, cursor, n);
      && (id.Some? ==> next == id.value && id.value in Tried(cursor, n) && !Busy(q, id.value))
      && (id.None? <==> forall k :: k in Tried(cursor, n) ==> Busy(q, k))
    decreases n
  {
    if n > 0 {
      var id := NextCursor(cursor);
      SearchFirstFree(q, id, n - 1);
      assert id in Tried(cursor, n);
    }
  }

  /** The cursor after `k` steps from `cursor`. */
  function After(cursor: u16, k: nat): (r: u16)
    decreases k
  {
    if k == 0 then cursor else After(NextCursor(cursor), k - 1)
  }

  lemma {:induction false} TriedHas(cursor: u16, n: nat, k: nat)
    requires 0 < k <= n
    ensures After(cursor, k) in Tried(cursor, n)
    decreases n
  {
    if k == 1 {
      assert After(NextCursor(cursor), 0) == NextCursor(cursor);
    } else {
      TriedHas(NextCursor(cursor), n - 1, k - 1);
    }
  }

  /** A cursor inside the range walks up without wrapping. */
  lemma {:induction false} AfterUp(cursor: u16, k: nat)
    requires cursor + k <= MAX_ID && 0 < cursor
    ensures After(cursor, k) == cursor + k
    decreases k
  {
    if k > 0 { AfterUp(cursor + 1, k - 1); }
  }

  lemma {:induction false} AfterPlus(cursor: u16, j: nat, k: nat)
    ensures After(cursor, j + k) == After(After(cursor, j), k)
    decreases j
  {
    if j > 0 { AfterPlus(NextCursor(cursor), j - 1, k); }
  }

  /** Some number of steps up to 65535 leads from any cursor to any identifier. */
  lemma StepsTo(cursor: u16, id: nat) returns (k: nat)
    requires 0 < id <= MAX_ID
    ensures 0 < k <= MAX_ID && After(cursor, k) == id
  {
    if cursor == 0 {
      k := id;
      AfterUp(1, id - 1);
    } else if id > cursor {
      k := id - cursor;
      AfterUp(cursor, k);
    } else {
      k := MAX_ID - cursor + id;
      WrapSteps(cursor, id);
    }
  }

  lemma WrapSteps(cursor: u16, id: nat)
    requires 0 < id <= cursor
    ensures After(cursor, MAX_ID - cursor + id) == id
  {
    var top: u16 := 65535;
    var j := MAX_ID - cursor;
    AfterUp(cursor, j);
    AfterPlus(cursor, j, id);
    AfterUp(1, id - 1);
    assert NextCursor(top) == 1;
    assert After(top, id) == After(1, id - 1);
  }

  /** From any cursor, 65535 steps visit every identifier. */
  lemma TriedAll(cursor: u16, id: nat)
    requires 0 < id <= MAX_ID
    ensures id in Tried(cursor, MAX_ID)
  {
    var k := StepsTo(cursor, id);
    TriedHas(cursor, MAX_ID, k);
  }

  /** Allocation is complete: it finds a free identifier whenever one exists, from any cursor position,
      and reports exhaustion only when all 65535 are taken. */
  lemma AllocationComplete(s: Engine)
    requires s.cursor.Some?
    ensures
      var id := NextId(s).1;
      && (id.Ok? <==> exists k: nat :: 0 < k <= MAX_ID && !Busy(s.sess, k))
      && (id.Ok? ==> 0 < id.value <= MAX_ID && !Busy(s.sess, id.value))
      && (id.Err? ==> id.error == PacketIdExhausted)
  {
    var cursor := s.cursor.value;
    SearchFirstFree(s.sess, cursor, MAX_ID);
    if k: nat :| 0 < k <= MAX_ID && !Busy(s.sess, k) { TriedAll(cursor, k); }
  }

  /** The first free identifier after the cursor. */
  ghost predicate NextFree(q: Session, cursor: u16, id: nat) {
    exists k: nat ::
      0 < k <= MAX_ID && id == After(cursor, k) && forall j: nat :: 0 < j < k ==> Busy(q, After(cursor, j))
  }

  lemma {:induction false} SearchSteps(q: Session, cursor: u16, n: nat) returns (k: nat)
    requires SearchId(q, cursor, n).1.Some?
    ensures 0 < k <= n && SearchId(q, cursor, n).1.value == After(cursor, k)
    ensures forall j: nat :: 0 < j < k ==> Busy(q, After(cursor, j))
    decreases n
  {
    var id := NextCursor(cursor);
    assert After(cursor, 1) == After(id, 0) == id;
    k := 1;
    if Busy(q, id) {
      var m := SearchSteps(q, id, n - 1);
      k := m + 1;
      forall j: nat | 0 < j < k ensures Busy(q, After(cursor, j)) {
        assert After(cursor, j) == After(id, j - 1);
      }
    }
  }

  /** Which identifier an acknowledged publication gets: the requested one, else the next free one. */
  ghost predicate Chosen(s: Engine, requested: Option<u16>, id: nat) {
    if requested.Some? then id == requested.value else s.cursor.Some? && NextFree(s.sess, s.cursor.value, id)
  }

  lemma CandidateIsChosen(s: Engine, requested: Option<u16>)
    requires CandidateId(s, requested).1.Ok?
    ensures Chosen(s, requested, CandidateId(s, requested).1.value)
  {
    if requested.None? { var k := SearchSteps(s.sess, s.cursor.value, MAX_ID); }
  }

  // ----- Publishing -----

  lemma DecideFacts(c: Options, s: Engine, cmd: Command)
    ensures
      var (s1, a) := Decide(c, s, cmd);
      && s1 == s.(cursor := s1.cursor)
      && (a.Accepted? ==>
            && |s.sess.queue| < c.maxPackets
            && a.packet.Publish? && a.packet.qos == cmd.qos && c.encode(a.packet) == Some(a.bytes)
            && (cmd.qos > 0 <==> a.id.Some?) && (cmd.qos > 0 ==> a.packet.id == a.id)
              && (cmd.qos == 0 ==> a.packet.id == cmd.id)
            && (a.id.Some? ==> 0 < a.id.value <= MAX_ID && !Busy(s.sess, a.id.value)))
  {
  }

  lemma {:induction false} NoAliases(props: seq<Property>)
    requires AliasesOf(props) == []
    ensures DropAliases(props) == props
  {
    if props == [] {
    } else {
      NoAliases(props[1..]);
    }
  }

  /** A publication with an alias names its topic, its own or the one the alias stands for. */
  lemma DecideTopic(c: Options, s: Engine, cmd: Command)
    requires Named(s.caps.aliases)
    ensures
      var a := Decide(c, s, cmd).1;
      a.Accepted? ==>
        && (a.packet.topic != "" || StripAliases(a.packet) == a.packet)
        && (a.alias.Some? ==> a.packet.topic != "")
  {
    if AliasesOf(cmd.props) == [] { NoAliases(cmd.props); }
  }

  /** A publish that is refused changes nothing but the identifier cursor. */
  lemma RefusedPublishChangesNothing(c: Options, s: Engine, cmd: Command)
    ensures
      var (r, result) := DoPublish(c, s, cmd);
      result.Err? ==> r == s.(cursor := r.cursor)
  {
    DecideFacts(c, s, cmd);
  }

  /** What a publish admits, before the queue is processed. */
  function Admitting(c: Options, s: Engine, cmd: Command): (r: Engine)
    requires Decide(c, s, cmd).1.Accepted?
  {
    var (s1, a) := Decide(c, s, cmd);
    Admit(s1, a.packet, cmd.priority, a.id, a.alias, a.bytes)
  }

  /** The admission would use an identifier that a CONNECT parked. */
  predicate Reuses(q: Session, a: Admission) {
    a.Accepted? && a.id.Some? && a.id.value in Ids(q.previous)
  }

  /** Admission keeps the books if the identifier is not parked by a CONNECT. */
  lemma AdmitKeeps(c: Options, s: Engine, cmd: Command)
    requires Codec(c) && Named(s.caps.aliases) && Inv(c, s) && Decide(c, s, cmd).1.Accepted?
    requires !Reuses(s.sess, Decide(c, s, cmd).1)
    ensures Inv(c, Admitting(c, s, cmd))
  {
    var (s1, a) := Decide(c, s, cmd);
    DecideFacts(c, s, cmd);
    DecideTopic(c, s, cmd);
    AdmitGood(c, s, Ranked(cmd.priority, a.packet), a.id, a.bytes);
    AdmitSess(s1, a.packet, cmd.priority, a.id, a.alias, a.bytes);
  }

  lemma AdmitFirst(c: Options, s: Engine, cmd: Command)
    requires Decide(c, s, cmd).1.Accepted?
    ensures
      var (s1, a) := Decide(c, s, cmd);
      FirstEncoding(c, Admitting(c, s, cmd), if s1.sess.queue == [] then Some(a.bytes) else None)
  {
    DecideFacts(c, s, cmd);
  }

  /** A publish is the admission followed by one round through the queue. */
  lemma PublishIsAdmission(c: Options, s: Engine, cmd: Command)
    requires Decide(c, s, cmd).1.Accepted?
    ensures DoPublish(c, s, cmd) == (ProcessQueue(c, Admitting(c, s, cmd), None), Ok(Decide(c, s, cmd).1.id))
  {
    var (s1, a) := Decide(c, s, cmd);
    AdmitFirst(c, s, cmd);
    CachedEncodingIsFresh(c, Admitting(c, s, cmd), if s1.sess.queue == [] then Some(a.bytes) else None);
  }

  function ReservedWith(reserved: set<nat>, id: Option<nat>): (r: set<nat>) {
    if id.Some? then reserved + {id.value} else reserved
  }

  function IssuedWith(t: Tickets, id: Option<nat>): (r: Tickets) {
    if id.Some? then Issue(t, id.value) else t
  }

  lemma AdmitSess(s: Engine, p: Packet, priority: nat, id: Option<nat>, alias: Option<nat>, bytes: Bytes)
    requires p.Publish?
    ensures
      var r := Admit(s, p, priority, id, alias, bytes);
      && r.sess == Queued(s.sess, Ranked(priority, p), ReservedWith(s.sess.reserved, id), |bytes|)
      && r.hist.tickets == IssuedWith(s.hist.tickets, id)
      && r.hist == s.hist.(
           tickets := r.hist.tickets, arrivals := r.hist.arrivals,
           points := s.hist.points + [Admitted(p, Shelf(s.sess, s.hist.tickets), Shelf(r.sess, r.hist.tickets))])
      && r.link == s.link && r.clock == s.clock && r.cursor == s.cursor && r.events == s.events
  {
  }

  lemma AdmitGood(c: Options, s: Engine, x: Ranked<Packet>, id: Option<nat>, bytes: Bytes)
    requires Inv(c, s) && |s.sess.queue| < c.maxPackets && Queueable(c, x.item) && c.encode(x.item) == Some(bytes)
    requires if x.item.qos > 0 then x.item.id == id else id.None?
    requires id.Some? ==> id.value !in s.sess.reserved && id.value !in Ids(s.sess.previous)
    ensures Good(c, Queued(s.sess, x, ReservedWith(s.sess.reserved, id), |bytes|), IssuedWith(s.hist.tickets, id),
                 s.link.connected, s.link.connecting, s.clock.now)
  {
    var q, t := s.sess, s.hist.tickets;
    AdmitKept(c, q, s.clock.now, x, id, bytes);
    if id.Some? {
      assert IdOf(x) == [id.value];
      BooksAdmit(q, t, q.previous, x, id.value);
    } else {
      BooksAdmitPlain(q, t, q.previous, x);
    }
    AdmitBooks(q, IssuedWith(t, id), x, ReservedWith(q.reserved, id), |bytes|);
    if s.link.connecting { CapturedAfterAdmit(q, x, ReservedWith(q.reserved, id), |bytes|); }
  }

  function Queued(q: Session, x: Ranked<Packet>, reserved: set<nat>, n: nat): (r: Session) {
    q.(queue := InsertDraining(q.queue, x), queuedBytes := q.queuedBytes + n, reserved := reserved)
  }

  lemma AdmitBooks(q: Session, t: Tickets, x: Ranked<Packet>, reserved: set<nat>, n: nat)
    requires Books(q.(queue := InsertDraining(q.queue, x), reserved := reserved), t, q.previous)
    ensures Books(Queued(q, x, reserved, n), t, q.previous)
  {
    BooksSameLive(q.(queue := InsertDraining(q.queue, x), reserved := reserved), Queued(q, x, reserved, n), t,
      q.previous);
  }

  lemma AdmitKept(c: Options, q: Session, now: Time, x: Ranked<Packet>, id: Option<nat>, bytes: Bytes)
    requires Kept(c, q, now) && |q.queue| < c.maxPackets && Queueable(c, x.item) && c.encode(x.item) == Some(bytes)
    requires if x.item.qos > 0 then x.item.id == id else id.None?
    ensures Kept(c, Queued(q, x, ReservedWith(q.reserved, id), |bytes|), now)
  {
    InsertMember(q.queue, x);
    InsertLength(c, q.queue, x);
  }

  lemma CapturedAfterAdmit(q: Session, x: Ranked<Packet>, reserved: set<nat>, n: nat)
    requires Captured(q) && q.reserved <= reserved
    ensures Captured(Queued(q, x, reserved, n))
  {
  }

  // ----- Exactly when a publish conserves -----

  /** Queueing under a parked identifier puts it into two places. */
  lemma CollidingIds(c: Options, q: Session, t: Tickets, x: Ranked<Packet>, id: nat, n: nat)
    requires NoDup(Ids(q.previous)) && NoDup(Ids(Live(q))) && id in Ids(q.previous) && IdOf(x) == [id]
    ensures !Accounted(Queued(q, x, q.reserved + {id}, n), t)
  {
    var r := Queued(q, x, q.reserved + {id}, n);
    assert Live(r) == Live(q);
    OutstandingIds(r);
    assert id in IdOf(x);
    QueueInsert(q.queue, x);
  }

  lemma AdmitClashes(c: Options, s: Engine, cmd: Command)
    requires Inv(c, s) && Reuses(s.sess, Decide(c, s, cmd).1)
    ensures !Conserved(Admitting(c, s, cmd)) && c.sessionless
  {
    var (s1, a) := Decide(c, s, cmd);
    DecideFacts(c, s, cmd);
    AdmitSess(s1, a.packet, cmd.priority, a.id, a.alias, a.bytes);
    CollidingIds(c, s.sess, Admitting(c, s, cmd).hist.tickets, Ranked(cmd.priority, a.packet), a.id.value, |a.bytes|);
  }

  lemma AcceptedIsChosen(c: Options, s: Engine, cmd: Command)
    requires cmd.qos > 0 && Decide(c, s, cmd).1.Accepted?
    ensures Decide(c, s, cmd).1.id.Some? && Chosen(s, cmd.id, Decide(c, s, cmd).1.id.value)
  {
    CandidateIsChosen(s, cmd.id);
  }

  lemma AdmissionConservesIff(c: Options, s: Engine, cmd: Command)
    requires Codec(c) && Named(s.caps.aliases) && Inv(c, s) && Decide(c, s, cmd).1.Accepted?
    ensures Conserved(Admitting(c, s, cmd)) <==> !Reuses(s.sess, Decide(c, s, cmd).1)
    ensures Reuses(s.sess, Decide(c, s, cmd).1) ==> c.sessionless
  {
    if Reuses(s.sess, Decide(c, s, cmd).1) {
      AdmitClashes(c, s, cmd);
    } else {
      AdmitKeeps(c, s, cmd);
      InvConserved(c, Admitting(c, s, cmd));
    }
  }

  /** An accepted acknowledged publication gets the requested identifier, or the first free one after the cursor; and
      the law holds right after its admission if and only if that identifier is not parked by a CONNECT. A sessionless
      engine forgets the reservations of parked exchanges when it loses the transport, so it can hand such an
      identifier out again; an engine that tracks sessions keeps them reserved. */
  lemma PublishConservesIff(c: Options, s: Engine, cmd: Command, id: nat, admitted: Engine)
    requires Codec(c) && Named(s.caps.aliases) && Inv(c, s) && cmd.qos > 0 && Decide(c, s, cmd).1.Accepted?
    requires DoPublish(c, s, cmd).1 == Ok(Some(id)) && admitted == Admitting(c, s, cmd)
    ensures Chosen(s, cmd.id, id) && DoPublish(c, s, cmd).0 == ProcessQueue(c, admitted, None)
    ensures Conserved(admitted) <==> id !in Ids(s.sess.previous)
    ensures !c.sessionless ==> id !in Ids(s.sess.previous)
  {
    PublishIsAdmission(c, s, cmd);
    AcceptedIsChosen(c, s, cmd);
    AdmissionConservesIff(c, s, cmd);
  }
}
