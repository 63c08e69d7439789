/** Requests, CONNECT and the CONNACK that resumes or abandons the session. */
module Resumption {
  import opened Basics
  import opened Timestamps
  import opened Packets
  import opened PriorityQueues
  import opened InflightQueues
  import opened EngineModel
  import opened SessionBooks
  import opened SessionInvariant

  // ----- SUBSCRIBE and UNSUBSCRIBE -----

  /** The session with a request in flight. */
  function Requested(c: Options, q: Session, h: Held, now: Time): (r: Session)
    requires Push(LineOf(c), q.inflight, h.id, h.packet, 1, None, now).Ok?
  {
    q.(inflight := Push(LineOf(c), q.inflight, h.id, h.packet, 1, None, now).value, reserved := q.reserved + {h.id})
  }

  lemma RequestedGood(c: Options, s: Engine, h: Held)
    requires Inv(c, s) && !IsExchange(h.packet) && 0 < h.id <= MAX_ID && !Busy(s.sess, h.id)
    ensures Push(LineOf(c), s.sess.inflight, h.id, h.packet, 1, None, s.clock.now).Ok?
    ensures Good(c, Requested(c, s.sess, h, s.clock.now), s.hist.tickets, s.link.connected, s.link.connecting,
        s.clock.now)
  {
    var q, w, now := s.sess, LineOf(c), s.clock.now;
    var r := Requested(c, q, h, now);
    PushSound(w, q.inflight, h.id, h.packet, 1, None, now);
    PushSnapshot(w, q.inflight, h.id, h.packet, 1, None, now);
    BooksRequest(q, s.hist.tickets, q.previous, h, r.inflight.items);
    var m := q.(inflight := q.inflight.(items := r.inflight.items), reserved := q.reserved + {h.id});
    BooksSameLive(m, r, s.hist.tickets, q.previous);
    if s.link.connecting { RequestedCaptured(c, q, h, now); }
  }

  lemma RequestedCaptured(c: Options, q: Session, h: Held, now: Time)
    requires Captured(q) && !IsExchange(h.packet) && h.id !in q.reserved
    requires Push(LineOf(c), q.inflight, h.id, h.packet, 1, None, now).Ok?
    ensures Captured(Requested(c, q, h, now))
  {
    var a := Snapshot(q.inflight.items);
    PushSnapshot(LineOf(c), q.inflight, h.id, h.packet, 1, None, now);
    ExchangeIdsAppend(a, [h]);
    assert [h][1..] == [];
    IdsAppend(a, [h]);
    assert Ids([h]) == [h.id];
    forall g | g in q.previous && g.id in Ids(a + [h]) ensures g in a + [h] {
      var i :| 0 <= i < |q.previous| && q.previous[i] == g;
      assert Ids(q.previous)[i] == g.id;
    }
  }

  function RequestPacket(kind: Kind, id: nat, filters: seq<string>): (p: Packet)
    ensures !IsExchange(p)
  {
    if kind == SubscribeOp then Subscribe(id, filters) else Unsubscribe(id, filters)
  }

  /** A request touches the output, the deadlines, the cursor and what is tracked. */
  ghost predicate RequestFrame(s: Engine, r: Engine) {
    && r.link == s.link.(out := r.link.out) && r.clock.now == s.clock.now && r.hist == s.hist && r.events == s.events
    && r.caps == s.caps && r.clock.attempts == s.clock.attempts && r.clock.nextReconnect == s.clock.nextReconnect
  }

  lemma SendRequestSess(c: Options, s: Engine, kind: Kind, id: nat, filters: seq<string>)
    ensures
      var r, h := SendRequest(c, s, kind, id, filters).0, Held(id, RequestPacket(kind, id, filters));
      && RequestFrame(s, r)
      && (r.sess == s.sess || (
            && Push(LineOf(c), s.sess.inflight, h.id, h.packet, 1, None, s.clock.now).Ok?
            && r.sess == Requested(c, s.sess, h, s.clock.now)))
  {
  }

  lemma DoRequestSess(c: Options, s: Engine, kind: Kind, requested: Option<u16>, filters: seq<string>, refused: bool)
    ensures
      var r := DoRequest(c, s, kind, requested, filters, refused).0;
      var id := CandidateId(s, requested).1;
      && RequestFrame(s, r)
      && (r.sess == s.sess || (
            && id.Ok?
            && var h := Held(id.value, RequestPacket(kind, id.value, filters));
               && Push(LineOf(c), s.sess.inflight, h.id, h.packet, 1, None, s.clock.now).Ok?
               && r.sess == Requested(c, s.sess, h, s.clock.now)))
  {
    var (s1, id) := CandidateId(s, requested);
    if id.Ok? { SendRequestSess(c, s1, kind, id.value, filters); }
  }

  lemma DoRequestKeeps(c: Options, s: Engine, kind: Kind, requested: Option<u16>, filters: seq<string>, refused: bool)
    requires Inv(c, s)
    ensures Inv(c, DoRequest(c, s, kind, requested, filters, refused).0)
    ensures RequestFrame(s, DoRequest(c, s, kind, requested, filters, refused).0)
  {
    DoRequestSess(c, s, kind, requested, filters, refused);
    var id := CandidateId(s, requested).1;
    if id.Ok? { RequestedGood(c, s, Held(id.value, RequestPacket(kind, id.value, filters))); }
  }

  // ----- CONNECT -----

  lemma ConnectingKeeps(c: Options, s: Engine)
    requires Inv(c, s) && !s.link.connected && EnqueueError(c, s, Connect(c.client)).None?
    ensures Inv(c, Connecting(c, s))
    ensures Connecting(c, s).sess == s.sess.(previous := Outstanding(s.sess), replay := [])
  {
    var q, t := s.sess, s.hist.tickets;
    var r := q.(previous := Outstanding(q), replay := []);
    BooksConnect(q, t);
    forall id | id in ExchangeIds(Snapshot(r.inflight.items)) ensures id in Ids(r.previous) {
      ExchangeIdsIn(Snapshot(r.inflight.items), id);
      var h :| h in Snapshot(r.inflight.items) && h.id == id && IsExchange(h.packet);
      var i :| 0 <= i < |r.previous| && r.previous[i] == h;
      assert Ids(r.previous)[i] == id;
    }
  }

  lemma DoConnectKeeps(c: Options, s: Engine)
    requires Inv(c, s)
    ensures Inv(c, DoConnect(c, s).0)
    ensures DoConnect(c, s).1.Ok? ==> DoConnect(c, s).0.sess == s.sess.(previous := Outstanding(s.sess), replay := [])
  {
    var s1 := CreateSession(c, s);
    if ConnectError(c, s1).None? { ConnectingKeeps(c, s1); }
  }

  // ----- Deciding about the captured entries -----

  /** The captured entries still to decide are reserved, waiting nowhere else, and agree with what is in flight. */
  ghost predicate Todo(q: Session, hs: seq<Held>) {
    && NoDup(Ids(hs)) && Apart(Ids(hs), Ids(q.replay))
    && (forall id :: id in Ids(hs) ==> id in q.reserved)
    && (forall h :: h in hs && h.id in LiveIds(q.inflight) ==> h in Snapshot(q.inflight.items))
  }

  /** What one decision leaves of the session. */
  function Resumed(q: Session, h: Held): (r: Session) {
    q.(inflight := Acknowledge(q.inflight, h.id), replay := q.replay + [Held(h.id, ForReplay(h.packet))])
  }

  lemma RestoreOneSess(s: Engine, h: Held, resume: bool)
    ensures
      var r := RestoreOne(s, h, resume);
      && r.link == s.link && r.clock.now == s.clock.now
      && (if resume && IsExchange(h.packet)
          then r.sess == Resumed(s.sess, h) && r.hist == s.hist && r.events == s.events
          else r.sess == Without(s.sess, h.id) && r.hist == s.hist.(
                 tickets := MarkFailed(s.hist.tickets, h.id), credit := GiveBack(s.hist.credit, s.sess.inflight, h.id))
               && r.events == s.events + [OperationFailed(KindOf(h.packet), Some(h.id), SessionExpired)])
  {
  }

  lemma ResumedKept(c: Options, q: Session, h: Held, now: Time)
    requires Kept(c, q, now) && IsExchange(h.packet)
    ensures Kept(c, Resumed(q, h), now)
  {
    AcknowledgeSound(LineOf(c), q.inflight, h.id);
  }

  lemma TodoNext(q: Session, r: Session, h: Held, rest: seq<Held>)
    requires Todo(q, [h] + rest)
    requires r.inflight == Acknowledge(q.inflight, h.id)
    requires Ids(r.replay) == Ids(q.replay) || Ids(r.replay) == Ids(q.replay) + [h.id]
    requires q.reserved - {h.id} <= r.reserved
    ensures Todo(r, rest)
  {
    HeadIds(h, rest);
    AcknowledgeSnapshot(q.inflight, h.id);
    RemoveIds(Snapshot(q.inflight.items), h.id);
    forall g | g in rest && g.id in LiveIds(r.inflight) ensures g in Snapshot(r.inflight.items) {
      assert g in [h] + rest;
    }
  }

  lemma RestoreOneKeeps(c: Options, s: Engine, h: Held, rest: seq<Held>, resume: bool)
    requires Kept(c, s.sess, s.clock.now) && Books(s.sess, s.hist.tickets, [h] + rest) && Todo(s.sess, [h] + rest)
    ensures
      var r := RestoreOne(s, h, resume);
      Kept(c, r.sess, r.clock.now) && Books(r.sess, r.hist.tickets, rest) && Todo(r.sess, rest)
  {
    var q, t := s.sess, s.hist.tickets;
    HeadIds(h, rest);
    RestoreOneSess(s, h, resume);
    assert h in [h] + rest && h.id in Ids([h] + rest);
    if resume && IsExchange(h.packet) {
      ResumedKept(c, q, h, s.clock.now);
      BooksResume(q, t, h, rest, ForReplay(h.packet));
      TodoNext(q, Resumed(q, h), h, rest);
    } else {
      WithoutKept(c, q, h.id, s.clock.now);
      BooksFail(q, t, [h] + rest, h.id);
      BooksForget(Without(q, h.id), MarkFailed(t, h.id), h, rest);
      TodoNext(q, Without(q, h.id), h, rest);
    }
  }

  lemma {:induction false} RestoreAllKeeps(c: Options, s: Engine, hs: seq<Held>, resume: bool)
    requires Kept(c, s.sess, s.clock.now) && Books(s.sess, s.hist.tickets, hs) && Todo(s.sess, hs)
    ensures
      var r := RestoreAll(s, hs, resume);
      && Kept(c, r.sess, r.clock.now) && Books(r.sess, r.hist.tickets, [])
      && r.link == s.link && r.clock.now == s.clock.now
      && r.sess.queue == s.sess.queue && r.sess.previous == s.sess.previous
    decreases hs
  {
    if hs == [] {
    } else {
      assert hs == [hs[0]] + hs[1..];
      RestoreOneKeeps(c, s, hs[0], hs[1..], resume);
      RestoreOneSess(s, hs[0], resume);
      RestoreAllKeeps(c, RestoreOne(s, hs[0], resume), hs[1..], resume);
    }
  }

  // ----- Order of the captured entries -----

  lemma {:induction false} PartsOf(xs: seq<Held>)
    ensures forall h :: h in PubRelsOf(xs) <==> h in xs && h.packet.PubRel?
    ensures forall h :: h in OthersOf(xs) <==> h in xs && !h.packet.PubRel?
    ensures |PubRelsOf(xs)| + |OthersOf(xs)| == |xs|
  {
    if xs == [] {
    } else {
      PartsOf(xs[1..]);
    }
  }

  lemma {:induction false} PubRelsNoDup(xs: seq<Held>)
    requires NoDup(Ids(xs))
    ensures NoDup(Ids(PubRelsOf(xs)))
  {
    if xs == [] {
    } else {
      IdsHead(xs);
      PubRelsNoDup(xs[1..]);
      PartsOf(xs[1..]);
      SubsetIds(PubRelsOf(xs[1..]), xs[1..]);
      HeadIds(xs[0], PubRelsOf(xs[1..]));
    }
  }

  lemma {:induction false} OthersNoDup(xs: seq<Held>)
    requires NoDup(Ids(xs))
    ensures NoDup(Ids(OthersOf(xs)))
  {
    if xs == [] {
    } else {
      IdsHead(xs);
      OthersNoDup(xs[1..]);
      PartsOf(xs[1..]);
      SubsetIds(OthersOf(xs[1..]), xs[1..]);
      HeadIds(xs[0], OthersOf(xs[1..]));
    }
  }

  lemma SubsetIds(xs: seq<Held>, ys: seq<Held>)
    requires forall h :: h in xs ==> h in ys
    ensures forall id :: id in Ids(xs) ==> id in Ids(ys)
  {
    forall id | id in Ids(xs) ensures id in Ids(ys) {
      var i :| 0 <= i < |xs| && Ids(xs)[i] == id;
      assert xs[i] in ys;
      var j :| 0 <= j < |ys| && ys[j] == xs[i];
      assert Ids(ys)[j] == id;
    }
  }

  lemma PartsApart(xs: seq<Held>)
    requires NoDup(Ids(xs))
    ensures Apart(Ids(PubRelsOf(xs)), Ids(OthersOf(xs)))
  {
    var a, b := PubRelsOf(xs), OthersOf(xs);
    PartsOf(xs);
    forall id | id in Ids(a) ensures id !in Ids(b) {
      var i :| 0 <= i < |a| && Ids(a)[i] == id;
      forall j | 0 <= j < |b| ensures b[j].id != id {
        assert a[i] in a && b[j] in b;
        if b[j].id == id { HeldUnique(xs, a[i], b[j]); }
      }
    }
  }

  /** The stable sort keeps every entry exactly once, releases first, each part in its old order. */
  lemma ReleasesFirstIsPermutation(xs: seq<Held>)
    requires NoDup(Ids(xs))
    ensures NoDup(Ids(ReleasesFirst(xs))) && |ReleasesFirst(xs)| == |xs|
    ensures forall h :: h in ReleasesFirst(xs) <==> h in xs
    ensures forall id :: id in Ids(ReleasesFirst(xs)) <==> id in Ids(xs)
    ensures forall id :: id in ExchangeIds(ReleasesFirst(xs)) <==> id in ExchangeIds(xs)
    ensures forall i, j :: 0 <= i < j < |ReleasesFirst(xs)| && ReleasesFirst(xs)[j].packet.PubRel? ==>
        ReleasesFirst(xs)[i].packet.PubRel?
  {
    var a, b := PubRelsOf(xs), OthersOf(xs);
    PartsOf(xs);
    PubRelsNoDup(xs);
    OthersNoDup(xs);
    PartsApart(xs);
    IdsAppend(a, b);
    NoDupAppend(Ids(a), Ids(b));
    SubsetIds(a + b, xs);
    SubsetIds(xs, a + b);
    forall id ensures id in ExchangeIds(a + b) <==> id in ExchangeIds(xs) {
      ExchangeIdsIn(a + b, id);
      ExchangeIdsIn(xs, id);
    }
    assert forall k :: 0 <= k < |a| ==> a[k] in a && a[k].packet.PubRel?;
    assert forall k :: 0 <= k < |b| ==> b[k] in b && !b[k].packet.PubRel?;
  }

  lemma BooksSameParked(q: Session, t: Tickets, a: seq<Held>, b: seq<Held>)
    requires Books(q, t, a)
    requires forall id :: id in Ids(a) <==> id in Ids(b)
    requires forall id :: id in ExchangeIds(a) <==> id in ExchangeIds(b)
    ensures Books(q, t, b)
  {
  }

  /** Before CONNACK: everything captured at CONNECT is still to be decided. */
  lemma CapturedTodo(q: Session, hs: seq<Held>)
    requires Captured(q) && q.replay == [] && NoDup(Ids(hs))
    requires forall h :: h in hs <==> h in q.previous
    requires forall id :: id in Ids(hs) <==> id in Ids(q.previous)
    ensures Todo(q.(previous := []), hs)
  {
  }

  /** CONNACK settles every captured entry and the session is whole again. */
  lemma SettleKeeps(c: Options, s: Engine, present: bool)
    requires Good(c, s.sess, s.hist.tickets, false, true, s.clock.now)
    ensures
      var r := Settle(c, s, present);
      && Good(c, r.sess, r.hist.tickets, true, false, r.clock.now)
      && r.link == s.link && r.clock.now == s.clock.now && r.sess.queue == s.sess.queue
  {
    var q, resume := s.sess, Resumes(c, present);
    var hs := if resume then ReleasesFirst(q.previous) else q.previous;
    ReleasesFirstIsPermutation(q.previous);
    CapturedTodo(q, hs);
    BooksSameParked(q, s.hist.tickets, q.previous, hs);
    var s0 := s.(sess := q.(previous := []));
    BooksSameLive(q, s0.sess, s.hist.tickets, hs);
    RestoreAllKeeps(c, s0, hs, resume);
  }

  // ----- Exactly what is replayed and what is failed -----

  /** The replay form of the exchanges of a list, in order. */
  function ReplayForms(hs: seq<Held>): (r: seq<Held>) {
    if hs == [] then []
    else if IsExchange(hs[0].packet) then [Held(hs[0].id, ForReplay(hs[0].packet))] + ReplayForms(hs[1..])
    else ReplayForms(hs[1..])
  }

  /** The entries a session can resume. */
  function OnlyExchanges(hs: seq<Held>): (r: seq<Held>) {
    if hs == [] then [] else if IsExchange(hs[0].packet) then [hs[0]] + OnlyExchanges(hs[1..])
      else OnlyExchanges(hs[1..])
  }

  function PublishesOf(hs: seq<Held>): (r: seq<Held>) {
    if hs == [] then [] else if hs[0].packet.Publish? then [hs[0]] + PublishesOf(hs[1..]) else PublishesOf(hs[1..])
  }

  /** What is not replayed, in order. */
  function Abandoned(hs: seq<Held>, resume: bool): (r: seq<Held>) {
    if hs == [] then []
    else if resume && IsExchange(hs[0].packet) then Abandoned(hs[1..], resume)
    else [hs[0]] + Abandoned(hs[1..], resume)
  }

  function Failures(hs: seq<Held>): (r: seq<Event>) {
    if hs == [] then [] else [OperationFailed(KindOf(hs[0].packet), Some(hs[0].id), SessionExpired)] + Failures(hs[1..])
  }

  lemma {:induction false} RestoreAllReplay(s: Engine, hs: seq<Held>, resume: bool)
    ensures RestoreAll(s, hs, resume).sess.replay == s.sess.replay + (if resume then ReplayForms(hs) else [])
    decreases hs
  {
    if hs == [] {
    } else {
      RestoreOneSess(s, hs[0], resume);
      RestoreAllReplay(RestoreOne(s, hs[0], resume), hs[1..], resume);
    }
  }

  lemma {:induction false} RestoreAllEvents(s: Engine, hs: seq<Held>, resume: bool)
    ensures RestoreAll(s, hs, resume).events == s.events + Failures(Abandoned(hs, resume))
    decreases hs
  {
    if hs == [] {
    } else {
      RestoreOneSess(s, hs[0], resume);
      RestoreAllEvents(RestoreOne(s, hs[0], resume), hs[1..], resume);
    }
  }

  lemma {:induction false} RestoreAllLive(s: Engine, hs: seq<Held>, resume: bool)
    ensures forall id :: id in LiveIds(RestoreAll(s, hs, resume).sess.inflight) <==>
        id in LiveIds(s.sess.inflight) && id !in Ids(hs)
    decreases hs
  {
    if hs == [] {
    } else {
      RestoreOneSess(s, hs[0], resume);
      AcknowledgeSnapshot(s.sess.inflight, hs[0].id);
      RemoveIds(Snapshot(s.sess.inflight.items), hs[0].id);
      IdsHead(hs);
      RestoreAllLive(RestoreOne(s, hs[0], resume), hs[1..], resume);
    }
  }

  lemma {:induction false} ReplayFormsAppend(xs: seq<Held>, ys: seq<Held>)
    ensures ReplayForms(xs + ys) == ReplayForms(xs) + ReplayForms(ys)
    ensures forall resume :: Abandoned(xs + ys, resume) == Abandoned(xs, resume) + Abandoned(ys, resume)
  {
    if xs == [] {
      assert xs + ys == ys;
    } else {
      assert (xs + ys)[1..] == xs[1..] + ys;
      ReplayFormsAppend(xs[1..], ys);
    }
  }

  /** Releases are replayed unchanged; of the rest only publications are. */
  lemma {:induction false} ReplayFormsParts(xs: seq<Held>)
    ensures ReplayForms(PubRelsOf(xs)) == PubRelsOf(xs) && Abandoned(PubRelsOf(xs), true) == []
    ensures ReplayForms(OthersOf(xs)) == ReplayForms(PublishesOf(xs))
        && Abandoned(OthersOf(xs), true) == Abandoned(xs, true)
  {
    if xs == [] {
    } else {
      ReplayFormsParts(xs[1..]);
    }
  }

  /** The exact outcome of a CONNACK for the captured entries. If the session resumes, the replay list is
      all releases and then all publications, each in their original order, the publications marked as
      duplicates and without aliases; everything else fails, once, in order. If not, everything fails.
      Exchanges started after the CONNECT stay in flight. */
  lemma SettleExact(c: Options, s: Engine, present: bool)
    requires s.sess.replay == [] && NoDup(Ids(s.sess.previous))
    ensures
      var r, captured := Settle(c, s, present), s.sess.previous;
      && r.sess.replay == (if Resumes(c, present) then PubRelsOf(captured) + ReplayForms(PublishesOf(captured)) else [])
      && r.events == s.events + Failures(Abandoned(captured, Resumes(c, present)))
      && (forall id :: id in LiveIds(r.sess.inflight) <==> id in LiveIds(s.sess.inflight) && id !in Ids(captured))
  {
    var resume := Resumes(c, present);
    var hs := if resume then ReleasesFirst(s.sess.previous) else s.sess.previous;
    var s0 := s.(sess := s.sess.(previous := []));
    assert Settle(c, s, present) == RestoreAll(s0, hs, resume) && s0.sess.replay == [];
    ReleasesFirstIsPermutation(s.sess.previous);
    RestoreAllReplay(s0, hs, resume);
    RestoreAllEvents(s0, hs, resume);
    RestoreAllLive(s0, hs, resume);
    SortedForms(s.sess.previous);
  }

  lemma SortedForms(xs: seq<Held>)
    ensures ReplayForms(ReleasesFirst(xs)) == PubRelsOf(xs) + ReplayForms(PublishesOf(xs))
    ensures Abandoned(ReleasesFirst(xs), true) == Abandoned(xs, true)
  {
    ReplayFormsAppend(PubRelsOf(xs), OthersOf(xs));
    ReplayFormsParts(xs);
  }

  /** What is replayed is every resumable entry once, in order, under its identifier: a release unchanged, a
      publication marked as a duplicate and without alias, with everything else as it was. */
  lemma {:induction false} ReplayFormsCanonical(hs: seq<Held>)
    ensures
      var xs, r := OnlyExchanges(hs), ReplayForms(hs);
      |r| == |xs| && forall i :: 0 <= i < |r| ==>
        && r[i].id == xs[i].id
        && (xs[i].packet.PubRel? ==> r[i].packet == xs[i].packet)
        && (xs[i].packet.Publish? ==>
              && r[i].packet == xs[i].packet.(dup := true, props := DropAliases(xs[i].packet.props))
              && forall x :: x in r[i].packet.props ==> !x.TopicAlias?)
  {
    if hs == [] {
    } else {
      ReplayFormsCanonical(hs[1..]);
    }
  }
}
