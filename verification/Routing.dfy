/** Session replay over QUIC: deferred exchanges move, in order, from the session to the default data stream. */
module SessionRouting {
  import opened Basics
  import opened Timestamps
  import opened Packets
  import opened PriorityQueues
  import opened InflightQueues
  import opened EngineModel
  import opened SessionBooks
  import opened SessionInvariant
  import Reachable
  import EngineRuns
  import TimeRange
  import opened QuicModel
  import opened QuicSafety

  /** What became of one deferred exchange. */
  datatype Routed = Sent(held: Held, stream: nat) | Dropped(held: Held, error: Error)

  datatype Turn = Stop(transport: Quic, failure: Option<Error>) | Go(engine: Engine, transport: Quic, routed: Routed)

  /** The connection cannot carry the packet at all. */
  function Unsendable(c: Options, s: Engine, p: Packet): (r: Option<Error>) {
    if c.encode(p).None? then Some(EncodingFailed)
    else if !Capable(s.caps, p) then Some(InvalidConfiguration)
    else CheckSize(c, s.caps, |c.encode(p).value|)
  }

  function Refusal(u: Quic, id: nat, limit: nat): (r: Option<Error>) {
    if id !in u.streams then None
    else if u.streams[id].finishing || u.streams[id].finished then Some(InvalidState)
    else if u.streams[id].pending >= limit then Some(BufferFull)
    else None
  }

  /** Put a packet on the default stream, opening it on first use. */
  function BufferOnDefault(u: Quic, bytes: Bytes, offer: Option<nat>, limit: nat, room: bool): (r: (Quic, Result<nat>))
    requires u.streams.Keys <= u.wires.Keys
  {
    var (u1, stream) := EnsurePub(u, offer);
    if stream.Err? then (u1, stream)
    else if Refusal(u1, stream.value, limit).Some? then (u1, Err(Refusal(u1, stream.value, limit).value))
    else
      var (u2, queued) := EnqueueOnStream(u1, stream.value, bytes, room, limit);
      (u2, if queued.Err? then Err(queued.error) else stream)
  }

  /** One round of the loop. `offer` is the stream QUIC would open, `room` whether the byte budget allows the packet. */
  function RouteOne(c: Options, s: Engine, u: Quic, offer: Option<nat>, limit: nat, room: bool): (r: Turn)
    requires s.sess.replay != [] && u.streams.Keys <= u.wires.Keys
  {
    var h := s.sess.replay[0];
    var popped := s.(sess := s.sess.(replay := s.sess.replay[1..]));
    var unsendable := Unsendable(c, s, h.packet);
    if unsendable.Some? then Go(FailOperation(popped, h.id, h.packet, unsendable.value), u,
      Dropped(h, unsendable.value))
    else if h.packet.Publish? && !CanPublish(s.sess.inflight) then Stop(u, None)
    else
      var (u1, stream) := BufferOnDefault(u, c.encode(h.packet).value, offer, limit, room);
      if stream.Err? then Stop(u1, Some(stream.error))
      else
        match Push(LineOf(c), s.sess.inflight, h.id, h.packet, QosOf(h.packet), Some(stream.value), s.clock.now)
        case Err(e) => Stop(u1, Some(e))
        case Ok(q) =>
          Go(popped.(sess := popped.sess.(inflight := q), clock := StartDeadline(c, s.clock, PublishOp, Some(h.id))),
            u1, Sent(h, stream.value))
  }

  datatype Outcome = Outcome(engine: Engine, transport: Quic, log: seq<Routed>, failure: Option<Error>)

  /** `room` is asked with the number of entries handled before. */
  ghost function Route(c: Options, s: Engine, u: Quic, offer: Option<nat>, limit: nat, room: nat -> bool,
      log: seq<Routed>): (r: Outcome)
    requires QuicInv(u) && (u.pub.Some? || Unused(u, offer))
    decreases |s.sess.replay|
  {
    if s.sess.replay == [] then Outcome(s, u, log, None)
    else
      RouteOneTransport(c, s, u, offer, limit, room(|log|));
      match RouteOne(c, s, u, offer, limit, room(|log|))
      case Stop(u1, failure) => Outcome(s, u1, log, failure)
      case Go(s1, u1, x) => Route(c, s1, u1, offer, limit, room, log + [x])
  }

  /** What waits on the default stream. */
  ghost function BufferOf(u: Quic): (r: Bytes) {
    if u.pub.Some? && u.pub.value in u.streams then u.streams[u.pub.value].outgoing else []
  }

  /** Streams other than the default one are as they were. */
  ghost predicate OthersSame(u: Quic, v: Quic) {
    forall id :: id in u.streams && v.pub != Some(id) ==> id in v.streams && v.streams[id] == u.streams[id]
  }

  lemma EnsureExact(u: Quic, offer: Option<nat>)
    requires QuicInv(u) && (u.pub.Some? || Unused(u, offer))
    ensures
      var (v, r) := EnsurePub(u, offer);
      && QuicInv(v) && (v.pub.Some? || Unused(v, offer)) && OthersSame(u, v) && BufferOf(v) == BufferOf(u)
      && (u.pub.Some? ==> v.pub == u.pub) && (r.Ok? ==> v.pub == Some(r.value) && r.value in v.streams)
  {
    if u.pub.None? { EnsurePubKeeps(u, offer); }
  }

  lemma EnqueueExact(u: Quic, id: nat, bytes: Bytes, room: bool, limit: nat)
    requires QuicInv(u) && u.pub == Some(id)
    ensures
      var (v, r) := EnqueueOnStream(u, id, bytes, room, limit);
      && QuicInv(v) && v.pub == u.pub && OthersSame(u, v)
      && BufferOf(v) == BufferOf(u) + (if r.Ok? then bytes else [])
  {
    EnqueueKeeps(u, id, bytes, room, limit);
  }

  /** The packet is appended to the default stream once, or not at all; no other stream changes. */
  lemma BufferExact(u: Quic, bytes: Bytes, offer: Option<nat>, limit: nat, room: bool)
    requires QuicInv(u) && (u.pub.Some? || Unused(u, offer))
    ensures
      var (v, r) := BufferOnDefault(u, bytes, offer, limit, room);
      && QuicInv(v) && (v.pub.Some? || Unused(v, offer)) && OthersSame(u, v) && (u.pub.Some? ==> v.pub == u.pub)
      && BufferOf(v) == BufferOf(u) + (if r.Ok? then bytes else []) && (r.Ok? ==> v.pub == Some(r.value))
  {
    EnsureExact(u, offer);
    var (u1, stream) := EnsurePub(u, offer);
    BufferCases(u, bytes, offer, limit, room);
    if stream.Ok? { EnqueueExact(u1, stream.value, bytes, room, limit); }
  }

  /** The packet was refused before the buffer, or offered to it. */
  lemma BufferCases(u: Quic, bytes: Bytes, offer: Option<nat>, limit: nat, room: bool)
    requires QuicInv(u)
    ensures EnsurePub(u, offer).0.streams.Keys <= EnsurePub(u, offer).0.wires.Keys
    ensures
      var (u1, stream) := EnsurePub(u, offer);
      var (v, r) := BufferOnDefault(u, bytes, offer, limit, room);
      || (v == u1 && r.Err?)
      || (stream.Ok? && (v, if r.Ok? then Ok(()) else Err(r.error))
        == EnqueueOnStream(u1, stream.value, bytes, room, limit) && (r.Ok? ==> r == stream))
  {
  }

  /** The transport stays sound, and the session gets shorter. */
  lemma RouteOneTransport(c: Options, s: Engine, u: Quic, offer: Option<nat>, limit: nat, room: bool)
    requires s.sess.replay != [] && QuicInv(u) && (u.pub.Some? || Unused(u, offer))
    ensures
      var t := RouteOne(c, s, u, offer, limit, room);
      && QuicInv(t.transport) && (t.transport.pub.Some? || Unused(t.transport, offer))
      && (t.Go? ==> |t.engine.sess.replay| < |s.sess.replay|)
  {
    BufferExact(u, EncodingOf(c, s.sess.replay[0].packet), offer, limit, room);
  }

  function EncodingOf(c: Options, p: Packet): (r: Bytes) { if c.encode(p).Some? then c.encode(p).value else [] }

  // ----- Exactness -----

  function HandledOf(log: seq<Routed>): (r: seq<Held>)
    ensures |r| == |log|
  {
    seq(|log|, i requires 0 <= i < |log| => log[i].held)
  }

  /** What the routed entries add to the exchanges in flight. */
  function EntriesOf(log: seq<Routed>, now: Time): (r: seq<Entry>) {
    if log == [] then []
    else
      var x, rest := log[|log| - 1], EntriesOf(log[..|log| - 1], now);
      if x.Sent? then rest + [Entry(x.held.id, x.held.packet, QosOf(x.held.packet), Some(x.stream), now, 0)] else rest
  }

  function BytesOf(c: Options, log: seq<Routed>): (r: Bytes) {
    if log == [] then []
    else
      var x, rest := log[|log| - 1], BytesOf(c, log[..|log| - 1]);
      if x.Sent? then rest + EncodingOf(c, x.held.packet) else rest
  }

  /** Deferred exchanges are distinct and not in flight, and the clock is in order. */
  ghost predicate Routable(c: Options, s: Engine) {
    && NoDup(Ids(Live(s.sess))) && TimeOk(LineOf(c), s.sess.inflight, s.clock.now)
    && forall h :: h in s.sess.replay ==> h.id > 0
  }

  /** Every state that a run reaches without a clash is like this. */
  lemma ReachedRoutable(c: Options, now: Time, ts: seq<EngineRuns.Timed>)
    requires Codec(c) && Horizon(c, now) && Reachable.NoClash(EngineRuns.Run(c, EngineRuns.Initial(c, now), ts))
    ensures Routable(c, EngineRuns.Run(c, EngineRuns.Initial(c, now), ts))
  {
    var s := EngineRuns.Run(c, EngineRuns.Initial(c, now), ts);
    Reachable.Reached(c, now, ts);
    Reachable.HealthyLaw(c, s);
    IdsAppend(Snapshot(s.sess.inflight.items), s.sess.replay);
    forall h | h in s.sess.replay ensures h.id > 0 {
      var k :| 0 <= k < |s.sess.replay| && s.sess.replay[k] == h;
      assert Ids(s.sess.replay)[k] == h.id && h.id in Ids(Live(s.sess)) && h.id in s.sess.reserved;
    }
  }

  lemma RouteHead(c: Options, s: Engine)
    requires Routable(c, s) && s.sess.replay != []
    ensures
      var h := s.sess.replay[0];
      && !Has(s.sess.inflight, h.id) && h.id > 0
      && Acknowledge(s.sess.inflight, h.id) == s.sess.inflight
  {
    var q, h := s.sess, s.sess.replay[0];
    var a := Snapshot(q.inflight.items);
    IdsAppend(a, q.replay);
    NoDupAppend(Ids(a), Ids(q.replay));
    assert Ids(q.replay)[0] == h.id && h.id in Ids(q.replay);
    HasIds(q.inflight, h.id);
    assert h in q.replay;
  }

  lemma RoutedPush(c: Options, s: Engine, stream: nat)
    requires Routable(c, s) && s.sess.replay != [] && (s.sess.replay[0].packet.Publish? ==> CanPublish(s.sess.inflight))
    ensures
      var h, q := s.sess.replay[0], s.sess.inflight;
      var r := Push(LineOf(c), q, h.id, h.packet, QosOf(h.packet), Some(stream), s.clock.now);
      r.Ok? && r.value.items == q.items + [Entry(h.id, h.packet, QosOf(h.packet), Some(stream), s.clock.now, 0)]
      && TimeOk(LineOf(c), r.value, s.clock.now)
  {
    RouteHead(c, s);
  }

  /** What one round does, exactly. */
  lemma RouteOneExact(c: Options, s: Engine, u: Quic, offer: Option<nat>, limit: nat, room: bool)
    requires Routable(c, s) && s.sess.replay != [] && QuicInv(u) && (u.pub.Some? || Unused(u, offer))
    ensures
      var t, h := RouteOne(c, s, u, offer, limit, room), s.sess.replay[0];
      t.Go? ==>
        && t.routed.held == h && t.engine.sess.replay == s.sess.replay[1..] && t.engine.clock.now == s.clock.now
        && t.engine.sess.inflight.items == s.sess.inflight.items + EntriesOf([t.routed], s.clock.now)
        && Routable(c, t.engine)
  {
    var h := s.sess.replay[0];
    RouteHead(c, s);
    var t := RouteOne(c, s, u, offer, limit, room);
    if t.Go? {
      assert [t.routed][..0] == [];
      if t.routed.Sent? {
        RoutedPush(c, s, t.routed.stream);
        RoutedLive(c, s, t.engine);
      } else {
        FailOperationSess(s.(sess := s.sess.(replay := s.sess.replay[1..])), h.id, h.packet, t.routed.error);
        DroppedLive(s, t.engine);
      }
    }
  }

  lemma RoutedLive(c: Options, s: Engine, r: Engine)
    requires NoDup(Ids(Live(s.sess))) && s.sess.replay != [] && r.sess.replay == s.sess.replay[1..]
    requires |r.sess.inflight.items| == |s.sess.inflight.items| + 1
        && r.sess.inflight.items[..|s.sess.inflight.items|] == s.sess.inflight.items
    requires
      var e := r.sess.inflight.items[|s.sess.inflight.items|];
      Held(e.id, e.packet) == s.sess.replay[0]
    ensures NoDup(Ids(Live(r.sess)))
  {
    assert Snapshot(r.sess.inflight.items) == Snapshot(s.sess.inflight.items) + [s.sess.replay[0]];
    assert Live(r.sess) == Live(s.sess);
  }

  lemma DroppedLive(s: Engine, r: Engine)
    requires NoDup(Ids(Live(s.sess))) && s.sess.replay != [] && r.sess.replay == s.sess.replay[1..]
        && r.sess.inflight == s.sess.inflight
    ensures NoDup(Ids(Live(r.sess)))
  {
    var a, b := Snapshot(s.sess.inflight.items), s.sess.replay;
    IdsAppend(a, b);
    NoDupAppend(Ids(a), Ids(b));
    IdsHead(b);
    IdsAppend(a, b[1..]);
    NoDupAppend(Ids(a), Ids(b[1..]));
  }

  /** The transport either saw the packet or was not touched; the push after a successful buffering never fails. */
  lemma RouteOneCases(c: Options, s: Engine, u: Quic, offer: Option<nat>, limit: nat, room: bool)
    requires Routable(c, s) && s.sess.replay != [] && QuicInv(u)
    ensures
      var t, h := RouteOne(c, s, u, offer, limit, room), s.sess.replay[0];
      var (u1, stream) := BufferOnDefault(u, EncodingOf(c, h.packet), offer, limit, room);
      && (t.Stop? ==> t.transport == u || (stream.Err? && t.transport == u1))
      && (t.Go? ==> t.routed.held == h && if t.routed.Sent? then stream == Ok(t.routed.stream) && t.transport == u1
        else t.transport == u)
  {
    var h := s.sess.replay[0];
    var stream := BufferOnDefault(u, EncodingOf(c, h.packet), offer, limit, room).1;
    if stream.Ok? && (h.packet.Publish? ==> CanPublish(s.sess.inflight)) { RoutedPush(c, s, stream.value); }
  }

  /** What one round does to the default stream: it gets the bytes of a sent packet, and nothing otherwise; no
      other stream is touched. */
  lemma RouteOneBytes(c: Options, s: Engine, u: Quic, offer: Option<nat>, limit: nat, room: bool)
    requires Routable(c, s) && s.sess.replay != [] && QuicInv(u) && (u.pub.Some? || Unused(u, offer))
    ensures RoundBytes(c, u, RouteOne(c, s, u, offer, limit, room))
  {
    RouteOneCases(c, s, u, offer, limit, room);
    RoundFrom(c, s.sess.replay[0], u, offer, limit, room, RouteOne(c, s, u, offer, limit, room));
  }

  ghost predicate RoundBytes(c: Options, u: Quic, t: Turn) {
    var v := t.transport;
    && BufferOf(v) == BufferOf(u) + (if t.Go? then BytesOf(c, [t.routed]) else [])
    && OthersSame(u, v) && (u.pub.Some? ==> v.pub == u.pub)
    && (t.Go? && t.routed.Sent? ==> v.pub == Some(t.routed.stream))
  }

  lemma RoundFrom(c: Options, h: Held, u: Quic, offer: Option<nat>, limit: nat, room: bool, t: Turn)
    requires QuicInv(u) && (u.pub.Some? || Unused(u, offer))
    requires
      var (u1, stream) := BufferOnDefault(u, EncodingOf(c, h.packet), offer, limit, room);
      && (t.Stop? ==> t.transport == u || (stream.Err? && t.transport == u1))
      && (t.Go? ==> t.routed.held == h && if t.routed.Sent? then stream == Ok(t.routed.stream) && t.transport == u1
        else t.transport == u)
    ensures RoundBytes(c, u, t)
  {
    BufferExact(u, EncodingOf(c, h.packet), offer, limit, room);
    if t.Go? {
      assert [t.routed][..0] == [];
      assert BytesOf(c, [t.routed]) == if t.routed.Sent? then [] + EncodingOf(c, h.packet) else [];
    }
  }

  // ----- The whole loop -----

  /** One round of the loop, unfolded. */
  lemma RouteUnfold(c: Options, s: Engine, u: Quic, offer: Option<nat>, limit: nat, room: nat -> bool, log: seq<Routed>,
      t: Turn)
    requires QuicInv(u) && (u.pub.Some? || Unused(u, offer)) && s.sess.replay != []
        && t == RouteOne(c, s, u, offer, limit, room(|log|))
    ensures QuicInv(t.transport) && (t.transport.pub.Some? || Unused(t.transport, offer))
    ensures t.Stop? ==> Route(c, s, u, offer, limit, room, log) == Outcome(s, t.transport, log, t.failure)
    ensures t.Go? ==> |t.engine.sess.replay| < |s.sess.replay|
    ensures t.Go? ==> Route(c, s, u, offer, limit, room, log) == Route(c, t.engine, t.transport, offer, limit, room,
        log + [t.routed])
  {
    RouteOneTransport(c, s, u, offer, limit, room(|log|));
  }

  lemma BytesOfAppend(c: Options, log: seq<Routed>, x: Routed)
    ensures BytesOf(c, log + [x]) == BytesOf(c, log) + BytesOf(c, [x])
  {
    assert (log + [x])[..|log|] == log && [x][..0] == [];
  }

  lemma EntriesOfAppend(log: seq<Routed>, x: Routed, now: Time)
    ensures EntriesOf(log + [x], now) == EntriesOf(log, now) + EntriesOf([x], now)
  {
    assert (log + [x])[..|log|] == log && [x][..0] == [];
  }

  /** The state of the loop relative to its start: handled entries followed by remaining ones are the original
      list; sent entries are in flight on their stream, once each; their bytes are on the default stream, once
      each and in order. */
  ghost predicate Progress(c: Options, s0: Engine, u0: Quic, s: Engine, u: Quic, log: seq<Routed>) {
    && HandledOf(log) + s.sess.replay == s0.sess.replay
    && s.sess.inflight.items == s0.sess.inflight.items + EntriesOf(log, s0.clock.now) && s.clock.now == s0.clock.now
    && BufferOf(u) == BufferOf(u0) + BytesOf(c, log)
    && (u0.pub.Some? ==> u.pub == u0.pub)
    && (forall x :: x in log && x.Sent? ==> u.pub == Some(x.stream))
    && OthersSame(u0, u)
  }

  lemma ProgressStep(c: Options, s0: Engine, u0: Quic, s: Engine, u: Quic, log: seq<Routed>, s1: Engine, u1: Quic,
      x: Routed)
    requires Progress(c, s0, u0, s, u, log) && s.sess.replay != []
    requires x.held == s.sess.replay[0] && s1.sess.replay == s.sess.replay[1..] && s1.clock.now == s.clock.now
    requires s1.sess.inflight.items == s.sess.inflight.items + EntriesOf([x], s.clock.now)
    requires BufferOf(u1) == BufferOf(u) + BytesOf(c, [x]) && OthersSame(u, u1) && (u.pub.Some? ==> u1.pub == u.pub)
    requires x.Sent? ==> u1.pub == Some(x.stream)
    ensures Progress(c, s0, u0, s1, u1, log + [x])
  {
    BytesOfAppend(c, log, x);
    EntriesOfAppend(log, x, s0.clock.now);
    assert HandledOf(log + [x]) == HandledOf(log) + [x.held];
    assert HandledOf(log) + [x.held] + s.sess.replay[1..] == HandledOf(log) + s.sess.replay;
  }

  /** At every exit of the loop, with or without an error, nothing was lost and nothing was sent twice. */
  lemma {:induction false} RouteProgress(c: Options, s0: Engine, u0: Quic, s: Engine, u: Quic,
                                       offer: Option<nat>, limit: nat, room: nat -> bool, log: seq<Routed>)
    requires Routable(c, s) && QuicInv(u) && (u.pub.Some? || Unused(u, offer)) && Progress(c, s0, u0, s, u, log)
    ensures
      var r := Route(c, s, u, offer, limit, room, log);
      Progress(c, s0, u0, r.engine, r.transport, r.log) && QuicInv(r.transport)
    decreases |s.sess.replay|
  {
    if s.sess.replay == [] {
    } else {
      RouteOneTransport(c, s, u, offer, limit, room(|log|));
      RouteOneExact(c, s, u, offer, limit, room(|log|));
      RouteOneBytes(c, s, u, offer, limit, room(|log|));
      match RouteOne(c, s, u, offer, limit, room(|log|))
      case Stop(u1, failure) => assert BufferOf(u1) == BufferOf(u);
      case Go(s1, u1, x) =>
        ProgressStep(c, s0, u0, s, u, log, s1, u1, x);
        RouteProgress(c, s0, u0, s1, u1, offer, limit, room, log + [x]);
    }
  }

  lemma RouteExact(c: Options, s: Engine, u: Quic, offer: Option<nat>, limit: nat, room: nat -> bool)
    requires Routable(c, s) && QuicInv(u) && (u.pub.Some? || Unused(u, offer))
    ensures
      var r := Route(c, s, u, offer, limit, room, []);
      && HandledOf(r.log) + r.engine.sess.replay == s.sess.replay
      && r.engine.sess.inflight.items == s.sess.inflight.items + EntriesOf(r.log, s.clock.now)
      && BufferOf(r.transport) == BufferOf(u) + BytesOf(c, r.log)
      && (forall x :: x in r.log && x.Sent? ==> r.transport.pub == Some(x.stream) && x.stream in r.transport.streams)
  {
    RouteProgress(c, s, u, s, u, offer, limit, room, []);
  }
}
