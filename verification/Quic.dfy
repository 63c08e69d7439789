/** The QUIC transport of the engine: a control stream, data streams with their own send buffers, the journal
    that makes rejected 0-RTT data repeatable, and the deferred end of streams and connections. What QUIC
    itself does — how much of a write it takes, which events it reports — is an input of each step. */
module QuicModel {
  import opened Basics

  datatype Role = ControlRole | DefaultPub | PriorityPub(level: nat) | DefaultSub | ExplicitData

  datatype Status = Unavailable | Attempted | Accepted | Rejected

  datatype Phase = Gone | Handshaking | Established

  /** The MQTT layer, as far as the transport can tell. */
  datatype Layer = Down | Connecting | Up

  datatype Stream = Stream(priority: nat, publishPriority: Option<nat>, outgoing: Bytes, pending: nat, finishing: bool,
      finished: bool)

  datatype Control = Control(id: Option<nat>, out: Bytes, finishing: bool, finished: bool)

  datatype Journal = Journal(id: nat, role: Role, priority: nat, bytes: Bytes, packets: nat)

  /** What happened to one send side: everything accepted for it, everything handed to QUIC, how often FIN was
      issued and after how many bytes, how many accepted bytes were thrown away. */
  datatype Wire = Wire(accepted: Bytes, written: Bytes, fins: nat, finAt: nat, dropped: nat)

  /** At a deferred close: whether every byte offered to the control stream had been written, and how many
      had been thrown away. */
  datatype Closing = Closing(complete: bool, dropped: nat)

  datatype Quic = Quic(
    phase: Phase, status: Status, layer: Layer, layerOut: Bytes, pendingClose: bool,
    ctl: Control, streams: map<nat, Stream>, pub: Option<nat>, sub: Option<nat>, journal: seq<Journal>,
    wires: map<nat, Wire>, ctlWire: Wire, used: set<nat>, order: seq<nat>, offered: nat, closes: seq<Closing>)

  const FRESH: Wire := Wire([], [], 0, 0, 0)

  const NO_CONTROL: Control := Control(None, [], false, false)

  const DEFAULT_PRIORITY: nat := 128

  // ----- The journal -----

  function PriorityOf(role: Role): (p: nat) { if role.PriorityPub? then role.level else DEFAULT_PRIORITY }

  function JournalOpen(js: seq<Journal>, id: nat, role: Role): (r: seq<Journal>) {
    js + [Journal(id, role, PriorityOf(role), [], 0)]
  }

  function FindJournal(js: seq<Journal>, id: nat): (i: nat)
    ensures i <= |js|
    ensures i < |js| ==> js[i].id == id
    ensures forall k :: 0 <= k < i ==> js[k].id != id
  {
    if js == [] || js[0].id == id then 0 else 1 + FindJournal(js[1..], id)
  }

  function JournalBytes(js: seq<Journal>, id: nat, bytes: Bytes, packets: nat): (r: seq<Journal>)
    ensures |r| == |js|
  {
    var i := FindJournal(js, id);
    if (bytes == [] && packets == 0) || i == |js| then js
    else js[i := js[i].(bytes := js[i].bytes + bytes, packets := js[i].packets + packets)]
  }

  /** Record accepted bytes while early data may still be rejected. */
  function Note(u: Quic, id: nat, bytes: Bytes, packets: nat): (r: Quic) {
    if u.status == Attempted then u.(journal := JournalBytes(u.journal, id, bytes, packets)) else u
  }

  // ----- Accepting bytes -----

  function Grow(w: Wire, bytes: Bytes): (r: Wire) { w.(accepted := w.accepted + bytes) }

  function AppendControl(u: Quic, bytes: Bytes, packets: nat): (r: Quic) {
    if bytes == [] then u
    else
      var u1 := u.(ctl := u.ctl.(out := u.ctl.out + bytes), ctlWire := Grow(u.ctlWire, bytes));
      if u.ctl.id.Some? then Note(u1, u.ctl.id.value, bytes, packets) else u1
  }

  function Append(u: Quic, id: nat, bytes: Bytes, packets: nat): (r: Quic)
    requires id in u.streams && id in u.wires
  {
    var s := u.streams[id];
    u.(streams := u.streams[id := s.(outgoing := s.outgoing + bytes, pending := s.pending + packets)],
       wires := u.wires[id := Grow(u.wires[id], bytes)])
  }

  /** One packet for a data stream. `room` says whether the byte budget of the client allows it. */
  function EnqueueOnStream(u: Quic, id: nat, bytes: Bytes, room: bool, limit: nat): (r: (Quic, Result<()>))
    requires id in u.streams ==> id in u.wires
  {
    if !room then (u, Err(BufferFull))
    else if id !in u.streams then (u, Ok(()))
    else if u.streams[id].finishing || u.streams[id].finished then (u, Err(InvalidState))
    else if u.streams[id].pending >= limit then (u, Err(BufferFull))
    else (Note(Append(u, id, bytes, 1), id, bytes, 1), Ok(()))
  }

  function SendRaw(u: Quic, id: nat, bytes: Bytes): (r: (Quic, Result<()>))
    requires id in u.streams ==> id in u.wires
  {
    if u.ctl.id == Some(id) then
      if u.ctl.finishing || u.ctl.finished then (u, Err(InvalidState))
        else (AppendControl(u.(offered := u.offered + |bytes|), bytes, 0), Ok(()))
    else if id !in u.streams || u.streams[id].finishing || u.streams[id].finished then (u, Err(InvalidState))
    else (Note(Append(u, id, bytes, 0), id, bytes, 0), Ok(()))
  }

  /** A response of the MQTT layer to a packet that arrived on a data stream goes back on that stream. */
  function Respond(u: Quic, id: nat, bytes: Bytes, limit: nat): (r: Quic)
    requires id in u.streams ==> id in u.wires
  {
    if u.layer != Up || id !in u.streams || u.streams[id].finished || u.streams[id].pending >= limit
      || bytes == [] then u
    else Append(u, id, bytes, 1)
  }

  // ----- Opening streams -----

  function NewStream(role: Role): (s: Stream) {
    Stream(PriorityOf(role), if role.PriorityPub? then Some(role.level) else None, [], 0, false, false)
  }

  function Register(u: Quic, id: nat, s: Stream): (r: Quic) {
    u.(streams := u.streams[id := s], wires := u.wires[id := FRESH], used := u.used + {id})
  }

  /** `id` is what QUIC hands out, or nothing when the stream limit is reached. */
  function OpenStream(u: Quic, role: Role, id: Option<nat>): (r: (Quic, Result<nat>)) {
    if (u.layer != Up && u.status != Attempted) || u.phase == Gone then (u, Err(InvalidState))
    else if id.None? then (u, Err(InternalError))
    else
      var u1 := Register(u, id.value, NewStream(role));
      (if u.status == Attempted then u1.(journal := JournalOpen(u1.journal, id.value, role),
        order := u1.order + [id.value]) else u1, Ok(id.value))
  }

  function EnsurePub(u: Quic, id: Option<nat>): (r: (Quic, Result<nat>)) {
    if u.pub.Some? then (u, Ok(u.pub.value))
    else
      var (u1, result) := OpenStream(u, DefaultPub, id);
      (if result.Ok? then u1.(pub := Some(result.value)) else u1, result)
  }

  function EnsureSub(u: Quic, id: Option<nat>): (r: (Quic, Result<nat>)) {
    if u.sub.Some? then (u, Ok(u.sub.value))
    else
      var (u1, result) := OpenStream(u, DefaultSub, id);
      (if result.Ok? then u1.(sub := Some(result.value)) else u1, result)
  }

  /** The peer opened a bidirectional stream. */
  function PeerOpens(u: Quic, id: nat): (r: Quic) {
    if id in u.streams then u else Register(u, id, NewStream(ExplicitData))
  }

  function Reprioritised(j: Journal, priority: nat): (r: Journal) {
    j.(priority := priority, role := if j.role.PriorityPub? then PriorityPub(priority) else j.role)
  }

  function SetPriority(u: Quic, id: nat, priority: nat): (r: (Quic, Result<()>)) {
    if id !in u.streams || u.streams[id].finishing || u.streams[id].finished then (u, Err(InvalidState))
    else
      var s, i := u.streams[id], FindJournal(u.journal, id);
      (u.(streams := u.streams[id := s.(priority := priority, publishPriority := if s.publishPriority.Some?
        then Some(priority) else None)],
          journal := if i < |u.journal| then u.journal[i := Reprioritised(u.journal[i], priority)] else u.journal),
            Ok(()))
  }

  // ----- Ending streams -----

  /** The MQTT layer loses its transport: what it had queued is gone. */
  function LayerLost(u: Quic): (r: Quic) {
    u.(layer := Down, layerOut := [], ctlWire := u.ctlWire.(dropped := u.ctlWire.dropped + |u.layerOut|))
  }

  /** Request FIN; it is issued once the buffer has drained. */
  function FinishStream(u: Quic, id: nat): (r: (Quic, Result<()>)) {
    if u.phase == Gone then (u, Err(InvalidState))
    else if u.ctl.id == Some(id) then
      var u1 := AppendControl(u.(layerOut := []), u.layerOut, 0);
      var u2 := LayerLost(u1);
      (u2.(ctl := u2.ctl.(finishing := true)), Ok(()))
    else if id in u.streams then (u.(streams := u.streams[id := u.streams[id].(finishing := true)]), Ok(()))
    else (u, Err(InvalidState))
  }

  function DropControl(u: Quic): (r: Quic) {
    LayerLost(u.(
      ctl := u.ctl.(out := [], finishing := false, finished := true),
      ctlWire := u.ctlWire.(dropped := u.ctlWire.dropped + |u.ctl.out|)))
  }

  /** Abandon the send side of a stream with everything buffered for it. */
  function ResetStream(u: Quic, id: nat): (r: (Quic, Result<()>))
    requires id in u.streams ==> id in u.wires
  {
    if u.ctl.id == Some(id) then (DropControl(u), if u.phase == Gone then Err(InvalidState) else Ok(()))
    else if id in u.streams then
      var s, w := u.streams[id], u.wires[id];
      (u.(streams := u.streams[id := s.(outgoing := [], pending := 0, finishing := false, finished := true)],
          wires := u.wires[id := w.(dropped := w.dropped + |s.outgoing|)]), if u.phase == Gone then Err(InvalidState)
            else Ok(()))
    else (u, Err(InvalidState))
  }

  /** The peer stopped or reset a stream: a data stream is forgotten, the control stream ends the session. */
  function PeerEnds(u: Quic, id: nat): (r: Quic) {
    if u.ctl.id == Some(id) then
      var u1 := DropControl(u);
      u1.(ctl := u1.ctl.(id := None))
    else if id in u.streams then
      u.(streams := u.streams - {id},
         pub := if u.pub == Some(id) then None else u.pub,
         sub := if u.sub == Some(id) then None else u.sub)
    else u
  }

  /** QUIC reports that the peer has everything up to FIN. */
  function FinAcknowledged(u: Quic, id: nat): (r: Quic) {
    if u.ctl.id != Some(id) && id in u.streams then u.(streams := u.streams[id := u.streams[id].(finished := true)])
      else u
  }

  // ----- Flushing -----

  function Taken(n: nat, bytes: Bytes): (k: nat)
    ensures k <= |bytes|
  {
    Min(n, |bytes|)
  }

  function Written(w: Wire, bytes: Bytes): (r: Wire) { w.(written := w.written + bytes) }

  function Fin(w: Wire): (r: Wire) { w.(fins := w.fins + 1, finAt := |w.written|) }

  function Pull(u: Quic): (r: Quic) {
    if u.ctl.finishing || u.ctl.finished then u else AppendControl(u.(layerOut := []), u.layerOut, 0)
  }

  /** Write what QUIC takes of the control buffer, then issue a requested FIN if nothing is left. */
  function FlushControl(u: Quic, n: nat): (r: Quic) {
    if u.ctl.id.None? then u
    else
      var k := if u.ctl.finished then 0 else Taken(n, u.ctl.out);
      var u1 := u.(ctl := u.ctl.(out := u.ctl.out[k..]), ctlWire := Written(u.ctlWire, u.ctl.out[..k]));
      if u1.ctl.finishing && !u1.ctl.finished && u1.ctl.out == [] then
        u1.(ctl := u1.ctl.(finishing := false, finished := true), ctlWire := Fin(u1.ctlWire))
      else u1
  }

  function FlushedStream(s: Stream, n: nat): (r: Stream) {
    var rest := s.outgoing[Taken(n, s.outgoing)..];
    var s1 := s.(outgoing := rest, pending := if rest == [] && s.outgoing != [] then 0 else s.pending);
    if s.finishing && !s.finished && rest == [] then s1.(finishing := false, finished := true) else s1
  }

  function FlushedWire(s: Stream, w: Wire, n: nat): (r: Wire) {
    var k := Taken(n, s.outgoing);
    var w1 := Written(w, s.outgoing[..k]);
    if s.finishing && !s.finished && s.outgoing[k..] == [] then Fin(w1) else w1
  }

  /** Every data stream writes what QUIC takes of its buffer. */
  function FlushData(u: Quic, takes: map<nat, nat>): (r: Quic)
    requires u.streams.Keys <= u.wires.Keys
  {
    u.(streams := map id | id in u.streams :: FlushedStream(u.streams[id], if id in takes then takes[id] else 0),
       wires := map id | id in u.wires ::
         if id in u.streams then FlushedWire(u.streams[id], u.wires[id], if id in takes then takes[id] else 0)
           else u.wires[id])
  }

  /** A deferred close waits until the control buffer is empty. */
  function CloseIfDrained(u: Quic): (r: Quic) {
    if u.pendingClose && u.ctl.out == [] then
      LayerLost(u.(pendingClose := false, closes := u.closes
        + [Closing(|u.ctlWire.written| == u.offered, u.ctlWire.dropped)]))
    else u
  }

  function Tick(u: Quic, n: nat, takes: map<nat, nat>): (r: Quic)
    requires u.streams.Keys <= u.wires.Keys
  {
    if u.phase == Gone then u
    else CloseIfDrained(FlushData(FlushControl(Pull(u), n), takes))
  }

  /** The MQTT layer queues bytes for the control stream. */
  function Emit(u: Quic, bytes: Bytes): (r: Quic) {
    u.(layerOut := u.layerOut + bytes, offered := u.offered + |bytes|)
  }

  /** Queue the MQTT DISCONNECT, if there is a session, and arm the close. */
  function DisconnectAndClose(u: Quic, bytes: Bytes): (r: (Quic, Result<()>)) {
    if u.phase == Gone then (u, Err(InvalidState))
    else
      var u1 := if u.layer == Up then Emit(u, bytes) else u;
      (u1.(layer := Down, pendingClose := true), Ok(()))
  }

  // ----- Connections -----

  function Cleared(u: Quic): (r: Quic) {
    u.(ctl := NO_CONTROL, streams := map[], pub := None, sub := None, journal := [], pendingClose := false,
       wires := map[], ctlWire := FRESH, used := {}, order := [], offered := |u.layerOut|)
  }

  /** A new connection. With early data the control stream opens at once and carries CONNECT. */
  function Establish(u: Quic, early: Option<nat>, connect: Bytes): (r: Quic) {
    var u1 := Cleared(LayerLost(u)).(phase := Handshaking, status := Unavailable);
    if early.None? then u1
    else
      AppendControl(
        u1.(status := Attempted, layer := Connecting, ctl := Control(early, [], false, false), used := {early.value},
            journal := JournalOpen([], early.value, ControlRole), order := [early.value], offered := |connect|),
        connect, if connect == [] then 0 else 1)
  }

  /** Rebuild one journaled stream under the identifier QUIC gave it. */
  function ReplayOne(u: Quic, j: Journal, id: nat): (r: Quic) {
    if j.role == ControlRole then
      u.(ctl := u.ctl.(id := Some(id), out := u.ctl.out + j.bytes), ctlWire := Grow(u.ctlWire, j.bytes),
         used := u.used + {id}, offered := u.offered + |j.bytes|)
    else
      var s := Stream(j.priority, if j.role.PriorityPub? then Some(j.role.level)
        else None, j.bytes, j.packets, false, false);
      u.(streams := u.streams[id := s], wires := u.wires[id := Grow(FRESH, j.bytes)], used := u.used + {id},
         pub := if j.role == DefaultPub then Some(id) else u.pub,
         sub := if j.role == DefaultSub then Some(id) else u.sub)
  }

  /** Replay stops when QUIC gives no more streams. */
  function ReplayAll(u: Quic, js: seq<Journal>, ids: seq<nat>): (r: Quic)
    decreases js
  {
    if js == [] || ids == [] then u else ReplayAll(ReplayOne(u, js[0], ids[0]), js[1..], ids[1..])
  }

  /** The QUIC handshake is complete. `ids` are the streams QUIC opens for the replay, or the control stream. */
  function Handshake(u: Quic, accepted: bool, replay: bool, ids: seq<nat>, connect: Bytes): (r: Quic) {
    if u.status == Attempted then
      if accepted then u.(phase := Established, status := Accepted, journal := [], order := [])
      else
        var u1 := Cleared(u).(phase := Established, status := Rejected);
        if replay then ReplayAll(u1, u.journal, ids) else u1
    else if u.ctl.id.None? && ids != [] then
      Emit(u.(phase := Established, ctl := u.ctl.(id := Some(ids[0])), used := u.used + {ids[0]}, layer := Connecting),
        connect)
    else u.(phase := Established)
  }

  function ConnectionGone(u: Quic): (r: Quic) { Cleared(LayerLost(u)).(phase := Gone, status := u.status) }
}
