/** Safety of the QUIC transport over whole runs: what FIN and the deferred close wait for, and what the journal
    of early data holds. */
module QuicSafety {
  import opened Basics
  import opened QuicModel

  // ----- The invariant -----

  /** Bytes accepted for a send side are written in order or still buffered, unless some were thrown away. FIN
      is issued at most once, when the buffer is empty, and nothing is written after it. */
  ghost predicate SideOk(buffer: Bytes, finished: bool, w: Wire) {
    && |w.accepted| == |w.written| + |buffer| + w.dropped
    && (w.dropped == 0 ==> w.accepted == w.written + buffer)
    && w.fins <= 1 && (w.fins == 1 ==> finished && w.finAt == |w.written|)
    && (finished ==> buffer == [])
  }

  ghost predicate DataOk(u: Quic) {
    && u.streams.Keys <= u.wires.Keys <= u.used
    && forall id :: id in u.streams ==> SideOk(u.streams[id].outgoing, u.streams[id].finished, u.wires[id])
  }

  /** The same for the control stream, which also owes what the MQTT layer has queued for it. */
  ghost predicate ControlOk(u: Quic) {
    var w := u.ctlWire;
    && u.offered == |w.written| + |u.ctl.out| + |u.layerOut| + w.dropped
    && (w.dropped == 0 ==> w.accepted == w.written + u.ctl.out)
    && w.fins <= 1 && (w.fins == 1 ==> u.ctl.finished && w.finAt == |w.written|)
    && (u.ctl.finished ==> u.ctl.out == [])
    && (u.ctl.finishing || u.ctl.finished ==> u.layer == Down && u.layerOut == [])
    && (u.ctl.id.Some? ==> u.ctl.id.value in u.used && u.ctl.id.value !in u.wires)
    && (u.phase == Handshaking && u.status != Attempted ==> u.ctl.id.None? && !u.ctl.finishing && !u.ctl.finished)
  }

  /** A deferred close found every offered byte written exactly when none had been thrown away. */
  ghost predicate ClosesOk(u: Quic) {
    forall k :: k in u.closes ==> (k.complete <==> k.dropped == 0)
  }

  ghost predicate Matches(s: Stream, j: Journal) {
    && s.priority == j.priority
    && s.publishPriority == if j.role.PriorityPub? then Some(j.role.level) else None
  }

  /** A journal entry holds every byte accepted for its stream since the stream was opened, and the stream's
      current priority. */
  ghost predicate EntryOk(u: Quic, j: Journal) {
    if j.role == ControlRole then
      && j.bytes == u.ctlWire.accepted && (if u.ctl.id.Some? then u.ctl.id.value == j.id else u.ctl.finished)
      && j.id in u.used && j.id !in u.wires
    else
      && j.id in u.wires && j.bytes == u.wires[j.id].accepted
      && (j.id in u.streams ==> Matches(u.streams[j.id], j))
  }

  /** While early data may be rejected, the journal lists the streams in opening order, the control stream
      first, and each entry is exact. */
  ghost predicate EarlyOk(u: Quic) {
    u.status == Attempted ==>
      && u.phase != Established && u.layer != Up && |u.journal| == |u.order| && NoDup(u.order)
      && (forall i :: 0 <= i < |u.journal| ==> u.journal[i].id == u.order[i] && EntryOk(u, u.journal[i]))
      && (forall i :: 0 <= i < |u.journal| ==> (u.journal[i].role == ControlRole <==> i == 0))
      && (u.journal == [] ==> u.phase == Gone)
      && (u.phase == Gone ==> u.streams.Keys == {} && u.ctl.id.None?)
  }

  /** The identifier of the last entry with a role. */
  function LastOf(js: seq<Journal>, role: Role): (r: Option<nat>) {
    if js == [] then None
    else if js[|js| - 1].role == role then Some(js[|js| - 1].id)
    else LastOf(js[..|js| - 1], role)
  }

  /** A default stream is registered, and while early data may be rejected it is the last one journaled for
      that purpose. */
  ghost predicate BoundOk(u: Quic, bound: Option<nat>, role: Role) {
    && (bound.Some? ==> bound.value in u.streams)
    && (u.status == Attempted ==> LastOf(u.journal, role) == bound)
  }

  ghost predicate QuicInv(u: Quic) {
    DataOk(u) && ControlOk(u) && ClosesOk(u) && EarlyOk(u) && BoundOk(u, u.pub, DefaultPub)
      && BoundOk(u, u.sub, DefaultSub)
  }

  // ----- The journal -----

  lemma FindEntry(u: Quic, i: nat)
    requires u.status == Attempted && EarlyOk(u) && i < |u.journal|
    ensures FindJournal(u.journal, u.journal[i].id) == i
  {
    var k := FindJournal(u.journal, u.journal[i].id);
    assert u.order[k] == u.order[i] || k > i;
  }

  /** Roles do not change when bytes are noted. */
  lemma {:induction false} LastOfSame(js: seq<Journal>, ks: seq<Journal>, role: Role)
    requires |js| == |ks|
    requires forall i :: 0 <= i < |js| ==> js[i].id == ks[i].id && (js[i].role == role <==> ks[i].role == role)
    ensures LastOf(js, role) == LastOf(ks, role)
    decreases js
  {
    if js == [] {
    } else {
      LastOfSame(js[..|js| - 1], ks[..|js| - 1], role);
    }
  }

  lemma JournalBytesRoles(js: seq<Journal>, id: nat, bytes: Bytes, packets: nat, role: Role)
    ensures LastOf(JournalBytes(js, id, bytes, packets), role) == LastOf(js, role)
  {
    LastOfSame(JournalBytes(js, id, bytes, packets), js, role);
  }

  // ----- Accepting bytes -----

  lemma NotedEntries(u: Quic, v: Quic, id: nat, bytes: Bytes, packets: nat)
    requires u.status == Attempted && EarlyOk(u) && id in u.wires && id in u.streams
    requires v == Append(u, id, bytes, packets).(journal := JournalBytes(u.journal, id, bytes, packets))
    requires !u.streams[id].finished
    ensures EarlyOk(v)
  {
    var k := FindJournal(u.journal, id);
    forall i | 0 <= i < |v.journal|
      ensures v.journal[i].id == v.order[i] && EntryOk(v, v.journal[i])
          && (v.journal[i].role == ControlRole <==> i == 0)
    {
      FindEntry(u, i);
      assert EntryOk(u, u.journal[i]) && u.journal[i].id == u.order[i];
      if i == k { assert u.journal[i].role != ControlRole; }
    }
  }

  lemma AppendData(u: Quic, id: nat, bytes: Bytes, packets: nat)
    requires DataOk(u) && id in u.streams && !u.streams[id].finished
    ensures DataOk(Append(u, id, bytes, packets))
  {
    var s, w := u.streams[id], u.wires[id];
    assert w.accepted + bytes == w.accepted + bytes;
    if w.dropped == 0 { assert w.written + s.outgoing + bytes == w.written + (s.outgoing + bytes); }
  }

  lemma NoteAppend(u: Quic, id: nat, bytes: Bytes, packets: nat)
    requires QuicInv(u) && id in u.streams && !u.streams[id].finished
    ensures QuicInv(Note(Append(u, id, bytes, packets), id, bytes, packets))
  {
    AppendData(u, id, bytes, packets);
    var v := Append(u, id, bytes, packets).(journal := JournalBytes(u.journal, id, bytes, packets));
    JournalBytesRoles(u.journal, id, bytes, packets, DefaultPub);
    JournalBytesRoles(u.journal, id, bytes, packets, DefaultSub);
    if u.status == Attempted { NotedEntries(u, v, id, bytes, packets); }
  }

  lemma EnqueueKeeps(u: Quic, id: nat, bytes: Bytes, room: bool, limit: nat)
    requires QuicInv(u)
    ensures QuicInv(EnqueueOnStream(u, id, bytes, room, limit).0)
  {
    if id in u.streams && !u.streams[id].finished { NoteAppend(u, id, bytes, 1); }
  }

  lemma ControlNoted(u: Quic, v: Quic, bytes: Bytes, packets: nat)
    requires u.status == Attempted && EarlyOk(u) && u.ctl.id.Some? && bytes != []
    requires v == u.(ctl := u.ctl.(out := u.ctl.out + bytes), ctlWire := Grow(u.ctlWire, bytes), layerOut := v.layerOut,
        offered := v.offered,
                     journal := JournalBytes(u.journal, u.ctl.id.value, bytes, packets))
    ensures EarlyOk(v)
  {
    assert u.phase != Gone && u.journal != [];
    assert EntryOk(u, u.journal[0]);
    FindEntry(u, 0);
    forall i | 0 <= i < |v.journal|
      ensures v.journal[i].id == v.order[i] && EntryOk(v, v.journal[i])
          && (v.journal[i].role == ControlRole <==> i == 0)
    {
      assert EntryOk(u, u.journal[i]) && u.journal[i].id == u.order[i];
    }
  }

  /** Moving bytes into the control buffer, from the MQTT layer or from the application. */
  lemma AppendControlKeeps(u: Quic, v: Quic, bytes: Bytes)
    requires QuicInv(u) && !u.ctl.finished && (u.ctl.id.Some? || u.status != Attempted)
    requires v == u.(layerOut := v.layerOut, offered := v.offered)
    requires v.offered == |u.ctlWire.written| + |u.ctl.out| + |bytes| + |v.layerOut| + u.ctlWire.dropped
    requires u.ctl.finishing ==> v.layerOut == []
    ensures QuicInv(AppendControl(v, bytes, 0))
  {
    if bytes != [] {
      var r := AppendControl(v, bytes, 0);
      var w := u.ctlWire;
      if w.dropped == 0 { assert w.written + u.ctl.out + bytes == w.written + (u.ctl.out + bytes); }
      if u.ctl.id.Some? {
        var id := u.ctl.id.value;
        JournalBytesRoles(u.journal, id, bytes, 0, DefaultPub);
        JournalBytesRoles(u.journal, id, bytes, 0, DefaultSub);
        if u.status == Attempted { ControlNoted(u, r, bytes, 0); }
      }
    } else {
      assert AppendControl(v, bytes, 0) == v;
    }
  }

  lemma RawControlKeeps(u: Quic, bytes: Bytes)
    requires QuicInv(u) && u.ctl.id.Some? && !u.ctl.finishing && !u.ctl.finished
    ensures QuicInv(AppendControl(u.(offered := u.offered + |bytes|), bytes, 0))
  {
    AppendControlKeeps(u, u.(offered := u.offered + |bytes|), bytes);
  }

  /** Which of its three outcomes a raw write has. */
  lemma SendRawCases(u: Quic, id: nat, bytes: Bytes)
    requires DataOk(u)
    ensures
      var v := SendRaw(u, id, bytes).0;
      || v == u
      || (u.ctl.id == Some(id) && !u.ctl.finishing && !u.ctl.finished
        && v == AppendControl(u.(offered := u.offered + |bytes|), bytes, 0))
      || (id in u.streams && !u.streams[id].finished && v == Note(Append(u, id, bytes, 0), id, bytes, 0))
  {
  }

  lemma SendRawKeeps(u: Quic, id: nat, bytes: Bytes)
    requires QuicInv(u)
    ensures QuicInv(SendRaw(u, id, bytes).0)
  {
    SendRawCases(u, id, bytes);
    if u.ctl.id == Some(id) && !u.ctl.finishing && !u.ctl.finished { RawControlKeeps(u, bytes); }
    if id in u.streams && !u.streams[id].finished { NoteAppend(u, id, bytes, 0); }
  }

  lemma RespondKeeps(u: Quic, id: nat, bytes: Bytes, limit: nat)
    requires QuicInv(u)
    ensures QuicInv(Respond(u, id, bytes, limit))
  {
    if id in u.streams && !u.streams[id].finished { AppendData(u, id, bytes, 1); }
  }

  // ----- Opening streams -----

  /** QUIC never hands out an identifier twice on a connection. */
  ghost predicate Unused(u: Quic, id: Option<nat>) {
    id.Some? ==> id.value !in u.used
  }

  lemma RegisterData(u: Quic, id: nat, s: Stream)
    requires DataOk(u) && id !in u.used && s.outgoing == []
    ensures DataOk(Register(u, id, s))
  {
  }

  lemma {:induction false} LastOfAppend(js: seq<Journal>, j: Journal, role: Role)
    ensures LastOf(js + [j], role) == if j.role == role then Some(j.id) else LastOf(js, role)
  {
    assert (js + [j])[..|js|] == js;
  }

  lemma OpenEarly(u: Quic, role: Role, id: nat)
    requires QuicInv(u) && u.status == Attempted && u.phase != Gone && id !in u.used && role != ControlRole
    ensures EarlyOk(OpenStream(u, role, Some(id)).0)
  {
    var v := OpenStream(u, role, Some(id)).0;
    var n := |u.journal|;
    forall i | 0 <= i < n
      ensures v.journal[i].id == v.order[i] && EntryOk(v, v.journal[i]) && v.journal[i].id != id
          && (v.journal[i].role == ControlRole <==> i == 0)
    {
      assert u.journal[i].id == u.order[i] && EntryOk(u, u.journal[i]);
    }
    assert v.journal[n] == Journal(id, role, PriorityOf(role), [], 0) && v.order[n] == id;
    assert EntryOk(v, v.journal[n]);
  }

  /** A freshly opened stream: everything but the default bindings. */
  lemma OpenParts(u: Quic, role: Role, id: nat)
    requires QuicInv(u) && id !in u.used && role != ControlRole && u.phase != Gone
        && (u.layer == Up || u.status == Attempted)
    ensures
      var v := OpenStream(u, role, Some(id)).0;
      && DataOk(v) && ControlOk(v) && ClosesOk(v) && EarlyOk(v) && v.status == u.status
      && id in v.streams && (forall k :: k in v.streams <==> k in u.streams || k == id) && v.pub == u.pub
        && v.sub == u.sub
  {
    RegisterData(u, id, NewStream(role));
    if u.status == Attempted { OpenEarly(u, role, id); }
  }

  lemma OpenLast(u: Quic, role: Role, id: nat, r: Role)
    requires QuicInv(u) && id !in u.used && u.phase != Gone && u.status == Attempted
    ensures
      LastOf(OpenStream(u, role, Some(id)).0.journal, r) == if role == r then Some(id) else LastOf(u.journal, r)
  {
    LastOfAppend(u.journal, Journal(id, role, PriorityOf(role), [], 0), r);
  }

  /** A binding to another stream is not disturbed. */
  lemma OpenBound(u: Quic, role: Role, id: nat, bound: Option<nat>, r: Role)
    requires QuicInv(u) && id !in u.used && role != ControlRole && role != r && u.phase != Gone
        && (u.layer == Up || u.status == Attempted)
    requires BoundOk(u, bound, r)
    ensures BoundOk(OpenStream(u, role, Some(id)).0, bound, r)
  {
    OpenParts(u, role, id);
    if u.status == Attempted { OpenLast(u, role, id, r); }
  }

  lemma OpenKeeps(u: Quic, role: Role, id: Option<nat>)
    requires QuicInv(u) && Unused(u, id) && (role.PriorityPub? || role == ExplicitData)
    ensures QuicInv(OpenStream(u, role, id).0)
  {
    if OpenStream(u, role, id).1.Ok? {
      OpenParts(u, role, id.value);
      OpenBound(u, role, id.value, u.pub, DefaultPub);
      OpenBound(u, role, id.value, u.sub, DefaultSub);
    }
  }

  lemma EnsurePubKeeps(u: Quic, id: Option<nat>)
    requires QuicInv(u) && Unused(u, id)
    ensures
      var (v, r) := EnsurePub(u, id);
      QuicInv(v) && (r.Ok? ==> v.pub == Some(r.value) && r.value in v.streams)
  {
    if u.pub.None? && OpenStream(u, DefaultPub, id).1.Ok? {
      OpenParts(u, DefaultPub, id.value);
      OpenBound(u, DefaultPub, id.value, u.sub, DefaultSub);
      if u.status == Attempted { OpenLast(u, DefaultPub, id.value, DefaultPub); }
      BindPub(OpenStream(u, DefaultPub, id).0, id.value);
    }
  }

  lemma BindPub(v: Quic, id: nat)
    requires DataOk(v) && ControlOk(v) && ClosesOk(v) && EarlyOk(v) && BoundOk(v, v.sub, DefaultSub)
    requires id in v.streams && (v.status == Attempted ==> LastOf(v.journal, DefaultPub) == Some(id))
    ensures QuicInv(v.(pub := Some(id)))
  {
    var r := v.(pub := Some(id));
    if v.status == Attempted {
      forall i | 0 <= i < |v.journal| ensures EntryOk(r, v.journal[i]) { assert EntryOk(v, v.journal[i]); }
    }
  }

  lemma EnsureSubKeeps(u: Quic, id: Option<nat>)
    requires QuicInv(u) && Unused(u, id)
    ensures
      var (v, r) := EnsureSub(u, id);
      QuicInv(v) && (r.Ok? ==> v.sub == Some(r.value) && r.value in v.streams)
  {
    if u.sub.None? && OpenStream(u, DefaultSub, id).1.Ok? {
      OpenParts(u, DefaultSub, id.value);
      OpenBound(u, DefaultSub, id.value, u.pub, DefaultPub);
      if u.status == Attempted { OpenLast(u, DefaultSub, id.value, DefaultSub); }
      BindSub(OpenStream(u, DefaultSub, id).0, id.value);
    }
  }

  lemma BindSub(v: Quic, id: nat)
    requires DataOk(v) && ControlOk(v) && ClosesOk(v) && EarlyOk(v) && BoundOk(v, v.pub, DefaultPub)
    requires id in v.streams && (v.status == Attempted ==> LastOf(v.journal, DefaultSub) == Some(id))
    ensures QuicInv(v.(sub := Some(id)))
  {
    var r := v.(sub := Some(id));
    if v.status == Attempted {
      forall i | 0 <= i < |v.journal| ensures EntryOk(r, v.journal[i]) { assert EntryOk(v, v.journal[i]); }
    }
  }

  /** Nothing arrives from the peer before the handshake is complete. */
  lemma PeerOpensKeeps(u: Quic, id: nat)
    requires QuicInv(u) && u.phase == Established && (id in u.streams || id !in u.used)
    ensures QuicInv(PeerOpens(u, id))
  {
    if id !in u.streams { RegisterData(u, id, NewStream(ExplicitData)); }
  }

  lemma PriorityEarly(u: Quic, v: Quic, id: nat, priority: nat)
    requires u.status == Attempted && EarlyOk(u) && id in u.streams && (u.ctl.id.Some? ==> u.ctl.id.value != id)
    requires v == SetPriority(u, id, priority).0
    ensures EarlyOk(v)
  {
    forall i | 0 <= i < |v.journal|
      ensures v.journal[i].id == v.order[i] && EntryOk(v, v.journal[i])
          && (v.journal[i].role == ControlRole <==> i == 0)
    {
      FindEntry(u, i);
      assert EntryOk(u, u.journal[i]) && u.journal[i].id == u.order[i];
    }
  }

  lemma SetPriorityKeeps(u: Quic, id: nat, priority: nat)
    requires QuicInv(u)
    ensures QuicInv(SetPriority(u, id, priority).0)
  {
    var v := SetPriority(u, id, priority).0;
    if v != u && u.status == Attempted {
      PriorityEarly(u, v, id, priority);
      LastOfSame(v.journal, u.journal, DefaultPub);
      LastOfSame(v.journal, u.journal, DefaultSub);
    }
  }

  // ----- Ending streams -----

  /** What the journal says does not depend on the layer, on flags or on what was written. */
  lemma SameEarly(u: Quic, v: Quic)
    requires EarlyOk(u) && v.status == u.status && v.journal == u.journal && v.order == u.order && v.phase == u.phase
    requires v.layer == u.layer || v.layer == Down
    requires v.wires.Keys == u.wires.Keys && (forall id :: id in u.wires ==>
        v.wires[id].accepted == u.wires[id].accepted)
    requires v.streams.Keys <= u.streams.Keys
    requires forall id :: id in v.streams ==>
               && v.streams[id].priority == u.streams[id].priority
               && v.streams[id].publishPriority == u.streams[id].publishPriority
    requires v.ctlWire.accepted == u.ctlWire.accepted && v.used == u.used
        && (v.ctl.id == u.ctl.id || (v.ctl.id.None? && v.ctl.finished))
    requires u.ctl.finished ==> v.ctl.finished
    ensures EarlyOk(v)
  {
    if u.status == Attempted {
      forall i | 0 <= i < |u.journal| ensures EntryOk(v, u.journal[i]) { assert EntryOk(u, u.journal[i]); }
    }
  }

  lemma LayerLostKeeps(u: Quic)
    requires QuicInv(u)
    ensures QuicInv(LayerLost(u))
  {
    SameEarly(u, LayerLost(u));
    if u.ctlWire.dropped + |u.layerOut| == 0 { assert u.layerOut == []; }
  }

  lemma FinishKeeps(u: Quic, id: nat)
    requires QuicInv(u)
    ensures QuicInv(FinishStream(u, id).0)
  {
    if u.phase == Gone {
    } else if u.ctl.id == Some(id) {
      FinishControlKeeps(u);
    } else if id in u.streams {
      SameEarly(u, FinishStream(u, id).0);
    }
  }

  lemma FinishControlKeeps(u: Quic)
    requires QuicInv(u) && u.ctl.id.Some?
    ensures
      var v := LayerLost(AppendControl(u.(layerOut := []), u.layerOut, 0));
      QuicInv(v.(ctl := v.ctl.(finishing := true)))
  {
    var u0 := u.(layerOut := []);
    var u1 := AppendControl(u0, u.layerOut, 0);
    if u.ctl.finished {
      assert u0 == u && u1 == u;
    } else {
      AppendControlKeeps(u, u0, u.layerOut);
    }
    LayerLostKeeps(u1);
    var u2 := LayerLost(u1);
    SameEarly(u2, u2.(ctl := u2.ctl.(finishing := true)));
  }

  lemma DropControlKeeps(u: Quic)
    requires QuicInv(u) && u.ctl.id.Some?
    ensures QuicInv(DropControl(u)) && QuicInv(DropControl(u).(ctl := DropControl(u).ctl.(id := None)))
  {
    var v := DropControl(u);
    SameEarly(u, v);
    SameEarly(u, v.(ctl := v.ctl.(id := None)));
    if v.ctlWire.dropped == 0 { assert u.ctl.out == [] && u.layerOut == []; }
  }

  lemma ResetStreamKeeps(u: Quic, id: nat)
    requires QuicInv(u)
    ensures QuicInv(ResetStream(u, id).0)
  {
    if u.ctl.id == Some(id) {
      DropControlKeeps(u);
    } else if id in u.streams {
      SameEarly(u, ResetStream(u, id).0);
    }
  }

  lemma PeerEndsKeeps(u: Quic, id: nat)
    requires QuicInv(u) && u.phase == Established
    ensures QuicInv(PeerEnds(u, id))
  {
    if u.ctl.id == Some(id) {
      DropControlKeeps(u);
    } else if id in u.streams {
      SameEarly(u, PeerEnds(u, id));
    }
  }

  // ----- Flushing -----

  lemma PullKeeps(u: Quic)
    requires QuicInv(u) && u.phase != Gone
    ensures QuicInv(Pull(u)) && Pull(u).layerOut == []
  {
    if !u.ctl.finishing && !u.ctl.finished {
      if u.status == Attempted { assert EntryOk(u, u.journal[0]); }
      AppendControlKeeps(u, u.(layerOut := []), u.layerOut);
    }
  }

  lemma FlushSide(buffer: Bytes, finished: bool, w: Wire, n: nat)
    requires SideOk(buffer, finished, w)
    ensures
      var k := Taken(n, buffer);
      SideOk(buffer[k..], finished, Written(w, buffer[..k]))
  {
    var k := Taken(n, buffer);
    assert buffer == buffer[..k] + buffer[k..];
    if w.dropped == 0 { assert w.written + (buffer[..k] + buffer[k..]) == w.written + buffer[..k] + buffer[k..]; }
  }

  lemma FlushStreamKeeps(s: Stream, w: Wire, n: nat)
    requires SideOk(s.outgoing, s.finished, w)
    ensures SideOk(FlushedStream(s, n).outgoing, FlushedStream(s, n).finished, FlushedWire(s, w, n))
    ensures FlushedWire(s, w, n).accepted == w.accepted
  {
    FlushSide(s.outgoing, s.finished, w, n);
  }

  lemma FlushDataOk(u: Quic, takes: map<nat, nat>)
    requires DataOk(u)
    ensures DataOk(FlushData(u, takes))
    ensures forall id :: id in u.wires ==> FlushData(u, takes).wires[id].accepted == u.wires[id].accepted
  {
    var v := FlushData(u, takes);
    forall id | id in u.streams
      ensures SideOk(v.streams[id].outgoing, v.streams[id].finished, v.wires[id])
          && v.wires[id].accepted == u.wires[id].accepted
    {
      FlushStreamKeeps(u.streams[id], u.wires[id], if id in takes then takes[id] else 0);
    }
  }

  lemma FlushDataKeeps(u: Quic, takes: map<nat, nat>)
    requires QuicInv(u)
    ensures QuicInv(FlushData(u, takes))
  {
    FlushDataOk(u, takes);
    SameEarly(u, FlushData(u, takes));
  }

  lemma FlushControlKeeps(u: Quic, n: nat)
    requires QuicInv(u)
    ensures QuicInv(FlushControl(u, n)) && FlushControl(u, n).layerOut == u.layerOut
  {
    if u.ctl.id.Some? {
      var k := if u.ctl.finished then 0 else Taken(n, u.ctl.out);
      var w := u.ctlWire;
      assert u.ctl.out == u.ctl.out[..k] + u.ctl.out[k..];
      if w.dropped == 0 {
        assert w.written + (u.ctl.out[..k] + u.ctl.out[k..]) == w.written + u.ctl.out[..k] + u.ctl.out[k..];
      }
      SameEarly(u, FlushControl(u, n));
    }
  }

  lemma CloseKeeps(u: Quic)
    requires QuicInv(u) && u.layerOut == []
    ensures QuicInv(CloseIfDrained(u))
  {
    if u.pendingClose && u.ctl.out == [] {
      var k := Closing(|u.ctlWire.written| == u.offered, u.ctlWire.dropped);
      var v := u.(pendingClose := false, closes := u.closes + [k]);
      SameEarly(u, v);
      assert QuicInv(v);
      LayerLostKeeps(v);
    }
  }

  lemma TickKeeps(u: Quic, n: nat, takes: map<nat, nat>)
    requires QuicInv(u)
    ensures QuicInv(Tick(u, n, takes))
  {
    if u.phase != Gone {
      PullKeeps(u);
      FlushControlKeeps(Pull(u), n);
      FlushDataKeeps(FlushControl(Pull(u), n), takes);
      CloseKeeps(FlushData(FlushControl(Pull(u), n), takes));
    }
  }

  // ----- Connections -----

  lemma EmitKeeps(u: Quic, bytes: Bytes)
    requires QuicInv(u) && u.layer != Down
    ensures QuicInv(Emit(u, bytes))
  {
    SameEarly(u, Emit(u, bytes));
  }

  lemma LayerDownKeeps(u: Quic, pending: bool)
    requires QuicInv(u)
    ensures QuicInv(u.(layer := Down, pendingClose := pending))
  {
    SameEarly(u, u.(layer := Down, pendingClose := pending));
  }

  lemma DisconnectKeeps(u: Quic, bytes: Bytes)
    requires QuicInv(u)
    ensures QuicInv(DisconnectAndClose(u, bytes).0)
  {
    if u.phase != Gone {
      var u1 := if u.layer == Up then Emit(u, bytes) else u;
      if u.layer == Up { EmitKeeps(u, bytes); }
      LayerDownKeeps(u1, true);
    }
  }

  /** CONNACK arrived. Nothing arrives before the handshake of QUIC is complete. */
  lemma ConnAckKeeps(u: Quic)
    requires QuicInv(u) && u.status != Attempted && u.layer == Connecting
    ensures QuicInv(u.(layer := Up))
  {
  }

  lemma EstablishKeeps(u: Quic, early: Option<nat>, connect: Bytes)
    requires ClosesOk(u)
    ensures QuicInv(Establish(u, early, connect))
  {
    if early.Some? && connect != [] {
      var v := Establish(u, early, connect);
      var js := JournalOpen([], early.value, ControlRole);
      assert js[1..] == [];
      assert js[..0] == [];
      assert v.journal == [Journal(early.value, ControlRole, DEFAULT_PRIORITY, [] + connect, 1)];
      assert v.journal[..0] == [];
      assert EntryOk(v, v.journal[0]);
    } else if early.Some? {
      var v := Establish(u, early, connect);
      assert v.journal[..0] == [];
      assert EntryOk(v, v.journal[0]);
    }
  }

  lemma GoneKeeps(u: Quic)
    requires ClosesOk(u)
    ensures QuicInv(ConnectionGone(u))
  {
  }

  // ----- Replaying rejected early data -----

  /** The state of a connection while replay runs: only untouched, unwritten streams. */
  ghost predicate Replaying(u: Quic) {
    && QuicInv(u) && u.status == Rejected && u.phase == Established && !u.ctl.finishing && !u.ctl.finished
  }

  lemma ReplayOneKeeps(u: Quic, j: Journal, id: nat)
    requires Replaying(u) && id !in u.used && (j.role == ControlRole ==> u.ctl.id.None?)
    ensures Replaying(ReplayOne(u, j, id))
  {
    if j.role == ControlRole && u.ctlWire.dropped == 0 {
      assert u.ctlWire.written + u.ctl.out + j.bytes == u.ctlWire.written + (u.ctl.out + j.bytes);
    }
  }

  ghost predicate FreshIds(u: Quic, ids: seq<nat>) {
    NoDup(ids) && forall id :: id in ids ==> id !in u.used
  }

  ghost predicate OneControl(u: Quic, js: seq<Journal>) {
    && (forall i :: 1 <= i < |js| ==> js[i].role != ControlRole)
    && (u.ctl.id.Some? && js != [] ==> js[0].role != ControlRole)
  }

  lemma {:induction false} ReplayAllKeeps(u: Quic, js: seq<Journal>, ids: seq<nat>)
    requires Replaying(u) && FreshIds(u, ids) && OneControl(u, js)
    ensures Replaying(ReplayAll(u, js, ids))
    decreases js
  {
    if js == [] || ids == [] {
    } else {
      ReplayOneKeeps(u, js[0], ids[0]);
      var v := ReplayOne(u, js[0], ids[0]);
      forall id | id in ids[1..] ensures id !in v.used { assert id in ids && id != ids[0]; }
      ReplayAllKeeps(v, js[1..], ids[1..]);
    }
  }

  lemma RejectedIsClean(u: Quic)
    requires QuicInv(u)
    ensures Replaying(Cleared(u).(phase := Established, status := Rejected))
  {
  }

  lemma HandshakeKeeps(u: Quic, accepted: bool, replay: bool, ids: seq<nat>, connect: Bytes)
    requires QuicInv(u) && u.phase == Handshaking
    requires if u.status == Attempted then NoDup(ids) else FreshIds(u, ids)
    ensures QuicInv(Handshake(u, accepted, replay, ids, connect))
  {
    if u.status == Attempted && !accepted {
      RejectedIsClean(u);
      if replay { ReplayAllKeeps(Cleared(u).(phase := Established, status := Rejected), u.journal, ids); }
    } else if u.status != Attempted && ids != [] {
      assert ids[0] in ids;
    }
  }
}
