/** Small shared vocabulary: options, bytes, and sequences without repetition. */
module Basics {

  datatype Option<+T> = None | Some(value: T) {
    function GetOr(default: T): (r: T) { if Some? then value else default }
  }

  /** The error kinds the engine tells apart. */
  datatype Error =
    | AlreadyConnected
    | InvalidState
    | InvalidConfiguration
    | InvalidPacketId
    | PacketIdExhausted
    | ProtocolViolation
    | BufferFull
    | SessionExpired
    | OperationTimeout
    | EncodingFailed
    | InternalError

  datatype Result<+T> = Ok(value: T) | Err(error: Error)

  newtype byte = b: int | 0 <= b < 256

  type Bytes = seq<byte>

  function Min(a: nat, b: nat): (r: nat) { if a <= b then a else b }

  function Max(a: nat, b: nat): (r: nat) { if a <= b then b else a }

  /** Subtraction that stops at zero. */
  function Monus(a: nat, b: nat): (r: nat) { if a <= b then 0 else a - b }

  function Elements<T>(xs: seq<T>): (r: set<T>) { set x | x in xs }

  ghost predicate NoDup<T>(xs: seq<T>) {
    forall i, j :: 0 <= i < j < |xs| ==> xs[i] != xs[j]
  }

  /** Two sequences share no element. */
  ghost predicate Apart<T>(xs: seq<T>, ys: seq<T>) {
    forall x :: x in xs ==> x !in ys
  }

  lemma NoDupAppend<T>(xs: seq<T>, ys: seq<T>)
    ensures NoDup(xs + ys) <==> NoDup(xs) && NoDup(ys) && Apart(xs, ys)
  {
    var zs := xs + ys;
    if NoDup(zs) {
      assert forall i :: 0 <= i < |xs| ==> zs[i] == xs[i];
      assert forall i :: 0 <= i < |ys| ==> zs[|xs| + i] == ys[i];
      forall x | x in xs ensures x !in ys {
        var i :| 0 <= i < |xs| && xs[i] == x;
        assert zs[i] == x;
      }
    }
    if NoDup(xs) && NoDup(ys) && Apart(xs, ys) {
      forall i, j | 0 <= i < j < |zs| ensures zs[i] != zs[j] {
        if i < |xs| <= j { assert zs[i] in xs && zs[j] in ys; }
      }
    }
  }

  lemma ElementsAppend<T>(xs: seq<T>, ys: seq<T>)
    ensures Elements(xs + ys) == Elements(xs) + Elements(ys)
  {
  }

  /** Total length of a list of byte strings. */
  function TotalLength(bs: seq<Bytes>): (n: nat) {
    if bs == [] then 0 else |bs[0]| + TotalLength(bs[1..])
  }

  lemma {:induction false} TotalLengthAppend(xs: seq<Bytes>, ys: seq<Bytes>)
    ensures TotalLength(xs + ys) == TotalLength(xs) + TotalLength(ys)
  {
    if xs == [] {
      assert xs + ys == ys;
    } else {
      assert (xs + ys)[1..] == xs[1..] + ys;
      TotalLengthAppend(xs[1..], ys);
    }
  }
}

/** Caller-supplied monotonic time: nanoseconds in an unsigned 64-bit word. */
module Timestamps {
  import opened Basics

  type Time = nat

  type Duration = nat

  const LIMIT: nat := 0x1_0000_0000_0000_0000

  const NANOS_PER_MILLI: nat := 1_000_000

  function CheckedAdd(t: Time, d: Duration): (r: Option<Time>)
    ensures r.Some? ==> t <= r.value < LIMIT
  {
    if t + d < LIMIT then Some(t + d) else None
  }

  function CheckedSince(t: Time, earlier: Time): (r: Option<Duration>) {
    if earlier <= t then Some(t - earlier) else None
  }

  function SaturatingSince(t: Time, earlier: Time): (r: Duration) {
    Monus(t, earlier)
  }

  function FromMillis(ms: nat): (r: Option<Time>) {
    if ms * NANOS_PER_MILLI < LIMIT then Some(ms * NANOS_PER_MILLI) else None
  }

  function AsMillis(t: Time): (r: nat) { t / NANOS_PER_MILLI }

  function AsMillisCeil(t: Time): (r: nat) {
    t / NANOS_PER_MILLI + if t % NANOS_PER_MILLI != 0 then 1 else 0
  }

  /** Comparing an elapsed time with a timeout agrees with comparing the clock with the deadline,
      except for a start in the future with a zero timeout: saturation then reports it as elapsed. */
  lemma ElapsedIsDeadline(now: Time, start: Time, timeout: Duration)
    requires CheckedAdd(start, timeout).Some?
    ensures (SaturatingSince(now, start) >= timeout <==> CheckedAdd(start, timeout).value <= now)
            <==> (start <= now || timeout != 0)
  {
  }

  /** A deadline rounded up to milliseconds is never early, and is the least such millisecond. */
  lemma CeilingIsLeast(t: Time, ms: nat)
    ensures AsMillisCeil(t) * NANOS_PER_MILLI >= t
    ensures ms * NANOS_PER_MILLI >= t ==> ms >= AsMillisCeil(t)
  {
    assert t == NANOS_PER_MILLI * (t / NANOS_PER_MILLI) + t % NANOS_PER_MILLI;
  }

  /** Whole milliseconds survive the trip through nanoseconds. */
  lemma MillisRoundTrip(ms: nat)
    ensures FromMillis(ms).Some? ==> AsMillis(FromMillis(ms).value) == ms && AsMillisCeil(FromMillis(ms).value) == ms
  {
  }

  /** Adding and then measuring gives the duration back. */
  lemma SinceUndoesAdd(t: Time, d: Duration)
    ensures CheckedAdd(t, d).Some? ==> CheckedSince(CheckedAdd(t, d).value, t) == Some(d)
  {
  }
}
