/**
 The stream object of `src/http3/stream.rs`: its poll methods update the fields in place, and each
 is equal to the corresponding transition of `Http3Write`, where the properties are proved.
 */
module Http3StreamObject {
  import opened W = Http3Write
  import opened Bytes

  /** What one call to `poll_recv_data` returns. */
  datatype Arrival = Bytes(bytes: seq<Byte>) | EndOfData | DataFault | DataPending

  /** What one call to `poll_recv_trailers` returns. */
  datatype Trailer = NoTrailers | SomeTrailers | TrailerFault | TrailerPending

  datatype ReadReply = ReadOk | ReadPending | ReadBroken | ReadInvalid

  /** The payload of the first `n` arrivals. */
  ghost function Payload(data: seq<Arrival>, n: nat): seq<Byte>
    requires n <= |data|
  {
    if n == 0 then []
    else Payload(data, n - 1) + if data[n - 1].Bytes? then data[n - 1].bytes else []
  }

  const MAX_READ_TURNS: nat := 32

  /** The fields a read depends on. */
  datatype Reader = Reader(buffered: seq<Byte>, trailers: bool, eof: bool, stopped: bool)

  /** Why a read that brought nothing failed or must wait, `used` arrivals into the call. */
  ghost predicate Explains(r: Reader, reply: ReadReply, data: seq<Arrival>, trailer: Trailer, used: nat) {
    match reply
    case ReadOk => true
    case ReadBroken =>
      || r.stopped || (r.trailers && trailer.TrailerFault?) || (!r.trailers && used < |data| && data[used].DataFault?)
    case ReadInvalid => r.trailers && trailer.SomeTrailers?
    case ReadPending =>
      || used == 32
      || (r.trailers && trailer.TrailerPending?)
      || (!r.trailers && (used >= |data| || data[used].DataPending?))
  }

  /** No byte is lost, duplicated or reordered. */
  ghost predicate Conserves(r: Reader, data: seq<Arrival>, out: seq<Byte>, used: nat, after: Reader) {
    used <= |data| && r.buffered + Payload(data, used) == out + after.buffered
  }

  /** End of file is reported once the data ended, no trailers came and the buffer was drained, and then for good. */
  ghost predicate EndsRightly(
    r: Reader, data: seq<Arrival>, trailer: Trailer, reply: ReadReply, out: seq<Byte>, used: nat, after: Reader)
  {
    && used <= |data|
    && (after.eof && !r.eof ==>
          after.trailers && trailer.NoTrailers? && after.buffered == [] && out == [] && reply.ReadOk?)
    && (r.trailers ==> after.trailers && used == 0)
    && (after.trailers && !r.trailers ==> used > 0 && data[used - 1].EndOfData?)
    && (r.eof ==> after.eof && used == 0 && out == [])
  }

  /** What is buffered is handed out at once, and a read that hands out nothing has its reason. */
  ghost predicate Prompt(
    r: Reader, capacity: nat, data: seq<Arrival>, trailer: Trailer,
    reply: ReadReply, out: seq<Byte>, used: nat, after: Reader)
  {
    && used <= 32 && |out| <= capacity && after.stopped == r.stopped
    && (reply.ReadOk? && out == [] && capacity > 0 ==> after.eof)
    && (!reply.ReadOk? ==> out == [])
    && (r.stopped && capacity > 0 ==> reply.ReadBroken? && used == 0)
    && (capacity > 0 && !r.stopped && !r.eof && r.buffered != [] ==>
          reply.ReadOk? && used == 0 && |out| == if capacity < |r.buffered| then capacity else |r.buffered|)
    && Explains(after, reply, data, trailer, used)
  }

  class Http3Stream {
    var buffered: seq<Byte>
    var trailers: bool
    var eof: bool
    var stopped: bool
    var reservation: Reservation
    var acknowledgment: Ack
    var finishing: bool
    var finished: bool
    var queue: seq<Command>
    var writer: Writer
    var wire: seq<Byte>
    var fins: nat
    ghost var accepted: seq<Byte>

    ghost function Value(): Adapter
      reads this
    {
      Adapter(stopped, reservation, acknowledgment, finishing, finished, queue, writer, wire, fins, accepted)
    }

    constructor ()
      ensures Value() == FRESH && buffered == [] && !trailers && !eof
    {
      stopped, reservation, acknowledgment, finishing, finished := false, NoReservation, NoAck, false, false;
      queue, writer, wire, fins, accepted := [], Idle, [], 0, [];
      buffered, trailers, eof := [], false, false;
    }

    method Reserve() returns (permit: Permit)
      modifies `reservation
      ensures (Value(), permit) == W.Reserve(old(Value()))
    {
      if stopped {
        return Refused;
      }
      if reservation.NoReservation? {
        reservation := if writer.Ended? || queue != [] then InLine else Granted;
      }
      if reservation.Granted? {
        reservation := NoReservation;
        return Permitted;
      }
      if writer.Ended? {
        reservation := NoReservation;
        return Refused;
      }
      return NotYet;
    }

    method Post(c: Command)
      modifies `queue, `acknowledgment, `finishing, `accepted
      ensures Value() == W.Post(old(Value()), c)
    {
      if !writer.Ended? {
        queue := queue + [c];
      }
      match c
      case Data(bytes) => accepted := accepted + bytes;
      case _ =>
        finishing := finishing || c.Finish?;
        acknowledgment := if writer.Ended? then Lost else Outstanding;
    }

    method PollAck(finish: bool) returns (reply: Reply)
      modifies `reservation, `acknowledgment, `finishing, `finished, `queue, `accepted
      ensures (Value(), reply) == W.PollAck(old(Value()), finish)
      decreases if acknowledgment.NoAck? then 0 else 1
    {
      if stopped {
        return Broken;
      }
      if finished {
        return Complete;
      }
      if acknowledgment.NoAck? {
        var permit := Reserve();
        if !permit.Permitted? {
          return if permit.NotYet? then Pending else Broken;
        }
        Post(if finish then Finish else Flush);
      }
      if acknowledgment.Outstanding? {
        return Pending;
      }
      var delivered := acknowledgment.Delivered?;
      acknowledgment := NoAck;
      if !delivered {
        return Broken;
      }
      if finishing {
        finished := true;
      }
      if finish && !finished {
        reply := PollAck(true);
        return;
      }
      return Complete;
    }

    method PollWrite(bytes: seq<Byte>) returns (reply: Reply)
      modifies `reservation, `acknowledgment, `finishing, `finished, `queue, `accepted
      ensures (Value(), reply) == W.PollWrite(old(Value()), bytes)
    {
      if finishing || finished {
        return Closed;
      }
      if !acknowledgment.NoAck? {
        var acked := PollAck(false);
        if !acked.Complete? {
          return acked;
        }
      }
      if bytes == [] {
        return Wrote(0);
      }
      var permit := Reserve();
      if !permit.Permitted? {
        return if permit.NotYet? then Pending else Broken;
      }
      Post(Data(Chunk(bytes)));
      return Wrote(|Chunk(bytes)|);
    }

    /** With all data read, only the absence of trailers is an end of file. */
    method EndOfStream(trailer: Trailer) returns (reply: ReadReply)
      modifies `eof
      ensures eof == (old(eof) || trailer.NoTrailers?)
      ensures reply == match trailer
                       case TrailerPending => ReadPending
                       case TrailerFault => ReadBroken
                       case SomeTrailers => ReadInvalid
                       case NoTrailers => ReadOk
    {
      match trailer
      case TrailerPending => return ReadPending;
      case TrailerFault => return ReadBroken;
      case SomeTrailers => return ReadInvalid;
      case NoTrailers =>
        eof := true;
        return ReadOk;
    }

    ghost function ReadSide(): Reader
      reads this
    {
      Reader(buffered, trailers, eof, stopped)
    }

    /** What one read does; what that means over many of them is proved below. */
    method PollRead(capacity: nat, data: seq<Arrival>, trailer: Trailer)
      returns (reply: ReadReply, out: seq<Byte>, ghost used: nat)
      modifies `buffered, `trailers, `eof
      ensures Conserves(old(ReadSide()), data, out, used, ReadSide())
      ensures EndsRightly(old(ReadSide()), data, trailer, reply, out, used, ReadSide())
      ensures Prompt(old(ReadSide()), capacity, data, trailer, reply, out, used, ReadSide())
    {
      out, used := [], 0;
      if capacity == 0 {
        return ReadOk, out, used;
      }
      if stopped {
        return ReadBroken, out, used;
      }
      if eof {
        return ReadOk, out, used;
      }
      for turn := 0 to MAX_READ_TURNS
        invariant out == [] && used == turn <= |data|
        invariant used > 0 ==> old(buffered) == []
        invariant old(buffered) + Payload(data, used) == buffered
        invariant eof == old(eof) == false
        invariant old(trailers) ==> trailers && used == 0
        invariant trailers && !old(trailers) ==> used > 0 && data[used - 1].EndOfData?
      {
        if buffered != [] {
          var count := if capacity < |buffered| then capacity else |buffered|;
          out, buffered := buffered[..count], buffered[count..];
          return ReadOk, out, used;
        }
        if trailers {
          reply := EndOfStream(trailer);
          return;
        }
        if turn >= |data| || data[turn].DataPending? {
          return ReadPending, out, used;
        }
        if data[turn].DataFault? {
          return ReadBroken, out, used;
        }
        used := turn + 1;
        match data[turn]
        case Bytes(bytes) => buffered := bytes;
        case EndOfData => trailers := true;
      }
      return ReadPending, out, used;
    }
  }

  // ---- Every sequence of reads ----

  /** A read, the session's stop flag as it found it, and how it left the reader. */
  datatype Call = Call(
    stopped: bool, capacity: nat, data: seq<Arrival>, trailer: Trailer,
    reply: ReadReply, out: seq<Byte>, used: nat, after: Reader)

  ghost predicate ReadBy(r: Reader, c: Call) {
    && Conserves(r, c.data, c.out, c.used, c.after)
    && EndsRightly(r, c.data, c.trailer, c.reply, c.out, c.used, c.after)
    && Prompt(r, c.capacity, c.data, c.trailer, c.reply, c.out, c.used, c.after)
  }

  const NEW_READER := Reader([], false, false, false)

  /** The reader as the first `n` calls leave it. */
  function AfterCalls(calls: seq<Call>, n: nat): Reader
    requires n <= |calls|
  {
    if n == 0 then NEW_READER else calls[n - 1].after
  }

  /** The first `n` calls are reads one after the other, on a new reader. */
  ghost predicate Reads(calls: seq<Call>, n: nat)
    requires n <= |calls|
  {
    n == 0 ||
    (Reads(calls, n - 1) && ReadBy(AfterCalls(calls, n - 1).(stopped := calls[n - 1].stopped), calls[n - 1]))
  }

  /** What the reader was given, and what the stream had taken from the network, over the first `n` calls. */
  ghost function Given(calls: seq<Call>, n: nat): seq<Byte>
    requires n <= |calls|
  {
    if n == 0 then [] else Given(calls, n - 1) + calls[n - 1].out
  }

  ghost function Arrived(calls: seq<Call>, n: nat): seq<Byte>
    requires n <= |calls| && Reads(calls, n)
  {
    if n == 0 then [] else Arrived(calls, n - 1) + Payload(calls[n - 1].data, calls[n - 1].used)
  }

  lemma Regroup(a: seq<Byte>, b: seq<Byte>, c: seq<Byte>)
    ensures a + (b + c) == a + b + c
  {
  }

  /**
   Over any sequence of reads, what was handed out is the beginning of what arrived, the rest being
   buffered; at end of file it is all of it.
   */
  lemma {:induction false} ReadsAreFaithful(calls: seq<Call>, n: nat)
    requires n <= |calls| && Reads(calls, n)
    ensures Arrived(calls, n) == Given(calls, n) + AfterCalls(calls, n).buffered
    ensures AfterCalls(calls, n).eof ==> AfterCalls(calls, n).trailers && Given(calls, n) == Arrived(calls, n)
    ensures AfterCalls(calls, n).eof ==> AfterCalls(calls, n).buffered == []
  {
    if n > 0 {
      ReadsAreFaithful(calls, n - 1);
      var r, c, given := AfterCalls(calls, n - 1), calls[n - 1], Given(calls, n - 1);
      var payload := Payload(c.data, c.used);
      Regroup(given, r.buffered, payload);
      Regroup(given, c.out, c.after.buffered);
      assert r.eof ==> payload == [];
    }
  }

  /** End of file is final: no later read hands out or takes in anything, and it stays end of file. */
  lemma {:induction false} EndOfFileIsFinal(calls: seq<Call>, m: nat, n: nat)
    requires m <= n <= |calls| && Reads(calls, m) && Reads(calls, n) && AfterCalls(calls, m).eof
    ensures AfterCalls(calls, n).eof && Given(calls, n) == Given(calls, m) && Arrived(calls, n) == Arrived(calls, m)
    decreases n
  {
    if m < n {
      EndOfFileIsFinal(calls, m, n - 1);
    }
  }
}
