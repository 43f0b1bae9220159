/**
 The HTTP/3 write adapter (`src/http3/stream.rs`): a poll-style writer in front of a task that
 drains a one-element command queue onto the send half of a QUIC stream.

 `accepted` is the concatenation of everything `poll_write` said it took; `wire` is what the send
 half was given; `fins` counts the FINs. The channel follows tokio's contract: one element of
 capacity, a reservation that waits in line is granted when the writer takes an element, a closed
 channel refuses new reservations but not one already granted, and a dropped acknowledgment
 sender is seen by its receiver.
 */
module Http3Write {
  import opened Bytes

  const WRITE_CHUNK: nat := 65536

  datatype Command = Data(bytes: seq<Byte>) | Flush | Finish

  datatype Reservation = NoReservation | InLine | Granted

  datatype Ack = NoAck | Outstanding | Delivered | Lost

  datatype Writer = Idle | Sending(rest: seq<Byte>) | Finishing | Ended

  datatype Adapter = Adapter(
    stopped: bool,
    reservation: Reservation,
    ack: Ack,
    finishing: bool,
    finished: bool,
    queue: seq<Command>,
    writer: Writer,
    wire: seq<Byte>,
    fins: nat,
    accepted: seq<Byte>)

  const FRESH := Adapter(false, NoReservation, NoAck, false, false, [], Idle, [], 0, [])

  datatype Reply = Pending | Broken | Closed | Complete | Wrote(count: nat)

  datatype Permit = NotYet | Refused | Permitted

  // ---- The polling side ----

  function Reserve(s: Adapter): (Adapter, Permit) {
    if s.stopped then
      (s, Refused)
    else if s.reservation.Granted? then
      (s.(reservation := NoReservation), Permitted)
    else if s.writer.Ended? then
      (s.(reservation := NoReservation), Refused)
    else if s.reservation.NoReservation? && s.queue == [] then
      (s, Permitted)
    else
      (s.(reservation := InLine), NotYet)
  }

  /** `permit.send`: a command sent after the writer ended is dropped, with its acknowledgment. */
  function Post(s: Adapter, c: Command): Adapter {
    var sent := if s.writer.Ended? then s else s.(queue := s.queue + [c]);
    if c.Data? then sent.(accepted := s.accepted + c.bytes)
    else sent.(ack := if s.writer.Ended? then Lost else Outstanding, finishing := s.finishing || c.Finish?)
  }

  /** Ask for an acknowledgment if none is outstanding. */
  function Request(s: Adapter, finish: bool): (Adapter, Permit) {
    if !s.ack.NoAck? then
      (s, Permitted)
    else
      var (r, permit) := Reserve(s);
      if permit.Permitted? then (Post(r, if finish then Finish else Flush), permit) else (r, permit)
  }

  function PollAck(s: Adapter, finish: bool): (Adapter, Reply)
    decreases if s.ack.NoAck? then 0 else 1
  {
    if s.stopped then
      (s, Broken)
    else if s.finished then
      (s, Complete)
    else
      var (r, permit) := Request(s, finish);
      if !permit.Permitted? then (r, if permit.NotYet? then Pending else Broken)
      else
        match r.ack
        case Delivered =>
          var done := r.(ack := NoAck, finished := r.finishing);
          if finish && !done.finished then PollAck(done, true) else (done, Complete)
        case Lost => (r.(ack := NoAck), Broken)
        case _ => (r, Pending)
  }

  function Chunk(bytes: seq<Byte>): seq<Byte> {
    if |bytes| <= WRITE_CHUNK then bytes else bytes[..WRITE_CHUNK]
  }

  function PollWrite(s: Adapter, bytes: seq<Byte>): (Adapter, Reply) {
    if s.finishing || s.finished then
      (s, Closed)
    else
      var (r, reply) := if s.ack.NoAck? then (s, Complete) else PollAck(s, false);
      if !reply.Complete? then (r, reply)
      else if bytes == [] then (r, Wrote(0))
      else
        var (q, permit) := Reserve(r);
        if permit.Permitted? then (Post(q, Data(Chunk(bytes))), Wrote(|Chunk(bytes)|))
        else (q, if permit.NotYet? then Pending else Broken)
  }

  // ---- The writer task and the session ----

  datatype Event =
    | Write(bytes: seq<Byte>)
    | FlushPoll
    | ShutdownPoll
    | Take
    | SendSome(count: nat)
    | SendFin
    | WriterEnds     // an error, a closed connection, or an abort
    | SessionStops

  predicate Possible(s: Adapter, e: Event) {
    match e
    case Take => s.writer.Idle? && s.queue != []
    case SendSome(n) => s.writer.Sending? && n <= |s.writer.rest|
    case SendFin => s.writer.Finishing?
    case WriterEnds => !s.writer.Ended?
    case _ => true
  }

  function TakeNext(s: Adapter): Adapter
    requires s.writer.Idle? && s.queue != []
  {
    var r := s.(queue := s.queue[1..], reservation := if s.reservation.InLine? then Granted else s.reservation);
    match s.queue[0]
    case Data(bytes) => r.(writer := Sending(bytes))
    case Flush => r.(ack := if s.ack.Outstanding? then Delivered else s.ack)
    case Finish => r.(writer := Finishing)
  }

  function Next(s: Adapter, e: Event): Adapter
    requires Possible(s, e)
  {
    match e
    case Write(bytes) => PollWrite(s, bytes).0
    case FlushPoll => PollAck(s, false).0
    case ShutdownPoll => PollAck(s, true).0
    case Take => TakeNext(s)
    case SendSome(n) =>
      var rest := s.writer.rest;
      s.(wire := s.wire + rest[..n], writer := if n == |rest| then Idle else Sending(rest[n..]))
    case SendFin => s.(fins := s.fins + 1, ack := if s.ack.Outstanding? then Delivered else s.ack, writer := Ended)
    case WriterEnds => s.(writer := Ended, queue := [], ack := if s.ack.Outstanding? then Lost else s.ack)
    case SessionStops => s.(stopped := true)
  }

  // ---- The invariant ----

  function InFlight(w: Writer): seq<Byte> { if w.Sending? then w.rest else [] }

  function Waiting(queue: seq<Command>): seq<Byte> {
    if |queue| == 1 && queue[0].Data? then queue[0].bytes else []
  }

  /** Nothing is lost, reordered or duplicated while the writer lives; afterwards at most two chunks are missing. */
  predicate BytesOk(s: Adapter) {
    && |s.queue| <= 1 && |Waiting(s.queue)| <= WRITE_CHUNK && |InFlight(s.writer)| <= WRITE_CHUNK
    && (!s.writer.Ended? ==> s.accepted == s.wire + InFlight(s.writer) + Waiting(s.queue))
    && (s.writer.Ended? ==>
          && s.queue == [] && s.wire <= s.accepted
          && |s.accepted| - |s.wire| <= (if s.reservation.Granted? then WRITE_CHUNK else 2 * WRITE_CHUNK))
  }

  predicate QueueOk(s: Adapter) {
    && (s.reservation.Granted? ==> s.queue == [])
    && (s.reservation.InLine? && !s.writer.Ended? ==> s.queue != [])
    && (s.ack.Outstanding? <==>
          s.queue == [Flush] || s.queue == [Finish] || s.writer.Finishing?)
    && (s.queue == [Flush] ==> !s.finishing)
    && (s.queue == [Finish] ==> s.finishing)
    && (s.writer.Finishing? ==> s.finishing && s.queue == [])
  }

  predicate FinOk(s: Adapter) {
    && s.fins <= 1
    && (s.fins == 1 ==> s.writer.Ended? && s.finishing && s.wire == s.accepted && (s.ack.Delivered? || s.finished))
    && (s.finished ==> s.fins == 1 && s.ack.NoAck?)
    && (s.ack.Lost? || (s.finishing && s.ack.NoAck?) ==> s.writer.Ended?)
    && (s.ack.Delivered? ==> s.wire == s.accepted && (s.finishing ==> s.fins == 1))
  }

  predicate Inv(s: Adapter) { BytesOk(s) && QueueOk(s) && FinOk(s) }

  lemma ReserveKeeps(s: Adapter)
    requires Inv(s)
    ensures var (r, permit) := Reserve(s);
            && (!permit.Permitted? ==> Inv(r))
            && (permit.Permitted? ==>
                  && r == s.(reservation := NoReservation) && r.queue == []
                  && (s.writer.Ended? ==> |s.accepted| - |s.wire| <= WRITE_CHUNK))
  {
  }

  lemma PostAckKeeps(s: Adapter, c: Command)
    requires Inv(s) && s.ack.NoAck? && s.reservation.NoReservation? && s.queue == [] && !s.finished && !c.Data?
    ensures Inv(Post(s, c))
  {
    assert s.queue + [c] == [c];
  }

  lemma ReservedKeeps(s: Adapter)
    requires Inv(s)
    ensures Inv(s.(reservation := NoReservation))
  {
  }

  lemma RequestKeeps(s: Adapter, finish: bool)
    requires Inv(s) && !s.finished
    ensures Inv(Request(s, finish).0)
    ensures var (r, permit) := Request(s, finish);
            && r.accepted == s.accepted && r.wire == s.wire && r.fins == s.fins && r.finished == s.finished
            && (permit.Permitted? ==> !r.ack.NoAck?)
            && (s.ack.NoAck? && permit.Permitted? && finish ==> r.finishing)
  {
    if s.ack.NoAck? {
      ReserveKeeps(s);
      var (r, permit) := Reserve(s);
      if permit.Permitted? {
        ReservedKeeps(s);
        PostAckKeeps(r, if finish then Finish else Flush);
      }
    }
  }

  /**
   A flush or shutdown poll changes nothing the caller wrote; when it succeeds every accepted byte
   is on the wire, and after a shutdown the one FIN is too. The recursion goes one level deep: it
   starts only with an acknowledgment in hand and goes on with none.
   */
  lemma PollAckKeeps(s: Adapter, finish: bool)
    requires Inv(s)
    ensures var (r, reply) := PollAck(s, finish);
            && Inv(r)
            && r.accepted == s.accepted && r.wire == s.wire && r.fins == s.fins
            && (reply.Complete? ==> r.wire == r.accepted && (finish ==> r.fins == 1) && r.ack.NoAck?)
            && (reply.Pending? || reply.Broken? || reply.Complete?)
            && (!finish ==> r.finishing == s.finishing)
    decreases if s.ack.NoAck? then 0 else 1
  {
    if !s.stopped && !s.finished {
      RequestKeeps(s, finish);
      var (r, permit) := Request(s, finish);
      if permit.Permitted? && r.ack.Delivered? && finish && !r.finishing {
        PollAckKeeps(r.(ack := NoAck, finished := false), true);
      }
    }
  }

  lemma PostDataKeeps(s: Adapter, bytes: seq<Byte>)
    requires Inv(s) && s.reservation.NoReservation? && s.queue == [] && s.ack.NoAck? && !s.finishing
    requires 0 < |bytes| <= WRITE_CHUNK
    requires s.writer.Ended? ==> |s.accepted| - |s.wire| <= WRITE_CHUNK
    ensures Inv(Post(s, Data(bytes)))
  {
    assert s.queue + [Data(bytes)] == [Data(bytes)];
  }

  /** A write appends exactly what it reports, and nothing when it reports nothing. */
  lemma PollWriteKeeps(s: Adapter, bytes: seq<Byte>)
    requires Inv(s)
    ensures var (r, reply) := PollWrite(s, bytes);
            && Inv(r)
            && r.wire == s.wire && r.fins == s.fins && r.finishing == s.finishing
            && (reply.Wrote? ==>
                  && reply.count == (if |bytes| < 65536 then |bytes| else 65536)
                  && r.accepted == s.accepted + bytes[..reply.count])
            && (!reply.Wrote? ==> r.accepted == s.accepted)
            && (s.finishing ==> reply.Closed?)
  {
    if !s.finishing && !s.finished {
      PollAckKeeps(s, false);
      var (r, reply) := if s.ack.NoAck? then (s, Complete) else PollAck(s, false);
      if reply.Complete? && bytes != [] {
        ReserveKeeps(r);
        var (q, permit) := Reserve(r);
        if permit.Permitted? {
          ReservedKeeps(r);
          PostDataKeeps(q, Chunk(bytes));
        }
      }
    }
  }

  lemma TakeKeeps(s: Adapter)
    requires Inv(s) && Possible(s, Take)
    ensures Inv(TakeNext(s))
  {
    assert s.queue == [s.queue[0]];
    assert s.wire + [] + [] == s.wire;
  }

  lemma SendKeeps(s: Adapter, n: nat)
    requires Inv(s) && Possible(s, SendSome(n))
    ensures Inv(Next(s, SendSome(n)))
  {
    var rest := s.writer.rest;
    assert rest == rest[..n] + rest[n..];
    assert s.wire + rest + Waiting(s.queue) == (s.wire + rest[..n]) + rest[n..] + Waiting(s.queue);
  }

  lemma StepKeeps(s: Adapter, e: Event)
    requires Inv(s) && Possible(s, e)
    ensures Inv(Next(s, e))
  {
    match e
    case Write(bytes) => PollWriteKeeps(s, bytes);
    case FlushPoll => PollAckKeeps(s, false);
    case ShutdownPoll => PollAckKeeps(s, true);
    case Take => TakeKeeps(s);
    case SendSome(n) => SendKeeps(s, n);
    case _ =>
  }

  // ---- Every run ----

  ghost predicate Run(s: Adapter, events: seq<Event>, t: Adapter)
    decreases |events|
  {
    if events == [] then s == t
    else Possible(s, events[0]) && Run(Next(s, events[0]), events[1..], t)
  }

  lemma {:induction false} RunKeeps(s: Adapter, events: seq<Event>, t: Adapter)
    requires Inv(s) && Run(s, events, t)
    ensures Inv(t)
    decreases |events|
  {
    if events != [] {
      StepKeeps(s, events[0]);
      RunKeeps(Next(s, events[0]), events[1..], t);
    }
  }

  /**
   Over any sequence of polls, writer steps, failures and stops: what was sent is a prefix of what
   was accepted, at most two chunks of it are unsent, and the FIN goes out at most once, after
   every accepted byte.
   */
  lemma WriteSideIsFaithful(events: seq<Event>, t: Adapter)
    requires Run(FRESH, events, t)
    ensures t.wire <= t.accepted
    ensures |t.accepted| - |t.wire| <= 2 * 65536
    ensures t.fins <= 1 && (t.fins == 1 ==> t.wire == t.accepted)
  {
    RunKeeps(FRESH, events, t);
  }

  /** A flush that succeeds has put every accepted byte on the wire; a shutdown, the FIN as well. */
  lemma SuccessMeansSent(events: seq<Event>, t: Adapter, finish: bool)
    requires Run(FRESH, events, t)
    requires PollAck(t, finish).1.Complete?
    ensures var r := PollAck(t, finish).0; r.wire == r.accepted == t.accepted && (finish ==> r.fins == 1)
  {
    RunKeeps(FRESH, events, t);
    PollAckKeeps(t, finish);
  }

  /** Once the FIN is out nothing more is accepted, sent or finished, whatever happens next. */
  lemma {:induction false} AfterFin(s: Adapter, events: seq<Event>, t: Adapter)
    requires Inv(s) && s.fins == 1 && Run(s, events, t)
    ensures t.fins == 1 && t.accepted == s.accepted && t.wire == s.wire
    decreases |events|
  {
    if events != [] {
      var e := events[0];
      StepKeeps(s, e);
      match e {
        case Write(bytes) => PollWriteKeeps(s, bytes);
        case FlushPoll => PollAckKeeps(s, false);
        case ShutdownPoll => PollAckKeeps(s, true);
        case _ =>
      }
      AfterFin(Next(s, e), events[1..], t);
    }
  }

  /** How many times `PollAck` calls itself. */
  ghost function ExtraLevels(s: Adapter, finish: bool): nat
    decreases if s.ack.NoAck? then 0 else 1
  {
    if s.stopped || s.finished then 0
    else
      var (r, permit) := Request(s, finish);
      if permit.Permitted? && r.ack.Delivered? && finish && !r.finishing then
        1 + ExtraLevels(r.(ack := NoAck, finished := false), true)
      else 0
  }

  lemma OneExtraLevel(s: Adapter, finish: bool)
    ensures ExtraLevels(s, finish) <= (if s.ack.NoAck? then 0 else 1)
    decreases if s.ack.NoAck? then 0 else 1
  {
    if !s.stopped && !s.finished {
      var (r, permit) := Request(s, finish);
      if permit.Permitted? && r.ack.Delivered? && finish && !r.finishing {
        OneExtraLevel(r.(ack := NoAck, finished := false), true);
      }
    }
  }

  // ---- Progress ----

  /** The writer's next step, if it has one. */
  function WriterStep(s: Adapter): Adapter {
    if s.writer.Sending? then Next(s, SendSome(|s.writer.rest|))
    else if s.writer.Finishing? then Next(s, SendFin)
    else if s.writer.Idle? && s.queue != [] then TakeNext(s)
    else s
  }

  /** The writer left alone: finish what it holds, take the queued command, carry it out. */
  function Drain(s: Adapter): Adapter { WriterStep(WriterStep(WriterStep(s))) }

  /** What a drained, living writer looks like. */
  predicate Drained(s: Adapter) {
    && s.queue == [] && !s.ack.Outstanding? && !s.ack.Lost? && !s.reservation.InLine?
    && (s.writer.Idle? || s.fins == 1)
  }

  lemma WriterStepKeeps(s: Adapter)
    requires Inv(s)
    ensures var r := WriterStep(s);
            && Inv(r)
            && r.accepted == s.accepted && r.stopped == s.stopped && r.finishing == s.finishing
            && r.finished == s.finished
            && (s.ack.NoAck? ==> r.ack.NoAck?)
            && (s.ack.Outstanding? ==> r.ack.Outstanding? || r.ack.Delivered?)
            && (s.ack.Delivered? ==> r.ack.Delivered?)
            && (s.writer.Sending? ==> r.writer.Idle? && r.queue == s.queue)
            && (s.writer.Finishing? ==> r.fins == 1)
            && (s.writer.Idle? && s.queue != [] ==> r.queue == [] && !r.writer.Ended? && !r.reservation.InLine?)
            && (s.writer.Idle? && s.queue == [] ==> r == s)
            && (s.writer.Ended? ==> r == s)
  {
    if s.writer.Sending? {
      SendKeeps(s, |s.writer.rest|);
    } else if s.writer.Finishing? {
      StepKeeps(s, SendFin);
    } else if s.writer.Idle? && s.queue != [] {
      TakeKeeps(s);
    }
  }

  lemma DrainKeeps(s: Adapter)
    requires Inv(s) && !s.writer.Ended?
    ensures var r := Drain(s);
            && Inv(r) && Drained(r)
            && r.accepted == s.accepted && r.stopped == s.stopped && r.finishing == s.finishing
            && r.finished == s.finished
            && (s.ack.NoAck? ==> r.ack.NoAck?) && (!s.ack.NoAck? ==> r.ack.Delivered?)
  {
    var s1 := WriterStep(s);
    WriterStepKeeps(s);
    var s2 := WriterStep(s1);
    WriterStepKeeps(s1);
    WriterStepKeeps(s2);
  }

  /** A poll on a drained adapter either succeeds or leaves an acknowledgment on its way. */
  lemma DrainedPoll(s: Adapter, finish: bool)
    requires Inv(s) && Drained(s) && !s.stopped
    ensures var (r, reply) := PollAck(s, finish);
            && Inv(r) && !r.stopped
            && (reply.Complete? ||
                  (!r.writer.Ended? && r.ack.Outstanding? && !r.finished && (finish ==> r.finishing)))
    decreases if s.ack.NoAck? then 0 else 1
  {
    PollAckKeeps(s, finish);
    if s.ack.Delivered? && finish && !s.finished && !s.finishing {
      DrainedPoll(s.(ack := NoAck, finished := false), true);
    }
  }

  /** Whatever is outstanding, one of three polls with the writer draining in between succeeds. */
  lemma PollsComplete(s: Adapter, finish: bool)
    requires Inv(s) && !s.stopped && !s.writer.Ended?
    ensures var (r, first) := PollAck(s, finish);
            var (r1, second) := PollAck(Drain(r), finish);
            var (_, third) := PollAck(Drain(r1), finish);
            first.Complete? || second.Complete? || third.Complete?
  {
    PollAckKeeps(s, finish);
    var (r, first) := PollAck(s, finish);
    if !first.Complete? {
      PollAckAlive(s, finish);
      DrainKeeps(r);
      DrainedPoll(Drain(r), finish);
      var (r1, second) := PollAck(Drain(r), finish);
      if !second.Complete? {
        DrainKeeps(r1);
        DrainedPoll(Drain(r1), finish);
      }
    }
  }

  lemma PollAckAlive(s: Adapter, finish: bool)
    requires Inv(s) && !s.stopped && !s.writer.Ended?
    ensures !PollAck(s, finish).0.stopped && !PollAck(s, finish).0.writer.Ended?
    decreases if s.ack.NoAck? then 0 else 1
  {
    if s.ack.Delivered? && finish && !s.finished && !s.finishing {
      PollAckAlive(s.(ack := NoAck, finished := false), true);
    }
  }

  /** A write after the writer has caught up is taken at once, a full chunk of it. */
  lemma WritesProgress(s: Adapter, bytes: seq<Byte>)
    requires Inv(s) && !s.stopped && !s.writer.Ended? && !s.finishing
    ensures PollWrite(Drain(s), bytes).1 == Wrote(if |bytes| < WRITE_CHUNK then |bytes| else WRITE_CHUNK)
  {
    DrainKeeps(s);
  }

  // ---- Failing and waiting ----

  /**
   How a flush or shutdown poll ends: it fails on a stopped stream, on an acknowledgment lost with
   the writer, and when the writer is gone with no command granted to it; it waits only while the
   writer lives and has an acknowledgment or a reservation to give.
   */
  lemma PollAckOutcome(s: Adapter, finish: bool)
    requires Inv(s)
    ensures var (r, reply) := PollAck(s, finish);
            && (s.stopped ==> reply.Broken? && r == s)
            && (!s.stopped && s.finished ==> reply.Complete? && r == s)
            && (!s.stopped && !s.finished && s.ack.Lost? ==> reply.Broken? && r == s.(ack := NoAck))
            && (!s.stopped && !s.finished && s.ack.Outstanding? ==> reply.Pending? && r == s)
            && (!s.stopped && s.ack.Delivered? && !finish ==> reply.Complete? && r.ack.NoAck?)
            && (!s.finished && s.ack.NoAck? && s.writer.Ended? ==> reply.Broken?)
            && (reply.Pending? ==> !r.writer.Ended? && !r.stopped && (r.ack.Outstanding? || r.reservation.InLine?))
    decreases if s.ack.NoAck? then 0 else 1
  {
    if !s.stopped && !s.finished {
      RequestKeeps(s, finish);
      var (r, permit) := Request(s, finish);
      if permit.Permitted? && r.ack.Delivered? && finish && !r.finishing {
        PollAckKeeps(s, finish);
        PollAckOutcome(r.(ack := NoAck, finished := false), true);
      }
    }
  }

  /** How a write ends; `Closed` exactly once a shutdown was asked for. */
  lemma PollWriteOutcome(s: Adapter, bytes: seq<Byte>)
    requires Inv(s)
    ensures var (r, reply) := PollWrite(s, bytes);
            && (reply.Closed? <==> s.finishing || s.finished)
            && (s.stopped && !reply.Closed? && (bytes != [] || !s.ack.NoAck?) ==> reply.Broken?)
            && (!reply.Closed? && s.ack.Lost? ==> reply.Broken?)
            && (!reply.Closed? && s.writer.Ended? && s.reservation.NoReservation? && bytes != [] && s.ack.NoAck? ==>
                  reply.Broken?)
            && (!s.stopped && !reply.Closed? && s.ack.NoAck? && bytes == [] ==> reply == Wrote(0) && r == s)
            && (reply.Pending? ==> !r.writer.Ended? && !r.stopped && (r.ack.Outstanding? || r.reservation.InLine?))
            && !reply.Complete?
  {
    if !s.finishing && !s.finished {
      PollAckOutcome(s, false);
      PollAckKeeps(s, false);
      var (r, reply) := if s.ack.NoAck? then (s, Complete) else PollAck(s, false);
      if reply.Complete? && bytes != [] {
        ReserveKeeps(r);
      }
    }
  }

  /** A reservation is granted at once on an empty queue, and queues up behind a full one. */
  lemma ReserveOutcome(s: Adapter)
    requires Inv(s)
    ensures var (r, permit) := Reserve(s);
            && (s.stopped ==> permit.Refused? && r == s)
            && (!s.stopped && s.reservation.Granted? ==> permit.Permitted?)
            && (!s.stopped && !s.reservation.Granted? && s.writer.Ended? ==> permit.Refused?)
            && (!s.stopped && s.reservation.NoReservation? && !s.writer.Ended? ==>
                  if s.queue == [] then permit.Permitted? else permit.NotYet? && r.reservation.InLine?)
            && (!s.stopped && s.reservation.InLine? && !s.writer.Ended? ==> permit.NotYet? && r == s)
  {
  }

  /** Once the session has stopped, every later poll fails, whatever happens in between. */
  lemma {:induction false} StoppedPollsFail(s: Adapter, events: seq<Event>, t: Adapter, finish: bool)
    requires Inv(s) && Run(Next(s, SessionStops), events, t)
    ensures t.stopped && PollAck(t, finish).1.Broken?
    ensures forall bytes :: bytes != [] && !t.finishing && !t.finished ==> PollWrite(t, bytes).1.Broken?
  {
    StepKeeps(s, SessionStops);
    StaysStopped(Next(s, SessionStops), events, t);
    forall bytes | bytes != [] && !t.finishing && !t.finished
      ensures PollWrite(t, bytes).1.Broken?
    {
      PollWriteOutcome(t, bytes);
    }
  }

  lemma {:induction false} StaysStopped(s: Adapter, events: seq<Event>, t: Adapter)
    requires Inv(s) && s.stopped && Run(s, events, t)
    ensures Inv(t) && t.stopped
    decreases |events|
  {
    if events != [] {
      StepKeeps(s, events[0]);
      StaysStopped(Next(s, events[0]), events[1..], t);
    }
  }
}
