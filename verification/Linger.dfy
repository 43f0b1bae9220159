/**
 The pump's sleep against the linger deadlines (`src/wireguard/stack.rs`).

 The pump sleeps for the delay its last poll returned, or until something rings it. A pump that
 wakes when it is due never holds a retired socket past its deadline.
 */
module Linger {
  import opened Bags
  import opened SocketStack

  datatype Pump = Pump(inner: Inner, now: int, wakeAt: Option<int>, rung: bool)

  datatype Event =
    | Sleep(until: int)
    | Change(sockets: map<nat, Socket>)    // sockets opened, discarded, and handles used again
    | RetireNow(socket: Ref, counted: bool)
    | PressureReclaim
    | PollNow(network: map<nat, TcpState>, protocolDelay: Option<nat>, delay: Option<nat>)

  ghost function Next(p: Pump, e: Event): Pump
    requires WellFormed(p.inner)
  {
    match e
    case Sleep(until) => p.(now := until)
    case Change(sockets) => p.(inner := p.inner.(sockets := sockets))
    case RetireNow(socket, counted) =>
      p.(inner := p.inner.(closing := p.inner.closing + [ClosingEntry(socket, p.now + LINGER, counted)]), rung := true)
    case PressureReclaim => p.(inner := ReclaimFrom(p.inner, 0, p.now, true), rung := true)
    case PollNow(network, _, delay) =>
      Pump(Polled(p.inner, p.now, network), p.now,
           if delay.Some? then Some(p.now + delay.value) else None, false)
  }

  /** The pump wakes when it is due; nobody else touches a socket that is closing, or retires it again. */
  ghost predicate OnTime(p: Pump, e: Event) {
    match e
    case Sleep(until) => p.now <= until && !p.rung && (p.wakeAt.Some? ==> until <= p.wakeAt.value)
    case RetireNow(socket, _) =>
      && IsLive(p.inner.sockets, socket, TcpFamily)
      && forall c :: c in p.inner.closing ==> c.socket.handle != socket.handle
    case Change(sockets) => WellFormed(p.inner.(sockets := sockets))
    case PressureReclaim => true
    case PollNow(network, protocolDelay, delay) =>
      WellFormed(p.inner) && IsPollDelay(Polled(p.inner, p.now, network).closing, p.now, protocolDelay, delay)
  }

  ghost predicate Punctual(p: Pump) {
    && WellFormed(p.inner)
    && forall c :: c in p.inner.closing ==>
         p.now <= c.deadline <= p.now + 10_000_000 && (p.rung || (p.wakeAt.Some? && p.wakeAt.value <= c.deadline))
  }

  lemma StepIsPunctual(p: Pump, e: Event)
    requires Punctual(p) && OnTime(p, e)
    ensures Punctual(Next(p, e))
    ensures e.PollNow? ==> forall c :: c in Next(p, e).inner.closing ==> p.now < c.deadline
    ensures e.PollNow? && e.delay == Some(0) ==> e.protocolDelay == Some(0)
    ensures e.RetireNow? ==>
              Next(p, e).inner.closing == p.inner.closing + [ClosingEntry(e.socket, p.now + 10_000_000, e.counted)]
    ensures e.PressureReclaim? ==> forall c :: c in Next(p, e).inner.closing ==> !Ripe(p.inner.sockets, c, p.now)
  {
    match e
    case Sleep(_) =>
    case Change(_) =>
    case RetireNow(_, _) =>
    case PressureReclaim => ReclaimKeepsKept(p.inner, p.now, true);
    case PollNow(network, _, _) =>
      WithStatesWellFormed(p.inner, network);
      var moved := p.inner.(sockets := WithStates(p.inner.sockets, network));
      ReclaimKeepsKept(moved, p.now, false);
      PolledDeadlines(moved, p.now);
  }

  ghost predicate Runs(p: Pump, events: seq<Event>, q: Pump)
    decreases |events|
  {
    if events == [] then p == q
    else WellFormed(p.inner) && OnTime(p, events[0]) && Runs(Next(p, events[0]), events[1..], q)
  }

  /**
   Over any run of a punctual pump, whatever the network does, no closing entry outlives its
   deadline, which is at most ten seconds off, and the pump's next wake-up is never later than the nearest deadline.
   */
  lemma {:induction false} NoSocketLingersPastItsDeadline(p: Pump, events: seq<Event>, q: Pump)
    requires Punctual(p) && Runs(p, events, q)
    ensures forall c :: c in q.inner.closing ==> q.now <= c.deadline <= q.now + 10_000_000
    ensures forall c :: c in q.inner.closing && !q.rung ==> q.wakeAt.Some? && q.wakeAt.value <= c.deadline
    decreases |events|
  {
    if events != [] {
      StepIsPunctual(p, events[0]);
      NoSocketLingersPastItsDeadline(Next(p, events[0]), events[1..], q);
    }
  }
}
