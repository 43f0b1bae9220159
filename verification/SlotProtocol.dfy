/**
 The socket-slot protocol of `src/wireguard/stack.rs`, `tcp.rs` and `udp.rs` as a state machine.

 Many tasks share one stack. A step is one lock section or one atomic operation; between any
 two steps every other task may run. Lock-protected work that no other task can observe is
 merged with the step next to it. A dial, a UDP bind and an accepted connection each claim one
 of 256 slots; the slot then moves from the guard to the socket's owner, to a `closing` entry,
 and back. Freed socket indices may be handed out again at once, so ownership is the only thing
 that keeps two owners apart.

 A task's wake-up by the slot-freed signal is modelled by counting rings: a notification enabled
 when the signal had rung `n` times is woken exactly when it has rung more than `n` times.
 */
module SlotProtocol {
  import opened Bags
  import opened SocketStack

  /** Who is claiming a slot. A dial or a UDP bind may have enabled a slot-freed notification beforehand. */
  datatype Purpose =
    | ForDial(enabled: Option<nat>)
    | ForBind(enabled: Option<nat>)
    | ForAccept(pool: seq<Ref>, taken: Ref)

  datatype Job = Pump | Claim(purpose: Purpose)

  datatype Task =
    // claim_socket: load the count, maybe reclaim under the lock, then fetch_update
    | Loading(purpose: Purpose)
    | WantReclaim(purpose: Purpose)
    | Updating(purpose: Purpose)
    // reclaim_finished, holding the lock; `goal` is what an undisturbed pass would leave
    | Reclaiming(job: Job, index: nat, since: int, goal: Inner)
    | ReclaimRinging(job: Job, index: nat, since: int, goal: Inner)
    // a dial or a bind that got AtCapacity
    | Refused(enabled: Option<nat>)
    // a slot guard whose socket is not created yet
    | SlotHeld(udp: bool)
    // a dial waiting for its handshake; a socket to be discarded; a slot being given back
    | Pending(socket: Ref)
    | Abandoned(udp: bool, socket: Ref)
    | Releasing
    | Ringing
    // a live stream; one whose drop has closed it but not yet retired it; a live UDP socket.
    // `closes` counts the calls that close the socket
    | Stream(socket: Ref, shutDown: bool, closes: nat)
    | Retiring(socket: Ref, closes: nat)
    | UdpOpen(socket: Ref)
    // a listener: being bound, waiting, holding a taken connection, and its two failure paths
    | Binding(pool: seq<Ref>, left: nat)
    | Listening(pool: seq<Ref>)
    | Taken(pool: seq<Ref>, socket: Ref)
    | Forfeit(pool: seq<Ref>, socket: Ref)
    | Resetting(pool: seq<Ref>, socket: Ref)
    | Dropping(pool: seq<Ref>)
    | Over

  datatype State = State(
    inner: Inner,
    resolver: Option<Ref>,
    lock: Option<nat>,
    open: int,
    rung: nat,
    nextId: nat,
    now: int,
    tasks: seq<Task>)

  /** The clock, the network, and callers starting new work. */
  datatype Outside =
    | Wait(elapsed: nat)
    | Network(states: map<nat, TcpState>)
    | SpawnDial(enable: bool)
    | SpawnBind(enable: bool)
    | SpawnListen(backlog: nat)
    | SpawnPoll(states: map<nat, TcpState>)

  /** Steps of `claim_socket` and of a reclaim pass. */
  datatype ClaimStep = Load | BeginReclaim | ReclaimNext | ReclaimRing | ReclaimEnd | Update

  /** Steps of a dial, a stream, a UDP socket, and of giving a slot back. */
  datatype SocketStep =
    | Open(slot: nat, ok: bool)
    | Establish
    | Abandon
    | Discard
    | Decrement
    | Ring
    | ShutDown
    | DropStream
    | Retire
    | DropUdp

  datatype ListenerStep =
    | ListenOne(slot: nat, ok: bool)
    | Take(k: nat)
    | Refill(slot: nat, ok: bool)
    | DiscardTaken
    | ResetTaken
    | DropListener
    | DiscardPool

  datatype Action =
    | FromOutside(outside: Outside)
    | Claiming(i: nat, claim: ClaimStep)
    | Using(i: nat, use: SocketStep)
    | Accepting(i: nat, accept: ListenerStep)

  // ---- What a task holds ----

  /** One socket as its owner must find it. */
  datatype Held = Held(socket: Ref, family: Family)

  function Is(q: Ref, family: Family, r: Held): nat { if Held(q, family) == r then 1 else 0 }

  function TypeOf(udp: bool): Family { if udp then UdpFamily else TcpFamily }

  ghost function IsPooled(r: Held): Ref -> nat { (q: Ref) => Is(q, TcpFamily, r) }

  /** How often `r` occurs in a listener's pool. */
  ghost function InPool(pool: seq<Ref>, r: Held): nat { Sum(pool, IsPooled(r)) }

  ghost function PurposeHolds(p: Purpose, r: Held): nat {
    if p.ForAccept? then InPool(p.pool, r) + Is(p.taken, TcpFamily, r) else 0
  }

  ghost function JobHolds(j: Job, r: Held): nat {
    if j.Pump? then 0 else PurposeHolds(j.purpose, r)
  }

  /** How many times a task holds the socket `r`. */
  ghost function Holds(t: Task, r: Held): nat {
    match t
    case Loading(p) => PurposeHolds(p, r)
    case WantReclaim(p) => PurposeHolds(p, r)
    case Updating(p) => PurposeHolds(p, r)
    case Reclaiming(j, _, _, _) => JobHolds(j, r)
    case ReclaimRinging(j, _, _, _) => JobHolds(j, r)
    case Pending(q) => Is(q, TcpFamily, r)
    case Abandoned(udp, q) => Is(q, TypeOf(udp), r)
    case Stream(q, _, _) => Is(q, TcpFamily, r)
    case Retiring(q, _) => Is(q, TcpFamily, r)
    case UdpOpen(q) => Is(q, UdpFamily, r)
    case Binding(pool, _) => InPool(pool, r)
    case Listening(pool) => InPool(pool, r)
    case Taken(pool, q) => InPool(pool, r) + Is(q, TcpFamily, r)
    case Forfeit(pool, q) => InPool(pool, r) + Is(q, TcpFamily, r)
    case Resetting(pool, q) => InPool(pool, r) + Is(q, TcpFamily, r)
    case Dropping(pool) => InPool(pool, r)
    case _ => 0
  }

  function SlotOf(t: Task): nat {
    match t
    case SlotHeld(_) => 1
    case Pending(_) => 1
    case Abandoned(_, _) => 1
    case Releasing => 1
    case Stream(_, _, _) => 1
    case Retiring(_, _) => 1
    case UdpOpen(_) => 1
    case _ => 0
  }

  /** A task between a decrement of the count and the ring that announces it. */
  function RingOwed(t: Task): nat {
    if t.Ringing? || t.ReclaimRinging? then 1 else 0
  }

  // ---- Steps ----

  predicate At(s: State, i: nat) { i < |s.tasks| }

  ghost predicate OutsideEnabled(s: State, o: Outside) {
    match o
    case Network(_) => s.lock.None?
    case SpawnPoll(_) => s.lock.None? && WellFormed(s.inner)
    case _ => true
  }

  ghost predicate ClaimEnabled(s: State, t: Task, c: ClaimStep) {
    match c
    case Load => t.Loading?
    case BeginReclaim => t.WantReclaim? && s.lock.None? && WellFormed(s.inner)
    case ReclaimNext =>
      && t.Reclaiming? && t.index < |s.inner.closing|
      && s.inner.closing[t.index].socket.handle in s.inner.sockets
    case ReclaimRing => t.ReclaimRinging?
    case ReclaimEnd => t.Reclaiming? && t.index >= |s.inner.closing|
    case Update => t.Updating?
  }

  predicate UseEnabled(s: State, t: Task, u: SocketStep) {
    match u
    case Open(slot, _) => t.SlotHeld? && s.lock.None? && slot !in s.inner.sockets
    case Establish => t.Pending? && s.lock.None?
    case Abandon => t.Pending?
    case Discard => t.Abandoned? && s.lock.None?
    case Decrement => t.Releasing?
    case Ring => t.Ringing?
    case ShutDown => t.Stream? && s.lock.None?
    case DropStream => t.Stream? && s.lock.None?
    case Retire => t.Retiring? && s.lock.None?
    case DropUdp => t.UdpOpen? && s.lock.None?
  }

  predicate AcceptEnabled(s: State, t: Task, l: ListenerStep) {
    match l
    case ListenOne(slot, _) => t.Binding? && t.left > 0 && s.lock.None? && slot !in s.inner.sockets
    case Take(k) => t.Listening? && k < |t.pool| && s.lock.None?
    case Refill(slot, _) => t.Taken? && s.lock.None? && slot !in s.inner.sockets
    case DiscardTaken => t.Forfeit? && s.lock.None?
    case ResetTaken => t.Resetting? && s.lock.None?
    case DropListener => t.Listening?
    case DiscardPool => t.Dropping? && s.lock.None?
  }

  ghost predicate Enabled(s: State, a: Action) {
    match a
    case FromOutside(o) => OutsideEnabled(s, o)
    case Claiming(i, c) => At(s, i) && ClaimEnabled(s, s.tasks[i], c)
    case Using(i, u) => At(s, i) && UseEnabled(s, s.tasks[i], u)
    case Accepting(i, l) => At(s, i) && AcceptEnabled(s, s.tasks[i], l)
  }

  function Move(s: State, i: nat, t: Task): State
    requires At(s, i)
  {
    s.(tasks := s.tasks[i := t])
  }

  function Spawn(s: State, t: Task): State { s.(tasks := s.tasks + [t]) }

  /** `SocketSet::add` at a free index. */
  function Added(s: State, slot: nat, family: Family): State {
    s.(inner := s.inner.(sockets := s.inner.sockets[slot := Socket(s.nextId, family, Closed)]),
       nextId := s.nextId + 1)
  }

  function Removed(s: State, handles: set<nat>): State {
    s.(inner := s.inner.(sockets := s.inner.sockets - handles))
  }

  function Retired(s: State, r: Ref, counted: bool): State {
    s.(inner := s.inner.(closing := s.inner.closing + [ClosingEntry(r, s.now + LINGER, counted)]))
  }

  function Handles(pool: seq<Ref>): set<nat> { set r | r in pool :: r.handle }

  ghost function FromOutsideApply(s: State, o: Outside): State
    requires OutsideEnabled(s, o)
  {
    match o
    case Wait(elapsed) => s.(now := s.now + elapsed)
    case Network(states) => s.(inner := s.inner.(sockets := WithStates(s.inner.sockets, states)))
    case SpawnDial(enable) => Spawn(s, Loading(ForDial(if enable then Some(s.rung) else None)))
    case SpawnBind(enable) => Spawn(s, Loading(ForBind(if enable then Some(s.rung) else None)))
    case SpawnListen(backlog) => Spawn(s, Binding([], if backlog == 0 then 1 else backlog))
    case SpawnPoll(states) =>
      WithStatesWellFormed(s.inner, states);
      var polled := s.inner.(sockets := WithStates(s.inner.sockets, states));
      Spawn(s, Reclaiming(Pump, 0, s.now, ReclaimFrom(polled, 0, s.now, false)))
        .(inner := polled, lock := Some(|s.tasks|))
  }

  /** `fetch_update`: take a slot if one is free. */
  function Claimed(s: State, i: nat, p: Purpose): State
    requires At(s, i)
  {
    if s.open >= MAX_SOCKETS then
      Move(s, i, match p
                 case ForDial(enabled) => Refused(enabled)
                 case ForBind(enabled) => Refused(enabled)
                 case ForAccept(pool, taken) => Resetting(pool, taken))
    else
      match p
      case ForDial(_) => Move(s, i, SlotHeld(false)).(open := s.open + 1)
      case ForBind(_) => Move(s, i, SlotHeld(true)).(open := s.open + 1)
      case ForAccept(pool, taken) =>
        Spawn(Move(s, i, Listening(pool)), Stream(taken, false, 0)).(open := s.open + 1)
  }

  /** One turn of the reclaim loop, up to and including the decrement. */
  function PassTurn(s: State, i: nat): State
    requires At(s, i) && s.tasks[i].Reclaiming? && s.tasks[i].index < |s.inner.closing|
    requires s.inner.closing[s.tasks[i].index].socket.handle in s.inner.sockets
  {
    var t := s.tasks[i];
    var c := s.inner.closing[t.index];
    if Keeps(s.inner.sockets, c, t.since, t.job.Claim?) then
      Move(s, i, Reclaiming(t.job, t.index + 1, t.since, t.goal))
    else if c.counted then
      Move(s, i, ReclaimRinging(t.job, t.index, t.since, t.goal))
        .(inner := DropEntry(s.inner, t.index), open := s.open - 1)
    else
      s.(inner := DropEntry(s.inner, t.index))
  }

  ghost function ClaimApply(s: State, i: nat, c: ClaimStep): State
    requires At(s, i) && ClaimEnabled(s, s.tasks[i], c)
  {
    var t := s.tasks[i];
    match c
    case Load => Move(s, i, if s.open >= MAX_SOCKETS then WantReclaim(t.purpose) else Updating(t.purpose))
    case BeginReclaim =>
      Move(s, i, Reclaiming(Claim(t.purpose), 0, s.now, ReclaimFrom(s.inner, 0, s.now, true))).(lock := Some(i))
    case ReclaimNext => PassTurn(s, i)
    case ReclaimRing => Move(s, i, Reclaiming(t.job, t.index, t.since, t.goal)).(rung := s.rung + 1)
    case ReclaimEnd => Move(s, i, if t.job.Pump? then Over else Updating(t.job.purpose)).(lock := None)
    case Update => Claimed(s, i, t.purpose)
  }

  /** `close_half`: closes the socket unless that was done before. */
  function ClosesAfter(t: Task): nat
    requires t.Stream?
  {
    if t.shutDown then t.closes else t.closes + 1
  }

  function UseApply(s: State, i: nat, u: SocketStep): State
    requires At(s, i) && UseEnabled(s, s.tasks[i], u)
  {
    var t := s.tasks[i];
    match u
    case Open(slot, ok) =>
      var r := Ref(slot, s.nextId);
      Move(Added(s, slot, TypeOf(t.udp)), i,
           if !ok then Abandoned(t.udp, r) else if t.udp then UdpOpen(r) else Pending(r))
    case Establish => Move(s, i, Stream(t.socket, false, 0))
    case Abandon => Move(s, i, Abandoned(false, t.socket))
    case Discard => Move(Removed(s, {t.socket.handle}), i, Releasing)
    case Decrement => Move(s, i, Ringing).(open := s.open - 1)
    case Ring => Move(s, i, Over).(rung := s.rung + 1)
    case ShutDown => Move(s, i, Stream(t.socket, true, ClosesAfter(t)))
    case DropStream => Move(s, i, Retiring(t.socket, ClosesAfter(t)))
    case Retire => Move(Retired(s, t.socket, true), i, Over)
    case DropUdp => Move(Removed(s, {t.socket.handle}), i, Releasing)
  }

  function AcceptApply(s: State, i: nat, l: ListenerStep): State
    requires At(s, i) && AcceptEnabled(s, s.tasks[i], l)
  {
    var t := s.tasks[i];
    match l
    case ListenOne(slot, ok) =>
      if !ok then Move(s, i, Dropping(t.pool)).(nextId := s.nextId + 1)
      else
        var pool := t.pool + [Ref(slot, s.nextId)];
        Move(Added(s, slot, TcpFamily), i, if t.left == 1 then Listening(pool) else Binding(pool, t.left - 1))
    case Take(k) => Move(s, i, Taken(SwapRemove(t.pool, k), t.pool[k]))
    case Refill(slot, ok) =>
      if !ok then Move(s, i, Forfeit(t.pool, t.socket)).(nextId := s.nextId + 1)
      else
        Move(Added(s, slot, TcpFamily), i,
             Loading(ForAccept(t.pool + [Ref(slot, s.nextId)], t.socket)))
    case DiscardTaken => Move(Removed(s, {t.socket.handle}), i, Listening(t.pool))
    case ResetTaken => Move(Retired(s, t.socket, false), i, Listening(t.pool))
    case DropListener => Move(s, i, Dropping(t.pool))
    case DiscardPool => Move(Removed(s, Handles(t.pool)), i, Over)
  }

  ghost function Apply(s: State, a: Action): State
    requires Enabled(s, a)
  {
    match a
    case FromOutside(o) => FromOutsideApply(s, o)
    case Claiming(i, c) => ClaimApply(s, i, c)
    case Using(i, u) => UseApply(s, i, u)
    case Accepting(i, l) => AcceptApply(s, i, l)
  }
}
