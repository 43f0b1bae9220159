/**
 The stop protocol of one tunnel stack (`src/wireguard/stack.rs`, `tcp.rs`, `udp.rs`).

 Only the pump wakes a parked task. When it ends, `stop` sets a flag, then closes every socket
 under the stack lock, then notifies. smoltcp keeps one waker per direction per socket, and
 registering a second replaces the first. A step is one lock section or one atomic operation,
 except that a poll which loads the flag inside its lock section takes two steps, so that the
 flag may be set between the load and the registration.
 */
module StopProtocol {
  import opened Bags

  datatype Direction = Recv | Send

  /** Where smoltcp stores a waker. */
  datatype Slot = Slot(handle: nat, dir: Direction)

  datatype Op =
    | Accept(listener: nat, pool: seq<nat>)
    | UdpSend(handle: nat)
    | UdpRecv(handle: nat)
    | Read(handle: nat)
    | Write(handle: nat)
    | Flush(handle: nat)
    | Connect(handle: nat)
    | WaitStopped

  datatype Pc =
    | Queued                  // a UDP operation waiting for its direction lock
    | Ready                   // about to be polled
    | Checked(sawStop: bool)  // holding the stack lock, flag loaded
    | Parked(woken: bool)
    | Enabled(epoch: nat)     // wait_stopped: notification enabled, flag not read
    | Waiting(epoch: nat)     // wait_stopped: awaiting the notification
    | Done

  datatype Task = Task(op: Op, pc: Pc)

  datatype Phase = Running | FlagSet | Closed | Notified

  /** `late`: added after `stop` had closed every socket. */
  datatype Sock = Sock(udp: bool, closed: bool, late: bool)

  /** A listener's pool; `ready`: an accept has found a connection that is yet to be taken out. */
  datatype Listener = Open(pool: seq<nat>, ready: bool) | Gone

  datatype State = State(
    phase: Phase,
    epoch: nat,
    lock: Option<nat>,
    sockets: map<nat, Sock>,
    wakers: map<Slot, nat>,
    dirLocks: map<Slot, nat>,
    listeners: seq<Listener>,
    tasks: seq<Task>)

  datatype TaskStep = Acquire | Check | Act(ready: bool) | Poll(ready: bool) | Enable | ReadFlag | Resume | Cancel

  datatype Action =
    | AddSocket(handle: nat, udp: bool)
    | RemoveSocket(handle: nat)
    | Network(closed: map<nat, bool>, wakes: set<Slot>)
    | Bind(pool: seq<nat>)
    | TakeOut(listener: nat, k: nat, refill: Option<nat>)
    | DropListener(listener: nat)
    | StopFlag
    | StopClose
    | StopNotify
    | Start(op: Op)
    | Step(i: nat, step: TaskStep)

  // ---- Operations ----

  predicate IsUdp(op: Op) { op.UdpSend? || op.UdpRecv? }

  predicate IsTcp(op: Op) { op.Accept? || op.Read? || op.Write? || op.Flush? || op.Connect? }

  /** Operations that read the stop flag inside their lock section. */
  predicate ReadsFlag(op: Op) { op.Accept? || IsUdp(op) }

  predicate Touches(op: Op, sl: Slot) {
    match op
    case Accept(_, pool) => sl.handle in pool
    case UdpSend(h) => sl == Slot(h, Send)
    case UdpRecv(h) => sl == Slot(h, Recv)
    case Read(h) => sl == Slot(h, Recv)
    case Write(h) => sl == Slot(h, Send)
    case Flush(h) => sl == Slot(h, Send)
    case Connect(h) => sl == Slot(h, Send)
    case WaitStopped => false
  }

  predicate Uses(op: Op, h: nat) { Touches(op, Slot(h, Recv)) || Touches(op, Slot(h, Send)) }

  lemma SlotCases()
    ensures forall sl: Slot :: sl == Slot(sl.handle, Recv) || sl == Slot(sl.handle, Send)
  {
    forall sl: Slot
      ensures sl == Slot(sl.handle, Recv) || sl == Slot(sl.handle, Send)
    {
      match sl.dir
      case Recv =>
      case Send =>
    }
  }

  function SlotsOf(op: Op): (r: set<Slot>)
    ensures forall sl :: sl in r <==> Touches(op, sl)
  {
    SlotCases();
    match op
    case Accept(_, pool) => (set h | h in pool :: Slot(h, Recv)) + (set h | h in pool :: Slot(h, Send))
    case UdpSend(h) => {Slot(h, Send)}
    case UdpRecv(h) => {Slot(h, Recv)}
    case Read(h) => {Slot(h, Recv)}
    case Write(h) => {Slot(h, Send)}
    case Flush(h) => {Slot(h, Send)}
    case Connect(h) => {Slot(h, Send)}
    case WaitStopped => {}
  }

  function UdpSlot(op: Op): Slot
    requires IsUdp(op)
  {
    if op.UdpSend? then Slot(op.handle, Send) else Slot(op.handle, Recv)
  }

  predicate Live(t: Task) { !t.pc.Done? }

  /** Live, and past the direction lock if it needs one. */
  predicate Engaged(t: Task) { Live(t) && !t.pc.Queued? }

  predicate Asleep(t: Task) { t.pc == Parked(false) }

  predicate Stopping(s: State) { !s.phase.Running? }

  predicate Closing(s: State) { s.phase.Closed? || s.phase.Notified? }

  // ---- Steps ----

  predicate At(s: State, i: nat) { i < |s.tasks| }

  /** No accept is under way on the listener. */
  ghost predicate Unused(s: State, listener: nat) {
    forall j :: 0 <= j < |s.tasks| && Live(s.tasks[j]) && s.tasks[j].op.Accept? ==> s.tasks[j].op.listener != listener
  }

  /** A TCP stream and a listener are borrowed exclusively; a UDP socket is shared. */
  ghost predicate MayStart(s: State, op: Op) {
    && (forall h :: Uses(op, h) ==> h in s.sockets && s.sockets[h].udp == IsUdp(op))
    && (op.Read? || op.Write? || op.Flush? ==> !s.sockets[op.handle].late)
    && (IsTcp(op) ==> forall j, sl :: 0 <= j < |s.tasks| && Live(s.tasks[j]) && Touches(s.tasks[j].op, sl) ==>
          !Touches(op, sl))
    && (op.Accept? ==>
          op.listener < |s.listeners| && s.listeners[op.listener] == Open(op.pool, false) && Unused(s, op.listener))
  }

  predicate StepEnabled(s: State, i: nat, step: TaskStep)
    requires At(s, i)
  {
    var t := s.tasks[i];
    match step
    case Acquire => IsUdp(t.op) && t.pc.Queued? && UdpSlot(t.op) !in s.dirLocks
    case Check => ReadsFlag(t.op) && t.pc.Ready? && s.lock.None?
    case Act(ready) => ReadsFlag(t.op) && t.pc.Checked? && (ready && t.op.Accept? ==> t.op.pool != [])
    case Poll(_) => IsTcp(t.op) && !t.op.Accept? && t.pc.Ready? && s.lock.None? && t.op.handle in s.sockets
    case Enable => t.op.WaitStopped? && t.pc.Ready?
    case ReadFlag => t.op.WaitStopped? && t.pc.Enabled?
    case Resume => t.pc.Parked? || (t.pc.Waiting? && t.pc.epoch < s.epoch)
    case Cancel => Live(t) && !t.pc.Checked?
  }

  ghost predicate CanDo(s: State, a: Action) {
    match a
    case AddSocket(h, _) => s.lock.None? && h !in s.sockets
    case RemoveSocket(h) =>
      s.lock.None? && forall j :: 0 <= j < |s.tasks| && Live(s.tasks[j]) ==> !Uses(s.tasks[j].op, h)
    case Network(_, _) => s.phase.Running? && s.lock.None?
    case Bind(pool) => pool != []
    case TakeOut(l, k, refill) =>
      && s.lock.None? && l < |s.listeners| && s.listeners[l].Open? && s.listeners[l].ready && Unused(s, l)
      && k < |s.listeners[l].pool| && (refill.Some? ==> refill.value !in s.sockets)
    case DropListener(l) => s.lock.None? && l < |s.listeners| && Unused(s, l)
    case StopFlag => s.phase.Running?
    case StopClose => s.phase.FlagSet? && s.lock.None?
    case StopNotify => s.phase.Closed?
    case Start(op) => MayStart(s, op)
    case Step(i, step) => At(s, i) && StepEnabled(s, i, step)
  }

  /** Waking a parked task makes it runnable; waking any other task does nothing. */
  function WakeTasks(tasks: seq<Task>, who: set<nat>): (r: seq<Task>)
    ensures |r| == |tasks|
    ensures forall i :: 0 <= i < |tasks| ==>
              r[i] == if tasks[i].pc.Parked? && i in who then tasks[i].(pc := Parked(true)) else tasks[i]
  {
    seq(|tasks|, i requires 0 <= i < |tasks| =>
      if tasks[i].pc.Parked? && i in who then tasks[i].(pc := Parked(true)) else tasks[i])
  }

  function Waked(wakers: map<Slot, nat>, slots: set<Slot>): set<nat> {
    set sl | sl in slots && sl in wakers :: wakers[sl]
  }

  function Goto(s: State, i: nat, pc: Pc): State
    requires At(s, i)
  {
    s.(tasks := s.tasks[i := s.tasks[i].(pc := pc)])
  }

  /** The operation ends and gives back its direction lock, if it holds one. */
  function Finish(s: State, i: nat): State
    requires At(s, i)
  {
    var t := s.tasks[i];
    Goto(s, i, Done).(dirLocks := if IsUdp(t.op) && !t.pc.Queued? then s.dirLocks - {UdpSlot(t.op)} else s.dirLocks)
  }

  function Park(s: State, i: nat): State
    requires At(s, i)
  {
    Goto(s, i, Parked(false)).(wakers := s.wakers + (map sl | sl in SlotsOf(s.tasks[i].op) :: i))
  }

  /** An accept that found a connection leaves it to be taken out of the pool. */
  function Found(listeners: seq<Listener>, op: Op): seq<Listener> {
    if op.Accept? && op.listener < |listeners| && listeners[op.listener].Open? then
      listeners[op.listener := listeners[op.listener].(ready := true)]
    else listeners
  }

  function StepApply(s: State, i: nat, step: TaskStep): State
    requires At(s, i) && StepEnabled(s, i, step)
  {
    var t := s.tasks[i];
    match step
    case Acquire => Goto(s, i, Ready).(dirLocks := s.dirLocks[UdpSlot(t.op) := i])
    case Check => Goto(s, i, Checked(Stopping(s))).(lock := Some(i))
    case Act(ready) =>
      (if t.pc.sawStop || ready then Finish(s, i) else Park(s, i))
        .(lock := None, listeners := if ready && !t.pc.sawStop then Found(s.listeners, t.op) else s.listeners)
    case Poll(ready) => if s.sockets[t.op.handle].closed || ready then Finish(s, i) else Park(s, i)
    case Enable => Goto(s, i, Enabled(s.epoch))
    case ReadFlag => if Stopping(s) then Finish(s, i) else Goto(s, i, Waiting(t.pc.epoch))
    case Resume => Goto(s, i, Ready)
    case Cancel => Finish(s, i)
  }

  /** The connection at `k` leaves the pool, and a fresh listening socket takes a place in it if there is one. */
  function TakenOut(s: State, l: nat, k: nat, refill: Option<nat>): State
    requires l < |s.listeners| && s.listeners[l].Open? && k < |s.listeners[l].pool|
  {
    var left := SwapRemove(s.listeners[l].pool, k);
    s.(listeners := s.listeners[l := Open(if refill.Some? then left + [refill.value] else left, false)],
       sockets := if refill.Some? then s.sockets[refill.value := Sock(false, false, Closing(s))] else s.sockets)
  }

  ghost function Apply(s: State, a: Action): State
    requires CanDo(s, a)
  {
    match a
    case AddSocket(h, udp) => s.(sockets := s.sockets[h := Sock(udp, false, Closing(s))])
    case RemoveSocket(h) => s.(sockets := s.sockets - {h}, wakers := s.wakers - {Slot(h, Recv), Slot(h, Send)})
    case Network(closed, wakes) =>
      s.(sockets := map h | h in s.sockets :: if h in closed then s.sockets[h].(closed := closed[h]) else s.sockets[h],
         wakers := s.wakers - wakes,
         tasks := WakeTasks(s.tasks, Waked(s.wakers, wakes)))
    case Bind(pool) => s.(listeners := s.listeners + [Open(pool, false)])
    case TakeOut(l, k, refill) => TakenOut(s, l, k, refill)
    case DropListener(l) => s.(listeners := s.listeners[l := Gone])
    case StopFlag => s.(phase := FlagSet)
    case StopClose =>
      s.(phase := Closed,
         sockets := map h | h in s.sockets :: s.sockets[h].(closed := true),
         wakers := map[],
         tasks := WakeTasks(s.tasks, Waked(s.wakers, s.wakers.Keys)))
    case StopNotify => s.(phase := Notified, epoch := s.epoch + 1)
    case Start(op) => s.(tasks := s.tasks + [Task(op, if IsUdp(op) then Queued else Ready)])
    case Step(i, step) => StepApply(s, i, step)
  }

  // ---- The invariant ----

  /** A sleeping task's waker is stored, as its own, in every slot it waits on. */
  ghost predicate WakersStored(s: State) {
    forall i, sl :: 0 <= i < |s.tasks| && Asleep(s.tasks[i]) && Touches(s.tasks[i].op, sl) ==>
      sl in s.wakers && s.wakers[sl] == i
  }

  /** Two engaged tasks never use the same slot. */
  ghost predicate Exclusive(s: State) {
    forall i, j, sl :: 0 <= i < j < |s.tasks| && Engaged(s.tasks[i]) && Engaged(s.tasks[j]) ==>
      !(Touches(s.tasks[i].op, sl) && Touches(s.tasks[j].op, sl))
  }

  ghost predicate DirLocksHeld(s: State) {
    && (forall i :: 0 <= i < |s.tasks| && IsUdp(s.tasks[i].op) && Engaged(s.tasks[i]) ==>
          UdpSlot(s.tasks[i].op) in s.dirLocks && s.dirLocks[UdpSlot(s.tasks[i].op)] == i)
    && (forall sl :: sl in s.dirLocks ==>
          && s.dirLocks[sl] < |s.tasks|
          && IsUdp(s.tasks[s.dirLocks[sl]].op) && Engaged(s.tasks[s.dirLocks[sl]])
          && UdpSlot(s.tasks[s.dirLocks[sl]].op) == sl)
  }

  ghost predicate Typed(s: State) {
    && (forall i, h :: 0 <= i < |s.tasks| && Live(s.tasks[i]) && Uses(s.tasks[i].op, h) ==>
          h in s.sockets && s.sockets[h].udp == IsUdp(s.tasks[i].op))
    && (forall i :: 0 <= i < |s.tasks| && Live(s.tasks[i]) ==>
          (s.tasks[i].op.Read? || s.tasks[i].op.Write? || s.tasks[i].op.Flush?) ==>
            s.tasks[i].op.handle in s.sockets && !s.sockets[s.tasks[i].op.handle].late)
    && (forall i :: 0 <= i < |s.tasks| && s.tasks[i].pc.Queued? ==> IsUdp(s.tasks[i].op))
  }

  ghost predicate LockHeld(s: State) {
    && (forall i :: 0 <= i < |s.tasks| && s.tasks[i].pc.Checked? ==> s.lock == Some(i))
    && (s.lock.Some? ==> s.lock.value < |s.tasks| && s.tasks[s.lock.value].pc.Checked?
                         && ReadsFlag(s.tasks[s.lock.value].op))
  }

  /** Which program points belong to which operation. */
  ghost predicate Shapes(s: State) {
    forall i :: 0 <= i < |s.tasks| ==>
      && (s.tasks[i].pc.Enabled? || s.tasks[i].pc.Waiting? ==> s.tasks[i].op.WaitStopped?)
      && (s.tasks[i].op.WaitStopped? ==> !s.tasks[i].pc.Parked? && !s.tasks[i].pc.Checked? && !s.tasks[i].pc.Queued?)
  }

  /** A connect whose socket was added after `stop` had closed the others. */
  ghost predicate LateConnect(s: State, t: Task) {
    t.op.Connect? && t.op.handle in s.sockets && s.sockets[t.op.handle].late
  }

  /** The two operations `stop` does not reach: a late connect, and an accept with no socket to wait on. */
  ghost predicate OutOfReach(s: State, t: Task) { LateConnect(s, t) || EmptyAccept(t.op) }

  predicate EmptyAccept(op: Op) { op.Accept? && op.pool == [] }

  ghost predicate Stopped(s: State) {
    && (forall h :: h in s.sockets && s.sockets[h].late ==> Closing(s))
    && (Closing(s) ==>
          && (forall h :: h in s.sockets && !s.sockets[h].late ==> s.sockets[h].closed)
          && (forall i :: 0 <= i < |s.tasks| && s.tasks[i].pc.Checked? ==> s.tasks[i].pc.sawStop)
          && (forall i :: 0 <= i < |s.tasks| && Asleep(s.tasks[i]) ==> OutOfReach(s, s.tasks[i])))
  }

  ghost predicate Epochs(s: State) {
    && s.epoch == (if s.phase.Notified? then 1 else 0)
    && (forall i :: 0 <= i < |s.tasks| && s.tasks[i].pc.Waiting? ==> s.tasks[i].pc.epoch == 0)
    && (forall i :: 0 <= i < |s.tasks| && s.tasks[i].pc.Enabled? ==> s.tasks[i].pc.epoch <= s.epoch)
  }

  ghost predicate Inv(s: State) {
    && WakersStored(s) && Exclusive(s) && DirLocksHeld(s) && Typed(s)
    && LockHeld(s) && Shapes(s) && Stopped(s) && Epochs(s)
  }

  // ---- Every step keeps it ----

  /** No task of `s'` is new, and none came back to life or past its direction lock. */
  ghost predicate Settles(s: State, s': State) {
    && |s'.tasks| == |s.tasks|
    && forall j :: 0 <= j < |s.tasks| ==>
         && s'.tasks[j].op == s.tasks[j].op
         && (Live(s'.tasks[j]) ==> Live(s.tasks[j]))
         && (Engaged(s'.tasks[j]) ==> Engaged(s.tasks[j]))
         && (s'.tasks[j].pc.Queued? ==> s.tasks[j].pc.Queued?)
  }

  lemma FrameExclusive(s: State, s': State)
    requires Exclusive(s) && Settles(s, s')
    ensures Exclusive(s')
  {
    forall i, j, sl | 0 <= i < j < |s'.tasks| && Engaged(s'.tasks[i]) && Engaged(s'.tasks[j])
      ensures !(Touches(s'.tasks[i].op, sl) && Touches(s'.tasks[j].op, sl))
    {
      assert !(Touches(s.tasks[i].op, sl) && Touches(s.tasks[j].op, sl));
    }
  }

  lemma FrameTyped(s: State, s': State)
    requires Typed(s) && Settles(s, s')
    requires forall h :: h in s.sockets ==>
               h in s'.sockets && s'.sockets[h].udp == s.sockets[h].udp && s'.sockets[h].late == s.sockets[h].late
    ensures Typed(s')
  {
    forall i, h | 0 <= i < |s'.tasks| && Live(s'.tasks[i]) && Uses(s'.tasks[i].op, h)
      ensures h in s'.sockets && s'.sockets[h].udp == IsUdp(s'.tasks[i].op)
    {
      assert Uses(s.tasks[i].op, h);
    }
  }

  lemma SettledStep(s: State, i: nat, step: TaskStep)
    requires At(s, i) && StepEnabled(s, i, step) && !step.Acquire?
    ensures Settles(s, StepApply(s, i, step))
    ensures StepApply(s, i, step).sockets == s.sockets
  {
  }

  lemma SameType(s: State, i: nat, j: nat, h: nat)
    requires Typed(s) && At(s, i) && At(s, j) && Live(s.tasks[i]) && Live(s.tasks[j])
    requires Uses(s.tasks[i].op, h) && Uses(s.tasks[j].op, h)
    ensures IsUdp(s.tasks[i].op) == IsUdp(s.tasks[j].op)
  {
    assert h in s.sockets && s.sockets[h].udp == IsUdp(s.tasks[i].op);
  }

  /** The direction lock is free, so no engaged task uses the slot a queued task waits for. */
  lemma QueuedIsAlone(s: State, i: nat, j: nat, sl: Slot)
    requires Typed(s) && DirLocksHeld(s)
    requires At(s, i) && StepEnabled(s, i, Acquire) && At(s, j) && Engaged(s.tasks[j])
    ensures !(Touches(s.tasks[i].op, sl) && Touches(s.tasks[j].op, sl))
  {
    SlotCases();
    if Touches(s.tasks[i].op, sl) && Touches(s.tasks[j].op, sl) {
      SameType(s, i, j, sl.handle);
      assert false;
    }
  }

  lemma AcquireExclusive(s: State, i: nat)
    requires Exclusive(s) && Typed(s) && DirLocksHeld(s) && At(s, i) && StepEnabled(s, i, Acquire)
    ensures Exclusive(StepApply(s, i, Acquire))
  {
    var s' := StepApply(s, i, Acquire);
    forall j, k, sl | 0 <= j < k < |s'.tasks| && Engaged(s'.tasks[j]) && Engaged(s'.tasks[k])
      ensures !(Touches(s'.tasks[j].op, sl) && Touches(s'.tasks[k].op, sl))
    {
      if j != i && k != i {
        assert !(Touches(s.tasks[j].op, sl) && Touches(s.tasks[k].op, sl));
      } else {
        QueuedIsAlone(s, i, if j == i then k else j, sl);
      }
    }
  }

  lemma StartExclusive(s: State, op: Op)
    requires Exclusive(s) && MayStart(s, op)
    ensures Exclusive(Apply(s, Start(op)))
  {
    var s' := Apply(s, Start(op));
    forall j, k, sl | 0 <= j < k < |s'.tasks| && Engaged(s'.tasks[j]) && Engaged(s'.tasks[k])
      ensures !(Touches(s'.tasks[j].op, sl) && Touches(s'.tasks[k].op, sl))
    {
      if k < |s.tasks| {
        assert !(Touches(s.tasks[j].op, sl) && Touches(s.tasks[k].op, sl));
      } else {
        assert s'.tasks[j] == s.tasks[j];
      }
    }
  }

  lemma KeepsExclusive(s: State, a: Action)
    requires Exclusive(s) && Typed(s) && DirLocksHeld(s) && CanDo(s, a)
    ensures Exclusive(Apply(s, a))
  {
    match a
    case Start(op) => StartExclusive(s, op);
    case Step(i, step) =>
      if step.Acquire? {
        AcquireExclusive(s, i);
      } else {
        SettledStep(s, i, step);
        FrameExclusive(s, Apply(s, a));
      }
    case _ => FrameExclusive(s, Apply(s, a));
  }

  lemma KeepsTyped(s: State, a: Action)
    requires Typed(s) && CanDo(s, a)
    ensures Typed(Apply(s, a))
  {
    match a
    case Step(i, step) =>
      if step.Acquire? {
        AcquireTyped(s, i);
      } else {
        SettledStep(s, i, step);
        FrameTyped(s, Apply(s, a));
      }
    case RemoveSocket(h) => RemoveTyped(s, h);
    case Start(op) => StartTyped(s, op);
    case _ => FrameTyped(s, Apply(s, a));
  }

  lemma AcquireTyped(s: State, i: nat)
    requires Typed(s) && At(s, i) && StepEnabled(s, i, Acquire)
    ensures Typed(StepApply(s, i, Acquire))
  {
  }

  lemma StartTyped(s: State, op: Op)
    requires Typed(s) && MayStart(s, op)
    ensures Typed(Apply(s, Start(op)))
  {
  }

  lemma RemoveTyped(s: State, gone: nat)
    requires Typed(s) && CanDo(s, RemoveSocket(gone))
    ensures Typed(Apply(s, RemoveSocket(gone)))
  {
    forall i, h | 0 <= i < |s.tasks| && Live(s.tasks[i]) && Uses(s.tasks[i].op, h)
      ensures h in s.sockets - {gone}
    {
      assert h != gone;
    }
    forall i | 0 <= i < |s.tasks| && Live(s.tasks[i]) &&
               (s.tasks[i].op.Read? || s.tasks[i].op.Write? || s.tasks[i].op.Flush?)
      ensures s.tasks[i].op.handle in s.sockets - {gone}
    {
      assert Uses(s.tasks[i].op, s.tasks[i].op.handle);
    }
  }

  // Direction locks

  lemma FinishDirLocks(s: State, i: nat)
    requires DirLocksHeld(s) && At(s, i) && Live(s.tasks[i])
    ensures DirLocksHeld(Finish(s, i))
  {
  }

  lemma FrameDirLocks(s: State, s': State)
    requires DirLocksHeld(s) && s'.dirLocks == s.dirLocks && |s.tasks| <= |s'.tasks|
    requires forall j :: 0 <= j < |s.tasks| ==>
               s'.tasks[j].op == s.tasks[j].op && (Engaged(s'.tasks[j]) <==> Engaged(s.tasks[j]))
    requires forall j :: |s.tasks| <= j < |s'.tasks| ==> !IsUdp(s'.tasks[j].op) || !Engaged(s'.tasks[j])
    ensures DirLocksHeld(s')
  {
  }

  lemma TaskStepDirLocks(s: State, i: nat, step: TaskStep)
    requires DirLocksHeld(s) && At(s, i) && StepEnabled(s, i, step)
    ensures DirLocksHeld(StepApply(s, i, step))
  {
    match step
    case Acquire => AcquireDirLocks(s, i);
    case Act(ready) =>
      if s.tasks[i].pc.sawStop || ready {
        FinishDirLocks(s, i);
      } else {
        FrameDirLocks(s, StepApply(s, i, step));
      }
    case Poll(ready) =>
      if s.sockets[s.tasks[i].op.handle].closed || ready {
        FinishDirLocks(s, i);
      } else {
        FrameDirLocks(s, StepApply(s, i, step));
      }
    case ReadFlag =>
      if Stopping(s) {
        FinishDirLocks(s, i);
      } else {
        FrameDirLocks(s, StepApply(s, i, step));
      }
    case Cancel => FinishDirLocks(s, i);
    case _ => FrameDirLocks(s, StepApply(s, i, step));
  }

  lemma AcquireDirLocks(s: State, i: nat)
    requires DirLocksHeld(s) && At(s, i) && StepEnabled(s, i, Acquire)
    ensures DirLocksHeld(StepApply(s, i, Acquire))
  {
  }

  lemma KeepsDirLocks(s: State, a: Action)
    requires DirLocksHeld(s) && CanDo(s, a)
    ensures DirLocksHeld(Apply(s, a))
  {
    if a.Step? {
      TaskStepDirLocks(s, a.i, a.step);
    } else {
      FrameDirLocks(s, Apply(s, a));
    }
  }

  // Wakers

  lemma FrameWakers(s: State, s': State)
    requires WakersStored(s) && |s.tasks| <= |s'.tasks|
    requires forall j :: 0 <= j < |s.tasks| ==>
               s'.tasks[j].op == s.tasks[j].op && (Asleep(s'.tasks[j]) ==> Asleep(s.tasks[j]))
    requires forall j :: |s.tasks| <= j < |s'.tasks| ==> !Asleep(s'.tasks[j])
    requires forall sl ::
               (sl in s.wakers && s.wakers[sl] < |s'.tasks| && Asleep(s'.tasks[s.wakers[sl]])
                && Touches(s'.tasks[s.wakers[sl]].op, sl)) ==>
                 sl in s'.wakers && s'.wakers[sl] == s.wakers[sl]
    ensures WakersStored(s')
  {
    forall i, sl | 0 <= i < |s'.tasks| && Asleep(s'.tasks[i]) && Touches(s'.tasks[i].op, sl)
      ensures sl in s'.wakers && s'.wakers[sl] == i
    {
      assert sl in s.wakers && s.wakers[sl] == i;
    }
  }

  lemma ParkWakers(s: State, i: nat)
    requires WakersStored(s) && Exclusive(s) && At(s, i) && Engaged(s.tasks[i])
    ensures WakersStored(Park(s, i))
  {
    var s' := Park(s, i);
    forall j, sl | 0 <= j < |s'.tasks| && Asleep(s'.tasks[j]) && Touches(s'.tasks[j].op, sl)
      ensures sl in s'.wakers && s'.wakers[sl] == j
    {
      assert j != i ==> !(Touches(s.tasks[j].op, sl) && Touches(s.tasks[i].op, sl));
    }
  }

  lemma TaskStepWakers(s: State, i: nat, step: TaskStep)
    requires WakersStored(s) && Exclusive(s) && At(s, i) && StepEnabled(s, i, step)
    ensures WakersStored(StepApply(s, i, step))
  {
    if step.Act? && !s.tasks[i].pc.sawStop && !step.ready {
      ParkWakers(s, i);
    } else if step.Poll? && !s.sockets[s.tasks[i].op.handle].closed && !step.ready {
      ParkWakers(s, i);
    } else {
      FrameWakers(s, StepApply(s, i, step));
    }
  }

  lemma KeepsWakers(s: State, a: Action)
    requires WakersStored(s) && Exclusive(s) && CanDo(s, a)
    ensures WakersStored(Apply(s, a))
  {
    match a
    case Step(i, step) => TaskStepWakers(s, i, step);
    case RemoveSocket(h) => RemoveWakers(s, h);
    case Network(_, wakes) => NetworkWakers(s, a.closed, wakes);
    case _ => FrameWakers(s, Apply(s, a));
  }

  lemma RemoveWakers(s: State, h: nat)
    requires WakersStored(s) && CanDo(s, RemoveSocket(h))
    ensures WakersStored(Apply(s, RemoveSocket(h)))
  {
    SlotCases();
    forall i, sl | 0 <= i < |s.tasks| && Asleep(s.tasks[i]) && Touches(s.tasks[i].op, sl)
      ensures sl.handle != h
    {
      assert !Uses(s.tasks[i].op, h);
    }
  }

  lemma NetworkWakers(s: State, closed: map<nat, bool>, wakes: set<Slot>)
    requires WakersStored(s) && CanDo(s, Network(closed, wakes))
    ensures WakersStored(Apply(s, Network(closed, wakes)))
  {
    forall i, sl | 0 <= i < |s.tasks| && Asleep(s.tasks[i]) && Touches(s.tasks[i].op, sl) && sl in wakes
      ensures i in Waked(s.wakers, wakes)
    {
    }
  }

  // Lock, shapes, epochs, and what stop has achieved

  lemma TaskStepLocks(s: State, i: nat, step: TaskStep)
    requires LockHeld(s) && At(s, i) && StepEnabled(s, i, step)
    ensures LockHeld(StepApply(s, i, step))
  {
  }

  lemma TaskStepShapes(s: State, i: nat, step: TaskStep)
    requires Shapes(s) && At(s, i) && StepEnabled(s, i, step)
    ensures Shapes(StepApply(s, i, step))
  {
  }

  lemma TaskStepEpochs(s: State, i: nat, step: TaskStep)
    requires Epochs(s) && At(s, i) && StepEnabled(s, i, step)
    ensures Epochs(StepApply(s, i, step))
  {
  }

  lemma TaskStepStops(s: State, i: nat, step: TaskStep)
    requires Stopped(s) && Typed(s) && At(s, i) && StepEnabled(s, i, step)
    ensures Stopped(StepApply(s, i, step))
  {
    var t := s.tasks[i];
    if step.Poll? && Closing(s) {
      assert t.op.Read? || t.op.Write? || t.op.Flush? ==> s.sockets[t.op.handle].closed;
    }
  }

  lemma OtherStepKeeps(s: State, a: Action)
    requires LockHeld(s) && Shapes(s) && Epochs(s) && CanDo(s, a) && !a.Step?
    ensures var s' := Apply(s, a); LockHeld(s') && Shapes(s') && Epochs(s')
  {
  }

  lemma CloseStops(s: State)
    requires Inv(s) && CanDo(s, StopClose)
    ensures Stopped(Apply(s, StopClose))
  {
    forall i | 0 <= i < |s.tasks| && !EmptyAccept(s.tasks[i].op)
      ensures !Asleep(Apply(s, StopClose).tasks[i])
    {
      CloseWakes(s, i);
    }
  }

  lemma RemoveStops(s: State, h: nat)
    requires Inv(s) && CanDo(s, RemoveSocket(h))
    ensures Stopped(Apply(s, RemoveSocket(h)))
  {
    forall i | 0 <= i < |s.tasks| && Live(s.tasks[i]) && s.tasks[i].op.Connect?
      ensures s.tasks[i].op.handle != h
    {
      assert Uses(s.tasks[i].op, s.tasks[i].op.handle);
    }
  }

  lemma OtherStepStops(s: State, a: Action)
    requires Inv(s) && CanDo(s, a) && !a.Step?
    ensures Stopped(Apply(s, a))
  {
    match a
    case StopClose => CloseStops(s);
    case RemoveSocket(h) => RemoveStops(s, h);
    case _ =>
  }

  lemma KeepsRest(s: State, a: Action)
    requires Inv(s) && CanDo(s, a)
    ensures var s' := Apply(s, a); LockHeld(s') && Shapes(s') && Stopped(s') && Epochs(s')
  {
    if a.Step? {
      TaskStepLocks(s, a.i, a.step);
      TaskStepShapes(s, a.i, a.step);
      TaskStepEpochs(s, a.i, a.step);
      TaskStepStops(s, a.i, a.step);
    } else {
      OtherStepKeeps(s, a);
      OtherStepStops(s, a);
    }
  }

  lemma CloseWakes(s: State, i: nat)
    requires WakersStored(s) && Shapes(s) && CanDo(s, StopClose) && At(s, i) && !EmptyAccept(s.tasks[i].op)
    ensures !Asleep(Apply(s, StopClose).tasks[i])
  {
    var op := s.tasks[i].op;
    if Asleep(s.tasks[i]) {
      var sl := if op.Accept? then Slot(op.pool[0], Recv)
                else if op.UdpRecv? || op.Read? then Slot(op.handle, Recv) else Slot(op.handle, Send);
      assert Touches(op, sl);
      assert sl in s.wakers.Keys && s.wakers[sl] == i;
      assert i in Waked(s.wakers, s.wakers.Keys);
    }
  }

  lemma StepKeeps(s: State, a: Action)
    requires Inv(s) && CanDo(s, a)
    ensures Inv(Apply(s, a))
  {
    KeepsExclusive(s, a);
    KeepsTyped(s, a);
    KeepsDirLocks(s, a);
    KeepsWakers(s, a);
    KeepsRest(s, a);
  }

  // ---- Every run ----

  ghost predicate Begin(s: State) {
    && s.phase.Running? && s.epoch == 0 && s.lock.None? && s.tasks == []
    && s.wakers == map[] && s.dirLocks == map[] && s.listeners == []
    && forall h :: h in s.sockets ==> !s.sockets[h].late
  }

  ghost predicate Run(s: State, actions: seq<Action>, t: State)
    decreases |actions|
  {
    if actions == [] then s == t
    else CanDo(s, actions[0]) && Run(Apply(s, actions[0]), actions[1..], t)
  }

  lemma {:induction false} RunKeeps(s: State, actions: seq<Action>, t: State)
    requires Inv(s) && Run(s, actions, t)
    ensures Inv(t)
    decreases |actions|
  {
    if actions != [] {
      StepKeeps(s, actions[0]);
      RunKeeps(Apply(s, actions[0]), actions[1..], t);
    }
  }

  /**
   Wherever the flag was written relative to a waiter's check: once every socket is closed, no
   accept, UDP operation, stream read, write or flush, or earlier connect sleeps unwoken; once
   `stop` has notified, no `wait_stopped` does either.
   */
  lemma StopStrandsNoOne(s: State, actions: seq<Action>, t: State)
    requires Begin(s) && Run(s, actions, t)
    ensures Closing(t) ==> forall i :: 0 <= i < |t.tasks| && Asleep(t.tasks[i]) ==> OutOfReach(t, t.tasks[i])
    ensures t.phase.Notified? ==>
              forall i :: 0 <= i < |t.tasks| && t.tasks[i].pc.Waiting? ==> t.tasks[i].pc.epoch < t.epoch
  {
    RunKeeps(s, actions, t);
  }

  /**
   A sleeping task's stored waker is never replaced by another waiter's: the direction locks see
   to it on a shared UDP socket, the exclusive borrow everywhere else.
   */
  lemma SleepersKeepTheirWakers(s: State, actions: seq<Action>, t: State, i: nat, sl: Slot)
    requires Begin(s) && Run(s, actions, t)
    requires At(t, i) && Asleep(t.tasks[i]) && Touches(t.tasks[i].op, sl)
    ensures sl in t.wakers && t.wakers[sl] == i
    ensures IsUdp(t.tasks[i].op) ==> sl in t.dirLocks && t.dirLocks[sl] == i
  {
    RunKeeps(s, actions, t);
  }

  /** How far an operation on a stopped stack is from its end. */
  function Rank(t: Task): nat {
    match t.pc
    case Done => 0
    case Checked(_) => 1
    case Enabled(_) => 1
    case Ready => 2
    case Parked(_) => 3
    case Waiting(_) => 3
    case Queued => 3
  }

  /** On a stopped stack every step of an operation brings it nearer its end, late connects apart. */
  lemma StoppedStepsDescend(s: State, i: nat, step: TaskStep)
    requires Inv(s) && s.phase.Notified? && At(s, i) && StepEnabled(s, i, step)
    requires !LateConnect(s, s.tasks[i])
    ensures Rank(StepApply(s, i, step).tasks[i]) < Rank(s.tasks[i])
    ensures forall j :: 0 <= j < |s.tasks| && j != i ==> StepApply(s, i, step).tasks[j] == s.tasks[j]
  {
  }

  /** And while an operation within reach is unfinished, a runnable operation has a step to take. */
  lemma StoppedStackMoves(s: State, i: nat) returns (j: nat, step: TaskStep)
    requires Inv(s) && s.phase.Notified? && At(s, i) && Live(s.tasks[i]) && !OutOfReach(s, s.tasks[i])
    ensures At(s, j) && StepEnabled(s, j, step) && !step.Cancel? && Live(s.tasks[j])
    ensures !LateConnect(s, s.tasks[j]) && !Asleep(s.tasks[j])
  {
    if s.lock.Some? {
      j, step := s.lock.value, Act(false);
    } else if s.tasks[i].pc.Queued? && UdpSlot(s.tasks[i].op) in s.dirLocks {
      j := s.dirLocks[UdpSlot(s.tasks[i].op)];
      step := NextStep(s, j);
    } else {
      j := i;
      step := NextStep(s, i);
    }
  }

  lemma NextStep(s: State, j: nat) returns (step: TaskStep)
    requires Inv(s) && s.phase.Notified? && s.lock.None? && At(s, j) && Live(s.tasks[j])
    requires s.tasks[j].pc.Queued? ==> UdpSlot(s.tasks[j].op) !in s.dirLocks
    ensures StepEnabled(s, j, step) && !step.Cancel?
  {
    var t := s.tasks[j];
    match t.pc
    case Queued => step := Acquire;
    case Ready =>
      step := if t.op.WaitStopped? then Enable else if ReadsFlag(t.op) then Check else Poll(false);
      if step.Poll? {
        assert Uses(t.op, t.op.handle);
      }
    case Parked(_) => step := Resume;
    case Enabled(_) => step := ReadFlag;
    case Waiting(_) => step := Resume;
  }

  /** The property is false of a connect begun on a stopped stack: it can always be stranded. */
  lemma LateConnectIsStranded(s: State, h: nat) returns (t: State)
    requires Inv(s) && s.phase.Notified? && s.lock.None? && h !in s.sockets
    ensures Run(s, [AddSocket(h, false)] + ([Start(Connect(h))] + ([Step(|s.tasks|, Poll(false))] + [])), t)
    ensures t.phase.Notified? && |t.tasks| == |s.tasks| + 1
    ensures Asleep(t.tasks[|s.tasks|]) && LateConnect(t, t.tasks[|s.tasks|])
  {
    var n := |s.tasks|;
    var added := Apply(s, AddSocket(h, false));
    assert MayStart(added, Connect(h)) by {
      forall j, sl | 0 <= j < n && Live(s.tasks[j]) && Touches(s.tasks[j].op, sl)
        ensures !Touches(Connect(h), sl)
      {
        SlotCases();
        assert Uses(s.tasks[j].op, sl.handle);
      }
    }
    var started := Apply(added, Start(Connect(h)));
    t := StepApply(started, n, Poll(false));
    RunCons(started, Step(n, Poll(false)), [], t);
    RunCons(added, Start(Connect(h)), [Step(n, Poll(false))] + [], t);
    RunCons(s, AddSocket(h, false), [Start(Connect(h))] + ([Step(n, Poll(false))] + []), t);
  }

  lemma RunCons(s: State, a: Action, rest: seq<Action>, t: State)
    requires CanDo(s, a) && Run(Apply(s, a), rest, t)
    ensures Run(s, [a] + rest, t)
  {
    assert ([a] + rest)[1..] == rest;
  }
}
