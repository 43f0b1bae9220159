/** What holds in every reachable state of the socket-slot protocol, whatever the interleaving. */
module SlotSafety {
  import opened Bags
  import opened SocketStack
  import opened SlotProtocol

  // ---- The invariant ----

  /** The measures "how often this task, or this closing entry, holds `r`". */
  ghost function TaskHolds(r: Held): Task -> nat { (t: Task) => Holds(t, r) }

  ghost function EntryHolds(r: Held): ClosingEntry -> nat { (c: ClosingEntry) => Is(c.socket, TcpFamily, r) }

  /** How often anyone holds `r`: the resolver, the tasks and the closing list together. */
  ghost function Owners(s: State, r: Held): nat {
    (if s.resolver.Some? then Is(s.resolver.value, DnsFamily, r) else 0)
      + Sum(s.tasks, TaskHolds(r)) + Sum(s.inner.closing, EntryHolds(r))
  }

  function Live(sockets: map<nat, Socket>, r: Held): nat { if IsLive(sockets, r.socket, r.family) then 1 else 0 }

  /** Every socket in the set has exactly one owner, and nothing else is held. */
  ghost predicate OwnInv(s: State) {
    forall r: Held :: Owners(s, r) == Live(s.inner.sockets, r)
  }

  ghost predicate CountInv(s: State) {
    && s.open == Sum(s.tasks, SlotOf) + CountedSlots(s.inner.closing)
    && s.open <= MAX_SOCKETS
  }

  ghost predicate FreshInv(s: State) {
    forall h :: h in s.inner.sockets ==> s.inner.sockets[h].id < s.nextId
  }

  predicate HoldsLock(t: Task) { t.Reclaiming? || t.ReclaimRinging? }

  /** A reclaim pass under way will leave what it would have left undisturbed. */
  ghost predicate PassOk(s: State, t: Task) {
    HoldsLock(t) ==>
      && WellFormed(s.inner)
      && t.index <= |s.inner.closing|
      && ReclaimFrom(s.inner, t.index, t.since, t.job.Claim?) == t.goal
  }

  ghost predicate LockInv(s: State) {
    && (forall i :: 0 <= i < |s.tasks| && HoldsLock(s.tasks[i]) ==> s.lock == Some(i))
    && (s.lock.Some? ==> s.lock.value < |s.tasks| && HoldsLock(s.tasks[s.lock.value]))
    && (forall i :: 0 <= i < |s.tasks| ==> PassOk(s, s.tasks[i]))
  }

  function PurposeEpoch(p: Purpose): Option<nat> { if p.ForAccept? then None else p.enabled }

  /** The ring count at which a dial or a bind enabled its notification, if it did. */
  function EpochOf(t: Task): Option<nat> {
    match t
    case Loading(p) => PurposeEpoch(p)
    case WantReclaim(p) => PurposeEpoch(p)
    case Updating(p) => PurposeEpoch(p)
    case Reclaiming(j, _, _, _) => if j.Claim? then PurposeEpoch(j.purpose) else None
    case ReclaimRinging(j, _, _, _) => if j.Claim? then PurposeEpoch(j.purpose) else None
    case Refused(e) => e
    case _ => None
  }

  /** A refused dial or bind whose notification was enabled first and has not been woken. */
  predicate Asleep(s: State, t: Task) { t.Refused? && t.enabled == Some(s.rung) }

  ghost predicate WakeInv(s: State) {
    && (forall i :: 0 <= i < |s.tasks| && EpochOf(s.tasks[i]).Some? ==> EpochOf(s.tasks[i]).value <= s.rung)
    && (forall i :: 0 <= i < |s.tasks| && Asleep(s, s.tasks[i]) ==>
          MAX_SOCKETS - s.open <= Sum(s.tasks, RingOwed))
  }

  ghost predicate Inv(s: State) {
    OwnInv(s) && CountInv(s) && FreshInv(s) && LockInv(s) && WakeInv(s)
  }

  // ---- One owner, one socket ----

  lemma HeldIsLive(s: State, i: nat, r: Held)
    requires OwnInv(s) && i < |s.tasks| && Holds(s.tasks[i], r) > 0
    ensures IsLive(s.inner.sockets, r.socket, r.family) && Holds(s.tasks[i], r) == 1
  {
    SumContains(s.tasks, i, TaskHolds(r));
    assert Owners(s, r) == Live(s.inner.sockets, r);
  }

  lemma EntryIsLive(s: State, k: nat)
    requires OwnInv(s) && k < |s.inner.closing|
    ensures IsLive(s.inner.sockets, s.inner.closing[k].socket, TcpFamily)
  {
    var r := Held(s.inner.closing[k].socket, TcpFamily);
    SumContains(s.inner.closing, k, EntryHolds(r));
    assert Owners(s, r) == Live(s.inner.sockets, r);
  }

  lemma HoldersDiffer(s: State, i: nat, j: nat, r: Held, q: Held)
    requires OwnInv(s) && i < j < |s.tasks| && Holds(s.tasks[i], r) > 0 && Holds(s.tasks[j], q) > 0
    ensures r.socket.handle != q.socket.handle
  {
    HeldIsLive(s, i, r);
    HeldIsLive(s, j, q);
    assert Owners(s, r) == Live(s.inner.sockets, r);
    if r == q {
      SumPair(s.tasks, i, j, TaskHolds(r));
    }
  }

  lemma HolderIsNotClosing(s: State, i: nat, r: Held, k: nat)
    requires OwnInv(s) && i < |s.tasks| && Holds(s.tasks[i], r) > 0 && k < |s.inner.closing|
    ensures r.socket.handle != s.inner.closing[k].socket.handle
  {
    HeldIsLive(s, i, r);
    EntryIsLive(s, k);
    SumContains(s.tasks, i, TaskHolds(r));
    SumContains(s.inner.closing, k, EntryHolds(r));
    assert Owners(s, r) == Live(s.inner.sockets, r);
  }

  lemma ClosingWellFormed(s: State)
    requires OwnInv(s)
    ensures WellFormed(s.inner)
  {
    var closing := s.inner.closing;
    forall k | 0 <= k < |closing|
      ensures IsLive(s.inner.sockets, closing[k].socket, TcpFamily)
    {
      EntryIsLive(s, k);
    }
    forall i, j | 0 <= i < j < |closing|
      ensures closing[i].socket.handle != closing[j].socket.handle
    {
      var r := Held(closing[i].socket, TcpFamily);
      SumPair(closing, i, j, EntryHolds(r));
      assert Owners(s, r) == Live(s.inner.sockets, r);
    }
  }

  // ---- Ownership is kept by every step ----

  /** What task `i` and the closing list gain or lose, the socket set gains or loses. */
  lemma OwnMove(s: State, s': State, i: nat, r: Held)
    requires Owners(s, r) == Live(s.inner.sockets, r) && At(s, i) && s'.resolver == s.resolver
    requires |s'.tasks| == |s.tasks| && s'.tasks == s.tasks[i := s'.tasks[i]]
    requires Holds(s'.tasks[i], r) + Sum(s'.inner.closing, EntryHolds(r)) + Live(s.inner.sockets, r)
          == Holds(s.tasks[i], r) + Sum(s.inner.closing, EntryHolds(r)) + Live(s'.inner.sockets, r)
    ensures Owners(s', r) == Live(s'.inner.sockets, r)
  {
    SumUpdate(s.tasks, i, s'.tasks[i], TaskHolds(r));
  }

  lemma PoolRemoved(s: State, i: nat, pool: seq<Ref>, r: Held)
    requires OwnInv(s) && At(s, i)
    requires forall q :: InPool(pool, q) <= Holds(s.tasks[i], q)
    ensures Live(s.inner.sockets - Handles(pool), r) + InPool(pool, r) == Live(s.inner.sockets, r)
  {
    if InPool(pool, r) > 0 {
      HeldIsLive(s, i, r);
      var k := SumWitness(pool, IsPooled(r));
      assert pool[k].handle in Handles(pool);
    } else if r.socket.handle in Handles(pool) {
      var k :| 0 <= k < |pool| && pool[k].handle == r.socket.handle;
      var q := Held(pool[k], TcpFamily);
      SumContains(pool, k, IsPooled(q));
      assert InPool(pool, q) > 0;
      HeldIsLive(s, i, q);
      SumContains(pool, k, IsPooled(r));
    }
  }

  lemma OneRemoved(s: State, i: nat, q: Ref, family: Family, r: Held)
    requires OwnInv(s) && At(s, i) && Holds(s.tasks[i], Held(q, family)) > 0
    ensures Live(s.inner.sockets - {q.handle}, r) + Is(q, family, r) == Live(s.inner.sockets, r)
  {
    HeldIsLive(s, i, Held(q, family));
  }

  lemma OneAdded(s: State, slot: nat, family: Family, r: Held)
    requires slot !in s.inner.sockets
    ensures Live(Added(s, slot, family).inner.sockets, r)
         == Live(s.inner.sockets, r) + Is(Ref(slot, s.nextId), family, r)
  {
  }

  lemma PassTurnOwns(s: State, i: nat, r: Held)
    requires OwnInv(s) && At(s, i) && ClaimEnabled(s, s.tasks[i], ReclaimNext)
    ensures Owners(PassTurn(s, i), r) == Live(PassTurn(s, i).inner.sockets, r)
  {
    var t := s.tasks[i];
    EntryIsLive(s, t.index);
    SumSwapRemove(s.inner.closing, t.index, EntryHolds(r));
    OwnMove(s, PassTurn(s, i), i, r);
  }

  lemma ClaimedOwns(s: State, i: nat, r: Held)
    requires Owners(s, r) == Live(s.inner.sockets, r) && At(s, i) && s.tasks[i].Updating?
    ensures var s' := Claimed(s, i, s.tasks[i].purpose); Owners(s', r) == Live(s'.inner.sockets, r)
  {
    var p := s.tasks[i].purpose;
    if p.ForAccept? && s.open < MAX_SOCKETS {
      var tasks := s.tasks[i := Listening(p.pool)];
      SumUpdate(s.tasks, i, Listening(p.pool), TaskHolds(r));
      SumAppend(tasks, Stream(p.taken, false, 0), TaskHolds(r));
      assert Claimed(s, i, p).tasks == tasks + [Stream(p.taken, false, 0)];
    } else {
      OwnMove(s, Claimed(s, i, p), i, r);
    }
  }

  lemma ClaimOwns(s: State, i: nat, c: ClaimStep, r: Held)
    requires OwnInv(s) && At(s, i) && ClaimEnabled(s, s.tasks[i], c)
    ensures var s' := ClaimApply(s, i, c); Owners(s', r) == Live(s'.inner.sockets, r)
  {
    if c.ReclaimNext? {
      PassTurnOwns(s, i, r);
    } else if c.Update? {
      ClaimedOwns(s, i, r);
    } else {
      OwnMove(s, ClaimApply(s, i, c), i, r);
    }
  }

  lemma UseOwns(s: State, i: nat, u: SocketStep, r: Held)
    requires OwnInv(s) && At(s, i) && UseEnabled(s, s.tasks[i], u)
    ensures var s' := UseApply(s, i, u); Owners(s', r) == Live(s'.inner.sockets, r)
  {
    var t := s.tasks[i];
    match u {
      case Open(slot, _) => OneAdded(s, slot, TypeOf(t.udp), r);
      case Discard => OneRemoved(s, i, t.socket, TypeOf(t.udp), r);
      case DropUdp => OneRemoved(s, i, t.socket, UdpFamily, r);
      case Retire => SumAppend(s.inner.closing, ClosingEntry(t.socket, s.now + LINGER, true), EntryHolds(r));
      case _ =>
    }
    OwnMove(s, UseApply(s, i, u), i, r);
  }

  lemma GrowOwns(s: State, i: nat, l: ListenerStep, r: Held)
    requires Owners(s, r) == Live(s.inner.sockets, r) && At(s, i) && AcceptEnabled(s, s.tasks[i], l)
    requires l.ListenOne? || l.Refill?
    ensures var s' := AcceptApply(s, i, l); Owners(s', r) == Live(s'.inner.sockets, r)
  {
    var s', t, q := AcceptApply(s, i, l), s.tasks[i], Ref(l.slot, s.nextId);
    if l.ok {
      OneAdded(s, l.slot, TcpFamily, r);
      SumAppend(t.pool, q, IsPooled(r));
      assert InPool(t.pool + [q], r) == InPool(t.pool, r) + Is(q, TcpFamily, r);
      assert Holds(s'.tasks[i], r) == Holds(t, r) + Is(q, TcpFamily, r);
    } else {
      assert Holds(s'.tasks[i], r) == Holds(t, r);
    }
    OwnMove(s, s', i, r);
  }

  lemma TakeOwns(s: State, i: nat, k: nat, r: Held)
    requires OwnInv(s) && At(s, i) && AcceptEnabled(s, s.tasks[i], Take(k))
    ensures var s' := AcceptApply(s, i, Take(k)); Owners(s', r) == Live(s'.inner.sockets, r)
  {
    var pool := s.tasks[i].pool;
    SumSwapRemove(pool, k, IsPooled(r));
    assert InPool(SwapRemove(pool, k), r) + Is(pool[k], TcpFamily, r) == InPool(pool, r);
    OwnMove(s, AcceptApply(s, i, Take(k)), i, r);
  }

  /** The taken connection is discarded or reset. */
  lemma LoseOwns(s: State, i: nat, l: ListenerStep, r: Held)
    requires OwnInv(s) && At(s, i) && AcceptEnabled(s, s.tasks[i], l) && (l.DiscardTaken? || l.ResetTaken?)
    ensures var s' := AcceptApply(s, i, l); Owners(s', r) == Live(s'.inner.sockets, r)
  {
    var t := s.tasks[i];
    if l.DiscardTaken? {
      OneRemoved(s, i, t.socket, TcpFamily, r);
    } else {
      SumAppend(s.inner.closing, ClosingEntry(t.socket, s.now + LINGER, false), EntryHolds(r));
    }
    OwnMove(s, AcceptApply(s, i, l), i, r);
  }

  lemma AcceptOwns(s: State, i: nat, l: ListenerStep, r: Held)
    requires OwnInv(s) && At(s, i) && AcceptEnabled(s, s.tasks[i], l)
    ensures var s' := AcceptApply(s, i, l); Owners(s', r) == Live(s'.inner.sockets, r)
  {
    match l
    case ListenOne(_, _) => GrowOwns(s, i, l, r);
    case Refill(_, _) => GrowOwns(s, i, l, r);
    case Take(k) => TakeOwns(s, i, k, r);
    case DiscardTaken => LoseOwns(s, i, l, r);
    case ResetTaken => LoseOwns(s, i, l, r);
    case DropListener => OwnMove(s, AcceptApply(s, i, l), i, r);
    case DiscardPool => DiscardPoolOwns(s, i, r);
  }

  lemma DiscardPoolOwns(s: State, i: nat, r: Held)
    requires OwnInv(s) && At(s, i) && s.tasks[i].Dropping? && s.lock.None?
    ensures var s' := AcceptApply(s, i, DiscardPool); Owners(s', r) == Live(s'.inner.sockets, r)
  {
    PoolRemoved(s, i, s.tasks[i].pool, r);
    OwnMove(s, AcceptApply(s, i, DiscardPool), i, r);
  }

  lemma OutsideOwns(s: State, o: Outside, r: Held)
    requires OwnInv(s) && OutsideEnabled(s, o)
    ensures var s' := FromOutsideApply(s, o); Owners(s', r) == Live(s'.inner.sockets, r)
  {
    var s' := FromOutsideApply(s, o);
    if |s'.tasks| > |s.tasks| {
      SumAppend(s.tasks, s'.tasks[|s.tasks|], TaskHolds(r));
    }
    assert Owners(s, r) == Live(s.inner.sockets, r);
  }

  lemma StepOwns(s: State, a: Action)
    requires OwnInv(s) && Enabled(s, a)
    ensures OwnInv(Apply(s, a))
  {
    forall r: Held
      ensures Owners(Apply(s, a), r) == Live(Apply(s, a).inner.sockets, r)
    {
      match a
      case FromOutside(o) => OutsideOwns(s, o, r);
      case Claiming(i, c) => ClaimOwns(s, i, c, r);
      case Using(i, u) => UseOwns(s, i, u, r);
      case Accepting(i, l) => AcceptOwns(s, i, l, r);
    }
  }

  // ---- The slot count is kept by every step ----

  lemma PassTurnCounts(s: State, i: nat)
    requires CountInv(s) && At(s, i) && ClaimEnabled(s, s.tasks[i], ReclaimNext)
    ensures CountInv(PassTurn(s, i))
  {
    SumUpdate(s.tasks, i, PassTurn(s, i).tasks[i], SlotOf);
    SumSwapRemove(s.inner.closing, s.tasks[i].index, CountedSlot);
  }

  lemma ClaimedCounts(s: State, i: nat)
    requires CountInv(s) && At(s, i) && s.tasks[i].Updating?
    ensures CountInv(Claimed(s, i, s.tasks[i].purpose))
  {
    var p := s.tasks[i].purpose;
    if p.ForAccept? && s.open < MAX_SOCKETS {
      var tasks := s.tasks[i := Listening(p.pool)];
      SumUpdate(s.tasks, i, Listening(p.pool), SlotOf);
      SumAppend(tasks, Stream(p.taken, false, 0), SlotOf);
      assert Claimed(s, i, p).tasks == tasks + [Stream(p.taken, false, 0)];
    } else {
      SumUpdate(s.tasks, i, Claimed(s, i, p).tasks[i], SlotOf);
    }
  }

  lemma ClaimCounts(s: State, i: nat, c: ClaimStep)
    requires CountInv(s) && At(s, i) && ClaimEnabled(s, s.tasks[i], c)
    ensures CountInv(ClaimApply(s, i, c))
  {
    if c.ReclaimNext? {
      PassTurnCounts(s, i);
    } else if c.Update? {
      ClaimedCounts(s, i);
    } else {
      SumUpdate(s.tasks, i, ClaimApply(s, i, c).tasks[i], SlotOf);
    }
  }

  lemma UseCounts(s: State, i: nat, u: SocketStep)
    requires CountInv(s) && At(s, i) && UseEnabled(s, s.tasks[i], u)
    ensures CountInv(UseApply(s, i, u))
  {
    SumUpdate(s.tasks, i, UseApply(s, i, u).tasks[i], SlotOf);
    if u.Retire? {
      SumAppend(s.inner.closing, ClosingEntry(s.tasks[i].socket, s.now + LINGER, true), CountedSlot);
    }
  }

  lemma AcceptCounts(s: State, i: nat, l: ListenerStep)
    requires CountInv(s) && At(s, i) && AcceptEnabled(s, s.tasks[i], l)
    ensures CountInv(AcceptApply(s, i, l))
  {
    SumUpdate(s.tasks, i, AcceptApply(s, i, l).tasks[i], SlotOf);
    if l.ResetTaken? {
      SumAppend(s.inner.closing, ClosingEntry(s.tasks[i].socket, s.now + LINGER, false), CountedSlot);
    }
  }

  lemma OutsideCounts(s: State, o: Outside)
    requires CountInv(s) && OutsideEnabled(s, o)
    ensures CountInv(FromOutsideApply(s, o))
  {
    var s' := FromOutsideApply(s, o);
    if |s'.tasks| > |s.tasks| {
      SumAppend(s.tasks, s'.tasks[|s.tasks|], SlotOf);
    }
  }

  lemma StepCounts(s: State, a: Action)
    requires CountInv(s) && Enabled(s, a)
    ensures CountInv(Apply(s, a))
  {
    match a
    case FromOutside(o) => OutsideCounts(s, o);
    case Claiming(i, c) => ClaimCounts(s, i, c);
    case Using(i, u) => UseCounts(s, i, u);
    case Accepting(i, l) => AcceptCounts(s, i, l);
  }

  lemma StepFresh(s: State, a: Action)
    requires FreshInv(s) && Enabled(s, a)
    ensures FreshInv(Apply(s, a))
  {
  }

  // ---- The lock, and the reclaim pass it protects ----

  /** A step taken while the lock is free, by a task that does not take it. */
  lemma LockFree(s: State, s': State)
    requires LockInv(s) && s.lock.None? && s'.lock.None?
    requires forall j :: 0 <= j < |s'.tasks| ==>
               (j < |s.tasks| && s'.tasks[j] == s.tasks[j]) || !HoldsLock(s'.tasks[j])
    ensures LockInv(s')
  {
  }

  /** A step of a task without the lock that touches nothing the lock protects. */
  lemma LockElsewhere(s: State, s': State, i: nat)
    requires LockInv(s) && s'.lock == s.lock && s'.inner == s.inner
    requires At(s, i) && !HoldsLock(s.tasks[i])
    requires |s.tasks| <= |s'.tasks|
    requires forall j :: 0 <= j < |s'.tasks| ==>
               || (j < |s.tasks| && j != i && s'.tasks[j] == s.tasks[j])
               || (!HoldsLock(s'.tasks[j]) && (j == i || j >= |s.tasks|))
    ensures LockInv(s')
  {
  }

  lemma PassTurnLocks(s: State, i: nat)
    requires LockInv(s) && At(s, i) && ClaimEnabled(s, s.tasks[i], ReclaimNext)
    ensures LockInv(PassTurn(s, i))
  {
    var t, s' := s.tasks[i], PassTurn(s, i);
    assert PassOk(s, t) && s.lock == Some(i);
    if !Keeps(s.inner.sockets, s.inner.closing[t.index], t.since, t.job.Claim?) {
      ReclaimDrops(s.inner, t.index, t.since, t.job.Claim?);
    }
    assert PassOk(s', s'.tasks[i]);
  }

  lemma ClaimLocks(s: State, i: nat, c: ClaimStep)
    requires LockInv(s) && At(s, i) && ClaimEnabled(s, s.tasks[i], c)
    ensures LockInv(ClaimApply(s, i, c))
  {
    var t, s' := s.tasks[i], ClaimApply(s, i, c);
    match c
    case Load => LockElsewhere(s, s', i);
    case BeginReclaim => assert PassOk(s', s'.tasks[i]);
    case ReclaimNext => PassTurnLocks(s, i);
    case ReclaimRing => assert PassOk(s, t);
    case ReclaimEnd => assert s.lock == Some(i);
    case Update => LockElsewhere(s, s', i);
  }

  lemma UseLocks(s: State, i: nat, u: SocketStep)
    requires LockInv(s) && At(s, i) && UseEnabled(s, s.tasks[i], u)
    ensures LockInv(UseApply(s, i, u))
  {
    if u.Abandon? || u.Decrement? || u.Ring? {
      LockElsewhere(s, UseApply(s, i, u), i);
    } else {
      LockFree(s, UseApply(s, i, u));
    }
  }

  lemma AcceptLocks(s: State, i: nat, l: ListenerStep)
    requires LockInv(s) && At(s, i) && AcceptEnabled(s, s.tasks[i], l)
    ensures LockInv(AcceptApply(s, i, l))
  {
    if l.DropListener? {
      LockElsewhere(s, AcceptApply(s, i, l), i);
    } else {
      LockFree(s, AcceptApply(s, i, l));
    }
  }

  lemma OutsideLocks(s: State, o: Outside)
    requires LockInv(s) && OutsideEnabled(s, o)
    ensures LockInv(FromOutsideApply(s, o))
  {
    var s' := FromOutsideApply(s, o);
    match o
    case Network(_) => LockFree(s, s');
    case SpawnPoll(states) =>
      WithStatesWellFormed(s.inner, states);
      assert PassOk(s', s'.tasks[|s.tasks|]);
    case _ =>
      assert s'.inner == s.inner && s'.lock == s.lock;
      assert forall j :: 0 <= j < |s.tasks| ==> s'.tasks[j] == s.tasks[j];
      assert forall t :: PassOk(s, t) ==> PassOk(s', t);
  }

  lemma StepLocks(s: State, a: Action)
    requires LockInv(s) && Enabled(s, a)
    ensures LockInv(Apply(s, a))
  {
    match a
    case FromOutside(o) => OutsideLocks(s, o);
    case Claiming(i, c) => ClaimLocks(s, i, c);
    case Using(i, u) => UseLocks(s, i, u);
    case Accepting(i, l) => AcceptLocks(s, i, l);
  }

  // ---- The slot-freed signal ----

  /** A step in which each lost slot is matched by a ring owed, or the ring itself. */
  lemma WakeMove(s: State, s': State)
    requires WakeInv(s)
    requires forall j :: 0 <= j < |s'.tasks| ==>
               || (j < |s.tasks| && s'.tasks[j] == s.tasks[j])
               || (EpochOf(s'.tasks[j]).Some? ==> EpochOf(s'.tasks[j]).value <= s.rung)
    requires forall j :: 0 <= j < |s'.tasks| && Asleep(s', s'.tasks[j]) ==>
               s'.open >= MAX_SOCKETS || (j < |s.tasks| && s'.tasks[j] == s.tasks[j])
    requires s'.rung > s.rung ||
             (s'.rung == s.rung && s'.open + Sum(s'.tasks, RingOwed) >= s.open + Sum(s.tasks, RingOwed))
    ensures WakeInv(s')
  {
  }

  lemma ClaimedWakes(s: State, i: nat)
    requires WakeInv(s) && CountInv(s) && At(s, i) && s.tasks[i].Updating?
    ensures WakeInv(Claimed(s, i, s.tasks[i].purpose))
  {
    var p := s.tasks[i].purpose;
    var s' := Claimed(s, i, p);
    SumUpdate(s.tasks, i, s'.tasks[i], RingOwed);
    if p.ForAccept? && s.open < MAX_SOCKETS {
      SumAppend(s.tasks[i := s'.tasks[i]], Stream(p.taken, false, 0), RingOwed);
      assert s'.tasks == s.tasks[i := s'.tasks[i]] + [Stream(p.taken, false, 0)];
    }
    WakeMove(s, s');
  }

  lemma ClaimWakes(s: State, i: nat, c: ClaimStep)
    requires WakeInv(s) && CountInv(s) && At(s, i) && ClaimEnabled(s, s.tasks[i], c)
    ensures WakeInv(ClaimApply(s, i, c))
  {
    if c.Update? {
      ClaimedWakes(s, i);
    } else {
      SumUpdate(s.tasks, i, ClaimApply(s, i, c).tasks[i], RingOwed);
      WakeMove(s, ClaimApply(s, i, c));
    }
  }

  lemma UseWakes(s: State, i: nat, u: SocketStep)
    requires WakeInv(s) && At(s, i) && UseEnabled(s, s.tasks[i], u)
    ensures WakeInv(UseApply(s, i, u))
  {
    SumUpdate(s.tasks, i, UseApply(s, i, u).tasks[i], RingOwed);
    WakeMove(s, UseApply(s, i, u));
  }

  lemma AcceptWakes(s: State, i: nat, l: ListenerStep)
    requires WakeInv(s) && At(s, i) && AcceptEnabled(s, s.tasks[i], l)
    ensures WakeInv(AcceptApply(s, i, l))
  {
    SumUpdate(s.tasks, i, AcceptApply(s, i, l).tasks[i], RingOwed);
    WakeMove(s, AcceptApply(s, i, l));
  }

  lemma OutsideWakes(s: State, o: Outside)
    requires WakeInv(s) && OutsideEnabled(s, o)
    ensures WakeInv(FromOutsideApply(s, o))
  {
    var s' := FromOutsideApply(s, o);
    if |s'.tasks| > |s.tasks| {
      SumAppend(s.tasks, s'.tasks[|s.tasks|], RingOwed);
    }
    WakeMove(s, s');
  }

  lemma StepWakes(s: State, a: Action)
    requires WakeInv(s) && CountInv(s) && Enabled(s, a)
    ensures WakeInv(Apply(s, a))
  {
    match a
    case FromOutside(o) => OutsideWakes(s, o);
    case Claiming(i, c) => ClaimWakes(s, i, c);
    case Using(i, u) => UseWakes(s, i, u);
    case Accepting(i, l) => AcceptWakes(s, i, l);
  }

  // ---- Every run ----

  /** A fresh stack: at most the resolver's socket, no tasks, no claimed slots. */
  ghost predicate Start(s: State) {
    && s.inner.closing == [] && s.lock.None? && s.open == 0 && s.tasks == []
    && s.inner.sockets.Keys == (if s.resolver.Some? then {s.resolver.value.handle} else {})
    && (s.resolver.Some? ==> IsLive(s.inner.sockets, s.resolver.value, DnsFamily))
    && FreshInv(s)
  }

  ghost predicate Run(s: State, actions: seq<Action>, t: State)
    decreases |actions|
  {
    if actions == [] then s == t
    else Enabled(s, actions[0]) && Run(Apply(s, actions[0]), actions[1..], t)
  }

  lemma StepKeeps(s: State, a: Action)
    requires Inv(s) && Enabled(s, a)
    ensures Inv(Apply(s, a))
  {
    StepOwns(s, a);
    StepCounts(s, a);
    StepFresh(s, a);
    StepLocks(s, a);
    StepWakes(s, a);
  }

  lemma {:induction false} RunKeeps(s: State, actions: seq<Action>, t: State)
    requires Inv(s) && Run(s, actions, t)
    ensures Inv(t)
    decreases |actions|
  {
    if actions != [] {
      StepKeeps(s, actions[0]);
      RunKeeps(Apply(s, actions[0]), actions[1..], t);
    }
  }

  lemma StartHolds(s: State)
    requires Start(s)
    ensures Inv(s)
  {
    forall r: Held
      ensures Owners(s, r) == Live(s.inner.sockets, r)
    {
    }
  }

  /**
   In every interleaving the count is exactly the live slot guards, streams, UDP sockets and
   counted closing entries; it never exceeds 256, and it is positive whenever a decrement is due.
   */
  lemma SlotsAreConserved(s: State, actions: seq<Action>, t: State)
    requires Start(s) && Run(s, actions, t)
    ensures t.open == Sum(t.tasks, SlotOf) + CountedSlots(t.inner.closing)
    ensures 0 <= t.open <= MAX_SOCKETS
    ensures forall i :: 0 <= i < |t.tasks| && t.tasks[i].Releasing? ==> t.open > 0
    ensures forall c :: c in t.inner.closing && c.counted ==> t.open > 0
  {
    StartHolds(s);
    RunKeeps(s, actions, t);
    forall i | 0 <= i < |t.tasks| && t.tasks[i].Releasing?
      ensures t.open > 0
    {
      SumContains(t.tasks, i, SlotOf);
    }
    forall c | c in t.inner.closing && c.counted
      ensures t.open > 0
    {
      var k :| 0 <= k < |t.inner.closing| && t.inner.closing[k] == c;
      SumContains(t.inner.closing, k, CountedSlot);
    }
  }

  /**
   Although freed indices are reused, every socket in the set has exactly one owner, and every
   handle an owner holds still means the socket it was handed out for, of the right type.
   */
  lemma EverySocketHasOneOwner(s: State, actions: seq<Action>, t: State)
    requires Start(s) && Run(s, actions, t)
    ensures forall h :: h in t.inner.sockets ==>
              Owners(t, Held(Ref(h, t.inner.sockets[h].id), t.inner.sockets[h].family)) == 1
    ensures forall i, r :: 0 <= i < |t.tasks| && Holds(t.tasks[i], r) > 0 ==>
              IsLive(t.inner.sockets, r.socket, r.family)
    ensures forall i, j, r, q :: 0 <= i < j < |t.tasks| && Holds(t.tasks[i], r) > 0 && Holds(t.tasks[j], q) > 0 ==>
              r.socket.handle != q.socket.handle
    ensures forall i, r, c :: 0 <= i < |t.tasks| && Holds(t.tasks[i], r) > 0 && c in t.inner.closing ==>
              r.socket.handle != c.socket.handle
    ensures WellFormed(t.inner)
  {
    StartHolds(s);
    RunKeeps(s, actions, t);
    ClosingWellFormed(t);
    forall i, r | 0 <= i < |t.tasks| && Holds(t.tasks[i], r) > 0
      ensures IsLive(t.inner.sockets, r.socket, r.family)
    {
      HeldIsLive(t, i, r);
    }
    forall i, j, r, q | 0 <= i < j < |t.tasks| && Holds(t.tasks[i], r) > 0 && Holds(t.tasks[j], q) > 0
      ensures r.socket.handle != q.socket.handle
    {
      HoldersDiffer(t, i, j, r, q);
    }
    forall i, r, c | 0 <= i < |t.tasks| && Holds(t.tasks[i], r) > 0 && c in t.inner.closing
      ensures r.socket.handle != c.socket.handle
    {
      var k :| 0 <= k < |t.inner.closing| && t.inner.closing[k] == c;
      HolderIsNotClosing(t, i, r, k);
    }
  }

  /**
   No lost wake-up: if a dial or a UDP bind enabled its notification, was then refused, and has not
   been woken, then at least one release stands between its decrement and its ring for every free slot.
   */
  lemma NoSlotIsFreedSilently(s: State, actions: seq<Action>, t: State, waiter: nat) returns (ringer: nat)
    requires Start(s) && Run(s, actions, t)
    requires waiter < |t.tasks| && Asleep(t, t.tasks[waiter]) && t.open < MAX_SOCKETS
    ensures ringer < |t.tasks| && RingOwed(t.tasks[ringer]) == 1
    ensures MAX_SOCKETS - t.open <= Sum(t.tasks, RingOwed)
  {
    StartHolds(s);
    RunKeeps(s, actions, t);
    ringer := SumWitness(t.tasks, RingOwed);
  }

  /**
   A reclaim pass that other tasks interleave with ends with exactly the sockets and closing
   entries an undisturbed pass would have left.
   */
  lemma InterleavedReclaimIsExact(s: State, actions: seq<Action>, t: State, i: nat)
    requires Start(s) && Run(s, actions, t)
    requires At(t, i) && ClaimEnabled(t, t.tasks[i], ReclaimEnd)
    ensures t.inner == t.tasks[i].goal
  {
    StartHolds(s);
    RunKeeps(s, actions, t);
    assert PassOk(t, t.tasks[i]);
  }

  /** The guards on sockets and closing entries always hold, so no lock section can panic. */
  lemma NothingPanics(s: State, actions: seq<Action>, t: State)
    requires Start(s) && Run(s, actions, t)
    ensures forall i: nat :: At(t, i) && t.tasks[i].Reclaiming? ==>
              ClaimEnabled(t, t.tasks[i], ReclaimNext) || ClaimEnabled(t, t.tasks[i], ReclaimEnd)
    ensures forall i: nat :: At(t, i) && t.tasks[i].WantReclaim? && t.lock.None? ==>
              ClaimEnabled(t, t.tasks[i], BeginReclaim)
  {
    StartHolds(s);
    RunKeeps(s, actions, t);
    ClosingWellFormed(t);
  }
}
