/**
 Accepts and `stop`. A listener keeps a pool of listening sockets and an accept waits on all of
 them. The pool starts with at least one, and every connection taken out is replaced by a fresh
 socket, unless that socket cannot be made to listen (`accept` in `src/wireguard/tcp.rs`).
 */
module StopAccept {
  import opened Bags
  import opened StopProtocol

  /** The only way a pool loses a socket for good: the fresh one could not be made to listen. */
  predicate RefillFails(a: Action) { a.TakeOut? && a.refill.None? }

  ghost predicate PoolsFilled(s: State) {
    && (forall l :: 0 <= l < |s.listeners| && s.listeners[l].Open? ==> s.listeners[l].pool != [])
    && (forall i :: 0 <= i < |s.tasks| ==> !EmptyAccept(s.tasks[i].op))
  }

  /** A step of a task changes its program point, maybe a pool's mark, and no pool. */
  lemma StepPools(s: State, i: nat, step: TaskStep)
    requires PoolsFilled(s) && At(s, i) && StepEnabled(s, i, step)
    ensures PoolsFilled(StepApply(s, i, step))
  {
    var s' := StepApply(s, i, step);
    assert forall j :: 0 <= j < |s'.tasks| ==> s'.tasks[j].op == s.tasks[j].op;
    assert s'.listeners == s.listeners || s'.listeners == Found(s.listeners, s.tasks[i].op);
  }

  lemma TakeOutPools(s: State, l: nat, k: nat, refill: Option<nat>)
    requires PoolsFilled(s) && CanDo(s, TakeOut(l, k, refill)) && refill.Some?
    ensures PoolsFilled(TakenOut(s, l, k, refill))
  {
  }

  lemma PoolsKept(s: State, a: Action)
    requires PoolsFilled(s) && CanDo(s, a) && !RefillFails(a)
    ensures PoolsFilled(Apply(s, a))
  {
    match a
    case Step(i, step) => StepPools(s, i, step);
    case TakeOut(l, k, refill) => TakeOutPools(s, l, k, refill);
    case _ =>
  }

  lemma {:induction false} PoolsStayFilled(s: State, actions: seq<Action>, t: State)
    requires PoolsFilled(s) && Run(s, actions, t)
    requires forall a :: a in actions ==> !RefillFails(a)
    ensures PoolsFilled(t)
    decreases |actions|
  {
    if actions != [] {
      assert actions[0] in actions;
      PoolsKept(s, actions[0]);
      PoolsStayFilled(Apply(s, actions[0]), actions[1..], t);
    }
  }

  /** As long as every taken connection is replaced by a fresh listening socket, `stop` wakes every accept too. */
  lemma StopReachesEveryAccept(s: State, actions: seq<Action>, t: State)
    requires Begin(s) && Run(s, actions, t) && Closing(t)
    requires forall a :: a in actions ==> !RefillFails(a)
    ensures forall i :: 0 <= i < |t.tasks| && Asleep(t.tasks[i]) ==> LateConnect(t, t.tasks[i])
  {
    StopStrandsNoOne(s, actions, t);
    PoolsStayFilled(s, actions, t);
  }

  /** A stored waker belongs to a task that waits on that very slot. */
  ghost predicate WakersOwned(s: State) {
    forall sl :: sl in s.wakers ==> s.wakers[sl] < |s.tasks| && Touches(s.tasks[s.wakers[sl]].op, sl)
  }

  lemma OwnedFrame(s: State, s': State)
    requires WakersOwned(s) && |s.tasks| <= |s'.tasks|
    requires forall j :: 0 <= j < |s.tasks| ==> s'.tasks[j].op == s.tasks[j].op
    requires forall sl :: sl in s'.wakers ==> sl in s.wakers && s'.wakers[sl] == s.wakers[sl]
    ensures WakersOwned(s')
  {
  }

  lemma ParkOwned(s: State, i: nat)
    requires WakersOwned(s) && At(s, i)
    ensures WakersOwned(Park(s, i))
  {
  }

  lemma StepOwned(s: State, i: nat, step: TaskStep)
    requires WakersOwned(s) && At(s, i) && StepEnabled(s, i, step)
    ensures WakersOwned(StepApply(s, i, step))
  {
    if step.Act? && !s.tasks[i].pc.sawStop && !step.ready {
      ParkOwned(s, i);
    } else if step.Poll? && !s.sockets[s.tasks[i].op.handle].closed && !step.ready {
      ParkOwned(s, i);
    } else {
      OwnedFrame(s, StepApply(s, i, step));
    }
  }

  lemma OwnedKept(s: State, a: Action)
    requires WakersOwned(s) && CanDo(s, a)
    ensures WakersOwned(Apply(s, a))
  {
    if a.Step? {
      StepOwned(s, a.i, a.step);
    } else {
      OwnedFrame(s, Apply(s, a));
    }
  }

  lemma NoWaker(s: State, i: nat, slots: set<Slot>)
    requires WakersOwned(s) && At(s, i) && EmptyAccept(s.tasks[i].op)
    ensures i !in Waked(s.wakers, slots)
  {
  }

  /** No step but its own moves a sleeping accept whose pool is empty. */
  lemma NobodyWakes(s: State, i: nat, a: Action)
    requires WakersOwned(s) && CanDo(s, a) && At(s, i) && EmptyAccept(s.tasks[i].op)
    requires a.Step? ==> a.i != i
    ensures At(Apply(s, a), i) && Apply(s, a).tasks[i] == s.tasks[i]
  {
    match a
    case Network(_, wakes) => NoWaker(s, i, wakes);
    case StopClose => NoWaker(s, i, s.wakers.Keys);
    case _ =>
  }

  lemma {:induction false} NobodyEverWakes(s: State, i: nat, actions: seq<Action>, t: State)
    requires WakersOwned(s) && Run(s, actions, t) && At(s, i) && EmptyAccept(s.tasks[i].op)
    requires forall a :: a in actions && a.Step? ==> a.i != i
    ensures At(t, i) && t.tasks[i] == s.tasks[i]
    decreases |actions|
  {
    if actions != [] {
      assert actions[0] in actions;
      NobodyWakes(s, i, actions[0]);
      OwnedKept(s, actions[0]);
      NobodyEverWakes(Apply(s, actions[0]), i, actions[1..], t);
    }
  }

  lemma {:induction false} RunOwns(s: State, actions: seq<Action>, t: State)
    requires WakersOwned(s) && Run(s, actions, t)
    ensures WakersOwned(t)
    decreases |actions|
  {
    if actions != [] {
      OwnedKept(s, actions[0]);
      RunOwns(Apply(s, actions[0]), actions[1..], t);
    }
  }

  /**
   An accept that went to sleep with an empty pool sleeps through anything anyone else does,
   `stop` included: only its own cancellation, or a wake-up nobody asked for, ends it.
   */
  lemma EmptyAcceptSleepsOn(s: State, before: seq<Action>, m: State, i: nat, after: seq<Action>, t: State)
    requires Begin(s) && Run(s, before, m) && At(m, i) && Asleep(m.tasks[i]) && EmptyAccept(m.tasks[i].op)
    requires Run(m, after, t) && forall a :: a in after && a.Step? ==> a.i != i
    ensures At(t, i) && Asleep(t.tasks[i]) && EmptyAccept(t.tasks[i].op)
  {
    RunOwns(s, before, m);
    NobodyEverWakes(m, i, after, t);
  }

  lemma {:induction false} RunSnoc(s: State, actions: seq<Action>, t: State, a: Action)
    requires Run(s, actions, t) && CanDo(t, a)
    ensures Run(s, actions + [a], Apply(t, a))
    decreases |actions|
  {
    if actions == [] {
      assert ([a])[1..] == [];
      assert actions + [a] == [a];
    } else {
      RunSnoc(Apply(s, actions[0]), actions[1..], t, a);
      assert (actions + [a])[1..] == actions[1..] + [a];
    }
  }

  lemma More(s: State, actions: seq<Action>, t: State, a: Action) returns (more: seq<Action>, u: State)
    requires Run(s, actions, t) && CanDo(t, a)
    ensures Run(s, more, u) && u == Apply(t, a)
  {
    RunSnoc(s, actions, t, a);
    more, u := actions + [a], Apply(t, a);
  }

  lemma MoreStep(s: State, actions: seq<Action>, t: State, i: nat, step: TaskStep)
    returns (more: seq<Action>, u: State)
    requires Run(s, actions, t) && At(t, i) && StepEnabled(t, i, step)
    ensures Run(s, more, u) && u == StepApply(t, i, step)
  {
    more, u := More(s, actions, t, Step(i, step));
  }

  const EMPTY := State(Running, 0, None, map[], map[], map[], [], [])

  /** An accept is polled once on a running stack. */
  lemma Polled(actions: seq<Action>, s: State, i: nat, ready: bool) returns (more: seq<Action>, t: State)
    requires Run(EMPTY, actions, s) && s.phase.Running? && s.lock.None? && At(s, i)
    requires s.tasks[i].op.Accept? && s.tasks[i].pc.Ready? && (ready ==> s.tasks[i].op.pool != [])
    ensures Run(EMPTY, more, t) && t.phase.Running? && t.lock.None?
    ensures t.tasks == s.tasks[i := s.tasks[i].(pc := if ready then Done else Parked(false))]
    ensures t.listeners == if ready then Found(s.listeners, s.tasks[i].op) else s.listeners
    ensures ready || s.tasks[i].op.pool == [] ==> t.wakers == s.wakers
  {
    more, t := MoreStep(EMPTY, actions, s, i, Check);
    more, t := MoreStep(EMPTY, more, t, i, Act(ready));
    assert s.tasks[i].op.pool == [] ==> SlotsOf(s.tasks[i].op) == {};
  }

  /** A listener is bound to one socket. */
  lemma Bound() returns (actions: seq<Action>, t: State)
    ensures Run(EMPTY, actions, t)
    ensures t == EMPTY.(sockets := map[0 := Sock(false, false, false)], listeners := [Open([0], false)])
  {
    var one, added := More(EMPTY, [], EMPTY, AddSocket(0, false));
    actions, t := More(EMPTY, one, added, Bind([0]));
  }

  /** And an accept begins on it. */
  lemma AcceptBegins() returns (actions: seq<Action>, t: State)
    ensures Run(EMPTY, actions, t)
    ensures t.phase.Running? && t.lock.None? && t.wakers == map[] && t.listeners == [Open([0], false)]
    ensures t.tasks == [Task(Accept(0, [0]), Ready)]
  {
    var before, bound := Bound();
    assert MayStart(bound, Accept(0, [0]));
    actions, t := More(EMPTY, before, bound, Start(Accept(0, [0])));
  }

  /** The connection is taken out, and no fresh socket can be made to listen. */
  lemma PoolRunsEmpty() returns (actions: seq<Action>, t: State)
    ensures Run(EMPTY, actions, t)
    ensures t.phase.Running? && t.lock.None? && t.wakers == map[] && t.listeners == [Open([], false)]
    ensures t.tasks == [Task(Accept(0, [0]), Done)]
  {
    actions, t := AcceptBegins();
    actions, t := Polled(actions, t, 0, true);
    assert t.listeners == [Open([0], true)];
    actions, t := More(EMPTY, actions, t, TakeOut(0, 0, None));
  }

  /** The next accept finds no socket to wait on, and sleeps. */
  lemma EmptyAcceptSleeps() returns (actions: seq<Action>, t: State)
    ensures Run(EMPTY, actions, t)
    ensures t.phase.Running? && t.lock.None? && t.wakers == map[]
    ensures t.tasks == [Task(Accept(0, [0]), Done), Task(Accept(0, []), Parked(false))]
  {
    actions, t := PoolRunsEmpty();
    actions, t := More(EMPTY, actions, t, Start(Accept(0, [])));
    assert t.tasks == [Task(Accept(0, [0]), Done), Task(Accept(0, []), Ready)];
    actions, t := Polled(actions, t, 1, false);
  }

  /**
   So the property is false of an accept whose pool has run empty: bind one socket, take its
   connection, fail to replace it, accept again, and `stop` finds no waker to wake.
   */
  lemma EmptyAcceptIsStranded() returns (actions: seq<Action>, t: State)
    ensures Begin(EMPTY) && Run(EMPTY, actions, t)
    ensures t.phase.Notified? && |t.tasks| == 2 && t.tasks[1] == Task(Accept(0, []), Parked(false))
  {
    actions, t := EmptyAcceptSleeps();
    actions, t := More(EMPTY, actions, t, StopFlag);
    actions, t := More(EMPTY, actions, t, StopClose);
    actions, t := More(EMPTY, actions, t, StopNotify);
  }

  // ---- What the rest comes to ----

  /**
   `stop` closes every socket there is and wakes every stored waker; a removed socket and a dropped
   listener are gone.
   */
  lemma CleanUpOutcome(s: State, a: Action)
    requires CanDo(s, a)
    ensures a.StopClose? ==>
              var n := Apply(s, a);
              && n.sockets.Keys == s.sockets.Keys && (forall h :: h in n.sockets ==> n.sockets[h].closed)
              && (forall sl :: sl in s.wakers && s.wakers[sl] < |s.tasks| ==> !Asleep(n.tasks[s.wakers[sl]]))
    ensures a.RemoveSocket? ==>
              var n := Apply(s, a);
              a.handle !in n.sockets && forall sl :: sl in n.wakers ==> sl.handle != a.handle
    ensures a.DropListener? ==> forall pool :: !CanDo(Apply(s, a), Start(Accept(a.listener, pool)))
  {
    SlotCases();
    if a.StopClose? {
      var n := Apply(s, a);
      forall sl | sl in s.wakers && s.wakers[sl] < |s.tasks|
        ensures !Asleep(n.tasks[s.wakers[sl]])
      {
        assert sl in s.wakers.Keys;
        assert s.wakers[sl] in Waked(s.wakers, s.wakers.Keys);
      }
    }
  }
}
