/**
 The one session a provider shares between its dials: `session`, `replace_session`, `retire` and
 `shutdown` of `src/ssh.rs`, and `tunnel`, `replace_tunnel`, `retire` and `shutdown` of
 `src/wireguard/mod.rs`, which follow the same protocol.

 The slot sits behind a lock that a request keeps while it connects. Acquiring the lock, the
 section behind it and the store of the `closed` flag are separate steps, any task can be
 cancelled wherever it waits, and sessions are told apart by numbers handed out in building order.
 */
module SharedSlot {
  import opened Bags

  datatype Request = Session | Replace(stale: nat)

  datatype Result = Finished | Refused | ConnectFailed | Cancelled | RetireDone(shutdown: bool)

  datatype Task =
    | Waiting(request: Request)       // queued on the lock
    | Checking(request: Request)      // behind the lock
    | Building(request: Request)      // connecting, still behind the lock
    | Using(id: nat, again: bool)     // dialling over a session; `again` once it has been replaced
    | Storing                         // a shutdown before it sets the flag
    | RetireWaiting(shutdown: bool)
    | RetireTaking(shutdown: bool)    // behind the lock
    | Disconnecting(shutdown: bool)   // slot taken, still behind the lock
    | Ended(result: Result)

  datatype Cause = ReplacedFor(stale: nat) | FoundDead | Retired

  /** What happened to the slot: a session was put in, or the one inside was dropped from it. */
  datatype Event = Built(request: Request, id: nat) | Dropped(id: nat, cause: Cause)

  datatype State = State(
    slot: Option<nat>, closed: bool, lock: Option<nat>, next: nat, tasks: seq<Task>, log: seq<Event>)

  datatype Action =
    | StartDial
    | StartRetire
    | StartShutdown
    | StoreClosed(t: nat)
    | Acquire(t: nat)
    | Check(t: nat, alive: bool)
    | ConnectOk(t: nat)
    | ConnectFails(t: nat)
    | DialEnds(t: nat)
    | SessionBroken(t: nat)
    | Take(t: nat)
    | Release(t: nat)
    | Cancel(t: nat)

  predicate BehindLock(task: Task) {
    task.Checking? || task.Building? || task.RetireTaking? || task.Disconnecting?
  }

  /** What a request decides behind the lock; `alive` is the WireGuard liveness test, true for SSH. */
  datatype Decision = Refuse | Reuse(id: nat) | Build

  function Decide(slot: Option<nat>, closed: bool, request: Request, alive: bool): Decision {
    if closed then Refuse
    else if slot.None? then Build
    else match request
      case Session => if alive then Reuse(slot.value) else Build
      case Replace(stale) => if slot.value != stale then Reuse(slot.value) else Build
  }

  function Why(request: Request): Cause {
    match request
    case Session => FoundDead
    case Replace(stale) => ReplacedFor(stale)
  }

  predicate Enabled(s: State, a: Action) {
    match a
    case StartDial => true
    case StartRetire => true
    case StartShutdown => true
    case StoreClosed(t) => t < |s.tasks| && s.tasks[t].Storing?
    case Acquire(t) => t < |s.tasks| && (s.tasks[t].Waiting? || s.tasks[t].RetireWaiting?) && s.lock.None?
    case Check(t, _) => t < |s.tasks| && s.tasks[t].Checking?
    case ConnectOk(t) => t < |s.tasks| && s.tasks[t].Building?
    case ConnectFails(t) => t < |s.tasks| && s.tasks[t].Building?
    case DialEnds(t) => t < |s.tasks| && s.tasks[t].Using?
    case SessionBroken(t) => t < |s.tasks| && s.tasks[t].Using? && !s.tasks[t].again
    case Take(t) => t < |s.tasks| && s.tasks[t].RetireTaking?
    case Release(t) => t < |s.tasks| && s.tasks[t].Disconnecting?
    case Cancel(t) => t < |s.tasks| && !s.tasks[t].Ended?
  }

  /** The slot is emptied, and the log says of what and why. */
  function Emptied(s: State, cause: Cause): State {
    if s.slot.None? then s
    else s.(slot := None, log := s.log + [Dropped(s.slot.value, cause)])
  }

  function Move(s: State, t: nat, task: Task): State
    requires t < |s.tasks|
  {
    s.(tasks := s.tasks[t := task])
  }

  function Unlock(s: State, t: nat, task: Task): State
    requires t < |s.tasks|
  {
    s.(tasks := s.tasks[t := task], lock := None)
  }

  function Checked(s: State, t: nat, alive: bool): State
    requires t < |s.tasks| && s.tasks[t].Checking?
  {
    var request := s.tasks[t].request;
    match Decide(s.slot, s.closed, request, alive)
    case Refuse => Unlock(s, t, Ended(Refused))
    case Reuse(id) => Unlock(s, t, Using(id, request.Replace?))
    case Build => Move(Emptied(s, Why(request)), t, Building(request))
  }

  function Connected(s: State, t: nat): State
    requires t < |s.tasks| && s.tasks[t].Building?
  {
    var request := s.tasks[t].request;
    Unlock(s, t, Using(s.next, request.Replace?))
      .(slot := Some(s.next), next := s.next + 1, log := s.log + [Built(request, s.next)])
  }

  function Apply(s: State, a: Action): State
    requires Enabled(s, a)
  {
    match a
    case StartDial => s.(tasks := s.tasks + [Waiting(Session)])
    case StartRetire => s.(tasks := s.tasks + [RetireWaiting(false)])
    case StartShutdown => s.(tasks := s.tasks + [Storing])
    case StoreClosed(t) => Move(s, t, RetireWaiting(true)).(closed := true)
    case Acquire(t) =>
      Move(s, t, if s.tasks[t].Waiting? then Checking(s.tasks[t].request) else RetireTaking(s.tasks[t].shutdown))
        .(lock := Some(t))
    case Check(t, alive) => Checked(s, t, alive)
    case ConnectOk(t) => Connected(s, t)
    case ConnectFails(t) => Unlock(s, t, Ended(ConnectFailed))
    case DialEnds(t) => Move(s, t, Ended(Finished))
    case SessionBroken(t) => Move(s, t, Waiting(Replace(s.tasks[t].id)))
    case Take(t) => Move(Emptied(s, Retired), t, Disconnecting(s.tasks[t].shutdown))
    case Release(t) => Unlock(s, t, Ended(RetireDone(s.tasks[t].shutdown)))
    case Cancel(t) =>
      if BehindLock(s.tasks[t]) then Unlock(s, t, Ended(Cancelled)) else Move(s, t, Ended(Cancelled))
  }

  const START := State(None, false, None, 0, [], [])

  ghost predicate Run(s: State, actions: seq<Action>, t: State)
    decreases |actions|
  {
    if actions == [] then s == t
    else Enabled(s, actions[0]) && Run(Apply(s, actions[0]), actions[1..], t)
  }

  // ---------------------------------------------------------------- what every step keeps

  /** The slot as the first `n` events leave it. */
  function Replay(log: seq<Event>, n: nat): Option<nat>
    requires n <= |log|
  {
    if n == 0 then None
    else if log[n - 1].Built? then Some(log[n - 1].id) else None
  }

  /** One event fits what came before it: see `Coherent`. */
  ghost predicate Fits(log: seq<Event>, k: nat)
    requires k < |log|
  {
    match log[k]
    case Built(request, id) =>
      && Replay(log, k).None?
      && (request.Replace? ==> request.stale < id)
      && forall i :: 0 <= i < k && log[i].Built? ==> log[i].id < id
    case Dropped(id, cause) =>
      && Replay(log, k) == Some(id)
      && (cause.ReplacedFor? ==> cause.stale == id)
  }

  /**
   A session is put only into an empty slot, under a number never used before; only the session in
   the slot is dropped from it, and a replacement drops only the session it was asked to replace.
   */
  ghost predicate Coherent(log: seq<Event>) {
    forall k :: 0 <= k < |log| ==> Fits(log, k)
  }

  ghost predicate LockInv(s: State) {
    && (s.lock.Some? ==> s.lock.value < |s.tasks|)
    && forall t :: 0 <= t < |s.tasks| ==> (BehindLock(s.tasks[t]) <==> s.lock == Some(t))
  }

  /** Whoever connects, or disconnects what it took, has the slot empty meanwhile. */
  ghost predicate BuildInv(s: State) {
    forall t :: 0 <= t < |s.tasks| && (s.tasks[t].Building? || s.tasks[t].Disconnecting?) ==> s.slot.None?
  }

  /** The number of the session a task knows. */
  function Known(task: Task): Option<nat> {
    match task
    case Waiting(r) => if r.Replace? then Some(r.stale) else None
    case Checking(r) => if r.Replace? then Some(r.stale) else None
    case Building(r) => if r.Replace? then Some(r.stale) else None
    case Using(id, _) => Some(id)
    case _ => None
  }

  ghost predicate IdInv(s: State) {
    && (forall t :: 0 <= t < |s.tasks| && Known(s.tasks[t]).Some? ==> Known(s.tasks[t]).value < s.next)
    && (s.slot.Some? ==> s.slot.value < s.next)
    && (forall k :: 0 <= k < |s.log| && s.log[k].Built? ==> s.log[k].id < s.next)
  }

  ghost predicate LogInv(s: State) {
    && Coherent(s.log)
    && Replay(s.log, |s.log|) == s.slot
  }

  predicate PastTake(task: Task) {
    task == Disconnecting(true) || task == Ended(RetireDone(true))
  }

  /** A shutdown between its flag and its end. */
  predicate PastStore(task: Task) {
    task == RetireWaiting(true) || task == RetireTaking(true) || PastTake(task)
  }

  ghost predicate ShutInv(s: State) {
    && (forall t :: 0 <= t < |s.tasks| && PastStore(s.tasks[t]) ==> s.closed)
    && ((exists t :: 0 <= t < |s.tasks| && PastTake(s.tasks[t])) ==> s.slot.None? && NoneBuilds(s))
  }

  ghost predicate NoneBuilds(s: State) {
    forall t :: 0 <= t < |s.tasks| ==> !s.tasks[t].Building?
  }

  ghost predicate Inv(s: State) {
    LockInv(s) && BuildInv(s) && IdInv(s) && LogInv(s) && ShutInv(s)
  }

  lemma StartHolds()
    ensures Inv(START)
  {
  }

  lemma LockKept(s: State, a: Action)
    requires LockInv(s) && Enabled(s, a)
    ensures LockInv(Apply(s, a))
  {
  }

  lemma BuildKept(s: State, a: Action)
    requires LockInv(s) && BuildInv(s) && Enabled(s, a)
    ensures BuildInv(Apply(s, a))
  {
  }

  lemma IdKept(s: State, a: Action)
    requires IdInv(s) && Enabled(s, a)
    ensures IdInv(Apply(s, a))
  {
  }

  lemma LogAppend(log: seq<Event>, e: Event)
    requires Coherent(log) && Fits(log + [e], |log|)
    ensures Coherent(log + [e])
    ensures Replay(log + [e], |log| + 1) == if e.Built? then Some(e.id) else None
  {
    var more := log + [e];
    forall k | 0 <= k < |more|
      ensures Fits(more, k)
    {
      if k < |log| {
        assert Fits(log, k);
        assert Replay(more, k) == Replay(log, k);
      }
    }
  }

  lemma EmptiedKeepsLog(s: State, cause: Cause)
    requires LogInv(s)
    requires cause.ReplacedFor? && s.slot.Some? ==> s.slot.value == cause.stale
    ensures LogInv(Emptied(s, cause))
  {
    if s.slot.Some? {
      var e := Dropped(s.slot.value, cause);
      assert Replay(s.log + [e], |s.log|) == Replay(s.log, |s.log|);
      LogAppend(s.log, e);
    }
  }

  lemma LogKept(s: State, a: Action)
    requires BuildInv(s) && IdInv(s) && LogInv(s) && Enabled(s, a)
    ensures LogInv(Apply(s, a))
  {
    match a
    case Check(t, alive) =>
      if Decide(s.slot, s.closed, s.tasks[t].request, alive).Build? {
        EmptiedKeepsLog(s, Why(s.tasks[t].request));
      }
    case Take(t) =>
      EmptiedKeepsLog(s, Retired);
    case ConnectOk(t) =>
      var e := Built(s.tasks[t].request, s.next);
      assert Replay(s.log + [e], |s.log|) == Replay(s.log, |s.log|);
      assert Known(s.tasks[t]).Some? ==> Known(s.tasks[t]).value < s.next;
      LogAppend(s.log, e);
    case _ =>
  }

  /** A step other than a take: it takes no shutdown past its take, and builds only while the provider is open. */
  lemma ShutBarsBuilding(s: State, a: Action)
    requires LockInv(s) && ShutInv(s) && Enabled(s, a) && !a.Take?
    requires exists t :: 0 <= t < |s.tasks| && PastTake(s.tasks[t])
    ensures Apply(s, a).slot.None? && NoneBuilds(Apply(s, a))
  {
    assert s.closed && s.slot.None? && NoneBuilds(s);
  }

  lemma ShutTakes(s: State, t: nat)
    requires LockInv(s) && BuildInv(s) && ShutInv(s) && Enabled(s, Take(t))
    ensures ShutInv(Apply(s, Take(t)))
  {
    assert s.lock == Some(t);
  }

  lemma NewlyPast(s: State, a: Action, t: nat)
    requires Enabled(s, a) && !a.Take? && t < |Apply(s, a).tasks| && PastTake(Apply(s, a).tasks[t])
    ensures t < |s.tasks| && PastTake(s.tasks[t])
  {
  }

  lemma FlagKept(s: State, a: Action)
    requires ShutInv(s) && Enabled(s, a)
    ensures forall t :: 0 <= t < |Apply(s, a).tasks| && PastStore(Apply(s, a).tasks[t]) ==> Apply(s, a).closed
  {
  }

  lemma ShutKept(s: State, a: Action)
    requires LockInv(s) && BuildInv(s) && ShutInv(s) && Enabled(s, a)
    ensures ShutInv(Apply(s, a))
  {
    if a.Take? {
      ShutTakes(s, a.t);
    } else {
      FlagKept(s, a);
      if t :| 0 <= t < |Apply(s, a).tasks| && PastTake(Apply(s, a).tasks[t]) {
        NewlyPast(s, a, t);
        ShutBarsBuilding(s, a);
      }
    }
  }

  lemma StepKeeps(s: State, a: Action)
    requires Inv(s) && Enabled(s, a)
    ensures Inv(Apply(s, a))
  {
    LockKept(s, a);
    BuildKept(s, a);
    IdKept(s, a);
    LogKept(s, a);
    ShutKept(s, a);
  }

  lemma {:induction false} RunKeeps(s: State, actions: seq<Action>, t: State)
    requires Inv(s) && Run(s, actions, t)
    ensures Inv(t)
    decreases |actions|
  {
    if actions != [] {
      StepKeeps(s, actions[0]);
      RunKeeps(Apply(s, actions[0]), actions[1..], t);
    }
  }

  // ---------------------------------------------------------------- theorems

  /** Only one task is ever behind the lock, and the slot is empty for as long as it connects. */
  lemma OneBuilder(actions: seq<Action>, s: State, t: nat, u: nat)
    requires Run(START, actions, s) && t < |s.tasks| && u < |s.tasks|
    requires BehindLock(s.tasks[t]) && BehindLock(s.tasks[u])
    ensures t == u
    ensures s.tasks[t].Building? ==> s.slot.None?
  {
    StartHolds();
    RunKeeps(START, actions, s);
  }

  /**
   A replacement never discards a session newer than the one that failed: in any run, what it
   drops from the slot is that very session.
   */
  lemma ReplaceDropsOnlyStale(actions: seq<Action>, s: State, k: nat)
    requires Run(START, actions, s) && k < |s.log|
    requires s.log[k].Dropped? && s.log[k].cause.ReplacedFor?
    ensures s.log[k].id == s.log[k].cause.stale
  {
    StartHolds();
    RunKeeps(START, actions, s);
    assert Fits(s.log, k);
  }

  /**
   Two successful rebuilds for the same failed session need the first rebuilt one to be gone: it
   was retired, found dead, or replaced by a dial that failed on it, never by one that failed on
   the older session.
   */
  lemma RebuiltTwice(actions: seq<Action>, s: State, stale: nat, i: nat, j: nat) returns (k: nat)
    requires Run(START, actions, s) && i < j < |s.log|
    requires s.log[i].Built? && s.log[i].request == Replace(stale)
    requires s.log[j].Built? && s.log[j].request == Replace(stale)
    ensures i < k < j && s.log[k].Dropped? && s.log[k].id == s.log[i].id > stale
    ensures s.log[k].cause in {Retired, FoundDead, ReplacedFor(s.log[i].id)}
  {
    StartHolds();
    RunKeeps(START, actions, s);
    k := i + 1;
    assert Fits(s.log, i) && Fits(s.log, j) && Fits(s.log, k);
  }

  /** The only steps that can empty the slot of a session, or put another in its place. */
  lemma WhoEmptiesTheSlot(actions: seq<Action>, s: State, a: Action)
    requires Run(START, actions, s) && Enabled(s, a)
    requires s.slot.Some? && Apply(s, a).slot != s.slot
    ensures
      || (a.Take? && s.tasks[a.t].RetireTaking?)
      || (a.Check? && !s.closed && s.tasks[a.t].request == Session && !a.alive)
      || (a.Check? && !s.closed && s.tasks[a.t].request == Replace(s.slot.value))
    ensures Apply(s, a).slot.None?
  {
    StartHolds();
    RunKeeps(START, actions, s);
  }

  /** Once a session has been rebuilt for `stale`, `stale` is not in the slot any more. */
  lemma StaleIsGone(s: State, i: nat, stale: nat)
    requires LogInv(s) && i < |s.log| && s.log[i].Built? && s.log[i].request == Replace(stale)
    ensures s.slot != Some(stale)
  {
    assert Fits(s.log, i) && Fits(s.log, |s.log| - 1);
  }

  /**
   Exactly when a dial that failed on `stale` rebuilds although a rebuild for `stale` succeeded
   before: it finds the slot empty, and the provider open. Otherwise it is refused, or takes over
   the session in the slot.
   */
  lemma RebuildsAgainExactly(actions: seq<Action>, s: State, i: nat, stale: nat, t: nat, alive: bool)
    requires Run(START, actions, s)
    requires i < |s.log| && s.log[i].Built? && s.log[i].request == Replace(stale)
    requires t < |s.tasks| && s.tasks[t] == Checking(Replace(stale))
    ensures Apply(s, Check(t, alive)).tasks[t].Building? <==> s.slot.None? && !s.closed
    ensures s.closed ==> Apply(s, Check(t, alive)).tasks[t] == Ended(Refused)
    ensures !s.closed && s.slot.Some? ==> Apply(s, Check(t, alive)).tasks[t] == Using(s.slot.value, true)
  {
    StartHolds();
    RunKeeps(START, actions, s);
    StaleIsGone(s, i, stale);
  }

  /** A session dropped from the slot never comes back to it. */
  lemma DroppedForGood(actions: seq<Action>, s: State, k: nat)
    requires Run(START, actions, s) && k < |s.log| && s.log[k].Dropped?
    ensures s.slot != Some(s.log[k].id)
  {
    StartHolds();
    RunKeeps(START, actions, s);
    DroppedStaysOut(s, k);
  }

  lemma DroppedStaysOut(s: State, k: nat)
    requires LogInv(s) && k < |s.log| && s.log[k].Dropped?
    ensures s.slot != Some(s.log[k].id)
  {
    assert Fits(s.log, k) && Fits(s.log, |s.log| - 1);
    assert k > 0 && s.log[k - 1].Built? && s.log[k - 1].id == s.log[k].id;
  }

  /** A rebuild that fails or is cancelled leaves the slot empty and the lock free... */
  lemma FailedRebuildLeavesEmpty(actions: seq<Action>, s: State, t: nat, a: Action)
    requires Run(START, actions, s) && t < |s.tasks| && s.tasks[t].Building?
    requires a in {ConnectFails(t), Cancel(t)}
    ensures Enabled(s, a) && Apply(s, a).slot.None? && Apply(s, a).lock.None?
  {
    StartHolds();
    RunKeeps(START, actions, s);
  }

  /** ...and then any request that comes next, for whatever session it failed on, may rebuild. */
  lemma EmptySlotIsRetryable(s: State, t: nat, alive: bool)
    requires s.slot.None? && s.lock.None? && !s.closed && t < |s.tasks| && s.tasks[t].Waiting?
    ensures exists e: State ::
              && Run(s, [Acquire(t), Check(t, alive), ConnectOk(t)], e)
              && e.slot == Some(s.next) && e.log == s.log + [Built(s.tasks[t].request, s.next)]
              && t < |e.tasks| && e.tasks[t] == Using(s.next, s.tasks[t].request.Replace?)
  {
    var b := Apply(s, Acquire(t));
    var c := Apply(b, Check(t, alive));
    var d := Apply(c, ConnectOk(t));
    var none: seq<Action> := [];
    assert Run(d, none, d);
    assert [ConnectOk(t)][1..] == none;
    assert Run(c, [ConnectOk(t)], d);
    assert [Check(t, alive), ConnectOk(t)][1..] == [ConnectOk(t)];
    assert Run(b, [Check(t, alive), ConnectOk(t)], d);
    assert [Acquire(t), Check(t, alive), ConnectOk(t)][1..] == [Check(t, alive), ConnectOk(t)];
    assert Run(s, [Acquire(t), Check(t, alive), ConnectOk(t)], d);
  }

  ghost predicate ShutDown(s: State) {
    exists t :: 0 <= t < |s.tasks| && s.tasks[t] == Ended(RetireDone(true))
  }

  lemma ShutStep(s: State, a: Action)
    requires Inv(s) && ShutDown(s) && Enabled(s, a)
    ensures ShutDown(Apply(s, a)) && Apply(s, a).log == s.log
    ensures forall t :: 0 <= t < |s.tasks| && Apply(s, a).tasks[t].Using? ==> s.tasks[t].Using?
    ensures forall t :: |s.tasks| <= t < |Apply(s, a).tasks| ==> !Apply(s, a).tasks[t].Using?
    ensures |s.tasks| <= |Apply(s, a).tasks|
  {
    var t :| 0 <= t < |s.tasks| && s.tasks[t] == Ended(RetireDone(true));
    assert PastTake(s.tasks[t]);
    assert s.closed && s.slot.None? && NoneBuilds(s);
    assert Apply(s, a).tasks[t] == s.tasks[t];
  }

  /**
   Once a shutdown has returned, the slot stays empty, nothing is ever built or dropped, and no
   task that was not already dialling gets a session.
   */
  lemma ShutdownIsFinal(before: seq<Action>, s: State, later: seq<Action>, e: State)
    requires Run(START, before, s) && ShutDown(s) && Run(s, later, e)
    ensures e.closed && e.slot.None? && e.log == s.log
    ensures forall t :: 0 <= t < |e.tasks| && e.tasks[t].Using? ==> t < |s.tasks| && s.tasks[t].Using?
  {
    StartHolds();
    RunKeeps(START, before, s);
    StaysShut(s, later, e);
  }

  lemma {:induction false} StaysShut(s: State, later: seq<Action>, e: State)
    requires Inv(s) && ShutDown(s) && Run(s, later, e)
    ensures ShutDown(e) && e.closed && e.slot.None? && e.log == s.log
    ensures |s.tasks| <= |e.tasks|
    ensures forall t :: 0 <= t < |e.tasks| && e.tasks[t].Using? ==> t < |s.tasks| && s.tasks[t].Using?
    decreases |later|
  {
    if later == [] {
      var t :| 0 <= t < |s.tasks| && s.tasks[t] == Ended(RetireDone(true));
      assert PastTake(s.tasks[t]);
    } else {
      ShutStep(s, later[0]);
      StepKeeps(s, later[0]);
      StaysShut(Apply(s, later[0]), later[1..], e);
    }
  }

  // ---------------------------------------------------------------- what each request gets

  /**
   A request behind the lock, in any run: refused once the provider is closed; given the session in
   the slot unless that is the one it failed on or, for a new dial, is found dead; otherwise it
   builds, and the slot is empty while it does. What it does not build for, it leaves alone.
   */
  lemma RequestGets(actions: seq<Action>, s: State, t: nat, alive: bool)
    requires Run(START, actions, s) && t < |s.tasks| && s.tasks[t].Checking?
    ensures var n, request := Apply(s, Check(t, alive)), s.tasks[t].request;
            var handedOut := s.slot.Some? && (if request.Session? then alive else s.slot.value != request.stale);
            && (s.closed ==> n.tasks[t] == Ended(Refused))
            && (!s.closed && handedOut ==> n.tasks[t] == Using(s.slot.value, request.Replace?))
            && (!s.closed && !handedOut ==> n.tasks[t] == Building(request) && n.slot.None?)
            && (s.closed || handedOut ==> n.slot == s.slot && n.log == s.log && n.lock.None?)
            && (!s.closed && !handedOut ==>
                  && n.lock == Some(t)
                  && n.log == s.log + if s.slot.None? then []
                                      else if request.Session? then [Dropped(s.slot.value, FoundDead)]
                                      else [Dropped(s.slot.value, ReplacedFor(request.stale))])
            && n.closed == s.closed && forall u :: 0 <= u < |s.tasks| && u != t ==> n.tasks[u] == s.tasks[u]
  {
    StartHolds();
    RunKeeps(START, actions, s);
  }

  /** A connect that succeeds puts a session nobody has seen into the slot, and dials over that one. */
  lemma BuildGets(actions: seq<Action>, s: State, t: nat)
    requires Run(START, actions, s) && Enabled(s, ConnectOk(t))
    ensures var n := Apply(s, ConnectOk(t));
            && n.slot.Some? && n.tasks[t] == Using(n.slot.value, s.tasks[t].request.Replace?) && n.lock.None?
            && (forall k :: 0 <= k < |s.log| ==> s.log[k].id != n.slot.value)
            && (forall u :: 0 <= u < |s.tasks| && Known(s.tasks[u]).Some? ==> Known(s.tasks[u]) != n.slot)
  {
    StartHolds();
    RunKeeps(START, actions, s);
    forall k | 0 <= k < |s.log|
      ensures s.log[k].id < s.next
    {
      assert Fits(s.log, k);
    }
  }

  /** A cancelled task lets go of the lock if it has it, and leaves everything else as it is. */
  lemma CancelGets(s: State, t: nat)
    requires LockInv(s) && Enabled(s, Cancel(t))
    ensures var n := Apply(s, Cancel(t));
            && n.tasks == s.tasks[t := Ended(Cancelled)] && n.slot == s.slot && n.closed == s.closed && n.log == s.log
            && n.lock == if s.lock == Some(t) then None else s.lock
  {
  }

  /** A dial whose session breaks asks for a replacement of that very session, once. */
  lemma BrokenDialReplaces(s: State, t: nat)
    requires t < |s.tasks| && s.tasks[t].Using?
    ensures Enabled(s, SessionBroken(t)) <==> !s.tasks[t].again
    ensures !s.tasks[t].again ==> Apply(s, SessionBroken(t)).tasks[t] == Waiting(Replace(s.tasks[t].id))
  {
  }

  lemma {:induction false} LogGrows(s: State, actions: seq<Action>, e: State)
    requires Run(s, actions, e)
    ensures s.log <= e.log
    decreases |actions|
  {
    if actions != [] {
      LogGrows(Apply(s, actions[0]), actions[1..], e);
    }
  }

  /**
   A retire takes the session out before it disconnects it, whether or not it is part of a shutdown:
   the slot is empty from then until it lets go of the lock, and that session is never in it again.
   */
  lemma RetireTakes(before: seq<Action>, s: State, t: nat, later: seq<Action>, e: State)
    requires Run(START, before, s) && Enabled(s, Take(t)) && Run(Apply(s, Take(t)), later, e)
    ensures Apply(s, Take(t)).slot.None? && Apply(s, Take(t)).tasks[t].Disconnecting?
    ensures s.slot.Some? ==> e.slot != s.slot
    ensures forall u :: 0 <= u < |e.tasks| && e.tasks[u].Disconnecting? ==> e.slot.None?
  {
    StartHolds();
    RunKeeps(START, before, s);
    StepKeeps(s, Take(t));
    RunKeeps(Apply(s, Take(t)), later, e);
    LogGrows(Apply(s, Take(t)), later, e);
    if s.slot.Some? {
      assert e.log[|s.log|] == Dropped(s.slot.value, Retired);
      DroppedStaysOut(e, |s.log|);
    }
  }

  // ---------------------------------------------------------------- two rebuilds without a retire

  lemma {:induction false} RunSnoc(s: State, actions: seq<Action>, t: State, a: Action)
    requires Run(s, actions, t) && Enabled(t, a)
    ensures Run(s, actions + [a], Apply(t, a))
    decreases |actions|
  {
    if actions == [] {
      assert ([a])[1..] == [];
      assert actions + [a] == [a];
    } else {
      RunSnoc(Apply(s, actions[0]), actions[1..], t, a);
      assert (actions + [a])[1..] == actions[1..] + [a];
    }
  }

  predicate Peaceful(a: Action) { !a.StartRetire? && !a.StartShutdown? && (a.Check? ==> a.alive) }

  /** One more peaceful step of a run. */
  lemma More(actions: seq<Action>, s: State, a: Action) returns (more: seq<Action>, t: State)
    requires Run(START, actions, s) && Enabled(s, a) && Peaceful(a)
    requires forall b :: b in actions ==> Peaceful(b)
    ensures t == Apply(s, a) && Run(START, more, t)
    ensures forall b :: b in more ==> Peaceful(b)
  {
    RunSnoc(START, actions, s, a);
    more, t := actions + [a], Apply(s, a);
  }

  /** Task `t` waits for the lock, and connects once it has it. */
  lemma Rebuild(actions: seq<Action>, s: State, t: nat) returns (more: seq<Action>, e: State)
    requires Run(START, actions, s) && forall b :: b in actions ==> Peaceful(b)
    requires s.lock.None? && !s.closed && t < |s.tasks| && s.tasks[t].Waiting?
    requires Decide(s.slot, false, s.tasks[t].request, true).Build?
    ensures Run(START, more, e) && forall b :: b in more ==> Peaceful(b)
    ensures e.slot == Some(s.next) && e.next == s.next + 1 && e.lock.None? && !e.closed
    ensures e.tasks == s.tasks[t := Using(s.next, s.tasks[t].request.Replace?)]
    ensures e.log == Emptied(s, Why(s.tasks[t].request)).log + [Built(s.tasks[t].request, s.next)]
  {
    more, e := More(actions, s, Acquire(t));
    more, e := More(more, e, Check(t, true));
    more, e := More(more, e, ConnectOk(t));
  }

  /** Two dials share session 0; the first of them fails on it and rebuilds. */
  lemma FirstRebuild() returns (actions: seq<Action>, s: State)
    ensures Run(START, actions, s) && forall b :: b in actions ==> Peaceful(b)
    ensures s.slot == Some(1) && s.next == 2 && s.lock.None? && !s.closed
    ensures s.tasks == [Using(1, true), Using(0, false)]
    ensures Built(Replace(0), 1) in s.log
  {
    actions, s := [], START;
    actions, s := More(actions, s, StartDial);
    actions, s := Rebuild(actions, s, 0);
    actions, s := More(actions, s, StartDial);
    actions, s := More(actions, s, Acquire(1));
    actions, s := More(actions, s, Check(1, true));
    assert s.tasks == [Using(0, false), Using(0, false)];
    actions, s := More(actions, s, SessionBroken(0));
    actions, s := Rebuild(actions, s, 0);
  }

  /** A third dial fails on the rebuilt session and then fails to connect. */
  lemma RebuiltIsLost(actions: seq<Action>, s: State) returns (more: seq<Action>, e: State)
    requires Run(START, actions, s) && forall b :: b in actions ==> Peaceful(b)
    requires s.slot == Some(1) && s.lock.None? && !s.closed && |s.tasks| == 2
    ensures Run(START, more, e) && forall b :: b in more ==> Peaceful(b)
    ensures e.slot.None? && e.next == s.next && e.lock.None? && !e.closed && s.log <= e.log
    ensures e.tasks == s.tasks + [Ended(ConnectFailed)]
  {
    more, e := More(actions, s, StartDial);
    more, e := More(more, e, Acquire(2));
    more, e := More(more, e, Check(2, true));
    more, e := More(more, e, SessionBroken(2));
    more, e := More(more, e, Acquire(2));
    more, e := More(more, e, Check(2, true));
    more, e := More(more, e, ConnectFails(2));
  }

  /**
   Without any retire, shutdown or liveness test, two dials that failed on the same session can
   both rebuild: a third dial fails on the first rebuilt session and then fails to connect, which
   leaves the slot empty for the second.
   */
  lemma TwoRebuildsWithoutRetire() returns (actions: seq<Action>, s: State)
    ensures Run(START, actions, s) && forall b :: b in actions ==> Peaceful(b)
    ensures Built(Replace(0), 1) in s.log && Built(Replace(0), 2) in s.log
  {
    actions, s := FirstRebuild();
    var first := s.log;
    actions, s := RebuiltIsLost(actions, s);
    actions, s := More(actions, s, SessionBroken(1));
    actions, s := Rebuild(actions, s, 1);
    assert first <= s.log;
  }

  // ---------------------------------------------------------------- a shutdown gets through

  /** While nobody holds the lock, a shutdown can run to its end, and then the provider is shut down. */
  lemma ShutdownGetsThrough(s: State) returns (e: State)
    requires s.lock.None?
    ensures var t := |s.tasks|;
            Run(s, [StartShutdown] + [StoreClosed(t), Acquire(t), Take(t), Release(t)], e)
    ensures ShutDown(e) && e.closed && e.slot.None? && e.lock.None?
  {
    var t := |s.tasks|;
    var a := Apply(s, StartShutdown);
    var b := Apply(a, StoreClosed(t));
    var c := Apply(b, Acquire(t));
    var d := Apply(c, Take(t));
    e := Apply(d, Release(t));
    assert e.tasks[t] == Ended(RetireDone(true));
    RunCons(d, Release(t), [], e);
    assert [Release(t)] + [] == [Release(t)];
    RunCons(c, Take(t), [Release(t)], e);
    assert [Take(t)] + [Release(t)] == [Take(t), Release(t)];
    RunCons(b, Acquire(t), [Take(t), Release(t)], e);
    assert [Acquire(t)] + [Take(t), Release(t)] == [Acquire(t), Take(t), Release(t)];
    RunCons(a, StoreClosed(t), [Acquire(t), Take(t), Release(t)], e);
    assert [StoreClosed(t)] + [Acquire(t), Take(t), Release(t)] == [StoreClosed(t), Acquire(t), Take(t), Release(t)];
    RunCons(s, StartShutdown, [StoreClosed(t), Acquire(t), Take(t), Release(t)], e);
  }

  lemma RunCons(s: State, a: Action, rest: seq<Action>, e: State)
    requires Enabled(s, a) && Run(Apply(s, a), rest, e)
    ensures Run(s, [a] + rest, e)
  {
    assert ([a] + rest)[1..] == rest;
  }
}
