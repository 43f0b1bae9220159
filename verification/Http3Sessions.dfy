/**
 The session lifecycle of the HTTP/3 provider (`src/http3/mod.rs`) and the writer registration in
 `src/http3/stream.rs`, as a state machine over lock sections and atomic operations.

 A session is shared by `Arc`; the provider's list holds weak references. A session is dropped
 when nothing refers to it any more, and its drop runs `stop` once again.
 */
module Http3Sessions {
  import opened Bags

  const MAX_SESSIONS: nat := 4

  datatype Status = Running | Finished | Aborted

  datatype Writer = Writer(session: nat, status: Status)

  /**
   `taken`: some `stop` has emptied the writer list; `aborting`: the task that holds what it took
   and has yet to abort it; `stops`: completed calls of `stop`.
   */
  datatype Session = Session(
    stopped: bool,
    lock: Option<nat>,
    writers: seq<nat>,
    taken: bool,
    aborting: Option<nat>,
    stops: nat,
    listed: bool,
    drained: bool,
    dropped: bool)

  const NEW_SESSION := Session(false, None, [], false, None, 0, false, false, false)

  datatype Phase = SetFlag | TakeWriters | AbortTaken(list: seq<nat>)

  datatype Task =
    | Waiting(retire: bool)            // for the connect lock
    | Locked(retire: bool)
    | Connecting                       // connect lock held, limit checked
    | Built(id: nat)                   // connect lock held, session not yet installed
    | Installing(id: nat, saw: bool)   // holding the session list too, stop flag loaded
    | Using(id: nat)                   // a dial that got a session
    | Registering(id: nat, saw: bool)  // holding the session's writer list, flag loaded
    | Streaming(id: nat, writer: nat)
    | ShuttingDown                     // stop flag set, list not yet drained
    | Stopping(ids: seq<nat>, at: Phase, connectLocked: bool)
    | Over

  datatype State = State(
    stop: bool,
    connectLock: Option<nat>,
    listLock: Option<nat>,
    all: seq<nat>,
    current: Option<nat>,
    sessions: seq<Session>,
    writers: seq<Writer>,
    returned: bool,   // some stop_sessions has returned
    tasks: seq<Task>)

  /** Steps of `session`, under the connect lock. */
  datatype ConnectStep = Lock | Inspect(usable: bool) | Build | ReadStop | Install | GiveUp

  /** Steps of `Http3Stream::new` and of a stream's drop. */
  datatype StreamStep = EnterWriters | Register | DropStream

  datatype Action =
    | SpawnDial
    | SpawnRetire
    | SpawnShutdown
    | WriterEnds(w: nat)
    | DropSession(id: nat)
    | Drain(i: nat)
    | StopStep(i: nat)
    | Connect(i: nat, connect: ConnectStep)
    | Stream(i: nat, stream: StreamStep)

  // ---- Steps ----

  predicate At(s: State, i: nat) { i < |s.tasks| }

  predicate HasConnectLock(t: Task) {
    t.Locked? || t.Connecting? || t.Built? || t.Installing? || (t.Stopping? && t.connectLocked)
  }

  /** A strong reference to session `id`. */
  predicate Refers(t: Task, id: nat) {
    match t
    case Built(k) => k == id
    case Installing(k, _) => k == id
    case Using(k) => k == id
    case Registering(k, _) => k == id
    case Streaming(k, _) => k == id
    case Stopping(ids, _, _) => id in ids
    case _ => false
  }

  predicate ConnectEnabled(s: State, t: Task, c: ConnectStep) {
    match c
    case Lock => t.Waiting? && s.connectLock.None?
    case Inspect(_) => t == Locked(false) && s.listLock.None?
    case Build => t.Connecting?
    case ReadStop => t.Built? && s.listLock.None?
    case Install => t.Installing? && t.id < |s.sessions|
    case GiveUp => t.Waiting? || t.Connecting? || t.Using?
  }

  predicate StreamEnabled(s: State, t: Task, m: StreamStep) {
    match m
    case EnterWriters => t.Using? && t.id < |s.sessions| && s.sessions[t.id].lock.None?
    case Register => t.Registering? && t.id < |s.sessions|
    case DropStream => t.Streaming? && t.writer < |s.writers|
  }

  predicate StopEnabled(s: State, t: Task) {
    && t.Stopping?
    && (t.ids != [] ==> t.ids[0] < |s.sessions| && (t.at.TakeWriters? ==> s.sessions[t.ids[0]].lock.None?))
  }

  ghost predicate Enabled(s: State, a: Action) {
    match a
    case SpawnDial => true
    case SpawnRetire => true
    case SpawnShutdown => true
    case WriterEnds(w) => w < |s.writers| && s.writers[w].status.Running?
    case DropSession(id) =>
      && id < |s.sessions| && !s.sessions[id].dropped && s.current != Some(id)
      && forall j :: 0 <= j < |s.tasks| ==> !Refers(s.tasks[j], id)
    case Drain(i) => At(s, i) && (s.tasks[i] == Locked(true) || s.tasks[i].ShuttingDown?) && s.listLock.None?
    case StopStep(i) => At(s, i) && StopEnabled(s, s.tasks[i])
    case Connect(i, c) => At(s, i) && ConnectEnabled(s, s.tasks[i], c)
    case Stream(i, m) => At(s, i) && StreamEnabled(s, s.tasks[i], m)
  }

  function Move(s: State, i: nat, t: Task): State
    requires At(s, i)
  {
    s.(tasks := s.tasks[i := t])
  }

  function Unlocked(s: State, i: nat, t: Task): State
    requires At(s, i)
  {
    Move(s, i, t).(connectLock := None)
  }

  function WithSession(s: State, id: nat, k: Session): State
    requires id < |s.sessions|
  {
    s.(sessions := s.sessions[id := k])
  }

  ghost predicate Distinct(xs: seq<nat>) {
    forall a, b :: 0 <= a < b < |xs| ==> xs[a] != xs[b]
  }

  lemma DistinctAppend(xs: seq<nat>, x: nat)
    requires Distinct(xs) && x !in xs
    ensures Distinct(xs + [x])
  {
  }

  /** The listed sessions that can still be upgraded to strong references. */
  function Upgradable(all: seq<nat>, sessions: seq<Session>): (r: seq<nat>)
    ensures forall id :: id in r <==> id in all && id < |sessions| && !sessions[id].dropped
    ensures |r| <= |all|
  {
    if all == [] then []
    else
      var rest := Upgradable(all[..|all| - 1], sessions);
      var id := all[|all| - 1];
      assert all == all[..|all| - 1] + [id];
      if id < |sessions| && !sessions[id].dropped then rest + [id] else rest
  }

  function StillRunning(list: seq<nat>, writers: seq<Writer>): (r: seq<nat>)
    ensures forall w :: w in r <==> w in list && w < |writers| && writers[w].status.Running?
  {
    if list == [] then []
    else
      var rest := StillRunning(list[..|list| - 1], writers);
      var w := list[|list| - 1];
      assert list == list[..|list| - 1] + [w];
      if w < |writers| && writers[w].status.Running? then rest + [w] else rest
  }

  function Mark(sessions: seq<Session>, ids: seq<nat>): (r: seq<Session>)
    ensures |r| == |sessions|
    ensures forall id :: 0 <= id < |sessions| ==>
              r[id] == if id in ids then sessions[id].(drained := true) else sessions[id]
  {
    seq(|sessions|, id requires 0 <= id < |sessions| =>
      if id in ids then sessions[id].(drained := true) else sessions[id])
  }

  function AbortAll(writers: seq<Writer>, list: seq<nat>): (r: seq<Writer>)
    ensures |r| == |writers|
    ensures forall w :: 0 <= w < |writers| ==>
              r[w] == if w in list && writers[w].status.Running? then writers[w].(status := Aborted) else writers[w]
  {
    seq(|writers|, w requires 0 <= w < |writers| =>
      if w in list && writers[w].status.Running? then writers[w].(status := Aborted) else writers[w])
  }

  function StopApply(s: State, i: nat): State
    requires At(s, i) && StopEnabled(s, s.tasks[i])
  {
    var t := s.tasks[i];
    if t.ids == [] then
      if t.connectLocked then Unlocked(s, i, Over) else Move(s, i, Over)
    else
      var id := t.ids[0];
      var k := s.sessions[id];
      match t.at
      case SetFlag => Move(WithSession(s, id, k.(stopped := true)), i, Stopping(t.ids, TakeWriters, t.connectLocked))
      case TakeWriters =>
        Move(WithSession(s, id, k.(writers := [], taken := true, aborting := Some(i))), i,
             Stopping(t.ids, AbortTaken(k.writers), t.connectLocked))
      case AbortTaken(list) =>
        Move(WithSession(s, id, k.(stops := k.stops + 1, aborting := None)), i,
             Stopping(t.ids[1..], SetFlag, t.connectLocked))
          .(writers := AbortAll(s.writers, list))
  }

  function ConnectApply(s: State, i: nat, c: ConnectStep): State
    requires At(s, i) && ConnectEnabled(s, s.tasks[i], c)
  {
    var t := s.tasks[i];
    match c
    case Lock => Move(s, i, Locked(t.retire)).(connectLock := Some(i))
    case Inspect(usable) =>
      if s.current.Some? && usable then Unlocked(s, i, Using(s.current.value))
      else
        var all := Upgradable(s.all, s.sessions);
        if |all| >= MAX_SESSIONS then Unlocked(s, i, Over).(current := None, all := all)
        else Move(s, i, Connecting).(current := None, all := all)
    case Build => Move(s, i, Built(|s.sessions|)).(sessions := s.sessions + [NEW_SESSION])
    case ReadStop => Move(s, i, Installing(t.id, s.stop)).(listLock := Some(i))
    case Install =>
      if t.saw then Unlocked(s, i, Over).(listLock := None)
      else
        Unlocked(WithSession(s, t.id, s.sessions[t.id].(listed := true)), i, Using(t.id))
          .(all := s.all + [t.id], current := Some(t.id), listLock := None)
    case GiveUp => if t.Connecting? then Unlocked(s, i, Over) else Move(s, i, Over)
  }

  function StreamApply(s: State, i: nat, m: StreamStep): State
    requires At(s, i) && StreamEnabled(s, s.tasks[i], m)
  {
    var t := s.tasks[i];
    match m
    case EnterWriters =>
      Move(WithSession(s, t.id, s.sessions[t.id].(lock := Some(i))), i, Registering(t.id, s.sessions[t.id].stopped))
    case Register =>
      var k := s.sessions[t.id].(lock := None);
      if t.saw then Move(WithSession(s, t.id, k), i, Over)
      else
        Move(WithSession(s, t.id, k.(writers := StillRunning(k.writers, s.writers) + [|s.writers|])), i,
             Streaming(t.id, |s.writers|))
          .(writers := s.writers + [Writer(t.id, Running)])
    case DropStream => Move(s, i, Over).(writers := AbortAll(s.writers, [t.writer]))
  }

  function DrainApply(s: State, i: nat): State
    requires At(s, i)
  {
    var ids := Upgradable(s.all, s.sessions);
    var shutdown := s.tasks[i].ShuttingDown?;
    Move(s, i, Stopping(ids, SetFlag, !shutdown))
      .(all := [], current := None, sessions := Mark(s.sessions, ids), returned := s.returned || shutdown)
  }

  ghost function Apply(s: State, a: Action): State
    requires Enabled(s, a)
  {
    match a
    case SpawnDial => s.(tasks := s.tasks + [Waiting(false)])
    case SpawnRetire => s.(tasks := s.tasks + [Waiting(true)])
    case SpawnShutdown => s.(tasks := s.tasks + [ShuttingDown], stop := true)
    case WriterEnds(w) => s.(writers := s.writers[w := s.writers[w].(status := Finished)])
    case DropSession(id) =>
      WithSession(s, id, s.sessions[id].(dropped := true)).(tasks := s.tasks + [Stopping([id], SetFlag, false)])
    case Drain(i) => DrainApply(s, i)
    case StopStep(i) => StopApply(s, i)
    case Connect(i, c) => ConnectApply(s, i, c)
    case Stream(i, m) => StreamApply(s, i, m)
  }

  // ---- The invariant ----

  ghost predicate Bounded(s: State) {
    && |s.all| <= MAX_SESSIONS
    && forall i :: 0 <= i < |s.tasks| && (s.tasks[i].Connecting? || s.tasks[i].Built? || s.tasks[i].Installing?) ==>
         |s.all| < MAX_SESSIONS
  }

  ghost predicate LocksHeld(s: State) {
    && (forall i :: 0 <= i < |s.tasks| && HasConnectLock(s.tasks[i]) ==> s.connectLock == Some(i))
    && (s.connectLock.Some? ==> s.connectLock.value < |s.tasks| && HasConnectLock(s.tasks[s.connectLock.value]))
    && (forall i :: 0 <= i < |s.tasks| && s.tasks[i].Installing? ==> s.listLock == Some(i))
    && (s.listLock.Some? ==> s.listLock.value < |s.tasks| && s.tasks[s.listLock.value].Installing?)
  }

  ghost predicate Shut(s: State) {
    && (forall i :: 0 <= i < |s.tasks| && s.tasks[i].ShuttingDown? ==> s.stop)
    && (s.returned ==>
          && s.stop && s.all == [] && s.current.None?
          && forall i :: 0 <= i < |s.tasks| && s.tasks[i].Installing? ==> s.tasks[i].saw)
  }

  ghost predicate Named(s: State) {
    && (forall i, id: nat :: 0 <= i < |s.tasks| && Refers(s.tasks[i], id) ==> id < |s.sessions|)
    && (forall id :: id in s.all ==> id < |s.sessions|)
    && (s.current.Some? ==> s.current.value < |s.sessions|)
  }

  /** The list is exactly the installed sessions that nobody drained, less some that were dropped. */
  ghost predicate Listed(s: State) {
    && Distinct(s.all)
    && (forall id :: id in s.all && id < |s.sessions| ==> s.sessions[id].listed && !s.sessions[id].drained)
    && (forall id :: 0 <= id < |s.sessions| && s.sessions[id].listed && !s.sessions[id].drained &&
                     !s.sessions[id].dropped ==>
          id in s.all)
    && (forall i :: 0 <= i < |s.tasks| && (s.tasks[i].Built? || s.tasks[i].Installing?) &&
                    s.tasks[i].id < |s.sessions| ==>
          !s.sessions[s.tasks[i].id].listed && !s.sessions[s.tasks[i].id].drained)
  }

  predicate StopsOn(t: Task, id: nat) { t.Stopping? && id in t.ids }

  /** At most one `stop` at a time runs on a session. */
  ghost predicate OneStopper(s: State) {
    && (forall i, j, id: nat :: 0 <= i < j < |s.tasks| && StopsOn(s.tasks[i], id) ==> !StopsOn(s.tasks[j], id))
    && (forall i :: 0 <= i < |s.tasks| && s.tasks[i].Stopping? ==> Distinct(s.tasks[i].ids))
    && (forall i, id: nat :: 0 <= i < |s.tasks| && StopsOn(s.tasks[i], id) && id < |s.sessions| ==>
          s.sessions[id].drained || s.sessions[id].dropped)
  }

  ghost predicate AbortsFor(t: Task, id: nat) { t.Stopping? && t.ids != [] && t.ids[0] == id && t.at.AbortTaken? }

  ghost predicate Phases(s: State) {
    && (forall i :: 0 <= i < |s.tasks| && s.tasks[i].Stopping? && s.tasks[i].ids != [] &&
                    s.tasks[i].ids[0] < |s.sessions| ==>
          && (!s.tasks[i].at.SetFlag? ==> s.sessions[s.tasks[i].ids[0]].stopped)
          && (s.tasks[i].at.AbortTaken? ==> s.sessions[s.tasks[i].ids[0]].aborting == Some(i)))
    && (forall id :: 0 <= id < |s.sessions| && s.sessions[id].aborting.Some? ==>
          s.sessions[id].aborting.value < |s.tasks| && AbortsFor(s.tasks[s.sessions[id].aborting.value], id))
  }

  ghost predicate WriterLocks(s: State) {
    && (forall i :: 0 <= i < |s.tasks| && s.tasks[i].Registering? && s.tasks[i].id < |s.sessions| ==>
          s.sessions[s.tasks[i].id].lock == Some(i))
    && (forall i :: 0 <= i < |s.tasks| && s.tasks[i].Registering? && s.tasks[i].id < |s.sessions| && !s.tasks[i].saw ==>
          !s.sessions[s.tasks[i].id].taken)
  }

  ghost predicate Emptied(s: State) {
    forall id :: 0 <= id < |s.sessions| ==>
      && (s.sessions[id].taken ==> s.sessions[id].stopped && s.sessions[id].writers == [])
      && (s.sessions[id].stops > 0 || s.sessions[id].aborting.Some? ==> s.sessions[id].taken)
  }

  /** A running writer is on its session's list, or among those its session's stopper is about to abort. */
  ghost predicate WritersKnown(s: State) {
    forall w :: 0 <= w < |s.writers| ==>
      && s.writers[w].session < |s.sessions|
      && (s.writers[w].status.Running? ==> Reachable(s, s.sessions[s.writers[w].session], w))
  }

  ghost predicate Reachable(s: State, k: Session, w: nat) {
    || w in k.writers
    || (k.stops == 0 && k.aborting.Some? && k.aborting.value < |s.tasks| && s.tasks[k.aborting.value].Stopping?
        && s.tasks[k.aborting.value].at.AbortTaken? && w in s.tasks[k.aborting.value].at.list)
  }

  ghost predicate Inv(s: State) {
    && Bounded(s) && LocksHeld(s) && Shut(s) && Named(s) && Listed(s) && OneStopper(s)
    && Phases(s) && WriterLocks(s) && Emptied(s) && WritersKnown(s)
  }

  // ---- What a step leaves alone ----

  ghost predicate Grows(s: State, s': State) {
    |s.tasks| <= |s'.tasks| && |s.sessions| <= |s'.sessions|
  }

  /** No stop call and nothing it depends on changed. */
  lemma FrameStoppers(s: State, s': State)
    requires OneStopper(s) && Phases(s) && Named(s) && Grows(s, s')
    requires forall id :: 0 <= id < |s.sessions| ==>
               && s'.sessions[id].stopped == s.sessions[id].stopped
               && s'.sessions[id].aborting == s.sessions[id].aborting
               && (s.sessions[id].drained || s.sessions[id].dropped ==>
                    s'.sessions[id].drained || s'.sessions[id].dropped)
    requires forall id :: |s.sessions| <= id < |s'.sessions| ==> s'.sessions[id].aborting.None?
    requires forall j :: 0 <= j < |s.tasks| && (s.tasks[j].Stopping? || s'.tasks[j].Stopping?) ==>
         s'.tasks[j] == s.tasks[j]
    requires forall j :: |s.tasks| <= j < |s'.tasks| ==> !s'.tasks[j].Stopping?
    ensures OneStopper(s') && Phases(s')
  {
    forall i, id: nat | 0 <= i < |s'.tasks| && StopsOn(s'.tasks[i], id) && id < |s'.sessions|
      ensures s'.sessions[id].drained || s'.sessions[id].dropped
    {
      assert Refers(s.tasks[i], id);
    }
    forall i | 0 <= i < |s'.tasks| && s'.tasks[i].Stopping? && s'.tasks[i].ids != []
      ensures s'.tasks[i].ids[0] < |s.sessions|
    {
      assert Refers(s.tasks[i], s.tasks[i].ids[0]);
    }
  }

  /** No writer list, no registration and no pending abort changed. */
  lemma FrameWriters(s: State, s': State)
    requires WriterLocks(s) && Emptied(s) && WritersKnown(s) && Named(s) && Grows(s, s') && s'.writers == s.writers
    requires forall id :: 0 <= id < |s.sessions| ==>
               && s'.sessions[id].stopped == s.sessions[id].stopped
               && s'.sessions[id].lock == s.sessions[id].lock
               && s'.sessions[id].writers == s.sessions[id].writers
               && s'.sessions[id].taken == s.sessions[id].taken
               && s'.sessions[id].aborting == s.sessions[id].aborting
               && s'.sessions[id].stops == s.sessions[id].stops
    requires forall id :: |s.sessions| <= id < |s'.sessions| ==> s'.sessions[id] == NEW_SESSION
    requires forall j :: 0 <= j < |s.tasks| && (s.tasks[j].Registering? || s'.tasks[j].Registering?) ==>
         s'.tasks[j] == s.tasks[j]
    requires forall j :: |s.tasks| <= j < |s'.tasks| ==> !s'.tasks[j].Registering?
    requires forall j :: 0 <= j < |s.tasks| && s.tasks[j].Stopping? ==> s'.tasks[j] == s.tasks[j]
    ensures WriterLocks(s') && Emptied(s') && WritersKnown(s')
  {
    forall i | 0 <= i < |s'.tasks| && s'.tasks[i].Registering?
      ensures s'.tasks[i].id < |s.sessions|
    {
      assert Refers(s.tasks[i], s.tasks[i].id);
    }
  }

  /** The list, its locks and the stop flag, and everyone who holds or waits for them, are as before. */
  lemma FrameList(s: State, s': State, i: nat)
    requires Bounded(s) && LocksHeld(s) && Shut(s) && Listed(s) && At(s, i)
    requires s'.all == s.all && s'.current == s.current && s'.stop == s.stop && s'.returned == s.returned
    requires s'.connectLock == s.connectLock && s'.listLock == s.listLock
    requires |s'.tasks| == |s.tasks| && |s'.sessions| == |s.sessions|
    requires forall j :: 0 <= j < |s.tasks| && j != i ==> s'.tasks[j] == s.tasks[j]
    requires HasConnectLock(s.tasks[i]) == HasConnectLock(s'.tasks[i])
    requires forall t :: t == s.tasks[i] || t == s'.tasks[i] ==>
               !t.Connecting? && !t.Built? && !t.Installing? && !t.ShuttingDown?
    requires forall id :: 0 <= id < |s.sessions| ==>
               && s'.sessions[id].listed == s.sessions[id].listed
               && s'.sessions[id].drained == s.sessions[id].drained
               && s'.sessions[id].dropped == s.sessions[id].dropped
    ensures Bounded(s') && LocksHeld(s') && Shut(s') && Listed(s')
  {
  }

  // ---- Connecting ----

  /** All a connect step does to the tasks, the sessions and the writers. */
  lemma ConnectTouches(s: State, i: nat, c: ConnectStep)
    requires At(s, i) && ConnectEnabled(s, s.tasks[i], c)
    ensures var s' := ConnectApply(s, i, c);
            && s'.tasks == s.tasks[i := s'.tasks[i]] && s'.writers == s.writers
            && !s.tasks[i].Stopping? && !s'.tasks[i].Stopping? && !s.tasks[i].Registering? && !s'.tasks[i].Registering?
            && (|| s'.sessions == s.sessions
                || s'.sessions == s.sessions + [NEW_SESSION]
                || (&& s.tasks[i].Installing? && s.tasks[i].id < |s.sessions|
                    && s'.sessions == s.sessions[s.tasks[i].id := s.sessions[s.tasks[i].id].(listed := true)]))
  {
  }

  lemma ConnectStops(s: State, i: nat, c: ConnectStep)
    requires OneStopper(s) && Phases(s) && Named(s) && At(s, i) && ConnectEnabled(s, s.tasks[i], c)
    ensures var s' := ConnectApply(s, i, c); OneStopper(s') && Phases(s')
  {
    var s' := ConnectApply(s, i, c);
    ConnectTouches(s, i, c);
    FrameStoppers(s, s');
  }

  lemma ConnectWriters(s: State, i: nat, c: ConnectStep)
    requires WriterLocks(s) && Emptied(s) && WritersKnown(s) && Named(s)
    requires At(s, i) && ConnectEnabled(s, s.tasks[i], c)
    ensures var s' := ConnectApply(s, i, c); WriterLocks(s') && Emptied(s') && WritersKnown(s')
  {
    var s' := ConnectApply(s, i, c);
    ConnectTouches(s, i, c);
    FrameWriters(s, s');
  }

  lemma ConnectBounded(s: State, i: nat, c: ConnectStep)
    requires Bounded(s) && LocksHeld(s) && At(s, i) && ConnectEnabled(s, s.tasks[i], c)
    ensures Bounded(ConnectApply(s, i, c))
  {
  }

  lemma ConnectLocks(s: State, i: nat, c: ConnectStep)
    requires LocksHeld(s) && At(s, i) && ConnectEnabled(s, s.tasks[i], c)
    ensures LocksHeld(ConnectApply(s, i, c))
  {
  }

  lemma ConnectShut(s: State, i: nat, c: ConnectStep)
    requires Shut(s) && At(s, i) && ConnectEnabled(s, s.tasks[i], c)
    ensures Shut(ConnectApply(s, i, c))
  {
  }

  lemma {:induction false} UpgradableDistinct(all: seq<nat>, sessions: seq<Session>)
    requires Distinct(all)
    ensures Distinct(Upgradable(all, sessions))
  {
    if all != [] {
      var n := |all| - 1;
      UpgradableDistinct(all[..n], sessions);
      assert all[n] !in all[..n];
      if all[n] < |sessions| && !sessions[all[n]].dropped {
        DistinctAppend(Upgradable(all[..n], sessions), all[n]);
      }
    }
  }

  lemma AloneWithConnectLock(s: State, i: nat, j: nat)
    requires LocksHeld(s) && At(s, i) && At(s, j) && i != j && HasConnectLock(s.tasks[i])
    ensures !HasConnectLock(s.tasks[j])
  {
  }

  lemma InstallListed(s: State, i: nat)
    requires Listed(s) && LocksHeld(s) && At(s, i) && ConnectEnabled(s, s.tasks[i], Install) && !s.tasks[i].saw
    ensures Listed(ConnectApply(s, i, Install))
  {
    var s', id := ConnectApply(s, i, Install), s.tasks[i].id;
    DistinctAppend(s.all, id);
    forall j | 0 <= j < |s'.tasks|
      ensures !s'.tasks[j].Built? && !s'.tasks[j].Installing?
    {
      if j != i {
        AloneWithConnectLock(s, i, j);
      }
    }
    assert forall x :: x in s'.all <==> x in s.all || x == id;
  }

  lemma BuildListed(s: State, i: nat)
    requires Listed(s) && LocksHeld(s) && Named(s) && At(s, i) && ConnectEnabled(s, s.tasks[i], Build)
    ensures Listed(ConnectApply(s, i, Build))
  {
    forall j | 0 <= j < |s.tasks| && j != i
      ensures !s.tasks[j].Built? && !s.tasks[j].Installing?
    {
      AloneWithConnectLock(s, i, j);
    }
  }

  /** The list may lose dropped sessions. */
  lemma PrunedListed(s: State, s': State)
    requires Listed(s) && Named(s) && s'.sessions == s.sessions && s'.all == Upgradable(s.all, s.sessions)
    requires |s'.tasks| == |s.tasks|
    requires forall j :: 0 <= j < |s.tasks| && (s'.tasks[j].Built? || s'.tasks[j].Installing?) ==>
         s'.tasks[j] == s.tasks[j]
    ensures Listed(s')
  {
    UpgradableDistinct(s.all, s.sessions);
  }

  lemma InspectListed(s: State, i: nat, usable: bool)
    requires Listed(s) && Named(s) && At(s, i) && ConnectEnabled(s, s.tasks[i], Inspect(usable))
    ensures Listed(ConnectApply(s, i, Inspect(usable)))
  {
    if s.current.None? || !usable {
      PrunedListed(s, ConnectApply(s, i, Inspect(usable)));
    }
  }

  lemma ConnectListed(s: State, i: nat, c: ConnectStep)
    requires Listed(s) && LocksHeld(s) && Named(s) && At(s, i) && ConnectEnabled(s, s.tasks[i], c)
    ensures Listed(ConnectApply(s, i, c))
  {
    match c
    case Install =>
      if !s.tasks[i].saw {
        InstallListed(s, i);
      }
    case Build => BuildListed(s, i);
    case Inspect(usable) => InspectListed(s, i, usable);
    case _ => PlainListed(s, i, c);
  }

  /** Locking, loading the stop flag and giving up change no list and no session. */
  lemma PlainListed(s: State, i: nat, c: ConnectStep)
    requires Listed(s) && At(s, i) && ConnectEnabled(s, s.tasks[i], c) && (c.Lock? || c.ReadStop? || c.GiveUp?)
    ensures Listed(ConnectApply(s, i, c))
  {
  }

  lemma ConnectNamed(s: State, i: nat, c: ConnectStep)
    requires Named(s) && At(s, i) && ConnectEnabled(s, s.tasks[i], c)
    ensures Named(ConnectApply(s, i, c))
  {
    var s' := ConnectApply(s, i, c);
    ConnectRefers(s, i, c);
    forall j, id: nat | 0 <= j < |s'.tasks| && Refers(s'.tasks[j], id)
      ensures id < |s'.sessions|
    {
      assert j != i ==> Refers(s.tasks[j], id);
    }
  }

  /** The session a connecting task comes to refer to exists. */
  lemma ConnectRefers(s: State, i: nat, c: ConnectStep)
    requires Named(s) && At(s, i) && ConnectEnabled(s, s.tasks[i], c)
    ensures var s' := ConnectApply(s, i, c);
            && |s'.tasks| == |s.tasks| && |s.sessions| <= |s'.sessions|
            && (forall j :: 0 <= j < |s.tasks| && j != i ==> s'.tasks[j] == s.tasks[j])
            && (forall id: nat :: Refers(s'.tasks[i], id) ==> id < |s'.sessions|)
            && (forall id :: id in s'.all ==> id < |s'.sessions|)
            && (s'.current.Some? ==> s'.current.value < |s'.sessions|)
  {
    assert forall id: nat :: Refers(s.tasks[i], id) ==> id < |s.sessions|;
    var t := s.tasks[i];
    if c.ReadStop? || c.Install? {
      assert Refers(t, t.id);
    }
  }

  lemma ConnectKeeps(s: State, i: nat, c: ConnectStep)
    requires Inv(s) && At(s, i) && ConnectEnabled(s, s.tasks[i], c)
    ensures Inv(ConnectApply(s, i, c))
  {
    ConnectBounded(s, i, c);
    ConnectLocks(s, i, c);
    ConnectShut(s, i, c);
    ConnectNamed(s, i, c);
    ConnectListed(s, i, c);
    ConnectStops(s, i, c);
    ConnectWriters(s, i, c);
  }

  // ---- Streams ----

  lemma StreamNamed(s: State, i: nat, m: StreamStep)
    requires Named(s) && At(s, i) && StreamEnabled(s, s.tasks[i], m)
    ensures Named(StreamApply(s, i, m))
  {
    var s' := StreamApply(s, i, m);
    forall j, id: nat | 0 <= j < |s'.tasks| && Refers(s'.tasks[j], id)
      ensures id < |s'.sessions|
    {
      assert Refers(s.tasks[j], id);
    }
  }

  /** A stream that is being registered, and not stopped, excludes a stop's taking of the list. */
  lemma EnterWriterLocks(s: State, i: nat)
    requires WriterLocks(s) && Emptied(s) && At(s, i) && StreamEnabled(s, s.tasks[i], EnterWriters)
    ensures WriterLocks(StreamApply(s, i, EnterWriters))
  {
  }

  lemma RegisterWriterLocks(s: State, i: nat)
    requires WriterLocks(s) && At(s, i) && StreamEnabled(s, s.tasks[i], Register)
    ensures WriterLocks(StreamApply(s, i, Register))
  {
    assert s.sessions[s.tasks[i].id].lock == Some(i);
  }

  lemma StreamWriterLocks(s: State, i: nat, m: StreamStep)
    requires WriterLocks(s) && Emptied(s) && At(s, i) && StreamEnabled(s, s.tasks[i], m)
    ensures WriterLocks(StreamApply(s, i, m))
  {
    match m
    case EnterWriters => EnterWriterLocks(s, i);
    case Register => RegisterWriterLocks(s, i);
    case DropStream =>
  }

  lemma StreamEmptied(s: State, i: nat, m: StreamStep)
    requires WriterLocks(s) && Emptied(s) && At(s, i) && StreamEnabled(s, s.tasks[i], m)
    ensures Emptied(StreamApply(s, i, m))
  {
  }

  /** `Reachable` depends only on the session's list and on the task aborting for it. */
  lemma StillReachable(s: State, s': State, k: Session, k': Session, w: nat)
    requires Reachable(s, k, w) && k'.aborting == k.aborting && k'.stops == k.stops
    requires w in k.writers ==> w in k'.writers
    requires |s'.tasks| >= |s.tasks|
    requires forall j :: 0 <= j < |s.tasks| && s.tasks[j].Stopping? ==> s'.tasks[j] == s.tasks[j]
    ensures Reachable(s', k', w)
  {
  }

  lemma StreamWritersKnown(s: State, i: nat, m: StreamStep)
    requires WritersKnown(s) && At(s, i) && StreamEnabled(s, s.tasks[i], m)
    ensures WritersKnown(StreamApply(s, i, m))
  {
    var s' := StreamApply(s, i, m);
    forall w | 0 <= w < |s.writers| && s'.writers[w].status.Running?
      ensures s'.writers[w].session < |s'.sessions| && Reachable(s', s'.sessions[s'.writers[w].session], w)
    {
      var id := s.writers[w].session;
      StillReachable(s, s', s.sessions[id], s'.sessions[id], w);
    }
  }

  /** All a stream step does to the tasks, and to what the list and the stop calls are made of. */
  lemma StreamTouches(s: State, i: nat, m: StreamStep)
    requires At(s, i) && StreamEnabled(s, s.tasks[i], m)
    ensures var t, s' := s.tasks[i], StreamApply(s, i, m);
            && s'.tasks == s.tasks[i := s'.tasks[i]] && |s'.sessions| == |s.sessions|
            && (t.Using? || t.Registering? || t.Streaming?)
            && (s'.tasks[i].Registering? || s'.tasks[i].Streaming? || s'.tasks[i].Over?)
    ensures var s' := StreamApply(s, i, m);
            forall id :: 0 <= id < |s.sessions| ==>
              && s'.sessions[id].listed == s.sessions[id].listed
              && s'.sessions[id].drained == s.sessions[id].drained
              && s'.sessions[id].dropped == s.sessions[id].dropped
              && s'.sessions[id].stopped == s.sessions[id].stopped
              && s'.sessions[id].aborting == s.sessions[id].aborting
  {
  }

  lemma StreamList(s: State, i: nat, m: StreamStep)
    requires Bounded(s) && LocksHeld(s) && Shut(s) && Listed(s) && At(s, i) && StreamEnabled(s, s.tasks[i], m)
    ensures var s' := StreamApply(s, i, m); Bounded(s') && LocksHeld(s') && Shut(s') && Listed(s')
  {
    var s' := StreamApply(s, i, m);
    StreamTouches(s, i, m);
    FrameList(s, s', i);
  }

  lemma StreamStops(s: State, i: nat, m: StreamStep)
    requires OneStopper(s) && Phases(s) && Named(s) && At(s, i) && StreamEnabled(s, s.tasks[i], m)
    ensures var s' := StreamApply(s, i, m); OneStopper(s') && Phases(s')
  {
    var s' := StreamApply(s, i, m);
    StreamTouches(s, i, m);
    FrameStoppers(s, s');
  }

  lemma StreamKeeps(s: State, i: nat, m: StreamStep)
    requires Inv(s) && At(s, i) && StreamEnabled(s, s.tasks[i], m)
    ensures Inv(StreamApply(s, i, m))
  {
    StreamList(s, i, m);
    StreamStops(s, i, m);
    StreamNamed(s, i, m);
    StreamWriterLocks(s, i, m);
    StreamEmptied(s, i, m);
    StreamWritersKnown(s, i, m);
  }

  // ---- Session::stop ----

  lemma StopNamed(s: State, i: nat)
    requires Named(s) && At(s, i) && StopEnabled(s, s.tasks[i])
    ensures Named(StopApply(s, i))
  {
    var s' := StopApply(s, i);
    forall j, id: nat | 0 <= j < |s'.tasks| && Refers(s'.tasks[j], id)
      ensures id < |s'.sessions|
    {
      assert Refers(s.tasks[j], id);
    }
  }

  /** All a stop step does to the tasks and to what the list is made of. */
  lemma StopTouches(s: State, i: nat)
    requires At(s, i) && StopEnabled(s, s.tasks[i])
    ensures var t, s' := s.tasks[i], StopApply(s, i);
            && s'.tasks == s.tasks[i := s'.tasks[i]] && |s'.sessions| == |s.sessions|
            && (t.ids == [] ==> s'.tasks[i].Over?)
            && (t.ids != [] ==>
                  && s'.tasks[i].Stopping? && s'.tasks[i].connectLocked == t.connectLocked &&
                       s'.connectLock == s.connectLock
                  && s'.tasks[i].ids == if t.at.AbortTaken? then t.ids[1..] else t.ids)
    ensures var s' := StopApply(s, i);
            forall id :: 0 <= id < |s.sessions| ==>
              && s'.sessions[id].listed == s.sessions[id].listed
              && s'.sessions[id].drained == s.sessions[id].drained
              && s'.sessions[id].dropped == s.sessions[id].dropped
  {
  }

  lemma StopList(s: State, i: nat)
    requires Bounded(s) && LocksHeld(s) && Shut(s) && Listed(s) && At(s, i) && StopEnabled(s, s.tasks[i])
    ensures var s' := StopApply(s, i); Bounded(s') && LocksHeld(s') && Shut(s') && Listed(s')
  {
    var s' := StopApply(s, i);
    StopTouches(s, i);
    if s.tasks[i].ids != [] || !s.tasks[i].connectLocked {
      FrameList(s, s', i);
    }
  }

  lemma StopOneStopper(s: State, i: nat)
    requires OneStopper(s) && At(s, i) && StopEnabled(s, s.tasks[i])
    ensures OneStopper(StopApply(s, i))
  {
    var s' := StopApply(s, i);
    StopTouches(s, i);
    assert s.tasks[i].ids != [] ==> Distinct(s.tasks[i].ids[1..]);
    assert forall j, id: nat :: 0 <= j < |s.tasks| && StopsOn(s'.tasks[j], id) ==> StopsOn(s.tasks[j], id);
  }

  lemma OtherStopper(s: State, i: nat, j: nat)
    requires OneStopper(s) && At(s, i) && At(s, j) && i != j
    requires s.tasks[i].Stopping? && s.tasks[i].ids != [] && s.tasks[j].Stopping? && s.tasks[j].ids != []
    ensures s.tasks[i].ids[0] != s.tasks[j].ids[0]
  {
    assert StopsOn(s.tasks[i], s.tasks[i].ids[0]) && StopsOn(s.tasks[j], s.tasks[j].ids[0]);
  }

  lemma AbortPhases(s: State, i: nat)
    requires OneStopper(s) && Phases(s) && At(s, i) && StopEnabled(s, s.tasks[i])
    requires s.tasks[i].ids != [] && s.tasks[i].at.AbortTaken?
    ensures Phases(StopApply(s, i))
  {
    var s', id := StopApply(s, i), s.tasks[i].ids[0];
    forall j | 0 <= j < |s.tasks| && j != i && s.tasks[j].Stopping? && s.tasks[j].ids != []
      ensures id != s.tasks[j].ids[0]
    {
      OtherStopper(s, i, j);
    }
  }

  lemma TakePhases(s: State, i: nat)
    requires OneStopper(s) && Phases(s) && At(s, i) && StopEnabled(s, s.tasks[i])
    requires s.tasks[i].ids != [] && s.tasks[i].at.TakeWriters?
    ensures Phases(StopApply(s, i))
  {
    var id := s.tasks[i].ids[0];
    forall j | 0 <= j < |s.tasks| && j != i && s.tasks[j].Stopping? && s.tasks[j].ids != []
      ensures id != s.tasks[j].ids[0]
    {
      OtherStopper(s, i, j);
    }
  }

  lemma FlagPhases(s: State, i: nat)
    requires Phases(s) && At(s, i) && StopEnabled(s, s.tasks[i]) && s.tasks[i].ids != [] && s.tasks[i].at.SetFlag?
    ensures Phases(StopApply(s, i))
  {
  }

  lemma StopPhases(s: State, i: nat)
    requires OneStopper(s) && Phases(s) && At(s, i) && StopEnabled(s, s.tasks[i])
    ensures Phases(StopApply(s, i))
  {
    var t := s.tasks[i];
    if t.ids != [] {
      match t.at
      case AbortTaken(_) => AbortPhases(s, i);
      case TakeWriters => TakePhases(s, i);
      case SetFlag => FlagPhases(s, i);
    }
  }

  /** A stop changes no writer lock, and takes a list only while nobody holds it. */
  lemma StopLeavesLocks(s: State, i: nat)
    requires At(s, i) && StopEnabled(s, s.tasks[i])
    ensures var s' := StopApply(s, i);
            && |s'.tasks| == |s.tasks| && |s'.sessions| == |s.sessions|
            && (forall j :: 0 <= j < |s.tasks| && s'.tasks[j].Registering? ==> s'.tasks[j] == s.tasks[j])
            && (forall id :: 0 <= id < |s.sessions| ==>
                  && s'.sessions[id].lock == s.sessions[id].lock
                  && (s'.sessions[id].taken ==> s.sessions[id].taken || s.sessions[id].lock.None?))
  {
  }

  lemma StopWriterLocks(s: State, i: nat)
    requires WriterLocks(s) && At(s, i) && StopEnabled(s, s.tasks[i])
    ensures WriterLocks(StopApply(s, i))
  {
    StopLeavesLocks(s, i);
  }

  lemma StopEmptied(s: State, i: nat)
    requires Emptied(s) && Phases(s) && At(s, i) && StopEnabled(s, s.tasks[i])
    ensures Emptied(StopApply(s, i))
  {
  }

  /** Taking the list hands every running writer of the session to the task about to abort it. */
  lemma TakeWritersKnown(s: State, i: nat)
    requires WritersKnown(s) && Phases(s) && OneStopper(s) && Emptied(s) && At(s, i) && StopEnabled(s, s.tasks[i])
    requires s.tasks[i].ids != [] && s.tasks[i].at.TakeWriters?
    ensures WritersKnown(StopApply(s, i))
  {
    var s', id := StopApply(s, i), s.tasks[i].ids[0];
    assert s.sessions[id].aborting.None? by {
      if s.sessions[id].aborting.Some? {
        var j := s.sessions[id].aborting.value;
        assert AbortsFor(s.tasks[j], id);
        OtherStopper(s, i, j);
      }
    }
    forall w | 0 <= w < |s.writers| && s.writers[w].status.Running?
      ensures Reachable(s', s'.sessions[s.writers[w].session], w)
    {
      assert Reachable(s, s.sessions[s.writers[w].session], w);
      if s.writers[w].session != id && s.sessions[s.writers[w].session].aborting.Some? {
        assert AbortsFor(s.tasks[s.sessions[s.writers[w].session].aborting.value], s.writers[w].session);
      }
    }
  }

  lemma AbortWritersKnown(s: State, i: nat)
    requires WritersKnown(s) && Phases(s) && Emptied(s) && At(s, i) && StopEnabled(s, s.tasks[i])
    requires s.tasks[i].ids != [] && s.tasks[i].at.AbortTaken?
    ensures WritersKnown(StopApply(s, i))
  {
    var s', id := StopApply(s, i), s.tasks[i].ids[0];
    assert s.sessions[id].aborting == Some(i) && s.sessions[id].writers == [];
    forall w | 0 <= w < |s.writers| && s'.writers[w].status.Running?
      ensures Reachable(s', s'.sessions[s.writers[w].session], w)
    {
      assert Reachable(s, s.sessions[s.writers[w].session], w);
      if s.sessions[s.writers[w].session].aborting.Some? {
        assert AbortsFor(s.tasks[s.sessions[s.writers[w].session].aborting.value], s.writers[w].session);
      }
    }
  }

  /** Starting a stop, or ending it, changes no list and aborts no one. */
  lemma EdgeWritersKnown(s: State, i: nat)
    requires WritersKnown(s) && Phases(s) && At(s, i) && StopEnabled(s, s.tasks[i])
    requires s.tasks[i].ids == [] || s.tasks[i].at.SetFlag?
    ensures WritersKnown(StopApply(s, i))
  {
    forall id | 0 <= id < |s.sessions| && s.sessions[id].aborting.Some?
      ensures s.sessions[id].aborting != Some(i)
    {
      assert AbortsFor(s.tasks[s.sessions[id].aborting.value], id);
    }
  }

  lemma StopWritersKnown(s: State, i: nat)
    requires WritersKnown(s) && Phases(s) && OneStopper(s) && Emptied(s) && At(s, i) && StopEnabled(s, s.tasks[i])
    ensures WritersKnown(StopApply(s, i))
  {
    var t := s.tasks[i];
    if t.ids != [] && t.at.TakeWriters? {
      TakeWritersKnown(s, i);
    } else if t.ids != [] && t.at.AbortTaken? {
      AbortWritersKnown(s, i);
    } else {
      EdgeWritersKnown(s, i);
    }
  }

  lemma StopKeeps(s: State, i: nat)
    requires Inv(s) && At(s, i) && StopEnabled(s, s.tasks[i])
    ensures Inv(StopApply(s, i))
  {
    StopNamed(s, i);
    StopList(s, i);
    StopOneStopper(s, i);
    StopPhases(s, i);
    StopWriterLocks(s, i);
    StopEmptied(s, i);
    StopWritersKnown(s, i);
  }

  // ---- Shutdown, retire, drops ----

  lemma DrainList(s: State, i: nat)
    requires Inv(s) && Enabled(s, Drain(i))
    ensures var s' := DrainApply(s, i); Bounded(s') && LocksHeld(s') && Shut(s') && Listed(s') && Named(s')
  {
    var s' := DrainApply(s, i);
    forall j, id: nat | 0 <= j < |s'.tasks| && Refers(s'.tasks[j], id)
      ensures id < |s'.sessions|
    {
      assert j != i ==> Refers(s.tasks[j], id);
    }
  }

  lemma DrainOneStopper(s: State, i: nat)
    requires OneStopper(s) && Listed(s) && Named(s) && Enabled(s, Drain(i))
    ensures OneStopper(DrainApply(s, i))
  {
    UpgradableDistinct(s.all, s.sessions);
    var s' := DrainApply(s, i);
    var ids := Upgradable(s.all, s.sessions);
    forall j, id: nat | 0 <= j < |s.tasks| && j != i && StopsOn(s.tasks[j], id)
      ensures id !in ids
    {
      assert Refers(s.tasks[j], id);
    }
    assert forall j, id: nat :: 0 <= j < |s.tasks| && j != i && StopsOn(s'.tasks[j], id) ==> StopsOn(s.tasks[j], id);
  }

  lemma DrainPhases(s: State, i: nat)
    requires Phases(s) && Enabled(s, Drain(i))
    ensures Phases(DrainApply(s, i))
  {
  }

  /** A session nobody refers to is being stopped by no one. */
  lemma UnreferredIsNotStopped(s: State, id: nat, j: nat, k: nat)
    requires Enabled(s, DropSession(id)) && At(s, j) && StopsOn(s.tasks[j], k)
    ensures k != id
  {
    assert !Refers(s.tasks[j], id);
  }

  lemma DropOneStopper(s: State, id: nat)
    requires OneStopper(s) && Enabled(s, DropSession(id))
    ensures OneStopper(Apply(s, DropSession(id)))
  {
    var s' := Apply(s, DropSession(id));
    forall j, k: nat | 0 <= j < |s.tasks| && StopsOn(s.tasks[j], k)
      ensures k != id
    {
      UnreferredIsNotStopped(s, id, j, k);
    }
    assert forall j :: 0 <= j < |s.tasks| ==> s'.tasks[j] == s.tasks[j];
  }

  lemma DropPhases(s: State, id: nat)
    requires Phases(s) && Enabled(s, DropSession(id))
    ensures Phases(Apply(s, DropSession(id)))
  {
    var s' := Apply(s, DropSession(id));
    assert forall j :: 0 <= j < |s.tasks| ==> s'.tasks[j] == s.tasks[j];
  }

  lemma DropList(s: State, id: nat)
    requires Bounded(s) && LocksHeld(s) && Shut(s) && Listed(s) && Named(s) && Enabled(s, DropSession(id))
    ensures var s' := Apply(s, DropSession(id)); Bounded(s') && LocksHeld(s') && Shut(s') && Listed(s') && Named(s')
  {
    var s' := Apply(s, DropSession(id));
    forall j, k: nat | 0 <= j < |s'.tasks| && Refers(s'.tasks[j], k)
      ensures k < |s'.sessions|
    {
      assert j < |s.tasks| ==> Refers(s.tasks[j], k);
    }
  }

  lemma DropWriters(s: State, id: nat)
    requires WriterLocks(s) && Emptied(s) && WritersKnown(s) && Named(s) && Enabled(s, DropSession(id))
    ensures var s' := Apply(s, DropSession(id)); WriterLocks(s') && Emptied(s') && WritersKnown(s')
  {
    FrameWriters(s, Apply(s, DropSession(id)));
  }

  lemma StepKeeps(s: State, a: Action)
    requires Inv(s) && Enabled(s, a)
    ensures Inv(Apply(s, a))
  {
    match a
    case Connect(i, c) => ConnectKeeps(s, i, c);
    case Stream(i, m) => StreamKeeps(s, i, m);
    case StopStep(i) => StopKeeps(s, i);
    case Drain(i) =>
      DrainList(s, i);
      DrainOneStopper(s, i);
      DrainPhases(s, i);
      DrainWriters(s, i);
    case DropSession(id) =>
      DropList(s, id);
      DropOneStopper(s, id);
    DropPhases(s, id);
      DropWriters(s, id);
    case WriterEnds(w) => WriterEndKeeps(s, w);
    case _ => SpawnKeeps(s, a);
  }

  lemma DrainWriters(s: State, i: nat)
    requires WriterLocks(s) && Emptied(s) && WritersKnown(s) && Named(s) && Enabled(s, Drain(i))
    ensures var s' := DrainApply(s, i); WriterLocks(s') && Emptied(s') && WritersKnown(s')
  {
    FrameWriters(s, DrainApply(s, i));
  }

  lemma WriterEndKeeps(s: State, w: nat)
    requires Inv(s) && Enabled(s, WriterEnds(w))
    ensures Inv(Apply(s, WriterEnds(w)))
  {
  }

  lemma SpawnList(s: State, a: Action)
    requires Bounded(s) && LocksHeld(s) && Shut(s) && Listed(s) && Named(s)
    requires a.SpawnDial? || a.SpawnRetire? || a.SpawnShutdown?
    ensures var s' := Apply(s, a); Bounded(s') && LocksHeld(s') && Shut(s') && Listed(s') && Named(s')
  {
    var s' := Apply(s, a);
    forall j, k: nat | 0 <= j < |s'.tasks| && Refers(s'.tasks[j], k)
      ensures k < |s'.sessions|
    {
      assert j < |s.tasks| ==> Refers(s.tasks[j], k);
    }
  }

  lemma SpawnKeeps(s: State, a: Action)
    requires Inv(s) && (a.SpawnDial? || a.SpawnRetire? || a.SpawnShutdown?)
    ensures Inv(Apply(s, a))
  {
    SpawnList(s, a);
    FrameStoppers(s, Apply(s, a));
    FrameWriters(s, Apply(s, a));
  }

  // ---- Every run ----

  ghost predicate Begin(s: State) {
    && !s.stop && s.connectLock.None? && s.listLock.None? && s.all == [] && s.current.None?
    && s.sessions == [] && s.writers == [] && !s.returned && s.tasks == []
  }

  ghost predicate Run(s: State, actions: seq<Action>, t: State)
    decreases |actions|
  {
    if actions == [] then s == t
    else Enabled(s, actions[0]) && Run(Apply(s, actions[0]), actions[1..], t)
  }

  /** What no step takes back: a completed stop, an abort, a returned `stop_sessions`. */
  ghost predicate Lasts(s: State, t: State) {
    && |s.sessions| <= |t.sessions| && |s.writers| <= |t.writers|
    && (forall id :: 0 <= id < |s.sessions| ==> s.sessions[id].stops <= t.sessions[id].stops)
    && (forall w :: 0 <= w < |s.writers| ==> t.writers[w].session == s.writers[w].session)
    && (s.returned ==> t.returned)
  }

  lemma ConnectLasts(s: State, i: nat, c: ConnectStep)
    requires At(s, i) && ConnectEnabled(s, s.tasks[i], c)
    ensures Lasts(s, ConnectApply(s, i, c))
  {
    ConnectTouches(s, i, c);
  }

  lemma StreamLasts(s: State, i: nat, m: StreamStep)
    requires At(s, i) && StreamEnabled(s, s.tasks[i], m)
    ensures Lasts(s, StreamApply(s, i, m))
  {
  }

  lemma StopLasts(s: State, i: nat)
    requires At(s, i) && StopEnabled(s, s.tasks[i])
    ensures Lasts(s, StopApply(s, i))
  {
  }

  lemma StepLasts(s: State, a: Action)
    requires Enabled(s, a)
    ensures Lasts(s, Apply(s, a))
  {
    match a
    case Connect(i, c) => ConnectLasts(s, i, c);
    case Stream(i, m) => StreamLasts(s, i, m);
    case StopStep(i) => StopLasts(s, i);
    case _ =>
  }

  lemma {:induction false} RunKeeps(s: State, actions: seq<Action>, t: State)
    requires Inv(s) && Run(s, actions, t)
    ensures Inv(t) && Lasts(s, t)
    decreases |actions|
  {
    if actions != [] {
      StepKeeps(s, actions[0]);
      StepLasts(s, actions[0]);
      RunKeeps(Apply(s, actions[0]), actions[1..], t);
    }
  }

  /**
   Once a session's `stop` has returned, however the run goes on: its writer list is empty, and
   every writer ever registered on it was aborted or had ended.
   */
  lemma StoppedSessionsStayStopped(s: State, before: seq<Action>, m: State, after: seq<Action>, t: State, id: nat)
    requires Begin(s) && Run(s, before, m) && id < |m.sessions| && m.sessions[id].stops > 0
    requires Run(m, after, t)
    ensures id < |t.sessions| && t.sessions[id].writers == []
    ensures forall w :: 0 <= w < |t.writers| && t.writers[w].session == id ==> !t.writers[w].status.Running?
  {
    RunKeeps(s, before, m);
    RunKeeps(m, after, t);
    StopIsComplete(t, id);
  }

  lemma StopIsComplete(s: State, id: nat)
    requires Emptied(s) && WritersKnown(s) && id < |s.sessions| && s.sessions[id].stops > 0
    ensures s.sessions[id].writers == []
    ensures forall w :: 0 <= w < |s.writers| && s.writers[w].session == id ==> !s.writers[w].status.Running?
  {
  }

  /** Once `stop_sessions` has returned, no session is ever installed again. */
  lemma NothingIsInstalledAfterShutdown(s: State, before: seq<Action>, m: State, after: seq<Action>, t: State)
    requires Begin(s) && Run(s, before, m) && m.returned && Run(m, after, t)
    ensures t.all == [] && t.current.None?
    ensures forall i :: 0 <= i < |t.tasks| && t.tasks[i].Installing? ==> t.tasks[i].saw
  {
    RunKeeps(s, before, m);
    RunKeeps(m, after, t);
  }

  /** The session list never exceeds four, and it lists every installed session not yet drained or dropped. */
  lemma SessionsAreBounded(s: State, actions: seq<Action>, t: State)
    requires Begin(s) && Run(s, actions, t)
    ensures |t.all| <= MAX_SESSIONS
    ensures forall id :: 0 <= id < |t.sessions| && t.sessions[id].listed && !t.sessions[id].drained &&
                         !t.sessions[id].dropped ==>
              id in t.all
    ensures forall id :: id in t.all ==> id < |t.sessions| && t.sessions[id].listed && !t.sessions[id].drained
    ensures Distinct(t.all)
  {
    RunKeeps(s, actions, t);
  }

  // ---- What each step of a connect comes to ----

  /**
   A dial under the connect lock takes over the current session if that is usable. If not, it forgets
   it and the dropped sessions, and goes on to connect exactly when fewer than four are left.
   */
  lemma InspectOutcome(s: State, i: nat, usable: bool)
    requires At(s, i) && ConnectEnabled(s, s.tasks[i], Inspect(usable))
    ensures var s' := ConnectApply(s, i, Inspect(usable));
            && (s.current.Some? && usable ==>
                  && s'.tasks[i] == Using(s.current.value) && s'.connectLock.None?
                  && s'.current == s.current && s'.all == s.all)
            && (s.current.None? || !usable ==>
                  && s'.current.None?
                  && (forall id :: id in s'.all <==> id in s.all && id < |s.sessions| && !s.sessions[id].dropped)
                  && (if |s'.all| < 4 then s'.tasks[i].Connecting? && s'.connectLock == s.connectLock
                      else s'.tasks[i].Over? && s'.connectLock.None?))
            && s'.sessions == s.sessions && s'.writers == s.writers
  {
  }

  /** A new session is installed, as the current one, exactly if the stop flag was not seen under the list's lock. */
  lemma InstallOutcome(s: State, i: nat)
    requires At(s, i)
    ensures ConnectEnabled(s, s.tasks[i], ReadStop) ==>
              var s' := ConnectApply(s, i, ReadStop);
              s'.tasks[i] == Installing(s.tasks[i].id, s.stop) && s'.listLock == Some(i)
    ensures ConnectEnabled(s, s.tasks[i], Install) ==>
              var s', id := ConnectApply(s, i, Install), s.tasks[i].id;
              && s'.connectLock.None? && s'.listLock.None?
              && (s.tasks[i].saw ==> s'.tasks[i].Over? && s'.all == s.all && s'.current == s.current)
              && (!s.tasks[i].saw ==>
                    && s'.tasks[i] == Using(id) && s'.all == s.all + [id] && s'.current == Some(id)
                    && s'.sessions[id].listed)
  {
  }

  /** A stream is registered exactly if the session was not seen stopped under its writer list's lock. */
  lemma RegisterOutcome(s: State, i: nat)
    requires At(s, i)
    ensures StreamEnabled(s, s.tasks[i], EnterWriters) ==>
              StreamApply(s, i, EnterWriters).tasks[i]
              == Registering(s.tasks[i].id, s.sessions[s.tasks[i].id].stopped)
    ensures StreamEnabled(s, s.tasks[i], Register) ==>
              var s', id := StreamApply(s, i, Register), s.tasks[i].id;
              && s'.sessions[id].lock.None?
              && (s.tasks[i].saw ==>
                    s'.tasks[i].Over? && s'.writers == s.writers && s'.sessions[id].writers == s.sessions[id].writers)
              && (!s.tasks[i].saw ==>
                    && s'.tasks[i] == Streaming(id, |s.writers|) && s'.writers == s.writers + [Writer(id, Running)]
                    && forall w :: w in s'.sessions[id].writers <==>
                         || w == |s.writers|
                         || (w in s.sessions[id].writers && w < |s.writers| && s.writers[w].status.Running?))
  {
  }

  /** A retire or a shutdown empties the list and sets out to stop exactly the sessions on it that are still there. */
  lemma DrainOutcome(s: State, i: nat)
    requires Enabled(s, Drain(i))
    ensures var s' := DrainApply(s, i);
            && s'.all == [] && s'.current.None?
            && s'.tasks[i].Stopping? && s'.tasks[i].at.SetFlag?
            && (forall id :: id in s'.tasks[i].ids <==> id in s.all && id < |s.sessions| && !s.sessions[id].dropped)
            && (forall id :: 0 <= id < |s.sessions| && id in s'.tasks[i].ids ==> s'.sessions[id].drained)
            && (s.tasks[i].ShuttingDown? ==> s'.returned)
  {
  }

  // ---- No drained session is forgotten ----

  ghost predicate BeingStopped(s: State, id: nat) {
    exists j :: 0 <= j < |s.tasks| && StopsOn(s.tasks[j], id)
  }

  /** Every session drained from the list, or dropped, has been stopped or is about to be. */
  ghost predicate Followed(s: State) {
    forall id :: 0 <= id < |s.sessions| && (s.sessions[id].drained || s.sessions[id].dropped) ==>
      s.sessions[id].stops > 0 || BeingStopped(s, id)
  }

  /** A step that takes no session off anyone's list of sessions to stop. */
  lemma FollowedFrame(s: State, s': State)
    requires Followed(s) && Grows(s, s')
    requires forall id :: 0 <= id < |s.sessions| ==>
               && s'.sessions[id].stops >= s.sessions[id].stops
               && s'.sessions[id].drained == s.sessions[id].drained && s'.sessions[id].dropped == s.sessions[id].dropped
    requires forall id :: |s.sessions| <= id < |s'.sessions| ==> !s'.sessions[id].drained && !s'.sessions[id].dropped
    requires forall j :: 0 <= j < |s.tasks| && s.tasks[j].Stopping? ==> s'.tasks[j] == s.tasks[j]
    ensures Followed(s')
  {
    forall id | 0 <= id < |s'.sessions| && (s'.sessions[id].drained || s'.sessions[id].dropped)
      ensures s'.sessions[id].stops > 0 || BeingStopped(s', id)
    {
      if s.sessions[id].stops == 0 {
        var j :| 0 <= j < |s.tasks| && StopsOn(s.tasks[j], id);
        assert StopsOn(s'.tasks[j], id);
      }
    }
  }

  lemma StopFollowed(s: State, i: nat)
    requires Followed(s) && At(s, i) && StopEnabled(s, s.tasks[i])
    ensures Followed(StopApply(s, i))
  {
    var s', t := StopApply(s, i), s.tasks[i];
    StopTouches(s, i);
    StopLasts(s, i);
    forall id | 0 <= id < |s'.sessions| && (s'.sessions[id].drained || s'.sessions[id].dropped)
      ensures s'.sessions[id].stops > 0 || BeingStopped(s', id)
    {
      if s.sessions[id].stops == 0 {
        var j :| 0 <= j < |s.tasks| && StopsOn(s.tasks[j], id);
        if j != i {
          assert StopsOn(s'.tasks[j], id);
        } else if t.at.AbortTaken? && id == t.ids[0] {
          assert s'.sessions[id].stops > 0;
        } else {
          assert StopsOn(s'.tasks[i], id);
        }
      }
    }
  }

  lemma DrainFollowed(s: State, i: nat)
    requires Followed(s) && Enabled(s, Drain(i))
    ensures Followed(DrainApply(s, i))
  {
    var s' := DrainApply(s, i);
    DrainOutcome(s, i);
    forall id | 0 <= id < |s'.sessions| && (s'.sessions[id].drained || s'.sessions[id].dropped)
      ensures s'.sessions[id].stops > 0 || BeingStopped(s', id)
    {
      if id in s'.tasks[i].ids {
        assert StopsOn(s'.tasks[i], id);
      } else if s.sessions[id].stops == 0 {
        var j :| 0 <= j < |s.tasks| && StopsOn(s.tasks[j], id);
        assert StopsOn(s'.tasks[j], id);
      }
    }
  }

  lemma DropFollowed(s: State, id: nat)
    requires Followed(s) && Enabled(s, DropSession(id))
    ensures Followed(Apply(s, DropSession(id)))
  {
    var s' := Apply(s, DropSession(id));
    assert StopsOn(s'.tasks[|s.tasks|], id);
    forall k | 0 <= k < |s'.sessions| && (s'.sessions[k].drained || s'.sessions[k].dropped)
      ensures s'.sessions[k].stops > 0 || BeingStopped(s', k)
    {
      if k != id && s.sessions[k].stops == 0 {
        var j :| 0 <= j < |s.tasks| && StopsOn(s.tasks[j], k);
        assert StopsOn(s'.tasks[j], k);
      }
    }
  }

  lemma StepFollowed(s: State, a: Action)
    requires Followed(s) && Enabled(s, a)
    ensures Followed(Apply(s, a))
  {
    match a
    case StopStep(i) => StopFollowed(s, i);
    case Drain(i) => DrainFollowed(s, i);
    case DropSession(id) => DropFollowed(s, id);
    case Connect(i, c) =>
      ConnectTouches(s, i, c);
      FollowedFrame(s, ConnectApply(s, i, c));
    case Stream(i, m) =>
      StreamTouches(s, i, m);
      FollowedFrame(s, StreamApply(s, i, m));
    case _ => FollowedFrame(s, Apply(s, a));
  }

  lemma {:induction false} RunFollowed(s: State, actions: seq<Action>, t: State)
    requires Followed(s) && Run(s, actions, t)
    ensures Followed(t)
    decreases |actions|
  {
    if actions != [] {
      StepFollowed(s, actions[0]);
      RunFollowed(Apply(s, actions[0]), actions[1..], t);
    }
  }

  /** Once every retire, shutdown and drop has run its course, every session it took was stopped to the end. */
  lemma DrainedSessionsAreStopped(s: State, actions: seq<Action>, t: State, id: nat)
    requires Begin(s) && Run(s, actions, t) && id < |t.sessions| && (t.sessions[id].drained || t.sessions[id].dropped)
    requires forall j :: 0 <= j < |t.tasks| ==> !t.tasks[j].Stopping?
    ensures t.sessions[id].stops > 0 && t.sessions[id].writers == []
    ensures forall w :: 0 <= w < |t.writers| && t.writers[w].session == id ==> !t.writers[w].status.Running?
  {
    RunKeeps(s, actions, t);
    RunFollowed(s, actions, t);
    StopIsComplete(t, id);
  }

  // ---- Where a dial or a retire goes next ----

  /** A retire keeps being one behind the lock; a new session is built, not used, while the lock is held. */
  lemma LockOutcome(s: State, i: nat)
    requires At(s, i)
    ensures Apply(s, SpawnRetire).tasks == s.tasks + [Waiting(true)]
    ensures Apply(s, SpawnDial).tasks == s.tasks + [Waiting(false)]
    ensures ConnectEnabled(s, s.tasks[i], Lock) ==>
              var s' := ConnectApply(s, i, Lock);
              s'.tasks[i] == Locked(s.tasks[i].retire) && s'.connectLock == Some(i)
    ensures ConnectEnabled(s, s.tasks[i], Build) ==>
              var s' := ConnectApply(s, i, Build);
              && s'.tasks[i] == Built(|s.sessions|) && s'.connectLock == s.connectLock
              && |s'.sessions| == |s.sessions| + 1 && s'.all == s.all && s'.current == s.current
  {
  }

  /** A dropped stream takes its writer with it. */
  lemma DropStreamOutcome(s: State, i: nat)
    requires At(s, i) && StreamEnabled(s, s.tasks[i], DropStream)
    ensures var s', w := StreamApply(s, i, DropStream), s.tasks[i].writer;
            && s'.tasks[i].Over? && |s'.writers| == |s.writers| && !s'.writers[w].status.Running?
            && forall v :: 0 <= v < |s.writers| && v != w ==> s'.writers[v] == s.writers[v]
  {
  }

  /** Nobody leaves with the connect lock: whoever has it is at a point where it goes on or gives it back. */
  lemma ConnectLockIsNeverLost(s: State, actions: seq<Action>, t: State)
    requires Begin(s) && Run(s, actions, t) && t.connectLock.Some?
    ensures t.connectLock.value < |t.tasks| && HasConnectLock(t.tasks[t.connectLock.value])
    ensures forall i :: 0 <= i < |t.tasks| && HasConnectLock(t.tasks[i]) ==> i == t.connectLock.value
  {
    RunKeeps(s, actions, t);
  }
}
