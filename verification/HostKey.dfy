/**
 Trust on first use in `src/ssh.rs`: `check_server_key`, which runs at every handshake and every
 rekey, and the part of `connect` that authorizes the key and reports a new pin. Every lock
 section and every observer call is a step of its own, rekeys of any session can happen between
 two of them, and connects may overlap, which is more than the session lock lets them do.
 Fingerprints are opaque text.
 */
module HostKey {
  import opened Bags

  type Key = string

  datatype Keys = Keys(fingerprint: Option<Key>, newlyPinned: bool, reported: bool)

  const NO_KEYS := Keys(None, false, false)

  datatype Verdict = Accept | Mismatch(expected: Key)

  /** The key a handshake must show: the configured pin, else the one this provider has learned. */
  function Expected(keys: Keys, pinned: Option<Key>): Option<Key> {
    if pinned.Some? then pinned else keys.fingerprint
  }

  function Judge(keys: Keys, pinned: Option<Key>, actual: Key): Verdict {
    var expected := Expected(keys, pinned);
    if expected.Some? && expected.value != actual then Mismatch(expected.value) else Accept
  }

  function Learn(keys: Keys, pinned: Option<Key>, actual: Key): Keys {
    if Judge(keys, pinned, actual).Mismatch? then keys
    else if pinned.Some? then keys.(fingerprint := Some(actual), newlyPinned := false)
    else if keys.fingerprint.Some? then keys.(fingerprint := Some(actual))
    else keys.(fingerprint := Some(actual), newlyPinned := true)
  }

  /** The pin a finished connect reports, if it is the first to. */
  function Pin(keys: Keys): Option<Key> {
    if keys.newlyPinned && !keys.reported then keys.fingerprint else None
  }

  /** One `connect`, in the order it goes through its phases. */
  datatype Task =
    | Handshaking
    | Verified                  // the key was accepted, authentication is under way
    | Authenticated
    | Authorizing(key: Key)     // the observer is asked about this key
    | Authorized(key: Key)
    | Telling(key: Key)         // the pin was taken, the observer is about to hear of it
    | Connected
    | Ended

  datatype Event =
    | Accepted(t: nat, key: Key)
    | Refused(t: nat, key: Key)
    | AuthSucceeded(t: nat)
    | Allowed(t: nat, key: Key)
    | Told(t: nat, key: Key)

  datatype State = State(pinned: Option<Key>, keys: Keys, tasks: seq<Task>, log: seq<Event>)

  datatype Action =
    | Start
    | Offer(t: nat, key: Key)
    | Rekey(t: nat, key: Key)
    | AuthOk(t: nat)
    | ReadKey(t: nat)
    | Answer(t: nat, allowed: bool)
    | TakePin(t: nat)
    | Tell(t: nat)
    | End(t: nat)

  predicate Enabled(s: State, a: Action) {
    if a.Start? then true
    else if a.t >= |s.tasks| then false
    else match a
      case Offer(t, _) => s.tasks[t].Handshaking?
      case Rekey(t, _) => !s.tasks[t].Handshaking? && !s.tasks[t].Ended?
      case AuthOk(t) => s.tasks[t].Verified?
      case ReadKey(t) => s.tasks[t].Authenticated?
      case Answer(t, _) => s.tasks[t].Authorizing?
      case TakePin(t) => s.tasks[t].Authorized?
      case Tell(t) => s.tasks[t].Telling?
      case End(t) => s.tasks[t].Handshaking? || s.tasks[t].Verified? || s.tasks[t].Connected?
  }

  function Move(s: State, t: nat, task: Task): State
    requires t < |s.tasks|
  {
    s.(tasks := s.tasks[t := task])
  }

  function Log(s: State, e: Event): State { s.(log := s.log + [e]) }

  /** `check_server_key`: the key is judged and learned, and the log says which. */
  function Shown(s: State, t: nat, key: Key): State {
    Log(s, if Judge(s.keys, s.pinned, key).Accept? then Accepted(t, key) else Refused(t, key))
      .(keys := Learn(s.keys, s.pinned, key))
  }

  function Apply(s: State, a: Action): State
    requires Enabled(s, a)
  {
    match a
    case Start => s.(tasks := s.tasks + [Handshaking])
    case Offer(t, key) =>
      Move(Shown(s, t, key), t, if Judge(s.keys, s.pinned, key).Accept? then Verified else Ended)
    case Rekey(t, key) => Shown(s, t, key)
    case AuthOk(t) => Log(Move(s, t, Authenticated), AuthSucceeded(t))
    case ReadKey(t) =>
      Move(s, t, if s.keys.fingerprint.Some? then Authorizing(s.keys.fingerprint.value) else Ended)
    case Answer(t, allowed) =>
      if allowed then Log(Move(s, t, Authorized(s.tasks[t].key)), Allowed(t, s.tasks[t].key))
      else Move(s, t, Ended)
    case TakePin(t) =>
      Move(s, t, if Pin(s.keys).Some? then Telling(Pin(s.keys).value) else Connected)
        .(keys := s.keys.(reported := true))
    case Tell(t) => Log(Move(s, t, Connected), Told(t, s.tasks[t].key))
    case End(t) => Move(s, t, Ended)
  }

  function Fresh(pinned: Option<Key>): State { State(pinned, NO_KEYS, [], []) }

  ghost predicate Run(s: State, actions: seq<Action>, t: State)
    decreases |actions|
  {
    if actions == [] then s == t
    else Enabled(s, actions[0]) && Run(Apply(s, actions[0]), actions[1..], t)
  }

  // ---------------------------------------------------------------- what every step keeps

  ghost predicate KeyInv(s: State) {
    && (s.pinned.Some? ==> !s.keys.newlyPinned && (s.keys.fingerprint.Some? ==> s.keys.fingerprint == s.pinned))
    && (s.pinned.None? ==> (s.keys.newlyPinned <==> s.keys.fingerprint.Some?))
    && (forall i :: 0 <= i < |s.log| && s.log[i].Accepted? ==> s.keys.fingerprint == Some(s.log[i].key))
    && (s.keys.fingerprint.Some? ==>
          exists i :: 0 <= i < |s.log| && s.log[i].Accepted? && s.log[i].key == s.keys.fingerprint.value)
  }

  /** Before event `n`, connect `t` authenticated and then had `key` authorized. */
  ghost predicate Earned(log: seq<Event>, n: nat, t: nat, key: Key) {
    && n <= |log|
    && exists i, j :: 0 <= i < j < n && log[i] == AuthSucceeded(t) && log[j] == Allowed(t, key)
  }

  /** What a connect's phase says about the past and about the learned key. */
  ghost predicate Phase(s: State, t: nat)
    requires t < |s.tasks|
  {
    match s.tasks[t]
    case Handshaking => true
    case Verified => s.keys.fingerprint.Some?
    case Authenticated => s.keys.fingerprint.Some? && AuthSucceeded(t) in s.log
    case Authorizing(key) => s.keys.fingerprint == Some(key) && AuthSucceeded(t) in s.log
    case Authorized(key) => s.keys.fingerprint == Some(key) && Earned(s.log, |s.log|, t, key)
    case Telling(key) =>
      s.keys.fingerprint == Some(key) && s.keys.reported && Earned(s.log, |s.log|, t, key)
    case Connected =>
      && s.keys.fingerprint.Some? && s.keys.reported
      && Earned(s.log, |s.log|, t, s.keys.fingerprint.value)
    case Ended => true
  }

  ghost predicate PhaseInv(s: State) {
    forall t :: 0 <= t < |s.tasks| ==> Phase(s, t)
  }

  ghost predicate EarnInv(s: State) {
    forall k :: 0 <= k < |s.log| && s.log[k].Told? ==>
      Earned(s.log, k, s.log[k].t, s.log[k].key) && s.keys.fingerprint == Some(s.log[k].key)
  }

  ghost function Tells(task: Task): nat { if task.Telling? then 1 else 0 }

  ghost function WasTold(e: Event): nat { if e.Told? then 1 else 0 }

  /** One report, made or about to be made, exactly when a connect without a pin has got that far. */
  ghost predicate TellInv(s: State) {
    Sum(s.tasks, Tells) + Sum(s.log, WasTold) == if s.pinned.None? && s.keys.reported then 1 else 0
  }

  ghost predicate Inv(s: State) { KeyInv(s) && PhaseInv(s) && EarnInv(s) && TellInv(s) }

  lemma FreshHolds(pinned: Option<Key>)
    ensures Inv(Fresh(pinned))
  {
  }

  lemma ShownKeeps(s: State, t: nat, key: Key)
    requires KeyInv(s)
    ensures KeyInv(Shown(s, t, key))
    ensures s.keys.fingerprint.Some? ==> Shown(s, t, key).keys.fingerprint == s.keys.fingerprint
    ensures Judge(s.keys, s.pinned, key).Accept? ==> Shown(s, t, key).keys.fingerprint == Some(key)
  {
    var n := Shown(s, t, key);
    if s.keys.fingerprint.Some? {
      var i :| 0 <= i < |s.log| && s.log[i].Accepted? && s.log[i].key == s.keys.fingerprint.value;
      assert n.log[i] == s.log[i];
    }
    assert n.log[|s.log|] in n.log;
  }

  lemma LogKeepsKeys(s: State, e: Event)
    requires KeyInv(s) && !e.Accepted?
    ensures KeyInv(Log(s, e))
  {
    if s.keys.fingerprint.Some? {
      var i :| 0 <= i < |s.log| && s.log[i].Accepted? && s.log[i].key == s.keys.fingerprint.value;
      assert Log(s, e).log[i] == s.log[i];
    }
  }

  lemma KeyKept(s: State, a: Action)
    requires KeyInv(s) && Enabled(s, a)
    ensures KeyInv(Apply(s, a))
    ensures s.keys.fingerprint.Some? ==> Apply(s, a).keys.fingerprint == s.keys.fingerprint
  {
    match a
    case Offer(t, key) => ShownKeeps(s, t, key);
    case Rekey(t, key) => ShownKeeps(s, t, key);
    case AuthOk(t) => LogKeepsKeys(s, AuthSucceeded(t));
    case Answer(t, allowed) => LogKeepsKeys(s, Allowed(t, s.tasks[t].key));
    case Tell(t) => LogKeepsKeys(s, Told(t, s.tasks[t].key));
    case _ =>
  }

  lemma EarnedGrows(log: seq<Event>, more: seq<Event>, n: nat, m: nat, t: nat, key: Key)
    requires Earned(log, n, t, key) && n <= m <= |more| && log <= more
    ensures Earned(more, m, t, key)
  {
    var i, j :| 0 <= i < j < n && log[i] == AuthSucceeded(t) && log[j] == Allowed(t, key);
    assert more[i] == AuthSucceeded(t) && more[j] == Allowed(t, key);
  }

  /** A phase stays true of a task that does not move. */
  lemma PhaseFrame(s: State, n: State, t: nat)
    requires t < |s.tasks| && t < |n.tasks| && n.tasks[t] == s.tasks[t] && Phase(s, t)
    requires s.log <= n.log && (s.keys.reported ==> n.keys.reported)
    requires s.keys.fingerprint.Some? ==> n.keys.fingerprint == s.keys.fingerprint
    ensures Phase(n, t)
  {
    if s.tasks[t].Authorized? || s.tasks[t].Telling? {
      EarnedGrows(s.log, n.log, |s.log|, |n.log|, t, s.tasks[t].key);
    } else if s.tasks[t].Connected? {
      EarnedGrows(s.log, n.log, |s.log|, |n.log|, t, s.keys.fingerprint.value);
    }
    if AuthSucceeded(t) in s.log {
      var i :| 0 <= i < |s.log| && s.log[i] == AuthSucceeded(t);
      assert n.log[i] == AuthSucceeded(t);
    }
  }

  lemma AnswerEarns(s: State, t: nat)
    requires t < |s.tasks| && s.tasks[t].Authorizing? && Phase(s, t)
    ensures Earned(s.log + [Allowed(t, s.tasks[t].key)], |s.log| + 1, t, s.tasks[t].key)
  {
    var more := s.log + [Allowed(t, s.tasks[t].key)];
    var i :| 0 <= i < |s.log| && s.log[i] == AuthSucceeded(t);
    assert more[i] == AuthSucceeded(t) && more[|s.log|] == Allowed(t, s.tasks[t].key);
  }

  /** The task that moves reaches its new phase rightly. */
  lemma MoverPhase(s: State, a: Action)
    requires KeyInv(s) && Enabled(s, a) && !a.Start? && Phase(s, a.t)
    ensures Phase(Apply(s, a), a.t)
  {
    KeyKept(s, a);
    var n := Apply(s, a);
    match a
    case Offer(t, key) => ShownKeeps(s, t, key);
    case Rekey(t, key) => PhaseFrame(s, n, t);
    case AuthOk(t) => assert n.log[|s.log|] == AuthSucceeded(t);
    case Answer(t, allowed) => AnswerEarns(s, t);
    case TakePin(t) => assert Pin(s.keys).Some? ==> Pin(s.keys) == s.keys.fingerprint;
    case Tell(t) => EarnedGrows(s.log, n.log, |s.log|, |n.log|, t, s.tasks[t].key);
    case _ =>
  }

  lemma PhaseKept(s: State, a: Action)
    requires KeyInv(s) && PhaseInv(s) && Enabled(s, a)
    ensures PhaseInv(Apply(s, a))
  {
    var n := Apply(s, a);
    KeyKept(s, a);
    forall u | 0 <= u < |n.tasks|
      ensures Phase(n, u)
    {
      if u < |s.tasks| {
        assert Phase(s, u);
        if !a.Start? && a.t == u {
          MoverPhase(s, a);
        } else {
          PhaseFrame(s, n, u);
        }
      }
    }
  }

  lemma EarnKept(s: State, a: Action)
    requires KeyInv(s) && PhaseInv(s) && EarnInv(s) && Enabled(s, a)
    ensures EarnInv(Apply(s, a))
  {
    var n := Apply(s, a);
    KeyKept(s, a);
    forall k | 0 <= k < |n.log| && n.log[k].Told?
      ensures Earned(n.log, k, n.log[k].t, n.log[k].key) && n.keys.fingerprint == Some(n.log[k].key)
    {
      if k < |s.log| {
        assert s.log[k] == n.log[k];
        EarnedGrows(s.log, n.log, k, k, s.log[k].t, s.log[k].key);
      } else {
        assert a.Tell? && Phase(s, a.t);
        EarnedGrows(s.log, n.log, |s.log|, k, a.t, s.tasks[a.t].key);
      }
    }
  }

  lemma TellKept(s: State, a: Action)
    requires KeyInv(s) && PhaseInv(s) && TellInv(s) && Enabled(s, a)
    ensures TellInv(Apply(s, a))
  {
    var n := Apply(s, a);
    if a.Start? {
      SumAppend(s.tasks, Handshaking, Tells);
    } else {
      assert Phase(s, a.t);
      SumUpdate(s.tasks, a.t, n.tasks[a.t], Tells);
      assert n.tasks == s.tasks[a.t := n.tasks[a.t]];
      if n.log != s.log {
        SumAppend(s.log, n.log[|s.log|], WasTold);
        assert n.log == s.log + [n.log[|s.log|]];
      }
    }
  }

  lemma {:induction false} RunKeeps(s: State, actions: seq<Action>, t: State)
    requires Inv(s) && Run(s, actions, t)
    ensures Inv(t) && t.pinned == s.pinned
    decreases |actions|
  {
    if actions != [] {
      KeyKept(s, actions[0]);
      PhaseKept(s, actions[0]);
      EarnKept(s, actions[0]);
      TellKept(s, actions[0]);
      RunKeeps(Apply(s, actions[0]), actions[1..], t);
    }
  }

  // ---------------------------------------------------------------- theorems

  /** Every key this provider ever accepts is the configured pin, or without one the first accepted. */
  lemma OneKeyForever(pinned: Option<Key>, actions: seq<Action>, s: State, i: nat, j: nat)
    requires Run(Fresh(pinned), actions, s) && i < |s.log| && j < |s.log|
    requires s.log[i].Accepted? && s.log[j].Accepted?
    ensures s.log[i].key == s.log[j].key
    ensures pinned.Some? ==> s.log[i].key == pinned.value
  {
    FreshHolds(pinned);
    RunKeeps(Fresh(pinned), actions, s);
  }

  ghost predicate EverAccepted(s: State, key: Key) {
    exists i :: 0 <= i < |s.log| && s.log[i].Accepted? && s.log[i].key == key
  }

  /** Exactly which keys the next handshake or rekey accepts. Authentication plays no part in it. */
  lemma AcceptedExactly(pinned: Option<Key>, actions: seq<Action>, s: State, key: Key)
    requires Run(Fresh(pinned), actions, s)
    ensures Judge(s.keys, pinned, key).Accept? <==>
              if pinned.Some? then key == pinned.value
              else forall other :: EverAccepted(s, other) ==> key == other
  {
    FreshHolds(pinned);
    RunKeeps(Fresh(pinned), actions, s);
    if s.keys.fingerprint.Some? {
      assert EverAccepted(s, s.keys.fingerprint.value);
    }
  }

  /**
   The observer hears of a pin at most once, never when one was configured, only after that
   connect authenticated and had that very key authorized, and the key is the one every handshake
   of the provider accepts.
   */
  lemma ToldOnce(pinned: Option<Key>, actions: seq<Action>, s: State, k: nat, m: nat)
    requires Run(Fresh(pinned), actions, s) && k < |s.log| && m < |s.log| && s.log[k].Told? && s.log[m].Told?
    ensures k == m && pinned.None?
    ensures Earned(s.log, k, s.log[k].t, s.log[k].key)
    ensures EverAccepted(s, s.log[k].key)
    ensures forall i :: 0 <= i < |s.log| && s.log[i].Accepted? ==> s.log[i].key == s.log[k].key
  {
    FreshHolds(pinned);
    RunKeeps(Fresh(pinned), actions, s);
    SumContains(s.log, k, WasTold);
    if k < m {
      SumPair(s.log, k, m, WasTold);
    } else if m < k {
      SumPair(s.log, m, k, WasTold);
    }
  }

  /** And the report is not lost: once a connect without a pin is through, it was or is being made. */
  lemma PinIsReported(actions: seq<Action>, s: State, t: nat)
    requires Run(Fresh(None), actions, s) && t < |s.tasks| && s.tasks[t].Connected?
    ensures
      || (exists k :: 0 <= k < |s.log| && s.log[k].Told?)
      || (exists u :: 0 <= u < |s.tasks| && s.tasks[u].Telling?)
  {
    FreshHolds(None);
    RunKeeps(Fresh(None), actions, s);
    assert Phase(s, t);
    if Sum(s.tasks, Tells) > 0 {
      var u := SumWitness(s.tasks, Tells);
    } else {
      var k := SumWitness(s.log, WasTold);
    }
  }

  /**
   What a connect that got through has passed: its authentication succeeded, and after that the
   observer allowed the very key that every handshake of the provider accepts.
   */
  lemma ConnectedWasAllowed(pinned: Option<Key>, actions: seq<Action>, s: State, t: nat) returns (key: Key)
    requires Run(Fresh(pinned), actions, s) && t < |s.tasks| && s.tasks[t].Connected?
    ensures Earned(s.log, |s.log|, t, key) && EverAccepted(s, key) && (pinned.Some? ==> key == pinned.value)
    ensures forall i :: 0 <= i < |s.log| && s.log[i].Accepted? ==> s.log[i].key == key
  {
    FreshHolds(pinned);
    RunKeeps(Fresh(pinned), actions, s);
    assert Phase(s, t);
    key := s.keys.fingerprint.value;
  }

  /**
   The ways a connect fails: a key that is not the expected one, which is refused with no change to
   what was learned; and the observer's denial. Either ends it, and neither is logged as a success.
   */
  lemma FailuresEndTheConnect(s: State, t: nat, key: Key)
    requires t < |s.tasks|
    ensures s.tasks[t].Handshaking? && Judge(s.keys, s.pinned, key).Mismatch? ==>
              var n := Apply(s, Offer(t, key));
              n.tasks[t].Ended? && n.keys == s.keys && n.log == s.log + [Refused(t, key)]
    ensures s.tasks[t].Handshaking? && Judge(s.keys, s.pinned, key).Accept? ==>
              Apply(s, Offer(t, key)).tasks[t].Verified? && Apply(s, Offer(t, key)).log == s.log + [Accepted(t, key)]
    ensures s.tasks[t].Authorizing? ==>
              Apply(s, Answer(t, false)).tasks[t].Ended? && Apply(s, Answer(t, false)).log == s.log
    ensures Enabled(s, Rekey(t, key)) ==>
              Apply(s, Rekey(t, key)).log
              == s.log + [if Judge(s.keys, s.pinned, key).Accept? then Accepted(t, key) else Refused(t, key)]
  {
  }

  lemma RunCons(s: State, a: Action, rest: seq<Action>, t: State)
    requires Enabled(s, a) && Run(Apply(s, a), rest, t)
    ensures Run(s, [a] + rest, t)
  {
    assert ([a] + rest)[1..] == rest;
  }

  /** The first connect of a provider without a pin, all going well: the observer hears of the key last. */
  lemma FirstConnectIsTold(key: Key) returns (actions: seq<Action>, s: State)
    ensures Run(Fresh(None), actions, s) && s.tasks == [Connected]
    ensures s.log == [Accepted(0, key), AuthSucceeded(0), Allowed(0, key), Told(0, key)]
  {
    var s1 := Apply(Fresh(None), Start);
    var s2 := Apply(s1, Offer(0, key));
    var s3 := Apply(s2, AuthOk(0));
    var s4 := Apply(s3, ReadKey(0));
    var s5 := Apply(s4, Answer(0, true));
    var s6 := Apply(s5, TakePin(0));
    s := Apply(s6, Tell(0));
    RunCons(s6, Tell(0), [], s);
    RunCons(s5, TakePin(0), [Tell(0)] + [], s);
    RunCons(s4, Answer(0, true), [TakePin(0)] + ([Tell(0)] + []), s);
    RunCons(s3, ReadKey(0), [Answer(0, true)] + ([TakePin(0)] + ([Tell(0)] + [])), s);
    RunCons(s2, AuthOk(0), [ReadKey(0)] + ([Answer(0, true)] + ([TakePin(0)] + ([Tell(0)] + []))), s);
    var tail := [AuthOk(0)] + ([ReadKey(0)] + ([Answer(0, true)] + ([TakePin(0)] + ([Tell(0)] + []))));
    RunCons(s1, Offer(0, key), tail, s);
    RunCons(Fresh(None), Start, [Offer(0, key)] + tail, s);
    actions := [Start] + ([Offer(0, key)] + tail);
  }

  /**
   A key binds the provider from the handshake on, not from authentication on: after a handshake
   whose authentication fails, a handshake with any other key is refused.
   */
  lemma KeyBindsBeforeAuthentication(a: Key, b: Key) returns (s: State)
    requires a != b
    ensures Run(Fresh(None), [Start, Offer(0, a), End(0), Start, Offer(1, b)], s)
    ensures s.log == [Accepted(0, a), Refused(1, b)]
  {
    var s1 := Apply(Fresh(None), Start);
    var s2 := Apply(s1, Offer(0, a));
    var s3 := Apply(s2, End(0));
    var s4 := Apply(s3, Start);
    s := Apply(s4, Offer(1, b));
    var none: seq<Action> := [];
    assert Run(s, none, s);
    assert [Offer(1, b)][1..] == none;
    assert Run(s4, [Offer(1, b)], s);
    assert [Start, Offer(1, b)][1..] == [Offer(1, b)];
    assert Run(s3, [Start, Offer(1, b)], s);
    assert [End(0), Start, Offer(1, b)][1..] == [Start, Offer(1, b)];
    assert Run(s2, [End(0), Start, Offer(1, b)], s);
    assert [Offer(0, a), End(0), Start, Offer(1, b)][1..] == [End(0), Start, Offer(1, b)];
    assert Run(s1, [Offer(0, a), End(0), Start, Offer(1, b)], s);
    assert [Start, Offer(0, a), End(0), Start, Offer(1, b)][1..] == [Offer(0, a), End(0), Start, Offer(1, b)];
  }

  // ---------------------------------------------------------------- the fields themselves

  /** The state behind the provider's host-key lock; each method is one section behind it. */
  class HostKeyState {
    var fingerprint: Option<Key>
    var newlyPinned: bool
    var reported: bool

    constructor ()
      ensures View() == NO_KEYS
    {
      fingerprint, newlyPinned, reported := None, false, false;
    }

    function View(): Keys
      reads this
    {
      Keys(fingerprint, newlyPinned, reported)
    }

    method CheckServerKey(pinned: Option<Key>, actual: Key) returns (verdict: Verdict)
      modifies this
      ensures verdict == Judge(old(View()), pinned, actual)
      ensures View() == Learn(old(View()), pinned, actual)
    {
      var expected := if pinned.Some? then pinned else fingerprint;
      if expected.Some? {
        if expected.value != actual {
          return Mismatch(expected.value);
        }
        fingerprint := Some(actual);
        if pinned.Some? {
          newlyPinned := false;
        }
      } else {
        fingerprint := Some(actual);
        newlyPinned := true;
      }
      verdict := Accept;
    }

    method TakePin() returns (pin: Option<Key>)
      modifies this`reported
      ensures pin == Pin(old(View())) && View() == old(View()).(reported := true)
    {
      pin := if newlyPinned && !reported then fingerprint else None;
      reported := true;
    }
  }
}
