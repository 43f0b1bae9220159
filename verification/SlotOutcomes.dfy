/**
 What each step of the socket-slot protocol comes to for the one who takes it, in the source's own
 numbers: which way a claim goes, what a reclaim pass sets out to leave, and how long a closed
 socket may linger.
 */
module SlotOutcomes {
  import opened Bags
  import opened SocketStack
  import opened SlotProtocol
  import opened SlotSafety

  /** In a reclaim pass on behalf of a claim, or about to begin one. */
  predicate OwesPass(t: Task) {
    t.WantReclaim? || ((t.Reclaiming? || t.ReclaimRinging?) && t.job.Claim?)
  }

  function ClaimantOf(t: Task): Purpose
    requires OwesPass(t)
  {
    if t.WantReclaim? then t.purpose else t.job.purpose
  }

  /** A claim that finds 256 slots taken owes a pass; one that finds fewer goes straight to the update. */
  lemma LoadOutcome(s: State, i: nat)
    requires At(s, i) && ClaimEnabled(s, s.tasks[i], Load)
    ensures var t := ClaimApply(s, i, Load).tasks[i];
            if s.open >= 256 then OwesPass(t) && ClaimantOf(t) == s.tasks[i].purpose
            else t == Updating(s.tasks[i].purpose)
  {
  }

  /**
   Whatever anyone does, a claim that owes a pass goes on owing it until every closing entry has been
   examined; only then does it come to the update that may refuse it.
   */
  lemma PassIsNotSkipped(s: State, a: Action, i: nat)
    requires Enabled(s, a) && At(s, i) && OwesPass(s.tasks[i])
    ensures var n := Apply(s, a);
            && At(n, i)
            && ((OwesPass(n.tasks[i]) && ClaimantOf(n.tasks[i]) == ClaimantOf(s.tasks[i]))
                || (&& s.tasks[i].Reclaiming? && s.tasks[i].index >= |s.inner.closing|
                    && n.tasks[i] == Updating(ClaimantOf(s.tasks[i]))))
  {
  }

  /** What a claim's pass will leave: what is neither Closed nor in TIME-WAIT and has time left. */
  lemma ClaimPassGoal(s: State, i: nat)
    requires At(s, i) && ClaimEnabled(s, s.tasks[i], BeginReclaim)
    ensures var t := ClaimApply(s, i, BeginReclaim).tasks[i];
            && t.Reclaiming? && t.index == 0 && t.since == s.now && t.job == Claim(s.tasks[i].purpose)
            && forall c :: c in t.goal.closing <==>
                 && c in s.inner.closing && c.socket.handle in s.inner.sockets && s.now < c.deadline
                 && s.inner.sockets[c.socket.handle].state != Closed
                 && s.inner.sockets[c.socket.handle].state != TimeWait
  {
    ReclaimKeepsKept(s.inner, s.now, true);
  }

  /** What a poll's pass will leave: TIME-WAIT keeps its linger there. */
  lemma PollPassGoal(s: State, states: map<nat, TcpState>)
    requires OutsideEnabled(s, SpawnPoll(states))
    ensures var n := FromOutsideApply(s, SpawnPoll(states));
            var t := n.tasks[|s.tasks|];
            && |n.tasks| == |s.tasks| + 1 && n.lock == Some(|s.tasks|)
            && t.Reclaiming? && t.index == 0 && t.since == s.now && t.job == Pump
            && forall c :: c in t.goal.closing <==>
                 && c in s.inner.closing && c.socket.handle in s.inner.sockets && s.now < c.deadline
                 && (if c.socket.handle in states then states[c.socket.handle]
                     else s.inner.sockets[c.socket.handle].state) != Closed
  {
    WithStatesWellFormed(s.inner, states);
    ReclaimKeepsKept(s.inner.(sockets := WithStates(s.inner.sockets, states)), s.now, false);
  }

  /** Which way the update goes, and what a refused or a served claimant does next. */
  lemma UpdateOutcome(s: State, i: nat)
    requires At(s, i) && ClaimEnabled(s, s.tasks[i], Update)
    ensures var n, p := ClaimApply(s, i, Update), s.tasks[i].purpose;
            && n.open == (if s.open < 256 then s.open + 1 else s.open) && n.inner == s.inner
            && (s.open >= 256 && !p.ForAccept? ==> n.tasks[i] == Refused(p.enabled))
            && (s.open >= 256 && p.ForAccept? ==> n.tasks[i] == Resetting(p.pool, p.taken))
            && (s.open < 256 && p.ForDial? ==> n.tasks[i] == SlotHeld(false))
            && (s.open < 256 && p.ForBind? ==> n.tasks[i] == SlotHeld(true))
            && (s.open < 256 && p.ForAccept? ==>
                  n.tasks[i] == Listening(p.pool) && n.tasks[|s.tasks|..] == [Stream(p.taken, false, 0)])
  {
  }

  /** A dropped stream keeps its slot, and a connection reset at capacity has none; both linger ten seconds at most. */
  lemma ClosingOutcome(s: State, i: nat)
    requires At(s, i)
    ensures UseEnabled(s, s.tasks[i], Retire) ==>
              UseApply(s, i, Retire).inner.closing
              == s.inner.closing + [ClosingEntry(s.tasks[i].socket, s.now + 10_000_000, true)]
    ensures AcceptEnabled(s, s.tasks[i], ResetTaken) ==>
              var n := AcceptApply(s, i, ResetTaken);
              && n.inner.closing
                 == s.inner.closing + [ClosingEntry(s.tasks[i].socket, s.now + 10_000_000, false)]
              && n.tasks[i] == Listening(s.tasks[i].pool)
  {
  }

  /** What opening a socket comes to: a bind or a dial that could not start is given up. */
  lemma OpenOutcome(s: State, i: nat, slot: nat, ok: bool)
    requires At(s, i) && UseEnabled(s, s.tasks[i], Open(slot, ok))
    ensures var n := UseApply(s, i, Open(slot, ok));
            && slot in n.inner.sockets
            && n.inner.sockets[slot].family == (if s.tasks[i].udp then UdpFamily else TcpFamily)
            && (!ok ==> n.tasks[i].Abandoned? && n.tasks[i].socket.handle == slot)
            && (ok && s.tasks[i].udp ==> n.tasks[i].UdpOpen? && n.tasks[i].socket.handle == slot)
            && (ok && !s.tasks[i].udp ==> n.tasks[i].Pending? && n.tasks[i].socket.handle == slot)
  {
  }

  /** Who asks for a slot, and whether it enabled a notification first; time only passes forward. */
  lemma SpawnOutcome(s: State, enable: bool, elapsed: nat)
    ensures FromOutsideApply(s, SpawnDial(enable)).tasks
            == s.tasks + [Loading(ForDial(if enable then Some(s.rung) else None))]
    ensures FromOutsideApply(s, SpawnBind(enable)).tasks
            == s.tasks + [Loading(ForBind(if enable then Some(s.rung) else None))]
    ensures FromOutsideApply(s, Wait(elapsed)) == s.(now := s.now + elapsed)
  {
  }

  /** A dropped listener discards its whole pool; one that lost a connection goes on listening. */
  lemma ListenerOutcome(s: State, i: nat)
    requires At(s, i)
    ensures AcceptEnabled(s, s.tasks[i], DropListener) ==>
              AcceptApply(s, i, DropListener).tasks[i] == Dropping(s.tasks[i].pool)
    ensures AcceptEnabled(s, s.tasks[i], DiscardPool) ==>
              var n := AcceptApply(s, i, DiscardPool);
              n.tasks[i].Over? && forall r :: r in s.tasks[i].pool ==> r.handle !in n.inner.sockets
    ensures AcceptEnabled(s, s.tasks[i], DiscardTaken) ==>
              var n := AcceptApply(s, i, DiscardTaken);
              s.tasks[i].socket.handle !in n.inner.sockets && n.tasks[i] == Listening(s.tasks[i].pool)
  {
  }

  /** A socket that never reached a peer goes before its slot does, and the signal after both. */
  lemma AbandonOutcome(s: State, i: nat)
    requires At(s, i)
    ensures UseEnabled(s, s.tasks[i], Abandon) ==>
              UseApply(s, i, Abandon).tasks[i] == Abandoned(false, s.tasks[i].socket)
    ensures UseEnabled(s, s.tasks[i], Discard) ==>
              var n := UseApply(s, i, Discard);
              s.tasks[i].socket.handle !in n.inner.sockets && n.tasks[i].Releasing? && n.open == s.open
    ensures UseEnabled(s, s.tasks[i], DropUdp) ==>
              var n := UseApply(s, i, DropUdp);
              s.tasks[i].socket.handle !in n.inner.sockets && n.tasks[i].Releasing? && n.open == s.open
    ensures UseEnabled(s, s.tasks[i], Decrement) ==>
              var n := UseApply(s, i, Decrement);
              n.open == s.open - 1 && n.tasks[i].Ringing? && n.rung == s.rung
    ensures UseEnabled(s, s.tasks[i], Ring) ==> UseApply(s, i, Ring).rung == s.rung + 1
  {
  }

  /** A listener takes one connection out of its pool and puts a fresh socket in, or gives the connection up. */
  lemma RefillOutcome(s: State, i: nat, slot: nat)
    requires At(s, i) && AcceptEnabled(s, s.tasks[i], Refill(slot, true))
    ensures var n := AcceptApply(s, i, Refill(slot, true));
            && n.tasks[i].Loading? && n.tasks[i].purpose.ForAccept? && n.tasks[i].purpose.taken == s.tasks[i].socket
            && |n.tasks[i].purpose.pool| == |s.tasks[i].pool| + 1 && s.tasks[i].pool <= n.tasks[i].purpose.pool
            && IsLive(n.inner.sockets, n.tasks[i].purpose.pool[|s.tasks[i].pool|], TcpFamily)
    ensures AcceptApply(s, i, Refill(slot, false)).tasks[i] == Forfeit(s.tasks[i].pool, s.tasks[i].socket)
  {
  }

  /** The sockets a listener has in its pool or is still to put there while it binds. */
  function Backlog(t: Task): nat {
    match t
    case Binding(pool, left) => |pool| + left
    case Listening(pool) => |pool|
    case _ => 0
  }

  /** A listener starts out with as many listening sockets as asked for, and at least one. */
  lemma BacklogOutcome(s: State, i: nat, backlog: nat, slot: nat)
    requires At(s, i)
    ensures var n := FromOutsideApply(s, SpawnListen(backlog));
            && |n.tasks| == |s.tasks| + 1 && n.tasks[|s.tasks|].Binding? && n.tasks[|s.tasks|].pool == []
            && Backlog(n.tasks[|s.tasks|]) == if backlog == 0 then 1 else backlog
    ensures AcceptEnabled(s, s.tasks[i], ListenOne(slot, true)) ==>
              var n := AcceptApply(s, i, ListenOne(slot, true));
              && Backlog(n.tasks[i]) == Backlog(s.tasks[i])
              && (n.tasks[i].Listening? <==> s.tasks[i].left == 1)
    ensures AcceptEnabled(s, s.tasks[i], ListenOne(slot, false)) ==>
              AcceptApply(s, i, ListenOne(slot, false)).tasks[i] == Dropping(s.tasks[i].pool)
  {
  }

  // ---- The end of a connection ----

  /** A stream's socket is closed once, by a shutdown or by the drop, and never again. */
  ghost predicate ClosedOnce(s: State) {
    forall i :: 0 <= i < |s.tasks| ==> ClosedSoFar(s.tasks[i])
  }

  predicate ClosedSoFar(t: Task) {
    && (t.Stream? ==> t.closes == if t.shutDown then 1 else 0)
    && (t.Retiring? ==> t.closes == 1)
  }

  lemma UseCloses(s: State, i: nat, u: SocketStep)
    requires At(s, i) && UseEnabled(s, s.tasks[i], u) && ClosedSoFar(s.tasks[i])
    ensures UseApply(s, i, u).tasks == s.tasks[i := UseApply(s, i, u).tasks[i]]
    ensures ClosedSoFar(UseApply(s, i, u).tasks[i])
  {
  }

  /** No other kind of step touches a stream, or starts one that is closed already. */
  lemma ClaimCloses(s: State, i: nat, c: ClaimStep, j: nat)
    requires At(s, i) && ClaimEnabled(s, s.tasks[i], c) && j < |ClaimApply(s, i, c).tasks|
    ensures var t := ClaimApply(s, i, c).tasks[j]; (j < |s.tasks| && t == s.tasks[j]) || ClosedSoFar(t)
  {
  }

  lemma AcceptCloses(s: State, i: nat, l: ListenerStep, j: nat)
    requires At(s, i) && AcceptEnabled(s, s.tasks[i], l) && j < |AcceptApply(s, i, l).tasks|
    ensures var t := AcceptApply(s, i, l).tasks[j]; (j < |s.tasks| && t == s.tasks[j]) || ClosedSoFar(t)
  {
  }

  lemma OutsideCloses(s: State, o: Outside, j: nat)
    requires OutsideEnabled(s, o) && j < |FromOutsideApply(s, o).tasks|
    ensures var t := FromOutsideApply(s, o).tasks[j]; (j < |s.tasks| && t == s.tasks[j]) || ClosedSoFar(t)
  {
  }

  lemma ClosedOnceKept(s: State, a: Action)
    requires ClosedOnce(s) && Enabled(s, a)
    ensures ClosedOnce(Apply(s, a))
  {
    if a.Using? {
      UseCloses(s, a.i, a.use);
    } else {
      forall j | 0 <= j < |Apply(s, a).tasks|
        ensures ClosedSoFar(Apply(s, a).tasks[j])
      {
        match a
        case FromOutside(o) => OutsideCloses(s, o, j);
        case Claiming(i, c) => ClaimCloses(s, i, c, j);
        case Accepting(i, l) => AcceptCloses(s, i, l, j);
      }
    }
  }

  lemma {:induction false} RunClosesOnce(s: State, actions: seq<Action>, t: State)
    requires ClosedOnce(s) && Run(s, actions, t)
    ensures ClosedOnce(t)
    decreases |actions|
  {
    if actions != [] {
      ClosedOnceKept(s, actions[0]);
      RunClosesOnce(Apply(s, actions[0]), actions[1..], t);
    }
  }

  /** However often it is shut down, a stream's socket has been closed exactly once by the time it is retired. */
  lemma StreamsCloseOnce(s: State, actions: seq<Action>, t: State, i: nat)
    requires Start(s) && Run(s, actions, t) && At(t, i)
    ensures t.tasks[i].Retiring? ==> t.tasks[i].closes == 1
    ensures t.tasks[i].Stream? ==> t.tasks[i].closes == if t.tasks[i].shutDown then 1 else 0
  {
    RunClosesOnce(s, actions, t);
  }

  predicate Carries(t: Task, r: Ref) { (t.Stream? || t.Retiring?) && t.socket == r }

  predicate Lingers(c: ClosingEntry, r: Ref) { c.socket == r }

  /** The socket belongs to a stream, to one being dropped, or to the closing list. */
  ghost predicate Carried(s: State, r: Ref) {
    || (exists i :: 0 <= i < |s.tasks| && Carries(s.tasks[i], r))
    || (exists k :: 0 <= k < |s.inner.closing| && Lingers(s.inner.closing[k], r))
  }

  /** A reclaim turn that gives the socket up: Closed, in TIME-WAIT under pressure, or past its deadline. */
  ghost predicate GivesUp(s: State, a: Action, r: Ref) {
    && a.Claiming? && a.claim.ReclaimNext? && Enabled(s, a)
    && var t := s.tasks[a.i];
       var c := s.inner.closing[t.index];
       && c.socket == r
       && (|| s.inner.sockets[r.handle].state == Closed
           || (t.job.Claim? && s.inner.sockets[r.handle].state == TimeWait)
           || c.deadline <= t.since)
  }

  lemma SwapRemoveKeeps(closing: seq<ClosingEntry>, index: nat, k: nat)
    requires index < |closing| && k < |closing| && k != index
    ensures closing[k] in SwapRemove(closing, index)
  {
    var r := SwapRemove(closing, index);
    if k == |closing| - 1 {
      assert r[index] == closing[k];
    } else {
      assert r[k] == closing[k];
    }
  }

  /** A closing entry stays in the list unless a turn gives it up. */
  lemma ListedStays(s: State, a: Action, k: nat)
    requires Enabled(s, a) && k < |s.inner.closing|
    ensures Carried(Apply(s, a), s.inner.closing[k].socket) || GivesUp(s, a, s.inner.closing[k].socket)
  {
    var n, c := Apply(s, a), s.inner.closing[k];
    if a.Claiming? && a.claim.ReclaimNext? && n.inner.closing != s.inner.closing && k != s.tasks[a.i].index {
      SwapRemoveKeeps(s.inner.closing, s.tasks[a.i].index, k);
      var j :| 0 <= j < |n.inner.closing| && n.inner.closing[j] == c;
      assert Lingers(n.inner.closing[j], c.socket);
    } else if k < |n.inner.closing| && n.inner.closing[k] == c {
      assert Lingers(n.inner.closing[k], c.socket);
    }
  }

  lemma StreamStays(s: State, a: Action, i: nat)
    requires Enabled(s, a) && At(s, i) && (s.tasks[i].Stream? || s.tasks[i].Retiring?)
    ensures Carried(Apply(s, a), s.tasks[i].socket)
  {
    var n, r := Apply(s, a), s.tasks[i].socket;
    if a.Using? && a.i == i && a.use.Retire? {
      assert Lingers(n.inner.closing[|s.inner.closing|], r);
    } else {
      assert Carries(n.tasks[i], r);
    }
  }

  lemma CarriedStep(s: State, a: Action, r: Ref)
    requires Enabled(s, a) && Carried(s, r)
    ensures Carried(Apply(s, a), r) || GivesUp(s, a, r)
  {
    if i :| 0 <= i < |s.tasks| && Carries(s.tasks[i], r) {
      StreamStays(s, a, i);
    } else {
      var k :| 0 <= k < |s.inner.closing| && Lingers(s.inner.closing[k], r);
      ListedStays(s, a, k);
    }
  }

  /**
   A connection's socket is never discarded out of hand. From the time a stream has it, it stays with
   the stream or in the closing list until a reclaim turn finds it Closed, in TIME-WAIT under
   pressure, or past its deadline.
   */
  lemma {:induction false} ConnectionsEndByReclaim(s: State, actions: seq<Action>, t: State, r: Ref)
    returns (k: nat, m: State)
    requires Run(s, actions, t) && Carried(s, r) && !Carried(t, r)
    ensures k < |actions| && Run(s, actions[..k], m) && GivesUp(m, actions[k], r)
    decreases |actions|
  {
    CarriedStep(s, actions[0], r);
    if GivesUp(s, actions[0], r) {
      k, m := 0, s;
    } else {
      var j, u := ConnectionsEndByReclaim(Apply(s, actions[0]), actions[1..], t, r);
      k, m := j + 1, u;
      assert actions[..k][1..] == actions[1..][..j];
    }
  }
}
