/**
 The smoltcp side of a WireGuard tunnel (`src/wireguard/stack.rs`): the socket set, the list
 of sockets still closing, the slot counter and the ephemeral-port counter.

 A socket handle is a bare index that smoltcp reuses after a removal. `Socket.id` is the
 identity of the socket object itself, which no code can see: it only lets the properties
 say that a handle still means the socket it was handed out for.
 */
module SocketStack {
  import opened Bags

  const MAX_SOCKETS: nat := 256
  /** Microseconds a closed socket may linger. */
  const LINGER: nat := 10_000_000
  const EPHEMERAL_FIRST: nat := 49152
  const EPHEMERAL_LAST: nat := 65535
  const EPHEMERAL_SPAN: nat := 16384

  datatype TcpState =
    | Closed | Listen | SynSent | SynReceived | Established
    | FinWait1 | FinWait2 | CloseWait | Closing | LastAck | TimeWait

  datatype Family = TcpFamily | UdpFamily | DnsFamily

  datatype Socket = Socket(id: nat, family: Family, state: TcpState)

  /** What an owner holds: the handle, and the identity of the socket it got it for. */
  datatype Ref = Ref(handle: nat, id: nat)

  datatype ClosingEntry = ClosingEntry(socket: Ref, deadline: int, counted: bool)

  /** The part of the stack that lives under the mutex. */
  datatype Inner = Inner(sockets: map<nat, Socket>, closing: seq<ClosingEntry>)

  function CountedSlot(c: ClosingEntry): nat { if c.counted then 1 else 0 }

  ghost function CountedSlots(closing: seq<ClosingEntry>): nat { Sum(closing, CountedSlot) }

  /** The handle still means the socket it was handed out for, and of the expected type. */
  predicate IsLive(sockets: map<nat, Socket>, r: Ref, family: Family) {
    && r.handle in sockets
    && sockets[r.handle].id == r.id
    && sockets[r.handle].family == family
  }

  /** Every closing entry names its own live TCP socket. */
  ghost predicate WellFormed(inner: Inner) {
    && (forall c :: c in inner.closing ==> IsLive(inner.sockets, c.socket, TcpFamily))
    && (forall i, j :: 0 <= i < j < |inner.closing| ==>
          inner.closing[i].socket.handle != inner.closing[j].socket.handle)
  }

  predicate Finished(state: TcpState, underPressure: bool) {
    state == Closed || (underPressure && state == TimeWait)
  }

  /** Whether a reclaim at `now` leaves the entry alone. */
  predicate Keeps(sockets: map<nat, Socket>, c: ClosingEntry, now: int, underPressure: bool)
    requires c.socket.handle in sockets
  {
    !Finished(sockets[c.socket.handle].state, underPressure) && now < c.deadline
  }

  /** Closed, in TIME-WAIT, or past its deadline: what a claim under pressure may take back. */
  predicate Ripe(sockets: map<nat, Socket>, c: ClosingEntry, now: int) {
    && c.socket.handle in sockets
    && (sockets[c.socket.handle].state == Closed || sockets[c.socket.handle].state == TimeWait || c.deadline <= now)
  }

  /** Remove the socket of the entry at `index`, and the entry. */
  function DropEntry(inner: Inner, index: nat): Inner
    requires index < |inner.closing|
  {
    Inner(inner.sockets - {inner.closing[index].socket.handle}, SwapRemove(inner.closing, index))
  }

  lemma DropEntryWellFormed(inner: Inner, index: nat)
    requires WellFormed(inner) && index < |inner.closing|
    ensures WellFormed(DropEntry(inner, index))
    ensures inner.closing[index] !in DropEntry(inner, index).closing
  {
    var last := |inner.closing| - 1;
    var r := SwapRemove(inner.closing, index);
    assert forall k :: 0 <= k < last && k != index ==> r[k] == inner.closing[k];
    assert index < last ==> r[index] == inner.closing[last];
    forall k | 0 <= k < last
      ensures r[k].socket.handle != inner.closing[index].socket.handle
    {
      if k == index {
        assert r[k] == inner.closing[last];
      }
    }
  }

  /** The reclaim loop from `index` on. */
  ghost function ReclaimFrom(inner: Inner, index: nat, now: int, underPressure: bool): Inner
    requires WellFormed(inner) && index <= |inner.closing|
    decreases |inner.closing| - index
  {
    if index == |inner.closing| then
      inner
    else if Keeps(inner.sockets, inner.closing[index], now, underPressure) then
      ReclaimFrom(inner, index + 1, now, underPressure)
    else
      DropEntryWellFormed(inner, index);
      ReclaimFrom(DropEntry(inner, index), index, now, underPressure)
  }

  /** What is left once the entries before `index` are passed over and the rest is examined. */
  ghost predicate Leaves(inner: Inner, index: nat, now: int, underPressure: bool, left: seq<ClosingEntry>)
    requires WellFormed(inner) && index <= |inner.closing|
  {
    forall c :: c in left <==>
      c in inner.closing[..index] ||
      (c in inner.closing[index..] && Keeps(inner.sockets, c, now, underPressure))
  }

  /** The sockets removed are exactly those of the entries that disappeared; no other changed. */
  ghost predicate SocketsFollow(inner: Inner, r: Inner) {
    && r.sockets.Keys == inner.sockets.Keys - DroppedHandles(inner, r)
    && forall h :: h in r.sockets ==> h in inner.sockets && r.sockets[h] == inner.sockets[h]
  }

  ghost function DroppedHandles(inner: Inner, r: Inner): set<nat> {
    set c | c in inner.closing && c !in r.closing :: c.socket.handle
  }

  lemma LeavesKept(inner: Inner, index: nat, now: int, underPressure: bool, left: seq<ClosingEntry>)
    requires WellFormed(inner) && index < |inner.closing|
    requires Keeps(inner.sockets, inner.closing[index], now, underPressure)
    requires Leaves(inner, index + 1, now, underPressure, left)
    ensures Leaves(inner, index, now, underPressure, left)
  {
    var c := inner.closing[index];
    assert inner.closing[index..] == [c] + inner.closing[index + 1..];
    assert inner.closing[..index + 1] == inner.closing[..index] + [c];
  }

  lemma LeavesDropped(inner: Inner, index: nat, now: int, underPressure: bool, left: seq<ClosingEntry>)
    requires WellFormed(inner) && index < |inner.closing| && WellFormed(DropEntry(inner, index))
    requires !Keeps(inner.sockets, inner.closing[index], now, underPressure)
    requires Leaves(DropEntry(inner, index), index, now, underPressure, left)
    ensures Leaves(inner, index, now, underPressure, left)
  {
    var d := DropEntry(inner, index);
    assert inner.closing[index..] == [inner.closing[index]] + inner.closing[index + 1..];
    DropEntryTail(inner, index);
    DropEntryStates(inner, index, now, underPressure);
    assert forall c :: c in d.closing[index..] ==> c in d.closing;
  }

  /**
   The loop examines every entry although `swap_remove` moves them around: what is left is
   the part already passed plus exactly the kept entries of the rest.
   */
  lemma {:induction false} ReclaimLeaves(inner: Inner, index: nat, now: int, underPressure: bool)
    requires WellFormed(inner) && index <= |inner.closing|
    ensures var r := ReclaimFrom(inner, index, now, underPressure);
            WellFormed(r) && Leaves(inner, index, now, underPressure, r.closing)
    decreases |inner.closing| - index
  {
    if index < |inner.closing| {
      var r := ReclaimFrom(inner, index, now, underPressure);
      if Keeps(inner.sockets, inner.closing[index], now, underPressure) {
        ReclaimLeaves(inner, index + 1, now, underPressure);
        LeavesKept(inner, index, now, underPressure, r.closing);
      } else {
        DropEntryWellFormed(inner, index);
        ReclaimLeaves(DropEntry(inner, index), index, now, underPressure);
        LeavesDropped(inner, index, now, underPressure, r.closing);
      }
    } else {
      assert inner.closing[..index] == inner.closing;
    }
  }

  /** Exactly the sockets of the dropped entries are removed. */
  lemma {:induction false} ReclaimSockets(inner: Inner, index: nat, now: int, underPressure: bool)
    requires WellFormed(inner) && index <= |inner.closing|
    ensures SocketsFollow(inner, ReclaimFrom(inner, index, now, underPressure))
    decreases |inner.closing| - index
  {
    if index < |inner.closing| {
      var c := inner.closing[index];
      if Keeps(inner.sockets, c, now, underPressure) {
        ReclaimSockets(inner, index + 1, now, underPressure);
      } else {
        var d := DropEntry(inner, index);
        DropEntryWellFormed(inner, index);
        ReclaimSockets(d, index, now, underPressure);
        ReclaimLeaves(d, index, now, underPressure);
        var r := ReclaimFrom(d, index, now, underPressure);
        assert forall e :: e in r.closing ==> e in d.closing by {
          assert d.closing == d.closing[..index] + d.closing[index..];
        }
        assert DroppedHandles(inner, r) == DroppedHandles(d, r) + {c.socket.handle};
      }
    }
  }

  /** A reclaim gives back no slot if and only if it drops no entry that held one. */
  lemma {:induction false} ReclaimSlots(inner: Inner, index: nat, now: int, underPressure: bool)
    requires WellFormed(inner) && index <= |inner.closing|
    ensures var left := CountedSlots(ReclaimFrom(inner, index, now, underPressure).closing);
            && left <= CountedSlots(inner.closing)
            && (left == CountedSlots(inner.closing) <==>
                  forall c :: c in inner.closing[index..] && c.counted ==>
                    Keeps(inner.sockets, c, now, underPressure))
    decreases |inner.closing| - index
  {
    if index < |inner.closing| {
      var c := inner.closing[index];
      assert inner.closing[index..] == [c] + inner.closing[index + 1..];
      if Keeps(inner.sockets, c, now, underPressure) {
        ReclaimSlots(inner, index + 1, now, underPressure);
      } else {
        DropEntryWellFormed(inner, index);
        DropEntryTail(inner, index);
        DropEntryStates(inner, index, now, underPressure);
        SumSwapRemove(inner.closing, index, CountedSlot);
        ReclaimSlots(DropEntry(inner, index), index, now, underPressure);
      }
    }
  }

  /**
   A whole reclaim pass leaves, as a multiset, exactly the entries that are unfinished and
   before their deadline, and removes exactly the other entries' sockets.
   */
  lemma ReclaimIsExact(inner: Inner, now: int, underPressure: bool)
    requires WellFormed(inner)
    ensures var r := ReclaimFrom(inner, 0, now, underPressure);
            && (forall c :: multiset(r.closing)[c] ==
                  if c in inner.closing && Keeps(inner.sockets, c, now, underPressure) then 1 else 0)
            && r.sockets == inner.sockets - ReclaimableHandles(inner, now, underPressure)
  {
    var r := ReclaimFrom(inner, 0, now, underPressure);
    ReclaimKeepsKept(inner, now, underPressure);
    forall c
      ensures multiset(r.closing)[c] ==
        if c in inner.closing && Keeps(inner.sockets, c, now, underPressure) then 1 else 0
    {
      DistinctCount(r.closing, c);
    }
    ReclaimSockets(inner, 0, now, underPressure);
    assert DroppedHandles(inner, r) == ReclaimableHandles(inner, now, underPressure);
  }

  ghost function ReclaimableHandles(inner: Inner, now: int, underPressure: bool): set<nat>
    requires WellFormed(inner)
  {
    set c | c in inner.closing && !Keeps(inner.sockets, c, now, underPressure) :: c.socket.handle
  }

  lemma ReclaimKeepsKept(inner: Inner, now: int, underPressure: bool)
    requires WellFormed(inner)
    ensures var r := ReclaimFrom(inner, 0, now, underPressure);
            && WellFormed(r)
            && forall c :: c in r.closing <==> c in inner.closing && Keeps(inner.sockets, c, now, underPressure)
  {
    ReclaimLeaves(inner, 0, now, underPressure);
    assert inner.closing[..0] == [] && inner.closing[0..] == inner.closing;
  }

  lemma {:induction false} DistinctCount(closing: seq<ClosingEntry>, c: ClosingEntry)
    requires forall i, j :: 0 <= i < j < |closing| ==> closing[i].socket.handle != closing[j].socket.handle
    ensures multiset(closing)[c] == if c in closing then 1 else 0
  {
    if closing != [] {
      var n := |closing| - 1;
      assert closing == closing[..n] + [closing[n]];
      DistinctCount(closing[..n], c);
    }
  }

  lemma DropEntryTail(inner: Inner, index: nat)
    requires WellFormed(inner) && index < |inner.closing|
    ensures var d := DropEntry(inner, index).closing;
            && d[..index] == inner.closing[..index]
            && forall c :: c in d[index..] <==> c in inner.closing[index + 1..]
  {
    var whole := inner.closing;
    var d := SwapRemove(whole, index);
    var last := |whole| - 1;
    assert forall k :: 0 <= k < last && k != index ==> d[k] == whole[k];
    assert index < last ==> d[index] == whole[last];
    forall c | c in d[index..]
      ensures c in whole[index + 1..]
    {
      var k :| index <= k < last && d[k] == c;
      if k == index {
        assert whole[index + 1..][last - index - 1] == c;
      } else {
        assert whole[index + 1..][k - index - 1] == c;
      }
    }
    forall c | c in whole[index + 1..]
      ensures c in d[index..]
    {
      var k :| index < k <= last && whole[k] == c;
      if k == last {
        assert d[index..][0] == c;
      } else {
        assert d[index..][k - index] == c;
      }
    }
  }

  lemma DropEntryStates(inner: Inner, index: nat, now: int, underPressure: bool)
    requires WellFormed(inner) && index < |inner.closing|
    ensures var d := DropEntry(inner, index);
            forall c :: c in d.closing ==>
              && c in inner.closing
              && c.socket.handle in d.sockets
              && (Keeps(d.sockets, c, now, underPressure) <==> Keeps(inner.sockets, c, now, underPressure))
  {
    DropEntryWellFormed(inner, index);
  }

  /** What one `Interface::poll` may do to TCP sockets: change states, nothing else. */
  function WithStates(sockets: map<nat, Socket>, states: map<nat, TcpState>): (r: map<nat, Socket>)
    ensures r.Keys == sockets.Keys
    ensures forall h :: h in r ==>
              && r[h].id == sockets[h].id && r[h].family == sockets[h].family
              && r[h].state == if h in states then states[h] else sockets[h].state
  {
    map h | h in sockets :: if h in states then sockets[h].(state := states[h]) else sockets[h]
  }

  // ---- Ports ----

  function NextPort(port: nat): nat {
    if port == EPHEMERAL_LAST then EPHEMERAL_FIRST else port + 1
  }

  /** The port handed out after `k` others, on a stack whose counter stands at `first`. */
  function NthPort(first: nat, k: nat): nat {
    if k == 0 then first else NextPort(NthPort(first, k - 1))
  }

  lemma {:induction false} NthPortIsRotation(offset: nat, k: nat)
    requires offset < EPHEMERAL_SPAN
    ensures NthPort(EPHEMERAL_FIRST + offset, k) == EPHEMERAL_FIRST + (offset + k) % EPHEMERAL_SPAN
  {
    if k > 0 {
      NthPortIsRotation(offset, k - 1);
    }
  }

  /** A port comes round again only after every other port of the range was handed out. */
  lemma PortsRepeatOnlyAfterAFullRound(offset: nat, i: nat, j: nat)
    requires offset < EPHEMERAL_SPAN && i < j < i + EPHEMERAL_SPAN
    ensures NthPort(EPHEMERAL_FIRST + offset, i) != NthPort(EPHEMERAL_FIRST + offset, j)
    ensures NthPort(EPHEMERAL_FIRST + offset, i) == NthPort(EPHEMERAL_FIRST + offset, i + EPHEMERAL_SPAN)
    ensures EPHEMERAL_FIRST <= NthPort(EPHEMERAL_FIRST + offset, i) <= EPHEMERAL_LAST
  {
    var n := i + EPHEMERAL_SPAN;
    NthPortIsRotation(offset, i);
    NthPortIsRotation(offset, j);
    NthPortIsRotation(offset, n);
    RotationRepeats(offset + i, offset + j);
  }

  lemma RotationRepeats(a: nat, b: nat)
    requires a < b < a + EPHEMERAL_SPAN
    ensures a % EPHEMERAL_SPAN != b % EPHEMERAL_SPAN
    ensures a % EPHEMERAL_SPAN == (a + EPHEMERAL_SPAN) % EPHEMERAL_SPAN
  {
  }

  /** The listen-port search, on a stack whose listening ports are `held` throughout. */
  method FreeListenPort(start: nat, held: set<nat>) returns (port: Option<nat>)
    requires start < EPHEMERAL_SPAN
    ensures port.None? <==> forall p :: EPHEMERAL_FIRST <= p <= EPHEMERAL_LAST ==> p in held
    ensures port.Some? ==> EPHEMERAL_FIRST <= port.value <= EPHEMERAL_LAST && port.value !in held
    ensures port.Some? ==>
              exists k | 0 <= k < EPHEMERAL_SPAN ::
                && port.value == Candidate(start, k)
                && forall e :: 0 <= e < k ==> Candidate(start, e) in held
  {
    var step := 0;
    while step < EPHEMERAL_SPAN
      invariant 0 <= step <= EPHEMERAL_SPAN
      invariant forall e :: 0 <= e < step ==> Candidate(start, e) in held
    {
      var candidate := Candidate(start, step);
      if candidate !in held {
        return Some(candidate);
      }
      step := step + 1;
    }
    forall p | EPHEMERAL_FIRST <= p <= EPHEMERAL_LAST
      ensures p in held
    {
      var k := (p - EPHEMERAL_FIRST + EPHEMERAL_SPAN - start) % EPHEMERAL_SPAN;
      assert Candidate(start, k) == p;
    }
    port := None;
  }

  function Candidate(start: nat, step: nat): nat {
    EPHEMERAL_FIRST + (start + step) % EPHEMERAL_SPAN
  }

  // ---- The stack object ----

  class StackInner {
    var sockets: map<nat, Socket>
    var closing: seq<ClosingEntry>
    /** Claimed socket slots. */
    var open: nat
    /** How often the slot-freed signal rang. */
    var rung: nat
    var nextPort: nat

    ghost function Value(): Inner
      reads this
    {
      Inner(sockets, closing)
    }

    ghost predicate Valid()
      reads this
    {
      && WellFormed(Value())
      && CountedSlots(closing) <= open <= MAX_SOCKETS
      && EPHEMERAL_FIRST <= nextPort <= EPHEMERAL_LAST
    }

    constructor (seed: nat)
      ensures Valid() && sockets == map[] && closing == [] && open == 0 && rung == 0
      ensures nextPort == EPHEMERAL_FIRST + seed % EPHEMERAL_SPAN
    {
      sockets, closing, open, rung := map[], [], 0, 0;
      nextPort := EPHEMERAL_FIRST + seed % EPHEMERAL_SPAN;
    }

    method NextEphemeralPort() returns (port: nat)
      requires Valid()
      modifies `nextPort
      ensures Valid()
      ensures port == old(nextPort)
      ensures forall k: nat :: NthPort(nextPort, k) == NthPort(port, k + 1)
    {
      port := nextPort;
      if port == EPHEMERAL_LAST {
        nextPort := EPHEMERAL_FIRST;
      } else {
        nextPort := port + 1;
      }
      forall k: nat
        ensures NthPort(nextPort, k) == NthPort(port, k + 1)
      {
        NthPortShift(port, k);
      }
    }

    method Retire(socket: Ref, now: int, counted: bool)
      requires Valid() && IsLive(sockets, socket, TcpFamily)
      requires forall c :: c in closing ==> c.socket.handle != socket.handle
      requires counted ==> CountedSlots(closing) < open
      modifies `closing
      ensures Valid()
      ensures closing == old(closing) + [ClosingEntry(socket, now + LINGER, counted)]
    {
      SumAppend(closing, ClosingEntry(socket, now + LINGER, counted), CountedSlot);
      closing := closing + [ClosingEntry(socket, now + LINGER, counted)];
    }

    /** The socket of the entry at `index` goes, then its slot if it has one, then the entry. */
    method DropAt(index: nat)
      requires WellFormed(Value()) && index < |closing| && CountedSlots(closing) <= open
      modifies `sockets, `closing, `open, `rung
      ensures Value() == DropEntry(old(Value()), index)
      ensures open == old(open) - CountedSlot(old(closing[index])) && rung - old(rung) == old(open) - open
    {
      var entry := closing[index];
      SumContains(closing, index, CountedSlot);
      sockets := sockets - {entry.socket.handle};
      if entry.counted {
        open := open - 1;
        rung := rung + 1;
      }
      closing := SwapRemove(closing, index);
    }

    /** The `swap_remove` loop: equal to its specification, whose meaning the lemmas above give. */
    method ReclaimFinished(now: int, underPressure: bool)
      requires Valid()
      modifies `sockets, `closing, `open, `rung
      ensures Valid()
      ensures Value() == ReclaimFrom(old(Value()), 0, now, underPressure)
      ensures open - CountedSlots(closing) == old(open - CountedSlots(closing))
      ensures rung - old(rung) == old(open) - open
      ensures forall c :: c in closing <==>
                && c in old(closing) && c.socket.handle in old(sockets) && now < c.deadline
                && old(sockets)[c.socket.handle].state != Closed
                && (underPressure ==> old(sockets)[c.socket.handle].state != TimeWait)
    {
      var index := 0;
      while index < |closing|
        invariant 0 <= index <= |closing| && WellFormed(Value())
        invariant CountedSlots(closing) <= open <= MAX_SOCKETS
        invariant ReclaimFrom(Value(), index, now, underPressure)
               == ReclaimFrom(old(Value()), 0, now, underPressure)
        invariant open - CountedSlots(closing) == old(open - CountedSlots(closing))
        invariant rung - old(rung) == old(open) - open
        decreases |closing| - index
      {
        var entry := closing[index];
        var state := sockets[entry.socket.handle].state;
        var finished := state == Closed || (underPressure && state == TimeWait);
        if !finished && now < entry.deadline {
          index := index + 1;
          continue;
        }
        ReclaimDrops(Value(), index, now, underPressure);
        DropAt(index);
      }
      ReclaimKeepsKept(old(Value()), now, underPressure);
    }

    /**
     With nobody else running, a claim is refused only if no slot is free and no counted closing
     entry is Closed, in TIME-WAIT or past its deadline.
     */
    method ClaimSocket(now: int) returns (claimed: bool)
      requires Valid()
      modifies `sockets, `closing, `open, `rung
      ensures Valid()
      ensures claimed <==>
                || old(open) < MAX_SOCKETS
                || exists c :: c in old(closing) && c.counted && Ripe(old(sockets), c, now)
      ensures open - CountedSlots(closing) == old(open - CountedSlots(closing)) + if claimed then 1 else 0
      ensures Value() == if old(open) < MAX_SOCKETS then old(Value())
                         else ReclaimFrom(old(Value()), 0, now, true)
    {
      if open >= MAX_SOCKETS {
        ghost var before := Value();
        ReclaimFinished(now, true);
        ReclaimSlots(before, 0, now, true);
        assert forall c :: c in before.closing ==>
            (Ripe(before.sockets, c, now) <==> !Keeps(before.sockets, c, now, true));
        assert before.closing[0..] == before.closing;
      }
      claimed := open < MAX_SOCKETS;
      if claimed {
        open := open + 1;
      }
    }

    /** One pump poll: the network moves TCP states, closed sockets go, and the next wake-up is due. */
    method Poll(now: int, network: map<nat, TcpState>, protocolDelay: Option<nat>) returns (delay: Option<nat>)
      requires Valid()
      modifies `sockets, `closing, `open, `rung
      ensures Valid()
      ensures Value() == Polled(old(Value()), now, network)
      ensures open - CountedSlots(closing) == old(open - CountedSlots(closing))
      ensures IsPollDelay(closing, now, protocolDelay, delay)
      ensures forall c :: c in closing <==>
                && c in old(closing) && c.socket.handle in old(sockets) && now < c.deadline
                && (if c.socket.handle in network then network[c.socket.handle]
                    else old(sockets)[c.socket.handle].state) != Closed
      ensures forall h :: h in sockets <==>
                h in old(sockets) && forall c :: c in old(closing) && c !in closing ==> c.socket.handle != h
      ensures forall h :: h in sockets ==>
                && sockets[h].id == old(sockets)[h].id && sockets[h].family == old(sockets)[h].family
                && sockets[h].state == if h in network then network[h] else old(sockets)[h].state
    {
      WithStatesWellFormed(Value(), network);
      sockets := WithStates(sockets, network);
      ghost var before := Value();
      ReclaimFinished(now, false);
      PolledDeadlines(before, now);
      ReclaimKeepsKept(before, now, false);
      ReclaimSockets(before, 0, now, false);
      delay := LeastDelay(closing, now, protocolDelay);
    }
  }

  /** The wake-up the pump sleeps until: the nearest of the protocol's and the linger deadlines. */
  method LeastDelay(closing: seq<ClosingEntry>, now: int, protocolDelay: Option<nat>) returns (delay: Option<nat>)
    requires forall c :: c in closing ==> now < c.deadline
    ensures IsPollDelay(closing, now, protocolDelay, delay)
  {
    delay := protocolDelay;
    var k := 0;
    while k < |closing|
      invariant 0 <= k <= |closing|
      invariant IsPollDelay(closing[..k], now, protocolDelay, delay)
    {
      var linger: nat := closing[k].deadline - now;
      delay := if delay.None? then Some(linger) else Some(if linger < delay.value then linger else delay.value);
      assert closing[..k + 1] == closing[..k] + [closing[k]];
      k := k + 1;
    }
    assert closing[..k] == closing;
  }

  lemma WithStatesWellFormed(inner: Inner, network: map<nat, TcpState>)
    requires WellFormed(inner)
    ensures WellFormed(inner.(sockets := WithStates(inner.sockets, network)))
  {
  }

  lemma ReclaimDrops(inner: Inner, index: nat, now: int, underPressure: bool)
    requires WellFormed(inner) && index < |inner.closing|
    requires !Keeps(inner.sockets, inner.closing[index], now, underPressure)
    ensures var d := DropEntry(inner, index);
            && WellFormed(d)
            && ReclaimFrom(d, index, now, underPressure) == ReclaimFrom(inner, index, now, underPressure)
            && CountedSlots(d.closing) + CountedSlot(inner.closing[index]) == CountedSlots(inner.closing)
  {
    DropEntryWellFormed(inner, index);
    SumSwapRemove(inner.closing, index, CountedSlot);
  }

  lemma {:induction false} NthPortShift(port: nat, k: nat)
    ensures NthPort(NextPort(port), k) == NthPort(port, k + 1)
  {
    if k > 0 {
      NthPortShift(port, k - 1);
    } else {
      assert NthPort(port, 1) == NextPort(NthPort(port, 0));
    }
  }

  ghost function Polled(inner: Inner, now: int, network: map<nat, TcpState>): Inner
    requires WellFormed(inner)
  {
    WithStatesWellFormed(inner, network);
    ReclaimFrom(inner.(sockets := WithStates(inner.sockets, network)), 0, now, false)
  }

  /** `delay` is the least of the protocol's own delay and every closing entry's remaining time. */
  ghost predicate IsPollDelay(closing: seq<ClosingEntry>, now: int, protocolDelay: Option<nat>, delay: Option<nat>) {
    && (delay.None? <==> protocolDelay.None? && closing == [])
    && (delay.Some? ==>
          && (protocolDelay.Some? ==> delay.value <= protocolDelay.value)
          && (forall c :: c in closing ==> delay.value <= c.deadline - now)
          && (delay == protocolDelay || exists c :: c in closing && delay.value == c.deadline - now))
  }

  lemma PolledDeadlines(inner: Inner, now: int)
    requires WellFormed(inner)
    ensures forall c :: c in ReclaimFrom(inner, 0, now, false).closing ==> c in inner.closing && now < c.deadline
  {
    ReclaimKeepsKept(inner, now, false);
  }
}
