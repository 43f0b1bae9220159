/**
 DNS lookups over the one shared resolver: `query` and `QueryGuard` in `src/wireguard/stack.rs`.

 A lookup takes one of eight permits, starts a query in one of the resolver's eight slots, guards
 it, and waits. Each lock section is a step of its own, and so is everything a lookup does between
 two of them. In particular the resolver frees the slot when it hands over a result, while the
 guard, which still holds the slot's number, is disarmed only after the lock is given back: in
 between the slot may already serve another lookup.

 A lookup's local variables are a stack. Wherever it waits it may be cancelled, and when it is
 cancelled or returns, its locals are dropped, the last declared first; dropping a guard that is
 still armed cancels the query in the slot it names, whosever that is by then.
 */
module DnsSlots {
  import opened Bags

  const SLOTS := 8

  datatype Local = Permit | Guard(handle: Option<nat>)

  datatype Pc =
    | AwaitPermit
    | Permitted               // about to start its query
    | Started(slot: nat)      // the query is in the slot, the guard not yet made
    | AwaitAnswer(slot: nat)
    | Answered                // the resolver gave a result and freed the slot; the guard is still armed
    | TimedOut                // about to drop the guard, armed
    | Disarmed                // about to drop the guard, disarmed
    | Unwinding               // returning or cancelled

  datatype Lookup = Lookup(pc: Pc, locals: seq<Local>)

  /** `query` is the lookup whose query was in the slot that a close was aimed at, if it held any. */
  datatype Event =
    | Began(t: nat)
    | Closed(t: nat, query: Option<nat>, cancelled: bool)
    | Returned(t: nat)
    | NoFreeSlot(t: nat)

  /** `slots[k]` is the lookup whose query the resolver holds there. */
  datatype State = State(available: nat, slots: seq<Option<nat>>, lookups: seq<Lookup>, log: seq<Event>)

  datatype Action =
    | Arrive
    | Acquire(t: nat)
    | Cancel(t: nat)              // dropped, or past its deadline, where it waits
    | StartQuery(t: nat, slot: nat)
    | FindNoSlot(t: nat)
    | RejectName(t: nat)
    | MakeGuard(t: nat)
    | TakeResult(t: nat)          // answered or failed
    | Expire(t: nat)
    | Disarm(t: nat)
    | DropLast(t: nat)

  const START := State(SLOTS, [None, None, None, None, None, None, None, None], [], [])

  predicate Enabled(s: State, a: Action) {
    if a.Arrive? then true
    else if a.t >= |s.lookups| then false
    else
      var l := s.lookups[a.t];
      match a
      case Acquire(_) => l.pc.AwaitPermit? && s.available > 0
      case Cancel(_) => l.pc.AwaitPermit? || l.pc.AwaitAnswer?
      case StartQuery(_, slot) => l.pc.Permitted? && slot < |s.slots| && s.slots[slot].None?
      case FindNoSlot(_) => l.pc.Permitted? && forall k :: 0 <= k < |s.slots| ==> s.slots[k].Some?
      case RejectName(_) => l.pc.Permitted?
      case MakeGuard(_) => l.pc.Started?
      case TakeResult(_) => l.pc.AwaitAnswer? && l.pc.slot < |s.slots|
      case Expire(_) => l.pc.AwaitAnswer?
      case Disarm(_) => l.pc.Answered? && l.locals != []
      case DropLast(_) =>
        && (l.pc.TimedOut? || l.pc.Disarmed? || l.pc.Unwinding?) && l.locals != []
        && (Armed(l) ==> Last(l).handle.value < |s.slots|)
  }

  function Last(l: Lookup): Local
    requires l.locals != []
  {
    l.locals[|l.locals| - 1]
  }

  /** Dropping the last local now would cancel a query. */
  predicate Armed(l: Lookup) { l.locals != [] && Last(l).Guard? && Last(l).handle.Some? }

  function Move(s: State, t: nat, pc: Pc, locals: seq<Local>): State
    requires t < |s.lookups|
  {
    s.(lookups := s.lookups[t := Lookup(pc, locals)])
  }

  function Log(s: State, e: Event): State { s.(log := s.log + [e]) }

  /** Close whatever query is in the slot, as the resolver does without asking whose it is. */
  function Close(s: State, t: nat, slot: nat, cancelled: bool): State
    requires slot < |s.slots|
  {
    s.(slots := s.slots[slot := None], log := s.log + [Closed(t, s.slots[slot], cancelled)])
  }

  /** The last local goes out of scope. */
  function Dropped(s: State, t: nat): State
    requires Enabled(s, DropLast(t))
  {
    var l := s.lookups[t];
    var rest := Move(s, t, Unwinding, l.locals[..|l.locals| - 1]);
    match Last(l)
    case Permit => Log(rest, Returned(t)).(available := s.available + 1)
    case Guard(handle) => if handle.Some? then Close(rest, t, handle.value, true) else rest
  }

  function Apply(s: State, a: Action): State
    requires Enabled(s, a)
  {
    match a
    case Arrive => s.(lookups := s.lookups + [Lookup(AwaitPermit, [])])
    case Acquire(t) => Move(s, t, Permitted, s.lookups[t].locals + [Permit]).(available := s.available - 1)
    case Cancel(t) => Move(s, t, Unwinding, s.lookups[t].locals)
    case StartQuery(t, slot) =>
      Log(Move(s, t, Started(slot), s.lookups[t].locals), Began(t)).(slots := s.slots[slot := Some(t)])
    case FindNoSlot(t) => Log(Move(s, t, Unwinding, s.lookups[t].locals), NoFreeSlot(t))
    case RejectName(t) => Move(s, t, Unwinding, s.lookups[t].locals)
    case MakeGuard(t) =>
      var slot := s.lookups[t].pc.slot;
      Move(s, t, AwaitAnswer(slot), s.lookups[t].locals + [Guard(Some(slot))])
    case TakeResult(t) => Close(Move(s, t, Answered, s.lookups[t].locals), t, s.lookups[t].pc.slot, false)
    case Expire(t) => Move(s, t, TimedOut, s.lookups[t].locals)
    case Disarm(t) =>
      Move(s, t, Disarmed, s.lookups[t].locals[..|s.lookups[t].locals| - 1] + [Guard(None)])
    case DropLast(t) => Dropped(s, t)
  }

  ghost predicate Run(s: State, actions: seq<Action>, t: State)
    decreases |actions|
  {
    if actions == [] then s == t
    else Enabled(s, actions[0]) && Run(Apply(s, actions[0]), actions[1..], t)
  }

  // ---------------------------------------------------------------- what every step keeps

  /** The locals a lookup can have at each point. */
  predicate Shape(l: Lookup) {
    match l.pc
    case AwaitPermit => l.locals == []
    case Permitted => l.locals == [Permit]
    case Started(_) => l.locals == [Permit]
    case AwaitAnswer(slot) => l.locals == [Permit, Guard(Some(slot))]
    case Answered => |l.locals| == 2 && l.locals[0] == Permit && Armed(l)
    case TimedOut => |l.locals| == 2 && l.locals[0] == Permit && Armed(l)
    case Disarmed => l.locals == [Permit, Guard(None)]
    case Unwinding => l.locals == [] || l.locals == [Permit] || (|l.locals| == 2 && l.locals[0] == Permit && Armed(l))
  }

  /** The slot of the query a lookup still has to close: none once a result was taken, armed or not. */
  function Owed(l: Lookup): Option<nat> {
    match l.pc
    case Started(slot) => Some(slot)
    case AwaitAnswer(slot) => Some(slot)
    case TimedOut => if Armed(l) then Last(l).handle else None
    case Unwinding => if Armed(l) then Last(l).handle else None
    case _ => None
  }

  ghost predicate ShapeInv(s: State) {
    forall t :: 0 <= t < |s.lookups| ==> Shape(s.lookups[t])
  }

  /** The resolver's slots hold exactly the queries their lookups still have to close. */
  ghost predicate SlotInv(s: State) {
    && |s.slots| == SLOTS
    && (forall t :: 0 <= t < |s.lookups| && Owed(s.lookups[t]).Some? ==>
          Owed(s.lookups[t]).value < SLOTS && s.slots[Owed(s.lookups[t]).value] == Some(t))
    && (forall k :: 0 <= k < SLOTS && s.slots[k].Some? ==>
          s.slots[k].value < |s.lookups| && Owed(s.lookups[s.slots[k].value]) == Some(k))
  }

  ghost function HasPermit(l: Lookup): nat { if l.locals != [] && l.locals[0] == Permit then 1 else 0 }

  ghost function InFlight(l: Lookup): nat { if Owed(l).Some? then 1 else 0 }

  ghost function Occupied(slot: Option<nat>): nat { if slot.Some? then 1 else 0 }

  ghost predicate CountInv(s: State) {
    && s.available + Sum(s.lookups, HasPermit) == SLOTS
    && Sum(s.slots, Occupied) == Sum(s.lookups, InFlight)
  }

  /** The events of one lookup, in order. */
  function Of(log: seq<Event>, t: nat): seq<Event> {
    if log == [] then []
    else Of(log[..|log| - 1], t) + if log[|log| - 1].t == t then [log[|log| - 1]] else []
  }

  /** A query begun and closed, by its own lookup and with its own query in the slot. */
  function Whole(t: nat, cancelled: bool): seq<Event> { [Began(t), Closed(t, Some(t), cancelled)] }

  /** What a lookup can have done when it is where it is. */
  predicate Past(l: Lookup, t: nat, past: seq<Event>) {
    if Owed(l).Some? then past == [Began(t)]
    else
      match l.pc
      case Answered => past == Whole(t, false)
      case Disarmed => past == Whole(t, false)
      case Unwinding => Settled(t, past) || (l.locals == [] && Over(t, past))
      case _ => past == []
  }

  /** No query was begun, or one was closed. */
  predicate Settled(t: nat, past: seq<Event>) {
    past == [] || past == Whole(t, false) || past == Whole(t, true)
  }

  /** And the permit returned after that. */
  predicate Over(t: nat, past: seq<Event>) {
    past != [] && past[|past| - 1] == Returned(t) && Settled(t, past[..|past| - 1])
  }

  ghost predicate PastInv(s: State) {
    forall t :: 0 <= t < |s.lookups| ==> Past(s.lookups[t], t, Of(s.log, t))
  }

  ghost predicate NameInv(s: State) {
    forall i :: 0 <= i < |s.log| ==> s.log[i].t < |s.lookups|
  }

  ghost predicate Inv(s: State) { ShapeInv(s) && SlotInv(s) && CountInv(s) && NameInv(s) && PastInv(s) }

  lemma StartHolds()
    ensures Inv(START)
  {
  }

  lemma ShapeKept(s: State, a: Action)
    requires ShapeInv(s) && Enabled(s, a)
    ensures ShapeInv(Apply(s, a))
  {
    if !a.Arrive? {
      assert Shape(s.lookups[a.t]);
    }
  }

  // The slots

  lemma StartSlots(s: State, t: nat, slot: nat)
    requires SlotInv(s) && Enabled(s, StartQuery(t, slot))
    ensures SlotInv(Apply(s, StartQuery(t, slot)))
  {
  }

  /** A lookup closes its own query and owes none afterwards. */
  lemma CloseSlots(s: State, n: State, t: nat, slot: nat)
    requires SlotInv(s) && t < |s.lookups| && Owed(s.lookups[t]) == Some(slot)
    requires n.slots == s.slots[slot := None] && |n.lookups| == |s.lookups| && Owed(n.lookups[t]).None?
    requires forall u :: 0 <= u < |s.lookups| && u != t ==> n.lookups[u] == s.lookups[u]
    ensures SlotInv(n)
  {
  }

  /** Steps that leave the slots alone, and what each lookup owes. */
  lemma SlotFrame(s: State, n: State)
    requires SlotInv(s) && n.slots == s.slots && |s.lookups| <= |n.lookups|
    requires forall u :: 0 <= u < |s.lookups| ==> Owed(n.lookups[u]) == Owed(s.lookups[u])
    requires forall u :: |s.lookups| <= u < |n.lookups| ==> Owed(n.lookups[u]).None?
    ensures SlotInv(n)
  {
  }

  /** A step that closes a query is aimed at the slot of the lookup's own. */
  lemma ClosesOwn(s: State, t: nat)
    requires ShapeInv(s) && SlotInv(s) && t < |s.lookups|
    ensures Enabled(s, TakeResult(t)) ==>
              Owed(s.lookups[t]) == Some(s.lookups[t].pc.slot) && s.slots[s.lookups[t].pc.slot] == Some(t)
    ensures Enabled(s, DropLast(t)) && Armed(s.lookups[t]) ==>
              Owed(s.lookups[t]) == Last(s.lookups[t]).handle && s.slots[Last(s.lookups[t]).handle.value] == Some(t)
  {
    assert Shape(s.lookups[t]);
  }

  lemma DropSlots(s: State, t: nat)
    requires ShapeInv(s) && SlotInv(s) && Enabled(s, DropLast(t))
    ensures SlotInv(Dropped(s, t))
  {
    assert Shape(s.lookups[t]);
    ClosesOwn(s, t);
    if Armed(s.lookups[t]) {
      CloseSlots(s, Dropped(s, t), t, Last(s.lookups[t]).handle.value);
    } else {
      SlotFrame(s, Dropped(s, t));
    }
  }

  lemma ResultSlots(s: State, t: nat)
    requires ShapeInv(s) && SlotInv(s) && Enabled(s, TakeResult(t))
    ensures SlotInv(Apply(s, TakeResult(t)))
  {
    ClosesOwn(s, t);
    CloseSlots(s, Apply(s, TakeResult(t)), t, s.lookups[t].pc.slot);
  }

  /** Every other step leaves the slots alone, and what its lookup owes. */
  lemma PlainOwes(s: State, a: Action)
    requires ShapeInv(s) && Enabled(s, a)
    requires !a.Arrive? && !a.StartQuery? && !a.TakeResult? && !a.DropLast?
    ensures var n := Apply(s, a);
            && n.slots == s.slots && n.lookups == s.lookups[a.t := n.lookups[a.t]]
            && Owed(n.lookups[a.t]) == Owed(s.lookups[a.t])
  {
    assert Shape(s.lookups[a.t]);
  }

  lemma SlotKept(s: State, a: Action)
    requires ShapeInv(s) && SlotInv(s) && Enabled(s, a)
    ensures SlotInv(Apply(s, a))
  {
    match a
    case Arrive => SlotFrame(s, Apply(s, a));
    case StartQuery(t, slot) => StartSlots(s, t, slot);
    case TakeResult(t) => ResultSlots(s, t);
    case DropLast(t) => DropSlots(s, t);
    case _ =>
      PlainOwes(s, a);
      SlotFrame(s, Apply(s, a));
  }

  // The counts

  /** Fewer lookups are in flight than hold permits if one of the holders is not in flight. */
  lemma {:induction false} FlightsUnderPermits(ls: seq<Lookup>, n: nat, t: nat)
    requires n <= |ls| && forall u :: 0 <= u < |ls| ==> Shape(ls[u])
    ensures SumTo(ls, InFlight, n) <= SumTo(ls, HasPermit, n)
    ensures t < n && ls[t].pc.Permitted? ==> SumTo(ls, InFlight, n) < SumTo(ls, HasPermit, n)
  {
    if n > 0 {
      FlightsUnderPermits(ls, n - 1, t);
      assert Shape(ls[n - 1]);
    }
  }

  lemma {:induction false} AllOccupied(slots: seq<Option<nat>>, n: nat)
    requires n <= |slots| && forall k :: 0 <= k < n ==> slots[k].Some?
    ensures SumTo(slots, Occupied, n) == n
  {
    if n > 0 {
      AllOccupied(slots, n - 1);
    }
  }

  /** A lookup with a permit always finds a free slot. */
  lemma FreeSlotForPermit(s: State, t: nat)
    requires ShapeInv(s) && SlotInv(s) && CountInv(s) && t < |s.lookups| && s.lookups[t].pc.Permitted?
    ensures exists k :: 0 <= k < |s.slots| && s.slots[k].None?
  {
    FlightsUnderPermits(s.lookups, |s.lookups|, t);
    if forall k :: 0 <= k < |s.slots| ==> s.slots[k].Some? {
      AllOccupied(s.slots, SLOTS);
    }
  }

  lemma CountMove(s: State, n: State, t: nat)
    requires CountInv(s) && t < |s.lookups| && |n.lookups| == |s.lookups|
    requires n.lookups == s.lookups[t := n.lookups[t]]
    requires n.available + HasPermit(n.lookups[t]) == s.available + HasPermit(s.lookups[t])
    requires Sum(n.slots, Occupied) + InFlight(s.lookups[t]) == Sum(s.slots, Occupied) + InFlight(n.lookups[t])
    ensures CountInv(n)
  {
    SumUpdate(s.lookups, t, n.lookups[t], HasPermit);
    SumUpdate(s.lookups, t, n.lookups[t], InFlight);
  }

  lemma DropCounts(s: State, t: nat)
    requires ShapeInv(s) && SlotInv(s) && CountInv(s) && Enabled(s, DropLast(t))
    ensures CountInv(Dropped(s, t))
  {
    var l := s.lookups[t];
    assert Shape(l);
    ClosesOwn(s, t);
    if Armed(l) {
      SumUpdate(s.slots, Last(l).handle.value, None, Occupied);
    }
    CountMove(s, Dropped(s, t), t);
  }

  lemma StartCounts(s: State, t: nat, slot: nat)
    requires ShapeInv(s) && CountInv(s) && Enabled(s, StartQuery(t, slot))
    ensures CountInv(Apply(s, StartQuery(t, slot)))
  {
    assert Shape(s.lookups[t]);
    SumUpdate(s.slots, slot, Some(t), Occupied);
    CountMove(s, Apply(s, StartQuery(t, slot)), t);
  }

  lemma ResultCounts(s: State, t: nat)
    requires ShapeInv(s) && SlotInv(s) && CountInv(s) && Enabled(s, TakeResult(t))
    ensures CountInv(Apply(s, TakeResult(t)))
  {
    assert Shape(s.lookups[t]);
    ClosesOwn(s, t);
    SumUpdate(s.slots, s.lookups[t].pc.slot, None, Occupied);
    CountMove(s, Apply(s, TakeResult(t)), t);
  }

  /** The other steps touch no slot, and move one permit at most. */
  lemma PlainCounts(s: State, a: Action)
    requires ShapeInv(s) && CountInv(s) && Enabled(s, a)
    requires !a.Arrive? && !a.StartQuery? && !a.TakeResult? && !a.DropLast?
    ensures CountInv(Apply(s, a))
  {
    assert Shape(s.lookups[a.t]);
    PlainOwes(s, a);
    CountMove(s, Apply(s, a), a.t);
  }

  lemma CountKept(s: State, a: Action)
    requires ShapeInv(s) && SlotInv(s) && CountInv(s) && Enabled(s, a)
    ensures CountInv(Apply(s, a))
  {
    match a
    case Arrive =>
      SumAppend(s.lookups, Lookup(AwaitPermit, []), HasPermit);
      SumAppend(s.lookups, Lookup(AwaitPermit, []), InFlight);
    case StartQuery(t, slot) => StartCounts(s, t, slot);
    case TakeResult(t) => ResultCounts(s, t);
    case DropLast(t) => DropCounts(s, t);
    case _ => PlainCounts(s, a);
  }

  // The history

  lemma OfAppend(log: seq<Event>, e: Event, t: nat)
    ensures Of(log + [e], t) == Of(log, t) + if e.t == t then [e] else []
  {
    assert (log + [e])[..|log|] == log;
  }

  lemma {:induction false} OfStranger(log: seq<Event>, t: nat)
    requires forall i :: 0 <= i < |log| ==> log[i].t != t
    ensures Of(log, t) == []
  {
    if log != [] {
      OfStranger(log[..|log| - 1], t);
    }
  }

  lemma NameKept(s: State, a: Action)
    requires NameInv(s) && Enabled(s, a)
    ensures NameInv(Apply(s, a))
  {
  }

  /** What a step adds to the log. */
  function Said(s: State, a: Action): seq<Event>
    requires Enabled(s, a)
  {
    match a
    case StartQuery(t, _) => [Began(t)]
    case FindNoSlot(t) => [NoFreeSlot(t)]
    case TakeResult(t) => [Closed(t, s.slots[s.lookups[t].pc.slot], false)]
    case DropLast(t) =>
      if Last(s.lookups[t]).Permit? then [Returned(t)]
      else if Armed(s.lookups[t]) then [Closed(t, s.slots[Last(s.lookups[t]).handle.value], true)]
      else []
    case _ => []
  }

  /** A step adds that much to the log, in its own lookup's name, and moves no other lookup. */
  lemma StepSays(s: State, a: Action)
    requires Enabled(s, a) && !a.Arrive?
    ensures var n := Apply(s, a);
            && n.log == s.log + Said(s, a) && |n.lookups| == |s.lookups|
            && (forall e :: e in Said(s, a) ==> e.t == a.t) && |Said(s, a)| <= 1
            && forall u :: 0 <= u < |s.lookups| && u != a.t ==> n.lookups[u] == s.lookups[u]
  {
  }

  /** The log of the lookup that moves stays what its place says. */
  lemma MoverPast(s: State, a: Action, past: seq<Event>)
    requires ShapeInv(s) && SlotInv(s) && Enabled(s, a) && !a.Arrive? && !a.FindNoSlot? && !a.DropLast?
    requires Past(s.lookups[a.t], a.t, past)
    ensures Past(Apply(s, a).lookups[a.t], a.t, past + Said(s, a))
  {
    assert Shape(s.lookups[a.t]);
    ClosesOwn(s, a.t);
    if Said(s, a) == [] {
      assert past + Said(s, a) == past;
    }
  }

  lemma DropperPast(s: State, t: nat, past: seq<Event>)
    requires ShapeInv(s) && SlotInv(s) && Enabled(s, DropLast(t)) && Past(s.lookups[t], t, past)
    ensures Past(Dropped(s, t).lookups[t], t, past + Said(s, DropLast(t)))
  {
    var l := s.lookups[t];
    assert Shape(l);
    ClosesOwn(s, t);
    if Armed(l) {
      assert past + Said(s, DropLast(t)) == Whole(t, true);
    } else if Last(l).Permit? {
      var more := past + [Returned(t)];
      assert more[..|more| - 1] == past;
    } else {
      assert past + Said(s, DropLast(t)) == past;
    }
  }

  lemma OfStep(s: State, a: Action, u: nat)
    requires Enabled(s, a) && !a.Arrive?
    ensures Of(Apply(s, a).log, u) == Of(s.log, u) + if u == a.t then Said(s, a) else []
  {
    StepSays(s, a);
    var said := Said(s, a);
    if said == [] {
      assert s.log + said == s.log;
    } else {
      OfAppend(s.log, said[0], u);
      assert said == [said[0]] && said[0] in said;
    }
  }

  lemma PastOf(s: State, a: Action, u: nat)
    requires ShapeInv(s) && SlotInv(s) && PastInv(s) && Enabled(s, a) && !a.Arrive? && !a.FindNoSlot?
    requires u < |s.lookups|
    ensures |Apply(s, a).lookups| == |s.lookups|
    ensures Past(Apply(s, a).lookups[u], u, Of(Apply(s, a).log, u))
  {
    var past := Of(s.log, u);
    assert Past(s.lookups[u], u, past);
    OfStep(s, a, u);
    if u != a.t {
      StepSays(s, a);
      assert past + [] == past;
    } else if a.DropLast? {
      DropperPast(s, u, past);
    } else {
      MoverPast(s, a, past);
    }
  }

  lemma PastKept(s: State, a: Action)
    requires Inv(s) && Enabled(s, a)
    ensures PastInv(Apply(s, a))
  {
    if a.Arrive? {
      OfStranger(s.log, |s.lookups|);
    } else if a.FindNoSlot? {
      FreeSlotForPermit(s, a.t);
      assert false;
    } else {
      StepSays(s, a);
      forall u | 0 <= u < |s.lookups|
        ensures Past(Apply(s, a).lookups[u], u, Of(Apply(s, a).log, u))
      {
        PastOf(s, a, u);
      }
    }
  }

  lemma StepKeeps(s: State, a: Action)
    requires Inv(s) && Enabled(s, a)
    ensures Inv(Apply(s, a))
  {
    ShapeKept(s, a);
    SlotKept(s, a);
    CountKept(s, a);
    NameKept(s, a);
    PastKept(s, a);
  }

  lemma {:induction false} RunKeeps(s: State, actions: seq<Action>, t: State)
    requires Inv(s) && Run(s, actions, t)
    ensures Inv(t)
    decreases |actions|
  {
    if actions != [] {
      StepKeeps(s, actions[0]);
      RunKeeps(Apply(s, actions[0]), actions[1..], t);
    }
  }

  // ---------------------------------------------------------------- theorems

  /** Queries in flight never exceed the permits held, and those never exceed eight. */
  lemma FlightsArePermitted(actions: seq<Action>, s: State)
    requires Run(START, actions, s)
    ensures Sum(s.slots, Occupied) == Sum(s.lookups, InFlight) <= Sum(s.lookups, HasPermit) <= 8
    ensures s.available == 8 - Sum(s.lookups, HasPermit) && |s.slots| == 8
  {
    StartHolds();
    RunKeeps(START, actions, s);
    FlightsUnderPermits(s.lookups, |s.lookups|, 0);
  }

  /** A history goes: a query begun, closed once, the permit returned; or only the permit, or nothing. */
  predicate Orderly(past: seq<Event>, t: nat) {
    || past <= Whole(t, false) + [Returned(t)]
    || past <= Whole(t, true) + [Returned(t)]
    || past == [Returned(t)]
  }

  lemma PastIsOrderly(l: Lookup, t: nat, past: seq<Event>)
    requires Past(l, t, past)
    ensures Orderly(past, t)
  {
    assert Whole(t, false) <= Whole(t, false) + [Returned(t)];
    assert Whole(t, true) <= Whole(t, true) + [Returned(t)];
    if past != [] {
      assert past == past[..|past| - 1] + [past[|past| - 1]];
    }
  }

  lemma OrderlyEvents(past: seq<Event>, t: nat)
    requires Orderly(past, t)
    ensures NoFreeSlot(t) !in past
    ensures forall e :: e in past && e.Closed? ==> e.query == Some(t)
  {
  }

  /** A lookup owes a close exactly between its query's beginning and its end. */
  lemma PastOwes(l: Lookup, t: nat, past: seq<Event>)
    requires Past(l, t, past)
    ensures Owed(l).Some? <==> past == [Began(t)]
  {
    assert Over(t, past) ==> past[|past| - 1] == Returned(t);
  }

  lemma ShapeHoldsPermit(l: Lookup)
    requires Shape(l)
    ensures Owed(l).Some? || (exists h :: Guard(h) in l.locals) ==> Permit in l.locals
  {
    if l.locals != [] {
      assert l.locals[0] in l.locals;
    }
  }

  /** The resolver never runs out of slots, so a lookup never fails for that reason. */
  lemma NeverOutOfSlots(actions: seq<Action>, s: State, t: nat)
    requires Run(START, actions, s) && t < |s.lookups|
    ensures !Enabled(s, FindNoSlot(t)) && NoFreeSlot(t) !in Of(s.log, t)
  {
    StartHolds();
    RunKeeps(START, actions, s);
    AlwaysASlot(s, t);
    PastIsOrderly(s.lookups[t], t, Of(s.log, t));
    OrderlyEvents(Of(s.log, t), t);
  }

  lemma AlwaysASlot(s: State, t: nat)
    requires ShapeInv(s) && SlotInv(s) && CountInv(s) && t < |s.lookups|
    ensures !Enabled(s, FindNoSlot(t))
  {
    if s.lookups[t].pc.Permitted? {
      FreeSlotForPermit(s, t);
    }
  }

  /**
   Taking a result and dropping an armed guard close the lookup's own query, never another that has
   been given its slot; and in every history each close was of that kind.
   */
  lemma OnlyOwnQueriesAreClosed(actions: seq<Action>, s: State, t: nat)
    requires Run(START, actions, s) && t < |s.lookups|
    ensures Enabled(s, TakeResult(t)) ==> s.slots[s.lookups[t].pc.slot] == Some(t)
    ensures Enabled(s, DropLast(t)) && Armed(s.lookups[t]) ==> s.slots[Last(s.lookups[t]).handle.value] == Some(t)
    ensures forall e :: e in Of(s.log, t) && e.Closed? ==> e.query == Some(t)
  {
    StartHolds();
    RunKeeps(START, actions, s);
    ClosesOwn(s, t);
    PastIsOrderly(s.lookups[t], t, Of(s.log, t));
    OrderlyEvents(Of(s.log, t), t);
  }

  /**
   In any run with timeouts and cancellations, a started query is closed exactly once, collected or
   cancelled, and before its permit returns; while it is open the permit is held, and whoever has a
   guard has a permit.
   */
  lemma QueriesCloseOnce(actions: seq<Action>, s: State, t: nat)
    requires Run(START, actions, s) && t < |s.lookups|
    ensures Orderly(Of(s.log, t), t)
    ensures Owed(s.lookups[t]).Some? <==> Of(s.log, t) == [Began(t)]
    ensures Owed(s.lookups[t]).Some? || (exists h :: Guard(h) in s.lookups[t].locals) ==> Permit in s.lookups[t].locals
  {
    StartHolds();
    RunKeeps(START, actions, s);
    PastIsOrderly(s.lookups[t], t, Of(s.log, t));
    PastOwes(s.lookups[t], t, Of(s.log, t));
    ShapeHoldsPermit(s.lookups[t]);
  }

  // ---------------------------------------------------------------- no lookup leaks anything

  /** How far a lookup is from having let go of everything. */
  function Rank(l: Lookup): nat {
    match l.pc
    case AwaitPermit => 8
    case Permitted => 7
    case Started(_) => 6
    case AwaitAnswer(_) => 5
    case Answered => 4
    case TimedOut => 3
    case Disarmed => 3
    case Unwinding => |l.locals|
  }

  lemma RankFalls(s: State, a: Action)
    requires Enabled(s, a) && !a.Arrive? && Shape(s.lookups[a.t])
    ensures Rank(Apply(s, a).lookups[a.t]) < Rank(s.lookups[a.t])
  {
  }

  /** Every step a lookup takes brings it nearer to that. */
  lemma StepsDescend(actions: seq<Action>, s: State, a: Action)
    requires Run(START, actions, s) && Enabled(s, a) && !a.Arrive?
    ensures Rank(Apply(s, a).lookups[a.t]) < Rank(s.lookups[a.t])
  {
    StartHolds();
    RunKeeps(START, actions, s);
    RankFalls(s, a);
  }

  /** And until it is there, a step of its own is open to it that needs nobody else. */
  lemma LookupsMove(actions: seq<Action>, s: State, t: nat) returns (a: Action)
    requires Run(START, actions, s) && t < |s.lookups| && Rank(s.lookups[t]) > 0
    ensures Enabled(s, a) && !a.Arrive? && a.t == t
  {
    StartHolds();
    RunKeeps(START, actions, s);
    var l := s.lookups[t];
    assert Shape(l);
    ClosesOwn(s, t);
    match l.pc
    case AwaitPermit => a := Cancel(t);
    case Permitted => a := RejectName(t);
    case Started(_) => a := MakeGuard(t);
    case AwaitAnswer(_) => a := Cancel(t);
    case Answered => a := Disarm(t);
    case TimedOut =>
      assert Owed(l).Some?;
      a := DropLast(t);
    case Disarmed => a := DropLast(t);
    case Unwinding =>
      assert Armed(l) ==> Owed(l).Some?;
      a := DropLast(t);
  }

  lemma {:induction false} NoneHold(ls: seq<Lookup>, n: nat)
    requires n <= |ls| && forall t :: 0 <= t < |ls| ==> Shape(ls[t]) && Rank(ls[t]) == 0
    ensures SumTo(ls, HasPermit, n) == 0 && SumTo(ls, InFlight, n) == 0
  {
    if n > 0 {
      NoneHold(ls, n - 1);
      assert Shape(ls[n - 1]) && Rank(ls[n - 1]) == 0;
    }
  }

  /** When every lookup is gone, all eight permits are back and all eight slots are free. */
  lemma EverythingComesBack(actions: seq<Action>, s: State)
    requires Run(START, actions, s) && forall t :: 0 <= t < |s.lookups| ==> Rank(s.lookups[t]) == 0
    ensures s.available == 8 && |s.slots| == 8 && forall k :: 0 <= k < 8 ==> s.slots[k].None?
  {
    StartHolds();
    RunKeeps(START, actions, s);
    NoneHold(s.lookups, |s.lookups|);
    forall k | 0 <= k < 8
      ensures s.slots[k].None?
    {
      SumContains(s.slots, k, Occupied);
    }
  }

  // ---------------------------------------------------------------- the armed guard of a freed slot

  lemma {:induction false} RunSnoc(s: State, actions: seq<Action>, t: State, a: Action)
    requires Run(s, actions, t) && Enabled(t, a)
    ensures Run(s, actions + [a], Apply(t, a))
    decreases |actions|
  {
    if actions == [] {
      assert ([a])[1..] == [];
      assert actions + [a] == [a];
    } else {
      RunSnoc(Apply(s, actions[0]), actions[1..], t, a);
      assert (actions + [a])[1..] == actions[1..] + [a];
    }
  }

  lemma More(actions: seq<Action>, s: State, a: Action) returns (more: seq<Action>, t: State)
    requires Run(START, actions, s) && Enabled(s, a)
    ensures t == Apply(s, a) && Run(START, more, t)
  {
    RunSnoc(START, actions, s, a);
    more, t := actions + [a], Apply(s, a);
  }

  /** A new lookup arrives and starts its query in slot 0. */
  lemma StartIn0(actions: seq<Action>, s: State) returns (more: seq<Action>, t: State)
    requires Run(START, actions, s) && s.available > 0 && |s.slots| == SLOTS && s.slots[0].None?
    ensures Run(START, more, t)
    ensures t.slots == s.slots[0 := Some(|s.lookups|)] && t.available == s.available - 1
    ensures t.lookups == s.lookups + [Lookup(Started(0), [Permit])]
  {
    var u := |s.lookups|;
    more, t := More(actions, s, Arrive);
    more, t := More(more, t, Acquire(u));
    assert [] + [Permit] == [Permit];
    more, t := More(more, t, StartQuery(u, 0));
  }

  /**
   The order of disarming and dropping matters: a guard can be armed with the number of a slot that
   already serves another lookup.
   */
  lemma ArmedGuardOfAnothersSlot() returns (actions: seq<Action>, s: State)
    ensures Run(START, actions, s)
    ensures |s.lookups| == 2 && s.lookups[0].pc.Answered? && Armed(s.lookups[0])
    ensures Last(s.lookups[0]).handle == Some(0) && |s.slots| == SLOTS && s.slots[0] == Some(1)
  {
    actions, s := StartIn0([], START);
    actions, s := More(actions, s, MakeGuard(0));
    actions, s := More(actions, s, TakeResult(0));
    actions, s := StartIn0(actions, s);
  }
}
