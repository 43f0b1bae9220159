/**
 How the HTTP/3 provider shares one dial budget over the proxy's addresses
 (`connect_addresses` in `src/http3/mod.rs`). Times are nanoseconds since the dial began, so the
 overall deadline is the budget itself. An attempt ends when it succeeds or fails, at the latest
 at its own deadline; bookkeeping between attempts takes no time.
 */
module Deadlines {

  datatype Ending = BindFails | TlsFails | HandshakeFails | TimesOut | InitializationFails | Connects

  /** What an address would do: end this way after `took`, if it is given that long. */
  datatype Attempt = Attempt(took: nat, ending: Ending)

  datatype Outcome =
    | NoAddresses
    | DeadlineExceeded
    | BindFailed(index: nat)
    | TlsFailed(index: nat)
    | LastFailed(ending: Ending)
    | Connected(index: nat)

  /** Whether an attempt granted `share` ends the whole dial. */
  predicate Decides(a: Attempt, share: nat) {
    a.ending.BindFails? || ((a.ending.TlsFails? || a.ending.Connects?) && a.took < share)
  }

  /** Enough remains for each of `left` addresses to get `fair`. */
  ghost predicate Covers(remaining: nat, left: nat, fair: nat) {
    left == 0 || (fair <= remaining && Covers(remaining - fair, left - 1, fair))
  }

  lemma {:induction false} CoversIff(remaining: nat, left: nat, fair: nat)
    ensures Covers(remaining, left, fair) <==> left * fair <= remaining
  {
    if left > 0 {
      assert left * fair == (left - 1) * fair + fair;
      assert (left - 1) * fair >= 0;
      if fair <= remaining {
        CoversIff(remaining - fair, left - 1, fair);
      }
    }
  }

  lemma {:induction false} MulMonotone(d: nat, x: nat, y: nat)
    requires x <= y
    ensures d * x <= d * y
    decreases y - x
  {
    if x < y {
      MulMonotone(d, x, y - 1);
      assert d * y == d * (y - 1) + d;
    }
  }

  lemma DivAtLeast(a: nat, d: nat, q: nat)
    requires d > 0 && d * q <= a
    ensures q <= a / d
  {
    var x := a / d;
    assert a == d * x + a % d && d * (x + 1) == d * x + d;
    if x + 1 <= q {
      MulMonotone(d, x + 1, q);
    }
  }

  /** Whatever part of its share an attempt uses, the others keep theirs, and something remains. */
  lemma OthersKeepTheirShare(remaining: nat, left: nat, fair: nat, used: nat)
    requires left >= 2 && remaining > 0 && Covers(remaining, left, fair) && used <= remaining / left
    ensures used < remaining && Covers(remaining - used, left - 1, fair)
  {
    var q := remaining / left;
    CoversIff(remaining, left, fair);
    assert remaining == left * q + remaining % left;
    assert left * q == (left - 1) * q + q;
    DivAtLeast(remaining, left, fair);
    MulMonotone(left - 1, fair, q);
    MulMonotone(q, 1, left - 1);
    assert q * (left - 1) == (left - 1) * q;
    CoversIff(remaining - used, left - 1, fair);
  }

  /**
   One attempt's share is at least the fair part and at most what remains; the last address gets
   everything; and however long the attempt takes, the others keep their fair part.
   */
  method Grant(remaining: nat, left: nat, ghost fair: nat, took: nat) returns (share: nat, used: nat)
    requires left > 0 && remaining > 0 && Covers(remaining, left, fair)
    ensures fair <= share <= remaining && (left == 1 ==> share == remaining)
    ensures left * share <= remaining < left * share + left
    ensures used == if took < share then took else share
    ensures left >= 2 ==> used < remaining && Covers(remaining - used, left - 1, fair)
  {
    share := remaining / left;
    used := if took < share then took else share;
    CoversIff(remaining, left, fair);
    DivAtLeast(remaining, left, fair);
    assert remaining == left * share + remaining % left;
    MulMonotone(share, 1, left);
    assert share * left == left * share;
    if left >= 2 {
      OthersKeepTheirShare(remaining, left, fair, used);
    }
  }

  /** An equal part of the budget for each of `n` addresses. */
  function Fair(budget: nat, n: nat): nat { if n == 0 then 0 else budget / n }

  lemma FairPart(budget: nat, n: nat)
    ensures Covers(budget, n, Fair(budget, n))
  {
    if n > 0 {
      CoversIff(budget, n, budget / n);
    }
  }

  /** Every share granted is fair and ends by the overall deadline. */
  ghost predicate Shared(budget: nat, fair: nat, shares: seq<nat>, starts: seq<nat>) {
    && |shares| == |starts|
    && forall k :: 0 <= k < |shares| ==> fair <= shares[k] && starts[k] + shares[k] <= budget
  }

  /** None of the first `n` attempts decided the dial. */
  ghost predicate Undecided(attempts: seq<Attempt>, shares: seq<nat>, n: nat) {
    && n <= |shares| <= |attempts|
    && forall k :: 0 <= k < n ==> !Decides(attempts[k], shares[k])
  }

  /** How long an attempt lasts: at most its share. */
  function Lasts(a: Attempt, share: nat): nat { if a.took < share then a.took else share }

  /** The first attempt starts at once, each later one when the one before it ends. */
  ghost predicate BackToBack(attempts: seq<Attempt>, shares: seq<nat>, starts: seq<nat>) {
    && |shares| == |starts| <= |attempts|
    && (starts != [] ==> starts[0] == 0)
    && forall k :: 0 < k < |starts| ==> starts[k] == starts[k - 1] + Lasts(attempts[k - 1], shares[k - 1])
  }

  /** When the next attempt starts. */
  function NextStart(attempts: seq<Attempt>, shares: seq<nat>, starts: seq<nat>): nat
    requires |shares| == |starts| <= |attempts|
  {
    if starts == [] then 0
    else starts[|starts| - 1] + Lasts(attempts[|starts| - 1], shares[|starts| - 1])
  }

  lemma BackToBackAppend(attempts: seq<Attempt>, shares: seq<nat>, starts: seq<nat>, share: nat)
    requires BackToBack(attempts, shares, starts) && |shares| < |attempts|
    ensures BackToBack(attempts, shares + [share], starts + [NextStart(attempts, shares, starts)])
  {
  }

  lemma SharedAppend(budget: nat, fair: nat, shares: seq<nat>, starts: seq<nat>, share: nat, start: nat)
    requires Shared(budget, fair, shares, starts) && fair <= share && start + share <= budget
    ensures Shared(budget, fair, shares + [share], starts + [start])
  {
  }

  lemma UndecidedAppend(attempts: seq<Attempt>, shares: seq<nat>, share: nat)
    requires Undecided(attempts, shares, |shares|) && |shares| < |attempts|
    ensures Undecided(attempts, shares + [share], |shares|)
    ensures !Decides(attempts[|shares|], share) ==> Undecided(attempts, shares + [share], |shares| + 1)
  {
  }

  /** What the outcome says about the last address reached. */
  ghost predicate Explains(attempts: seq<Attempt>, shares: seq<nat>, outcome: Outcome)
    requires 0 < |shares| <= |attempts|
  {
    var last := |shares| - 1;
    match outcome
    case Connected(i) => i == last && attempts[last].ending.Connects? && attempts[last].took < shares[last]
    case BindFailed(i) => i == last && attempts[last].ending.BindFails?
    case TlsFailed(i) => i == last && attempts[last].ending.TlsFails? && attempts[last].took < shares[last]
    case LastFailed(e) =>
      && |shares| == |attempts| && !Decides(attempts[last], shares[last])
      && e == if attempts[last].took < shares[last] then attempts[last].ending else TimesOut
    case _ => false
  }

  /**
   `shares[k]` is the time the k-th address was given and `starts[k]` when its attempt began.
   Every address reached gets at least an equal part of the whole budget, none is given time past
   the overall deadline, the last gets all that remains, and no address is passed over: the dial
   ends early only on an attempt that decides it, or with no budget at all.
   */
  method ConnectAddresses(budget: nat, attempts: seq<Attempt>)
    returns (shares: seq<nat>, starts: seq<nat>, outcome: Outcome)
    ensures Shared(budget, Fair(budget, |attempts|), shares, starts) && BackToBack(attempts, shares, starts)
    ensures attempts == [] ==> shares == [] && outcome == NoAddresses
    ensures attempts != [] && budget == 0 ==> shares == [] && outcome == DeadlineExceeded
    ensures attempts != [] && budget > 0 ==>
              && 0 < |shares| <= |attempts|
              && Undecided(attempts, shares, |shares| - 1)
              && Explains(attempts, shares, outcome)
    ensures |shares| == |attempts| > 0 ==> starts[|shares| - 1] + shares[|shares| - 1] == budget
  {
    shares, starts := [], [];
    outcome := NoAddresses;
    var now: nat, index: nat := 0, 0;
    ghost var fair := Fair(budget, |attempts|);
    FairPart(budget, |attempts|);
    while index < |attempts|
      invariant index <= |attempts| && |shares| == |starts| == index
      invariant now <= budget && (index < |attempts| && budget > 0 ==> now < budget)
      invariant Covers(budget - now, |attempts| - index, fair)
      invariant index == 0 ==> outcome.NoAddresses?
      invariant index > 0 ==> outcome.LastFailed? && budget > 0
      invariant Shared(budget, fair, shares, starts) && BackToBack(attempts, shares, starts)
      invariant now == NextStart(attempts, shares, starts)
      invariant Undecided(attempts, shares, index)
      invariant index == |attempts| > 0 ==>
                  starts[index - 1] + shares[index - 1] == budget && Explains(attempts, shares, outcome)
    {
      var remaining := budget - now;
      if remaining == 0 {
        return shares, starts, DeadlineExceeded;
      }
      var attempt := attempts[index];
      var share, used := Grant(remaining, |attempts| - index, fair, attempt.took);
      SharedAppend(budget, fair, shares, starts, share, now);
      UndecidedAppend(attempts, shares, share);
      BackToBackAppend(attempts, shares, starts, share);
      shares, starts := shares + [share], starts + [now];
      if attempt.ending.BindFails? {
        return shares, starts, BindFailed(index);
      }
      var ending := if attempt.took < share then attempt.ending else TimesOut;
      if ending.TlsFails? {
        return shares, starts, TlsFailed(index);
      }
      if ending.Connects? {
        return shares, starts, Connected(index);
      }
      outcome := LastFailed(ending);
      now := now + used;
      index := index + 1;
    }
  }
}
