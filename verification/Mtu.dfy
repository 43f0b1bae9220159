/**
 The MTU of a WireGuard tunnel carried inside another (`carried_mtu` in `src/wireguard/mod.rs`),
 and what that means for a chain of tunnels of any depth. All sizes are bytes of an IP packet.
 */
module Mtu {
  import opened Bags

  const DATA_OVERHEAD := 32
  const UDP_HEADER := 8
  const FLOOR := 576

  /** The endpoint decides the size of the outer IP header. */
  function Overhead(v4: bool): nat { (if v4 then 20 else 40) + UDP_HEADER + DATA_OVERHEAD }

  /** Clearing the four low bits, as the 16-bit code does it, rounds down to a multiple of 16. */
  lemma MaskRoundsDown(x: bv16)
    ensures x & !15 == x - x % 16
  {
  }

  function RoundDown(x: nat): nat { x - x % 16 }

  function RoundUp(x: nat): nat { RoundDown(x + 15) }

  function Available(link: nat, v4: bool): nat {
    RoundDown(if link < Overhead(v4) then 0 else link - Overhead(v4))
  }

  function Carried(configured: nat, link: nat, v4: bool): Option<nat> {
    var available := Available(link, v4);
    if available < FLOOR then None
    else Some(if configured < available then configured else available)
  }

  /**
   Every packet up to `mtu`, padded up to a multiple of 16 and wrapped in 32 bytes of WireGuard, 8 of
   UDP and an IP header, still fits the link. This is what the value is for, said without computing it.
   */
  ghost predicate Safe(mtu: nat, link: nat, v4: bool) {
    forall p: nat :: p <= mtu ==> RoundUp(p) + 32 + 8 + (if v4 then 20 else 40) <= link
  }

  /** The least multiple of 16 that is not smaller. */
  lemma RoundUpBounds(p: nat)
    ensures p <= RoundUp(p) < p + 16 && RoundUp(p) % 16 == 0
  {
  }

  lemma SafeUpToAvailable(mtu: nat, link: nat, v4: bool)
    requires Overhead(v4) <= link
    ensures Safe(mtu, link, v4) <==> mtu <= Available(link, v4)
  {
    if mtu <= Available(link, v4) {
      forall p: nat | p <= mtu
        ensures RoundUp(p) + 32 + 8 + (if v4 then 20 else 40) <= link
      {
        RoundUpBounds(p);
      }
    } else {
      RoundUpBounds(mtu);
      assert RoundUp(mtu) + Overhead(v4) > link;
    }
  }

  /**
   The MTU is the largest safe one that does not exceed what was configured, and there is one
   exactly when the floor of 576 bytes is safe.
   */
  lemma CarriedIsLargestSafe(configured: nat, link: nat, v4: bool)
    ensures Carried(configured, link, v4).Some? <==> Safe(576, link, v4)
    ensures Carried(configured, link, v4).Some? ==>
              var mtu := Carried(configured, link, v4).value;
              && mtu <= configured && Safe(mtu, link, v4)
              && mtu + 32 + 8 + (if v4 then 20 else 40) <= link
              && forall other: nat :: other <= configured && Safe(other, link, v4) ==> other <= mtu
  {
    if link < Overhead(v4) {
      assert RoundUp(0) + Overhead(v4) > link;
    } else {
      forall other: nat
        ensures Safe(other, link, v4) <==> other <= Available(link, v4)
      {
        SafeUpToAvailable(other, link, v4);
      }
    }
  }

  // ---------------------------------------------------------------- chains

  /** One tunnel of a chain: what its operator configured, and the family of its endpoint. */
  datatype Level = Level(configured: nat, v4: bool)

  /** The MTU of the innermost of `levels`, the first of which is carried over a link of `outer`. */
  function Nested(outer: nat, levels: seq<Level>): Option<nat> {
    if levels == [] then Some(outer)
    else
      var mtu := Carried(levels[0].configured, outer, levels[0].v4);
      if mtu.None? then None else Nested(mtu.value, levels[1..])
  }

  /**
   The sizes of one packet on its way out. `sizes[|levels|]` is what the innermost tunnel is given;
   each level pads its packet by anything up to the next multiple of 16, as its sender likes, and
   adds its headers; `sizes[0]` is what goes on the outermost link.
   */
  ghost predicate Journey(levels: seq<Level>, sizes: seq<nat>) {
    && |sizes| == |levels| + 1
    && forall i :: 0 <= i < |levels| ==>
         sizes[i + 1] <= sizes[i] - 32 - 8 - (if levels[i].v4 then 20 else 40) <= RoundUp(sizes[i + 1])
  }

  /** The MTU of the link that `levels[i]` is carried over. */
  function LinkOf(outer: nat, levels: seq<Level>, i: nat): nat
    requires i <= |levels| && Nested(outer, levels).Some?
  {
    if i == 0 then outer
    else LinkOf(Carried(levels[0].configured, outer, levels[0].v4).value, levels[1..], i - 1)
  }

  lemma {:induction false} InnermostLink(outer: nat, levels: seq<Level>)
    requires Nested(outer, levels).Some?
    ensures LinkOf(outer, levels, |levels|) == Nested(outer, levels).value
  {
    if levels != [] {
      InnermostLink(Carried(levels[0].configured, outer, levels[0].v4).value, levels[1..]);
    }
  }

  lemma {:induction false} LinkStep(outer: nat, levels: seq<Level>, i: nat)
    requires Nested(outer, levels).Some? && i < |levels|
    ensures Carried(levels[i].configured, LinkOf(outer, levels, i), levels[i].v4)
            == Some(LinkOf(outer, levels, i + 1))
  {
    if i > 0 {
      LinkStep(Carried(levels[0].configured, outer, levels[0].v4).value, levels[1..], i - 1);
    }
  }

  /**
   A packet no larger than the innermost MTU fits every link of the chain, however many levels
   there are and however each sender pads.
   */
  lemma {:induction false} PacketFitsEveryLink(outer: nat, levels: seq<Level>, sizes: seq<nat>, i: nat)
    requires Nested(outer, levels).Some? && Journey(levels, sizes) && i <= |levels|
    requires sizes[|levels|] <= Nested(outer, levels).value
    ensures sizes[i] <= LinkOf(outer, levels, i)
    decreases |levels| - i
  {
    if i == |levels| {
      InnermostLink(outer, levels);
    } else {
      PacketFitsEveryLink(outer, levels, sizes, i + 1);
      LinkStep(outer, levels, i);
      CarriedIsLargestSafe(levels[i].configured, LinkOf(outer, levels, i), levels[i].v4);
      assert Safe(LinkOf(outer, levels, i + 1), LinkOf(outer, levels, i), levels[i].v4);
    }
  }

  /**
   Each level costs at least 60 bytes and, for configured values the specification allows, stays
   at 576 or more, so a chain over a link of `outer` has at most `(outer - 576) / 60` levels.
   */
  lemma {:induction false} ChainsAreShort(outer: nat, levels: seq<Level>)
    requires Nested(outer, levels).Some?
    requires forall i :: 0 <= i < |levels| ==> 1280 <= levels[i].configured <= 3800
    ensures Nested(outer, levels).value + 60 * |levels| <= outer
    ensures levels != [] ==> Nested(outer, levels).value >= 576
  {
    if levels != [] {
      var mtu := Carried(levels[0].configured, outer, levels[0].v4).value;
      assert FLOOR <= mtu <= outer - 60;
      ChainsAreShort(mtu, levels[1..]);
    }
  }

  /** The floor gives way to a smaller configured value: the MTU is never below the smaller of both. */
  lemma {:induction false} FloorUnlessConfiguredLower(outer: nat, levels: seq<Level>)
    requires Nested(outer, levels).Some? && levels != []
    ensures
      || Nested(outer, levels).value >= 576
      || Nested(outer, levels).value == levels[|levels| - 1].configured
  {
    if |levels| > 1 {
      FloorUnlessConfiguredLower(Carried(levels[0].configured, outer, levels[0].v4).value, levels[1..]);
    }
  }
}
