/**
 The one's-complement header checksum of section 3.1 of RFC 791 (see also RFC 1071), as
 `ipv4_header_checksum` in `src/wireguard/mod.rs` computes it. The accumulator is a 32-bit integer;
 shifting it right by 16 is division by 65536, masking it the remainder, and the 16-bit complement
 of `x` is `65535 - x`.
 */
module Checksum {
  import opened Bytes

  function Words(bytes: seq<Byte>): nat { (|bytes| + 1) / 2 }

  /** The k-th big-endian word; an odd last byte is padded with zero. */
  function Word(bytes: seq<Byte>, k: nat): nat
    requires k < Words(bytes)
  {
    BigEndian(bytes[2 * k], if 2 * k + 1 < |bytes| then bytes[2 * k + 1] else 0)
  }

  /** The sum of the first `n` words. */
  function SumTo(bytes: seq<Byte>, n: nat): nat
    requires n <= Words(bytes)
  {
    if n == 0 then 0 else SumTo(bytes, n - 1) + Word(bytes, n - 1)
  }

  /** One folding step, and folding until 16 bits are left. */
  function FoldOnce(sum: nat): nat { sum % 65536 + sum / 65536 }

  function Fold(sum: nat): (folded: nat)
    ensures folded < 65536
  {
    if sum < 65536 then sum else
      FoldShrinks(sum);
      Fold(FoldOnce(sum))
  }

  /** Folding strictly decreases a sum that exceeds 16 bits, and keeps it modulo 65535. */
  lemma FoldShrinks(sum: nat)
    requires sum >= 65536
    ensures 0 < FoldOnce(sum) < sum
    ensures FoldOnce(sum) % 65535 == sum % 65535
  {
    assert sum == 65535 * (sum / 65536) + FoldOnce(sum);
    ModAdd(FoldOnce(sum), sum / 65536);
  }

  lemma {:induction false} ModAdd(x: nat, k: nat)
    ensures (x + 65535 * k) % 65535 == x % 65535
  {
    if k > 0 {
      ModAdd(x, k - 1);
    }
  }

  /** The fold of a sum, said without folding: its remainder modulo 65535, where a zero is written 65535. */
  lemma {:induction false} FoldIs(sum: nat)
    ensures Fold(sum) == if sum == 0 then 0 else if sum % 65535 == 0 then 65535 else sum % 65535
  {
    if sum >= 65536 {
      FoldShrinks(sum);
      FoldIs(FoldOnce(sum));
    }
  }

  function Of(bytes: seq<Byte>): nat { 65535 - Fold(SumTo(bytes, Words(bytes))) }

  /** No more than 65537 words can be summed into 32 bits whatever they are... */
  lemma {:induction false} SumBound(bytes: seq<Byte>, n: nat)
    requires n <= Words(bytes)
    ensures SumTo(bytes, n) <= 65535 * n
  {
    if n > 0 {
      SumBound(bytes, n - 1);
    }
  }

  /** ...and 65538 words of all ones do not fit any more. */
  lemma {:induction false} AllOnes(bytes: seq<Byte>, n: nat)
    requires n <= Words(bytes) && |bytes| % 2 == 0 && forall i :: 0 <= i < |bytes| ==> bytes[i] == 255
    ensures SumTo(bytes, n) == 65535 * n
    ensures SumTo(bytes, n) < 0x1_0000_0000 <==> n <= 65537
  {
    if n > 0 {
      AllOnes(bytes, n - 1);
    }
  }

  /** `ipv4_header_checksum`; a real header has at most 60 bytes, so 65537 words are no limit. */
  method HeaderChecksum(bytes: seq<Byte>) returns (checksum: nat)
    requires |bytes| <= 2 * 65537
    ensures checksum == Of(bytes) && checksum < 65536
  {
    var sum: nat, at: nat := 0, 0;
    while at < |bytes|
      invariant at % 2 == 0 && at / 2 <= Words(bytes) && at <= |bytes| + 1
      invariant sum == SumTo(bytes, at / 2)
    {
      var value := BigEndian(bytes[at], if at + 1 < |bytes| then bytes[at + 1] else 0);
      SumBound(bytes, at / 2 + 1);
      assert value == Word(bytes, at / 2);
      assert sum + value < 0x1_0000_0000; // the 32-bit addition does not overflow
      sum := sum + value;
      at := at + 2;
    }
    ghost var total := sum;
    while sum / 65536 != 0
      invariant Fold(sum) == Fold(total)
      decreases sum
    {
      FoldShrinks(sum);
      sum := FoldOnce(sum);
    }
    checksum := 65535 - sum;
  }

  // ---------------------------------------------------------------- storing and verifying

  /** The header with `value` in the word at `field`. */
  function Store(bytes: seq<Byte>, field: nat, value: nat): seq<Byte>
    requires 2 * field + 1 < |bytes| && value < 65536
  {
    bytes[2 * field := value / 256][2 * field + 1 := value % 256]
  }

  lemma SplitWord(value: nat)
    requires value < 65536
    ensures value / 256 < 256 && BigEndian(value / 256, value % 256) == value
  {
  }

  lemma StoredWord(bytes: seq<Byte>, field: nat, value: nat, k: nat)
    requires 2 * field + 1 < |bytes| && value < 65536 && k < Words(bytes)
    ensures Word(Store(bytes, field, value), k) == if k == field then value else Word(bytes, k)
  {
    SplitWord(value);
    var stored := Store(bytes, field, value);
    if k == field {
      assert stored[2 * k] == value / 256 && stored[2 * k + 1] == value % 256;
    } else {
      assert stored[2 * k] == bytes[2 * k];
      assert 2 * k + 1 < |bytes| ==> stored[2 * k + 1] == bytes[2 * k + 1];
    }
  }

  lemma {:induction false} StoreSum(bytes: seq<Byte>, field: nat, value: nat, n: nat)
    requires 2 * field + 1 < |bytes| && value < 65536 && n <= Words(bytes)
    requires bytes[2 * field] == 0 && bytes[2 * field + 1] == 0
    ensures SumTo(Store(bytes, field, value), n) == SumTo(bytes, n) + if field < n then value else 0
  {
    if n > 0 {
      StoreSum(bytes, field, value, n - 1);
      StoredWord(bytes, field, value, n - 1);
    }
  }

  /**
   Which values make a header verify, that is, make its folded sum 0xffff: the computed checksum,
   and besides it only the other way to write a zero.
   */
  lemma VerifiesExactly(bytes: seq<Byte>, field: nat, value: nat)
    requires 2 * field + 1 < |bytes| && value < 65536
    requires bytes[2 * field] == 0 && bytes[2 * field + 1] == 0
    ensures var stored := Store(bytes, field, value);
            Fold(SumTo(stored, Words(stored))) == 65535 <==>
            value == Of(bytes) || (Of(bytes) == 0 && value == 65535)
  {
    var n := Words(bytes);
    var sum := SumTo(bytes, n);
    StoreSum(bytes, field, value, n);
    FoldIs(sum);
    FoldIs(sum + value);
    ModSum(sum, value);
  }

  /** When `sum + value` is a multiple of 65535. */
  lemma ModSum(sum: nat, value: nat)
    requires value < 65536
    ensures (sum + value) % 65535 == 0 <==> (sum % 65535 + value) in {0, 65535, 131070}
  {
    var q := sum / 65535;
    assert sum + value == (sum % 65535 + value) + 65535 * q;
    ModAdd(sum % 65535 + value, q);
  }

  /** Storing the computed checksum in a zero field makes the folded sum 0xffff. */
  lemma ChecksumVerifies(bytes: seq<Byte>, field: nat)
    requires 2 * field + 1 < |bytes| && bytes[2 * field] == 0 && bytes[2 * field + 1] == 0
    ensures 0 <= Of(bytes) < 65536
    ensures var stored := Store(bytes, field, Of(bytes)); Fold(SumTo(stored, Words(stored))) == 65535
  {
    FoldIs(SumTo(bytes, Words(bytes)));
    VerifiesExactly(bytes, field, Of(bytes));
  }
}
