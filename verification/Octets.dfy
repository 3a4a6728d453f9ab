/** Bytes of a stream, and the unsigned counter type the sources use for sizes. */
module Octets {

  newtype byte = x: int | 0 <= x < 256

  type Bytes = seq<byte>

  // std::size_t on the supported 64-bit targets.
  const SIZE_MODULUS: nat := 0x1_0000_0000_0000_0000

  /** `a + b` on std::size_t: wraps around. Both operands are below the modulus. */
  function SizeAdd(a: nat, b: nat): nat {
    if a + b < SIZE_MODULUS then a + b else (a + b) % SIZE_MODULUS
  }

  /** `a - b` on std::size_t: wraps around when `b` is larger. Both operands are below the modulus. */
  function SizeSub(a: nat, b: nat): nat {
    if b <= a then a - b else (a - b) % SIZE_MODULUS
  }

  /** The concatenation of a list of byte strings. */
  function Flatten(parts: seq<Bytes>): Bytes {
    if parts == [] then [] else parts[0] + Flatten(parts[1..])
  }

  lemma FlattenSnoc(parts: seq<Bytes>, last: Bytes)
    ensures Flatten(parts + [last]) == Flatten(parts) + last
  {
    if parts != [] {
      FlattenSnoc(parts[1..], last);
      assert (parts + [last])[1..] == parts[1..] + [last];
      assert (parts[0] + Flatten(parts[1..])) + last == parts[0] + (Flatten(parts[1..]) + last);
    } else {
      assert (parts + [last])[1..] == [];
    }
  }

  /** Cancels a common prefix. */
  lemma Cancel(prefix: Bytes, whole: Bytes, middle: Bytes, tail: Bytes)
    requires prefix + whole == (prefix + middle) + tail
    ensures whole == middle + tail
  {
    assert (prefix + whole)[|prefix|..] == whole;
    assert ((prefix + middle) + tail)[|prefix|..] == middle + tail;
  }
}
