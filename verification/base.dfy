/** Types every component shares, and the sizes the PTY contract fixes. */
module Base {

  newtype byte = b: int | 0 <= b < 256

  datatype Option<+T> = None | Some(value: T)

  /** The contract's sizes. Their values live in another module, so only what the daemon relies on is
      assumed: the capacities are positive, the two watermarks leave a window between them, and a batch
      is no smaller than the hold. How the lease buffer compares with a ring's capacity is left open. */
  datatype Sizes = Sizes(
    highWatermark: nat,
    lowWatermark: nat,
    leaseBuffer: nat,
    deliveryMinHold: nat,
    deliveryBatch: nat)

  type Limits = s: Sizes
    | s.lowWatermark < s.highWatermark && 0 < s.deliveryMinHold <= s.deliveryBatch
    witness Sizes(2, 1, 1, 1, 1)

  const TWO_64: nat := 0x1_0000_0000_0000_0000

  /** One read off a terminal. */
  const READ: nat := 32 * 1024

  /** Subtraction as a 64-bit unsigned integer does it: a negative difference wraps. */
  function Sub64(a: nat, b: nat): nat
    requires a < TWO_64 && b < TWO_64
  {
    if b <= a then a - b else a + TWO_64 - b
  }

  function Min(a: nat, b: nat): nat { if a <= b then a else b }

  function Max(a: nat, b: nat): nat { if a <= b then b else a }

  lemma SliceJoin<T>(s: seq<T>, a: nat, b: nat, c: nat)
    requires a <= b <= c <= |s|
    ensures s[a..b] + s[b..c] == s[a..c]
  {
  }
}
