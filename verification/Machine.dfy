/** The machine's integers: sixty-four bits, two's complement, wrapping around silently. */
module Machine {
  const WORD_LIMIT: int := 0x8000_0000_0000_0000

  predicate IsWord(n: int) {
    -WORD_LIMIT <= n < WORD_LIMIT
  }

  /** What is left of a sum or a product. */
  function Wrapped(n: int): (w: int)
    ensures IsWord(w) && (IsWord(n) ==> w == n)
  {
    (n + WORD_LIMIT) % (2 * WORD_LIMIT) - WORD_LIMIT
  }
}
