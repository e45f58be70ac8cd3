/** The 32-bit target's `unsigned long` and `long`: conversions keep the low 32 bits. */
module Words {
  const WORD: int := 0x1_0000_0000
  const MAX_LONG: int := 0x7FFF_FFFF

  /** EVENT_NO_TIMEOUT: a wait without limit. */
  const NO_TIMEOUT: nat := 0xFFFF_FFFF

  function ToU32(x: int): (u: nat)
    ensures u < WORD
  {
    x % WORD
  }

  function ToS32(x: int): (i: int)
    ensures -MAX_LONG - 1 <= i <= MAX_LONG
  {
    var u := ToU32(x);
    if u <= MAX_LONG then u else u - WORD
  }

  predicate IsU32(x: int) { 0 <= x < WORD }

  predicate IsS32(x: int) { -MAX_LONG - 1 <= x <= MAX_LONG }

  /** A word survives the detour through the signed type. */
  lemma SignedDetour(x: int)
    requires IsU32(x)
    ensures ToU32(x) == x && ToU32(ToS32(x)) == x
    ensures x <= MAX_LONG ==> ToS32(x) == x
  {
  }
}
