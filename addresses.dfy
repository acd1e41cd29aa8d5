/** Address handling: token and pair addresses are compared after lower-casing,
    and the persisted state is keyed by the lower-cased pair address. */
module Addresses {

  /** Lower-cases one ASCII letter and leaves every other character alone. */
  function LowerChar(c: char): char {
    if 'A' <= c <= 'Z' then (c as int + 32) as char else c
  }

  predicate IsUpper(c: char) {
    'A' <= c <= 'Z'
  }

  /** `toLowerCase()` on an address (addresses are ASCII hex strings). */
  function Lower(s: string): (r: string)
    ensures |r| == |s|
    ensures forall i :: 0 <= i < |s| ==> r[i] == LowerChar(s[i])
    ensures forall i :: 0 <= i < |r| ==> !IsUpper(r[i])
  {
    if s == [] then [] else [LowerChar(s[0])] + Lower(s[1..])
  }

  /** Lower-casing twice is lower-casing once, so an address that was already
      lower-cased when the configuration was read compares as it should. */
  lemma LowerIdempotent(s: string)
    ensures Lower(Lower(s)) == Lower(s)
  {
  }

  const KEY_PREFIX: string := "polygon:"
  const KEY_SUFFIX: string := ":LINK/USDC"

  /** The key under which the pair's alert record is stored:
      `polygon:<lower-cased pair address>:LINK/USDC`. */
  function StateKey(pairAddress: string): (k: string)
    ensures |k| == |KEY_PREFIX| + |pairAddress| + |KEY_SUFFIX|
    ensures k[..|KEY_PREFIX|] == KEY_PREFIX
    ensures k[|KEY_PREFIX|..|k| - |KEY_SUFFIX|] == Lower(pairAddress)
    ensures k[|k| - |KEY_SUFFIX|..] == KEY_SUFFIX
  {
    KEY_PREFIX + Lower(pairAddress) + KEY_SUFFIX
  }

  /** Two pair addresses share a state record exactly when they are the same
      address up to letter case: records of different pairs never collide. */
  lemma StateKeySharedIffSameAddress(a: string, b: string)
    ensures StateKey(a) == StateKey(b) <==> Lower(a) == Lower(b)
  {
  }
}
