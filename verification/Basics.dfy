/** What several components need. */
module Basics {

  // The number of 32-bit words.
  const WORD: nat := 0x1_0000_0000

  // Some element of a set, as ranging over a map picks its keys in any order.
  method AnyOf<T>(s: set<T>) returns (x: T)
    requires |s| > 0
    ensures x in s
  {
    x :| x in s;
  }
}
