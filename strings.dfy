/** The JavaScript string operations the components rely on, over `seq<char>`. */
module Strings {

  /** `sub` occurs in `s` starting at index `i`. */
  predicate OccursAt(s: string, sub: string, i: nat)
  {
    i + |sub| <= |s| && s[i..i + |sub|] == sub
  }

  /** Whether `sub` occurs in `s` at some index `from` or later. */
  function IncludesFrom(s: string, sub: string, from: nat): (r: bool)
    ensures r <==> exists i: nat :: from <= i && OccursAt(s, sub, i)
    decreases |s| - from
  {
    if OccursAt(s, sub, from) then true
    else if from >= |s| then false
    else IncludesFrom(s, sub, from + 1)
  }

  /** `s.includes(sub)`: a case-sensitive substring test. */
  function Includes(s: string, sub: string): (r: bool)
    ensures r <==> exists i: nat :: OccursAt(s, sub, i)
  {
    IncludesFrom(s, sub, 0)
  }
}
