/** The meaning of the two Python forms whose bounds the text generators
    compute at generation time: `s[i]` and `s[lo : hi]` with integer
    literals. It serves as the reference the index conversions are checked
    against. */
module Python {
  import opened Blocks

  /** `s[i]`; None where Python raises IndexError. Negative indices count
      from the end. */
  function Index(s: string, i: int): Option<char>
  {
    if 0 <= i < |s| then Some(s[i])
    else if -|s| <= i < 0 then Some(s[|s| + i])
    else None
  }

  /** Where a slice bound lands in a string of length `len`: a negative bound
      counts from the end, and the result is clamped to 0..len. */
  function Clamp(len: nat, bound: int): (k: nat)
    ensures k <= len
  {
    if bound < 0 then (if bound + len < 0 then 0 else bound + len)
    else if bound > len then len
    else bound
  }

  /** The first position a slice takes; an omitted lower bound is 0. */
  function Lower(len: nat, lo: Option<int>): (k: nat)
    ensures k <= len
  {
    if lo.None? then 0 else Clamp(len, lo.value)
  }

  /** The position a slice stops before; an omitted upper bound is the length. */
  function Upper(len: nat, hi: Option<int>): (k: nat)
    ensures k <= len
  {
    if hi.None? then len else Clamp(len, hi.value)
  }

  /** `s[lo : hi]` with step 1. */
  function Slice(s: string, lo: Option<int>, hi: Option<int>): (r: string)
    ensures |r| <= |s|
  {
    var a := Lower(|s|, lo);
    var b := Upper(|s|, hi);
    if a < b then s[a..b] else ""
  }
}
