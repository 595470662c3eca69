/**
 * Python's slices `s[:n]` and `s[n:]` with one bound, including the negative
 * bounds that count from the end and the clamping to the ends of the sequence.
 */
module PySlice {

  /** The index a Python slice bound `n` stands for in a sequence of length `len`. */
  function Bound(len: nat, n: int): (r: nat)
    ensures r <= len
    ensures 0 <= n <= len ==> r == n
    ensures n > len ==> r == len
    ensures n < 0 ==> r == if len + n < 0 then 0 else len + n
  {
    if n >= 0 then (if n <= len then n else len)
    else if len + n < 0 then 0 else len + n
  }

  /** `s[:n]`. */
  function Prefix<T>(s: seq<T>, n: int): (r: seq<T>)
    ensures |r| <= |s| && r == s[..|r|]
    ensures n >= 0 ==> |r| == if n <= |s| then n else |s|
    ensures n < 0 ==> |r| == if |s| + n < 0 then 0 else |s| + n
  {
    s[..Bound(|s|, n)]
  }

  /** `s[n:]`. */
  function Suffix<T>(s: seq<T>, n: int): (r: seq<T>)
    ensures |r| <= |s| && r == s[|s| - |r|..]
    ensures n >= 0 ==> |r| == if n <= |s| then |s| - n else 0
    ensures n < 0 ==> |r| == if |s| + n < 0 then |s| else -n
  {
    s[Bound(|s|, n)..]
  }
}
