/** The bounded histories of gsmlocation.py and imsi-3.py: `append` followed by
    `pop(0)` once the list is over its cap, and reading back the last entries
    with a negative slice. */
module Fifo {

  /** Python's `s[-n:]` for a positive `n`: the last `n` entries, or all of them. */
  function Ultimos<T>(s: seq<T>, n: nat): (r: seq<T>)
    requires n > 0
    ensures |r| == if |s| < n then |s| else n
    ensures forall i | 0 <= i < |r| :: r[i] == s[|s| - |r| + i]
  {
    if |s| <= n then s else s[|s| - n..]
  }

  /** `h.append(x)` and then `h.pop(0)` when the list is longer than `cap`. */
  function AgregarAcotado<T>(h: seq<T>, x: T, cap: nat): seq<T>
  {
    var h' := h + [x];
    if |h'| > cap then h'[1..] else h'
  }

  /** On a history within its cap, one bounded append keeps the cap, puts the new
      entry last, drops the oldest entry first, and leaves exactly the last `cap`
      entries of the extended history. */
  lemma AgregarAcotadoUltimos<T>(h: seq<T>, x: T, cap: nat)
    requires cap > 0 && |h| <= cap
    ensures var r := AgregarAcotado(h, x, cap);
      && |r| <= cap && r != [] && r[|r| - 1] == x
      && r == Ultimos(h + [x], cap)
      && (|h| < cap ==> r == h + [x])
      && (|h| == cap ==> r == h[1..] + [x])
  {
  }
}
