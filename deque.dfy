/**
 * A bounded double-ended queue used as a sliding window, as Python's
 * `collections.deque(maxlen=cap)` behaves under `append`: the new element
 * goes to the right end, and when the deque is already full the leftmost
 * (oldest) element is discarded.
 */
module BoundedDeque {

  /** `s` is a deque of capacity `cap` in a state Python can produce. */
  predicate Fits<T>(s: seq<T>, cap: nat) {
    0 < cap && |s| <= cap
  }

  /** `deque.append(x)` on a deque with `maxlen == cap`. */
  function Append<T>(s: seq<T>, x: T, cap: nat): (r: seq<T>)
    requires Fits(s, cap)
    ensures Fits(r, cap)
    ensures |r| == if |s| < cap then |s| + 1 else cap
    ensures r[|r| - 1] == x
    // position i of the result holds position i + 1 of a full deque, i of any other
    ensures forall i :: 0 <= i < |r| - 1 ==> r[i] == s[i + |s| + 1 - |r|]
  {
    if |s| < cap then s + [x] else s[1..] + [x]
  }

  /**
   * The result is the newest elements of s + [x] in insertion order: a full
   * deque loses exactly its oldest element, any other loses nothing (the
   * suffix starts at 1 or at 0).
   */
  lemma AppendKeepsOrder<T>(s: seq<T>, x: T, cap: nat)
    requires Fits(s, cap)
    ensures Append(s, x, cap) == (s + [x])[|s| + 1 - |Append(s, x, cap)|..]
  {
  }

  /** Appending every element of `xs`, left to right. */
  function AppendAll<T>(s: seq<T>, xs: seq<T>, cap: nat): (r: seq<T>)
    requires Fits(s, cap)
    ensures Fits(r, cap)
    decreases |xs|
  {
    if xs == [] then s else AppendAll(Append(s, xs[0], cap), xs[1..], cap)
  }

  function Min(a: int, b: int): int {
    if a <= b then a else b
  }

  /**
   * A deque that started empty holds exactly the last min(n, cap) of the n
   * elements appended to it, oldest first.
   */
  lemma {:induction false} AppendAllKeepsNewest<T>(s: seq<T>, xs: seq<T>, cap: nat)
    requires Fits(s, cap)
    ensures var all := s + xs;
            AppendAll(s, xs, cap) == all[|all| - Min(|all|, cap)..]
    decreases |xs|
  {
    if xs != [] {
      var x := xs[0];
      var s' := Append(s, x, cap);
      AppendAllKeepsNewest(s', xs[1..], cap);
      var all, all' := s + xs, s' + xs[1..];
      AppendKeepsOrder(s, x, cap);
      if |s| < cap {
        assert s' == s + [x];
        assert all' == all;
      } else {
        assert s' == s[1..] + [x];
        assert all' == all[1..];
        SuffixOfSuffix(all, 1, |all'| - cap);
      }
    }
  }

  lemma SuffixOfSuffix<T>(s: seq<T>, i: nat, j: nat)
    requires i + j <= |s|
    ensures s[i..][j..] == s[i + j..]
  {
  }

  /** So a deque grown from empty has length min(n, cap). */
  lemma {:induction false} AppendAllLength<T>(xs: seq<T>, cap: nat)
    requires 0 < cap
    ensures |AppendAll([], xs, cap)| == Min(|xs|, cap)
  {
    AppendAllKeepsNewest([], xs, cap);
    assert [] + xs == xs;
  }
}
