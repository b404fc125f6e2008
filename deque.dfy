/** Python's `collections.deque(maxlen=n)`, as the sequence of its elements, oldest first. */
module BoundedDeque {

  /** The last n elements of s (all of s when it is shorter). */
  function Last<T>(s: seq<T>, n: nat): (r: seq<T>)
    ensures |r| == if |s| < n then |s| else n
    ensures forall i :: 0 <= i < |r| ==> r[i] == s[|s| - |r| + i]
  {
    if |s| <= n then s else s[|s| - n..]
  }

  /** `append(x)` on a deque holding q: when the deque is full its oldest element is dropped first. */
  function Append<T>(q: seq<T>, x: T, maxlen: nat): (r: seq<T>)
    requires 0 < maxlen && |q| <= maxlen
    ensures |r| <= maxlen
    ensures r == Last(q + [x], maxlen)
  {
    if |q| == maxlen then q[1..] + [x] else q + [x]
  }

  /** Keeping only the last n elements before an append does not change the last n after it. */
  lemma LastAppend<T>(s: seq<T>, x: T, n: nat)
    requires 0 < n
    ensures Last(Last(s, n) + [x], n) == Last(s + [x], n)
  {
    var a, b := Last(Last(s, n) + [x], n), Last(s + [x], n);
    assert |a| == |b|;
    forall i | 0 <= i < |a|
      ensures a[i] == b[i]
    {
      if i < |a| - 1 {
        assert a[i] == Last(s, n)[|Last(s, n)| + 1 - |a| + i];
      }
    }
  }

  /** Elements in front of the last n do not change the last n. */
  lemma LastIgnoresPrefix<T>(prefix: seq<T>, s: seq<T>, n: nat)
    requires |s| >= n
    ensures Last(prefix + s, n) == Last(s, n)
  {
    var a, b := Last(prefix + s, n), Last(s, n);
    assert |a| == |b| == n;
    forall i | 0 <= i < n
      ensures a[i] == b[i]
    {
      assert a[i] == (prefix + s)[|prefix| + |s| - n + i];
    }
  }

  /** A deque that holds the last n elements of a history still does after an append. */
  lemma AppendKeepsLast<T>(history: seq<T>, x: T, n: nat)
    requires 0 < n
    ensures Append(Last(history, n), x, n) == Last(history + [x], n)
  {
    LastAppend(history, x, n);
  }
}
