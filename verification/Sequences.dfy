/** Sequences: concatenation, and order-preserving subsequences, which are what is left of a stream after drops. */
module Sequences {

  function Concat<T>(xss: seq<seq<T>>): seq<T> {
    if xss == [] then [] else Concat(xss[..|xss| - 1]) + xss[|xss| - 1]
  }

  lemma {:induction false} ConcatPrefix<T>(xss: seq<seq<T>>, n: nat)
    requires 0 < n <= |xss|
    ensures Concat(xss[..n]) == Concat(xss[..n - 1]) + xss[n - 1]
  {
    assert xss[..n][..n - 1] == xss[..n - 1];
  }

  // ---------- subsequences ----------

  predicate Sub<T(==)>(a: seq<T>, b: seq<T>) {
    a == [] ||
    (b != [] &&
     ((a[|a| - 1] == b[|b| - 1] && Sub(a[..|a| - 1], b[..|b| - 1])) || Sub(a, b[..|b| - 1])))
  }

  lemma {:induction false} SubRefl<T>(a: seq<T>)
    ensures Sub(a, a)
  {
    if a != [] {
      SubRefl(a[..|a| - 1]);
    }
  }

  lemma {:induction false} SubInit<T>(a: seq<T>, b: seq<T>)
    requires a != [] && Sub(a, b)
    ensures Sub(a[..|a| - 1], b)
  {
    if a[|a| - 1] == b[|b| - 1] && Sub(a[..|a| - 1], b[..|b| - 1]) {
    } else {
      SubInit(a, b[..|b| - 1]);
    }
  }

  lemma {:induction false} SubTrans<T>(a: seq<T>, b: seq<T>, c: seq<T>)
    requires Sub(a, b) && Sub(b, c)
    ensures Sub(a, c)
    decreases |a| + |b| + |c|
  {
    if a != [] {
      if b[|b| - 1] == c[|c| - 1] && Sub(b[..|b| - 1], c[..|c| - 1]) {
        if a[|a| - 1] == b[|b| - 1] && Sub(a[..|a| - 1], b[..|b| - 1]) {
          SubTrans(a[..|a| - 1], b[..|b| - 1], c[..|c| - 1]);
        } else {
          SubTrans(a, b[..|b| - 1], c[..|c| - 1]);
        }
      } else {
        SubTrans(a, b, c[..|c| - 1]);
      }
    }
  }

  lemma SubAppendBoth<T>(a: seq<T>, b: seq<T>, x: T)
    requires Sub(a, b)
    ensures Sub(a + [x], b + [x])
  {
    assert (a + [x])[..|a + [x]| - 1] == a && (b + [x])[..|b + [x]| - 1] == b;
  }

  lemma SubAppendRight<T>(a: seq<T>, b: seq<T>, x: T)
    requires Sub(a, b)
    ensures Sub(a, b + [x])
  {
    assert (b + [x])[..|b + [x]| - 1] == b;
  }

  lemma {:induction false} SubPrefix<T>(a: seq<T>, more: seq<T>, b: seq<T>)
    requires Sub(a + more, b)
    ensures Sub(a, b)
  {
    if more == [] {
      assert a + more == a;
    } else {
      assert (a + more)[..|a + more| - 1] == a + more[..|more| - 1];
      SubInit(a + more, b);
      SubPrefix(a, more[..|more| - 1], b);
    }
  }

  /** The elements of a stand in b at the strictly increasing positions `at`. */
  predicate Picks<T(==)>(at: seq<nat>, a: seq<T>, b: seq<T>) {
    && |at| == |a|
    && (forall i :: 0 <= i < |a| ==> at[i] < |b| && b[at[i]] == a[i])
    && (forall i, j :: 0 <= i < j < |at| ==> at[i] < at[j])
  }

  /** Where the elements of a subsequence stand. */
  lemma {:induction false} SubPositions<T>(a: seq<T>, b: seq<T>) returns (at: seq<nat>)
    requires Sub(a, b)
    ensures Picks(at, a, b)
  {
    if a == [] {
      at := [];
    } else if a[|a| - 1] == b[|b| - 1] && Sub(a[..|a| - 1], b[..|b| - 1]) {
      at := SubPositions(a[..|a| - 1], b[..|b| - 1]);
      at := at + [|b| - 1];
    } else {
      at := SubPositions(a, b[..|b| - 1]);
    }
  }

  lemma {:induction false} SubIsShorter<T>(a: seq<T>, b: seq<T>)
    requires Sub(a, b)
    ensures |a| <= |b| && (|a| == |b| ==> a == b)
  {
    if a != [] {
      if a[|a| - 1] == b[|b| - 1] && Sub(a[..|a| - 1], b[..|b| - 1]) {
        SubIsShorter(a[..|a| - 1], b[..|b| - 1]);
        assert a == a[..|a| - 1] + [a[|a| - 1]] && b == b[..|b| - 1] + [b[|b| - 1]];
      } else {
        SubIsShorter(a, b[..|b| - 1]);
      }
    }
  }
}
