/**
 * Ordered collections without duplicates: the key order of a Python dict that
 * is filled by appending keys not seen before.
 */
module Seqs {

  predicate NoDups<T(==)>(s: seq<T>) {
    forall i, j :: 0 <= i < j < |s| ==> s[i] != s[j]
  }

  /** Position of the first occurrence of `x` in `s`. */
  function FirstIndex<T(==)>(s: seq<T>, x: T): (i: nat)
    requires x in s
    ensures i < |s| && s[i] == x && x !in s[..i]
  {
    if s[0] == x then 0
    else
      var j := FirstIndex(s[1..], x);
      assert s[..j + 1] == [s[0]] + s[1..][..j];
      j + 1
  }

  /** Keeps the first occurrence of every element, in order of first occurrence. */
  function Dedup<T(==)>(s: seq<T>): (r: seq<T>)
    ensures NoDups(r)
    ensures forall i :: 0 <= i < |r| ==> r[i] in s
    ensures forall i :: 0 <= i < |s| ==> s[i] in r
  {
    if s == [] then []
    else
      var d := Dedup(s[..|s| - 1]);
      if s[|s| - 1] in d then d else d + [s[|s| - 1]]
  }

  /** Deduplication grows by one more element exactly when that element is new. */
  lemma DedupSnoc<T>(s: seq<T>, x: T)
    ensures x in Dedup(s) <==> x in s
    ensures Dedup(s + [x]) == if x in s then Dedup(s) else Dedup(s) + [x]
  {
    assert (s + [x])[..|s|] == s;
  }

  lemma FirstIndexOfPrefix<T>(s: seq<T>, n: nat, x: T)
    requires n <= |s| && x in s[..n]
    ensures FirstIndex(s[..n], x) == FirstIndex(s, x)
  {
  }

  /** A sequence without duplicates is its own deduplication. */
  lemma {:induction false} DedupOfNoDups<T>(s: seq<T>)
    requires NoDups(s)
    ensures Dedup(s) == s
  {
    if s != [] {
      var p := s[..|s| - 1];
      DedupOfNoDups(p);
      assert s[|s| - 1] !in p;
      assert p + [s[|s| - 1]] == s;
    }
  }

  /** The elements of `Dedup(s)` appear in the order of their first occurrence in `s`. */
  lemma {:induction false} DedupFirstSeenOrder<T>(s: seq<T>)
    ensures forall i, j :: 0 <= i < j < |Dedup(s)| ==>
              FirstIndex(s, Dedup(s)[i]) < FirstIndex(s, Dedup(s)[j])
  {
    if s != [] {
      var n := |s| - 1;
      var p := s[..n];
      var d := Dedup(p);
      DedupFirstSeenOrder(p);
      forall x | x in d
        ensures FirstIndex(s, x) == FirstIndex(p, x) && FirstIndex(s, x) < n
      {
        assert s[..n] == p;
        FirstIndexOfPrefix(s, n, x);
      }
      if s[n] !in d {
        assert s[n] !in p;
      }
    }
  }

  /**
   * Deduplicating `a + b` keeps the deduplication of `a` as a prefix and adds
   * only elements of `b` that are not in `a`.
   */
  lemma {:induction false} DedupAppend<T>(a: seq<T>, b: seq<T>)
    ensures |Dedup(a)| <= |Dedup(a + b)|
    ensures Dedup(a + b)[..|Dedup(a)|] == Dedup(a)
    ensures forall k :: |Dedup(a)| <= k < |Dedup(a + b)| ==>
              Dedup(a + b)[k] in b && Dedup(a + b)[k] !in a
  {
    if b == [] {
      assert a + b == a;
    } else {
      var b' := b[..|b| - 1];
      DedupAppend(a, b');
      assert (a + b)[..|a + b| - 1] == a + b';
    }
  }
}
