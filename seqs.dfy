/** Facts about sequences used to describe an insertion-ordered dictionary. */
module Seqs {

  predicate Distinct<T(==)>(s: seq<T>) {
    forall i, j :: 0 <= i < j < |s| ==> s[i] != s[j]
  }

  /** Position of the first occurrence of x in s. */
  function FirstIndex<T(==)>(s: seq<T>, x: T): (k: nat)
    requires x in s
    ensures k < |s| && s[k] == x
    ensures forall j :: 0 <= j < k ==> s[j] != x
  {
    if s[0] == x then 0 else 1 + FirstIndex(s[1..], x)
  }

  /** Position of the last occurrence of x in s. */
  function LastIndex<T(==)>(s: seq<T>, x: T): (k: nat)
    requires x in s
    ensures k < |s| && s[k] == x
    ensures forall j :: k < j < |s| ==> s[j] != x
  {
    if s[|s| - 1] == x then |s| - 1 else LastIndex(s[..|s| - 1], x)
  }

  /** The elements of s, each once, in the order of their first occurrence. */
  function Dedup<T(==, !new)>(s: seq<T>): (r: seq<T>)
    ensures Distinct(r)
    ensures forall x :: x in r <==> x in s
  {
    if s == [] then []
    else
      var p := Dedup(s[..|s| - 1]);
      if s[|s| - 1] in p then p else p + [s[|s| - 1]]
  }

  /** Appending an element already present leaves Dedup unchanged; a new one goes last. */
  lemma DedupSnoc<T(!new)>(s: seq<T>, x: T)
    ensures Dedup(s + [x]) == if x in s then Dedup(s) else Dedup(s) + [x]
  {
    assert (s + [x])[..|s|] == s;
  }

  /** A sequence without repetitions is its own Dedup. */
  lemma {:induction false} DedupOfDistinct<T(!new)>(s: seq<T>)
    requires Distinct(s)
    ensures Dedup(s) == s
  {
    if s != [] {
      var p := s[..|s| - 1];
      DedupOfDistinct(p);
      assert s == p + [s[|s| - 1]];
      DedupSnoc(p, s[|s| - 1]);
    }
  }

  /** In a sequence with no repetition, the last occurrence is the only one. */
  lemma LastIndexOfDistinct<T>(s: seq<T>, k: nat)
    requires Distinct(s) && k < |s|
    ensures LastIndex(s, s[k]) == k
  {
  }

  lemma FirstIndexSnoc<T>(s: seq<T>, x: T, y: T)
    requires y in s + [x]
    ensures FirstIndex(s + [x], y) == if y in s then FirstIndex(s, y) else |s|
  {
    var k := FirstIndex(s + [x], y);
    if y in s {
      var j := FirstIndex(s, y);
      assert (s + [x])[j] == y;
    }
  }

  lemma LastIndexSnoc<T>(s: seq<T>, x: T, y: T)
    requires y in s + [x]
    ensures LastIndex(s + [x], y) == if y == x then |s| else LastIndex(s, y)
  {
    if y != x {
      assert (s + [x])[..|s|] == s;
    }
  }

  /**
   * Dedup keeps elements in the order of their first occurrence: x comes
   * before y in Dedup(s) exactly when x first occurs before y first occurs in s.
   */
  lemma {:induction false} DedupOrder<T(!new)>(s: seq<T>, x: T, y: T)
    requires x in s && y in s
    ensures FirstIndex(Dedup(s), x) < FirstIndex(Dedup(s), y) <==> FirstIndex(s, x) < FirstIndex(s, y)
  {
    var p, z := s[..|s| - 1], s[|s| - 1];
    assert s == p + [z];
    DedupSnoc(p, z);
    FirstIndexSnoc(p, z, x);
    FirstIndexSnoc(p, z, y);
    if z in p {
      DedupOrder(p, x, y);
    } else {
      FirstIndexSnoc(Dedup(p), z, x);
      FirstIndexSnoc(Dedup(p), z, y);
      if x in p && y in p {
        DedupOrder(p, x, y);
      }
    }
  }
}
