/** Rust's ordering on `str` and the `Vec::sort` that `get_containers`
    applies to the container names. Rust compares strings byte by byte in
    UTF-8; since UTF-8 preserves the order of code points, that is the
    lexicographic order on characters used here. */
module StringOrder {

  /** `a <= b` in lexicographic order: a proper prefix comes first. */
  predicate LessEq(a: string, b: string)
    ensures |a| <= |b| && a == b[..|a|] ==> LessEq(a, b)
    decreases |a|
  {
    |a| == 0 || (|b| > 0 && (a[0] < b[0] || (a[0] == b[0] && LessEq(a[1..], b[1..]))))
  }

  lemma {:induction false} LessEqReflexive(a: string)
    ensures LessEq(a, a)
    decreases |a|
  {
    if |a| > 0 {
      LessEqReflexive(a[1..]);
    }
  }

  lemma {:induction false} LessEqTotal(a: string, b: string)
    ensures LessEq(a, b) || LessEq(b, a)
    decreases |a|
  {
    if |a| > 0 && |b| > 0 && a[0] == b[0] {
      LessEqTotal(a[1..], b[1..]);
    }
  }

  lemma {:induction false} LessEqAntisymmetric(a: string, b: string)
    requires LessEq(a, b) && LessEq(b, a)
    ensures a == b
    decreases |a|
  {
    if |a| > 0 {
      LessEqAntisymmetric(a[1..], b[1..]);
      assert a == [a[0]] + a[1..] && b == [b[0]] + b[1..];
    }
  }

  lemma {:induction false} LessEqTransitive(a: string, b: string, c: string)
    requires LessEq(a, b) && LessEq(b, c)
    ensures LessEq(a, c)
    decreases |a|
  {
    if |a| > 0 && a[0] == b[0] && b[0] == c[0] {
      LessEqTransitive(a[1..], b[1..], c[1..]);
    }
  }

  /** Ascending order over the whole sequence. */
  predicate Sorted(s: seq<string>)
  {
    forall i, j :: 0 <= i < j < |s| ==> LessEq(s[i], s[j])
  }

  lemma {:induction false} AdjacentChain(s: seq<string>, i: nat, j: nat)
    requires SortedBelow(s, |s|) && i <= j < |s|
    ensures LessEq(s[i], s[j])
    decreases j - i
  {
    if i == j {
      LessEqReflexive(s[i]);
    } else {
      AdjacentChain(s, i, j - 1);
      LessEqTransitive(s[i], s[j - 1], s[j]);
    }
  }

  lemma AdjacentSortedIsSorted(s: seq<string>)
    requires SortedBelow(s, |s|)
    ensures Sorted(s)
  {
    forall i, j | 0 <= i < j < |s|
      ensures LessEq(s[i], s[j])
    {
      AdjacentChain(s, i, j);
    }
  }

  /** Two sorted arrangements of the same names are identical, so the result
      of a sort does not depend on how it is carried out (stable or not). */
  lemma {:induction false} SortedUnique(s: seq<string>, t: seq<string>)
    requires Sorted(s) && Sorted(t) && multiset(s) == multiset(t)
    ensures s == t
    decreases |s|
  {
    if |s| == 0 {
      assert |multiset(t)| == 0;
    } else {
      assert |t| == |multiset(t)| == |multiset(s)| == |s|;
      SortedHeadsEqual(s, t);
      assert s == [s[0]] + s[1..] && t == [t[0]] + t[1..];
      assert multiset(s[1..]) == multiset(s) - multiset{s[0]};
      assert multiset(t[1..]) == multiset(t) - multiset{t[0]};
      SortedUnique(s[1..], t[1..]);
    }
  }

  /** Sorted arrangements of the same names start with the same name. */
  lemma SortedHeadsEqual(s: seq<string>, t: seq<string>)
    requires Sorted(s) && Sorted(t) && multiset(s) == multiset(t) && |s| > 0
    ensures |t| > 0 && s[0] == t[0]
  {
    assert s[0] in multiset(t);
    var j :| 0 <= j < |t| && t[j] == s[0];
    assert t[0] in multiset(s);
    var k :| 0 <= k < |s| && s[k] == t[0];
    LessEqReflexive(s[0]);
    assert LessEq(s[0], t[0]) by { if k > 0 { assert LessEq(s[0], s[k]); } }
    assert LessEq(t[0], s[0]) by { if j > 0 { assert LessEq(t[0], t[j]); } }
    LessEqAntisymmetric(s[0], t[0]);
  }

  /** `Vec::sort` on the names, as an insertion sort by adjacent swaps. */
  method SortInPlace(a: array<string>)
    modifies a
    ensures Sorted(a[..])
    ensures multiset(a[..]) == multiset(old(a[..]))
  {
    var i := 0;
    while i < a.Length
      invariant 0 <= i <= a.Length
      invariant SortedBelow(a[..], i)
      invariant multiset(a[..]) == multiset(old(a[..]))
    {
      Insert(a, i);
      i := i + 1;
    }
    AdjacentSortedIsSorted(a[..]);
  }

  /** Moves `a[i]` left until `a[..i + 1]` is in order. */
  method Insert(a: array<string>, i: nat)
    requires i < a.Length
    requires SortedBelow(a[..], i)
    modifies a
    ensures SortedBelow(a[..], i + 1)
    ensures multiset(a[..]) == multiset(old(a[..]))
    ensures a[i + 1..] == old(a[i + 1..])
    ensures multiset(a[..i + 1]) == multiset(old(a[..i + 1]))
  {
    var j := i;
    while j > 0 && !LessEq(a[j - 1], a[j])
      invariant 0 <= j <= i
      invariant Inserting(a[..], i, j)
      invariant multiset(a[..]) == multiset(old(a[..]))
      invariant a[i + 1..] == old(a[i + 1..])
      invariant multiset(a[..i + 1]) == multiset(old(a[..i + 1]))
    {
      ghost var s := a[..];
      a[j - 1], a[j] := a[j], a[j - 1];
      assert a[..] == s[j - 1 := s[j]][j := s[j - 1]];
      InsertStep(s, i, j);
      SwapInPrefix(s, i, j);
      j := j - 1;
    }
  }

  /** The adjacent pairs of `s[..n]` are in order. */
  predicate SortedBelow(s: seq<string>, n: nat)
    requires n <= |s|
  {
    forall k :: 0 < k < n ==> LessEq(s[k - 1], s[k])
  }

  /** While `s[j]` moves left: every adjacent pair of `s[..i + 1]` is in
      order except the one ending at `j`, and `s[j - 1] <= s[j + 1]`. */
  predicate Inserting(s: seq<string>, i: nat, j: nat)
    requires j <= i < |s|
  {
    (forall k :: 0 < k <= i && k != j ==> LessEq(s[k - 1], s[k])) &&
    (0 < j < i ==> LessEq(s[j - 1], s[j + 1]))
  }

  /** Swapping an out-of-order pair moves the gap one place left and keeps
      the elements. */
  lemma InsertStep(s: seq<string>, i: nat, j: nat)
    requires 0 < j <= i < |s| && Inserting(s, i, j) && !LessEq(s[j - 1], s[j])
    ensures Inserting(s[j - 1 := s[j]][j := s[j - 1]], i, j - 1)
    ensures multiset(s[j - 1 := s[j]][j := s[j - 1]]) == multiset(s)
  {
    LessEqTotal(s[j - 1], s[j]);
  }

  /** Swapping inside `s[..i + 1]` leaves the rest alone and keeps the
      prefix's elements. */
  lemma SwapInPrefix(s: seq<string>, i: nat, j: nat)
    requires 0 < j <= i < |s|
    ensures s[j - 1 := s[j]][j := s[j - 1]][i + 1..] == s[i + 1..]
    ensures multiset(s[j - 1 := s[j]][j := s[j - 1]][..i + 1]) == multiset(s[..i + 1])
  {
    assert s[j - 1 := s[j]][j := s[j - 1]][..i + 1] == s[..i + 1][j - 1 := s[j]][j := s[j - 1]];
  }
}
