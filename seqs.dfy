/** Facts about sequences and counting maps shared by the pipeline's modules:
    order-preserving sub-lists, first-occurrence de-duplication (what `[...new Set(xs)]`
    yields) and the total of a value-to-count map. */
module Seqs {

  /** `a` is `s` with some elements left out and the order kept. */
  predicate IsSubsequence<T(==)>(a: seq<T>, s: seq<T>)
    decreases |s|
  {
    if a == [] then true
    else if s == [] then false
    else if a[|a| - 1] == s[|s| - 1] then IsSubsequence(a[..|a| - 1], s[..|s| - 1])
    else IsSubsequence(a, s[..|s| - 1])
  }

  /** Appending the same element to both sides keeps the relation. */
  lemma SubsequenceExtend<T>(a: seq<T>, s: seq<T>, x: T)
    requires IsSubsequence(a, s)
    ensures IsSubsequence(a + [x], s + [x])
  {
    assert (a + [x])[..|a|] == a;
    assert (s + [x])[..|s|] == s;
  }

  /** Appending an element to the longer side only keeps the relation. */
  lemma {:induction false} SubsequenceAppend<T>(a: seq<T>, s: seq<T>, x: T)
    requires IsSubsequence(a, s)
    ensures IsSubsequence(a, s + [x])
    decreases |s|, 1
  {
    assert (s + [x])[..|s|] == s;
    if a != [] && a[|a| - 1] == x {
      SubsequenceDropLast(a, s);
    }
  }

  lemma {:induction false} SubsequenceDropLast<T>(a: seq<T>, s: seq<T>)
    requires a != [] && IsSubsequence(a, s)
    ensures IsSubsequence(a[..|a| - 1], s)
    decreases |s|, 0
  {
    var a', s' := a[..|a| - 1], s[..|s| - 1];
    assert s == s' + [s[|s| - 1]];
    if a[|a| - 1] == s[|s| - 1] {
      SubsequenceAppend(a', s', s[|s| - 1]);
    } else {
      SubsequenceDropLast(a, s');
      SubsequenceAppend(a', s', s[|s| - 1]);
    }
  }

  /** A subsequence holds nothing the sequence does not hold. */
  lemma {:induction false} SubsequenceMembers<T>(a: seq<T>, s: seq<T>)
    requires IsSubsequence(a, s)
    ensures |a| <= |s|
    ensures forall x :: x in a ==> x in s
    decreases |s|
  {
    if a != [] {
      var a', s' := a[..|a| - 1], s[..|s| - 1];
      assert a == a' + [a[|a| - 1]];
      assert s == s' + [s[|s| - 1]];
      if a[|a| - 1] == s[|s| - 1] {
        SubsequenceMembers(a', s');
      } else {
        SubsequenceMembers(a, s');
      }
    }
  }

  predicate NoDuplicates<T(==)>(s: seq<T>)
  {
    forall i, j :: 0 <= i < j < |s| ==> s[i] != s[j]
  }

  /** `y` occurs in `s` before the first occurrence of `z`, if `z` occurs at all. */
  predicate OccursBefore<T(==)>(s: seq<T>, y: T, z: T)
  {
    exists a :: 0 <= a < |s| && s[a] == y && z !in s[..a + 1]
  }

  /** The elements of `r` appear in the order of their first occurrence in `s`. */
  predicate FirstOccurrenceOrder<T(==)>(r: seq<T>, s: seq<T>)
  {
    forall i, j :: 0 <= i < j < |r| ==> OccursBefore(s, r[i], r[j])
  }

  lemma OccursBeforeSnoc<T>(s: seq<T>, x: T, y: T, z: T)
    ensures OccursBefore(s, y, z) ==> OccursBefore(s + [x], y, z)
    ensures y in s && x !in s ==> OccursBefore(s + [x], y, x)
  {
    var s' := s + [x];
    if OccursBefore(s, y, z) {
      var a :| 0 <= a < |s| && s[a] == y && z !in s[..a + 1];
      assert s'[..a + 1] == s[..a + 1];
      assert s'[a] == s[a];
    }
    if y in s && x !in s {
      var a :| 0 <= a < |s| && s[a] == y;
      assert s'[..a + 1] == s[..a + 1];
      assert s'[a] == s[a];
    }
  }

  /** Appending to `s` keeps the order of `r`, and an element new to `s` may follow. */
  lemma FirstOccurrenceSnoc<T>(r: seq<T>, init: seq<T>, x: T)
    requires FirstOccurrenceOrder(r, init)
    requires forall i :: 0 <= i < |r| ==> r[i] in init
    ensures FirstOccurrenceOrder(r, init + [x])
    ensures x !in init ==> FirstOccurrenceOrder(r + [x], init + [x])
  {
    forall i, j | 0 <= i < j < |r| ensures OccursBefore(init + [x], r[i], r[j]) {
      OccursBeforeSnoc(init, x, r[i], r[j]);
    }
    if x !in init {
      var r' := r + [x];
      forall i, j | 0 <= i < j < |r'| ensures OccursBefore(init + [x], r'[i], r'[j]) {
        assert r'[i] == r[i];
        OccursBeforeSnoc(init, x, r[i], r'[j]);
        if j < |r| {
          assert r'[j] == r[j];
        }
      }
    }
  }

  /** The elements of `s` in order of first occurrence, each once. */
  function Dedup<T(==)>(s: seq<T>): (r: seq<T>)
    ensures forall i :: 0 <= i < |s| ==> s[i] in r
    ensures forall i :: 0 <= i < |r| ==> r[i] in s
    ensures NoDuplicates(r)
    ensures IsSubsequence(r, s)
  {
    if s == [] then []
    else
      var init, x := s[..|s| - 1], s[|s| - 1];
      assert s == init + [x];
      var d := Dedup(init);
      if x in d then
        SubsequenceAppend(d, init, x);
        d
      else
        SubsequenceExtend(d, init, x);
        d + [x]
  }

  /** De-duplication of one more element. */
  lemma DedupSnoc<T>(s: seq<T>, x: T)
    ensures Dedup(s + [x]) == if x in Dedup(s) then Dedup(s) else Dedup(s) + [x]
  {
    assert (s + [x])[..|s|] == s;
  }

  /** De-duplication keeps the first occurrences in their order, which with the
      contract of `Dedup` determines its result completely. */
  lemma {:induction false} DedupKeepsFirstOccurrenceOrder<T>(s: seq<T>)
    ensures FirstOccurrenceOrder(Dedup(s), s)
  {
    if s != [] {
      var init, x := s[..|s| - 1], s[|s| - 1];
      assert s == init + [x];
      DedupKeepsFirstOccurrenceOrder(init);
      DedupSnoc(init, x);
      FirstOccurrenceSnoc(Dedup(init), init, x);
      if x !in Dedup(init) {
        assert x !in init;
      }
    }
  }

  /** On a sequence without duplicates (such as the result of `Object.keys`),
      de-duplication changes nothing. */
  lemma {:induction false} DedupOfDistinct<T>(s: seq<T>)
    requires NoDuplicates(s)
    ensures Dedup(s) == s
  {
    if s != [] {
      var init := s[..|s| - 1];
      assert NoDuplicates(init);
      DedupOfDistinct(init);
      var x := s[|s| - 1];
      assert x !in init;
      assert s == init + [x];
      DedupSnoc(init, x);
    }
  }

  /** `m[k] || 0` for a counting map. */
  function Count<K>(m: map<K, nat>, k: K): nat
  {
    if k in m then m[k] else 0
  }

  /** The sum of all counts of a counting map. */
  ghost function Total<K>(m: map<K, nat>): nat
    decreases |m|
  {
    if m == map[] then 0
    else
      var k :| k in m;
      m[k] + Total(m - {k})
  }

  /** The total can be split off at any key. */
  lemma {:induction false} TotalRemove<K>(m: map<K, nat>, k: K)
    requires k in m
    ensures Total(m) == m[k] + Total(m - {k})
    decreases |m|
  {
    var j :| j in m && Total(m) == m[j] + Total(m - {j});
    if j != k {
      assert |m - {j}| == |m| - 1;
      TotalRemove(m - {j}, k);
      assert |m - {k}| == |m| - 1;
      TotalRemove(m - {k}, j);
      assert (m - {j}) - {k} == (m - {k}) - {j};
    }
  }

  /** Incrementing one count raises the total by one. */
  lemma TotalIncrement<K>(m: map<K, nat>, k: K)
    ensures Total(m[k := Count(m, k) + 1]) == Total(m) + 1
  {
    var m' := m[k := Count(m, k) + 1];
    TotalRemove(m', k);
    assert m' - {k} == m - {k};
    if k in m {
      TotalRemove(m, k);
    } else {
      assert m - {k} == m;
    }
  }

  /** `xs` lists every element of `s` exactly once. */
  predicate Enumerates<T(==)>(xs: seq<T>, s: set<T>)
  {
    NoDuplicates(xs) && (forall i :: 0 <= i < |xs| ==> xs[i] in s) && forall x :: x in s ==> x in xs
  }

  /** An enumeration of a set is as long as the set is large. */
  lemma {:induction false} EnumerationSize<T>(xs: seq<T>, s: set<T>)
    requires Enumerates(xs, s)
    ensures |xs| == |s|
    decreases |xs|
  {
    if xs == [] {
      assert forall x :: x !in s;
      assert s == {};
    } else {
      var init, last := xs[..|xs| - 1], xs[|xs| - 1];
      forall x | x in s - {last} ensures x in init {
        var i :| 0 <= i < |xs| && xs[i] == x;
        assert i != |xs| - 1;
        assert init[i] == x;
      }
      forall i | 0 <= i < |init| ensures init[i] in s - {last} {
        assert init[i] == xs[i];
      }
      EnumerationSize(init, s - {last});
    }
  }
}
