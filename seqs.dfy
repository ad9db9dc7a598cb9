/**
 * The array methods the pages call (`filter`, `find`, `slice(0, n)`, removal
 * by index), over Dafny sequences, with the facts about them the page
 * contracts rest on.
 */
module Seqs {
  import opened Wrappers

  /** `a` is `b` with some elements left out and the rest kept in their order. */
  ghost predicate IsSubsequence<T>(a: seq<T>, b: seq<T>)
    decreases |b|
  {
    || a == []
    || (b != [] && ((a[0] == b[0] && IsSubsequence(a[1..], b[1..])) || IsSubsequence(a, b[1..])))
  }

  /** A subsequence is no longer than the sequence and holds only its elements. */
  lemma {:induction false} SubsequenceBounds<T>(a: seq<T>, b: seq<T>)
    requires IsSubsequence(a, b)
    ensures |a| <= |b|
    ensures forall x :: x in a ==> x in b
    decreases |b|
  {
    if a != [] {
      if a[0] == b[0] && IsSubsequence(a[1..], b[1..]) {
        SubsequenceBounds(a[1..], b[1..]);
        assert forall x :: x in a ==> x == a[0] || x in a[1..];
      } else {
        SubsequenceBounds(a, b[1..]);
      }
    }
  }

  lemma {:induction false} SubsequenceReflexive<T>(s: seq<T>)
    ensures IsSubsequence(s, s)
    decreases |s|
  {
    if s != [] {
      SubsequenceReflexive(s[1..]);
    }
  }

  lemma {:induction false} SubsequenceTransitive<T>(a: seq<T>, b: seq<T>, c: seq<T>)
    requires IsSubsequence(a, b) && IsSubsequence(b, c)
    ensures IsSubsequence(a, c)
    decreases |c|
  {
    if a != [] {
      SubsequenceBounds(a, b);
      if b[0] == c[0] && IsSubsequence(b[1..], c[1..]) {
        if a[0] == b[0] && IsSubsequence(a[1..], b[1..]) {
          SubsequenceTransitive(a[1..], b[1..], c[1..]);
        } else {
          SubsequenceTransitive(a, b[1..], c[1..]);
        }
      } else {
        SubsequenceTransitive(a, b, c[1..]);
      }
    }
  }

  /** `s.filter(f)`: the elements satisfying `f`, all of them, in their order. */
  function Filter<T>(f: T -> bool, s: seq<T>): (r: seq<T>)
    ensures IsSubsequence(r, s)
    ensures |r| <= |s|
    ensures forall k :: 0 <= k < |r| ==> f(r[k])
    ensures forall x :: x in r ==> x in s
    ensures forall k :: 0 <= k < |s| && f(s[k]) ==> s[k] in r
    ensures forall x :: x in s ==> multiset(r)[x] == if f(x) then multiset(s)[x] else 0
  {
    if s == [] then []
    else
      assert s == [s[0]] + s[1..];
      if f(s[0]) then [s[0]] + Filter(f, s[1..])
      else Filter(f, s[1..])
  }

  /** The length of a filter grows by one exactly for a first element that passes. */
  lemma FilterLengthStep<T>(f: T -> bool, s: seq<T>)
    requires s != []
    ensures |Filter(f, s)| == (if f(s[0]) then 1 else 0) + |Filter(f, s[1..])|
  {
  }

  /** Filtering with a test that every element passes keeps the whole sequence. */
  lemma {:induction false} FilterKeepsAll<T>(f: T -> bool, s: seq<T>)
    requires forall k :: 0 <= k < |s| ==> f(s[k])
    ensures Filter(f, s) == s
  {
    if s != [] {
      FilterKeepsAll(f, s[1..]);
      assert [s[0]] + s[1..] == s;
    }
  }

  /** Filtering by `f` and then by `g` is filtering once by their conjunction `h`. */
  lemma {:induction false} FilterCompose<T>(f: T -> bool, g: T -> bool, h: T -> bool, s: seq<T>)
    requires forall k :: 0 <= k < |s| ==> h(s[k]) == (f(s[k]) && g(s[k]))
    ensures Filter(g, Filter(f, s)) == Filter(h, s)
  {
    if s != [] {
      FilterCompose(f, g, h, s[1..]);
      var rest := Filter(f, s[1..]);
      if f(s[0]) {
        assert ([s[0]] + rest)[0] == s[0];
        assert ([s[0]] + rest)[1..] == rest;
      }
    }
  }

  /** Two tests that agree on every element filter alike. */
  lemma {:induction false} FilterExtensional<T>(f: T -> bool, g: T -> bool, s: seq<T>)
    requires forall k :: 0 <= k < |s| ==> f(s[k]) == g(s[k])
    ensures Filter(f, s) == Filter(g, s)
  {
    if s != [] {
      FilterExtensional(f, g, s[1..]);
    }
  }

  /** A weaker test keeps at least as many elements. */
  lemma {:induction false} FilterMonotone<T>(f: T -> bool, g: T -> bool, s: seq<T>)
    requires forall k :: 0 <= k < |s| && f(s[k]) ==> g(s[k])
    ensures |Filter(f, s)| <= |Filter(g, s)|
  {
    if s != [] {
      FilterMonotone(f, g, s[1..]);
    }
  }

  /** Filtering with a test and with its negation splits the sequence in two. */
  lemma {:induction false} FilterComplement<T>(f: T -> bool, g: T -> bool, s: seq<T>)
    requires forall k :: 0 <= k < |s| ==> (g(s[k]) <==> !f(s[k]))
    ensures |Filter(f, s)| + |Filter(g, s)| == |s|
  {
    if s != [] {
      FilterComplement(f, g, s[1..]);
    }
  }

  /** Three tests no element passes twice keep at most the whole sequence between them. */
  lemma {:induction false} DisjointFilters<T>(f: T -> bool, g: T -> bool, h: T -> bool, s: seq<T>)
    requires forall k :: 0 <= k < |s| ==> !(f(s[k]) && g(s[k])) && !(f(s[k]) && h(s[k])) && !(g(s[k]) && h(s[k]))
    ensures |Filter(f, s)| + |Filter(g, s)| + |Filter(h, s)| <= |s|
  {
    if s != [] {
      DisjointFilters(f, g, h, s[1..]);
    }
  }

  /** `s.slice(0, n)`: the first `n` elements, or all of them when there are fewer. */
  function Take<T>(s: seq<T>, n: nat): (r: seq<T>)
    ensures |r| == if n <= |s| then n else |s|
    ensures forall k :: 0 <= k < |r| ==> r[k] == s[k]
  {
    if n <= |s| then s[..n] else s
  }

  /**
   * `s.filter((_, k) => k !== i)`: the element at position `i` is dropped and
   * the others keep their order; a position outside `s` drops nothing.
   */
  function RemoveAt<T>(s: seq<T>, i: int): (r: seq<T>)
    ensures !(0 <= i < |s|) ==> r == s
    ensures 0 <= i < |s| ==> |r| == |s| - 1
    ensures 0 <= i < |s| ==> forall k :: 0 <= k < i ==> r[k] == s[k]
    ensures 0 <= i < |s| ==> forall k :: i <= k < |r| ==> r[k] == s[k + 1]
  {
    if 0 <= i < |s| then s[..i] + s[i + 1..] else s
  }

  /** `s[k]` passes `f` and no element before it does. */
  ghost predicate FirstMatchAt<T>(f: T -> bool, s: seq<T>, k: int) {
    0 <= k < |s| && f(s[k]) && forall j :: 0 <= j < k ==> !f(s[j])
  }

  /** `s.find(f)`: the first element passing `f`, or `undefined` when none does. */
  function Find<T>(f: T -> bool, s: seq<T>): (r: Option<T>)
    ensures r.None? <==> forall k :: 0 <= k < |s| ==> !f(s[k])
    ensures r.Some? ==> exists k :: FirstMatchAt(f, s, k) && s[k] == r.value
  {
    if s == [] then None
    else if f(s[0]) then
      assert FirstMatchAt(f, s, 0);
      Some(s[0])
    else
      var r := Find(f, s[1..]);
      if r.Some? then
        assert forall k :: FirstMatchAt(f, s[1..], k) ==> FirstMatchAt(f, s, k + 1);
        r
      else r
  }
}
