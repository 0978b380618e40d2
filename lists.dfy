/** Sequence facts shared by the list transforms of the catalogue: the
    order-preserving subsequence relation that every `Array.prototype.filter`
    result stands in to its input, and removal of every occurrence of a value. */
module Lists {

  /** `a` is `b` with some elements left out, the rest in their order. */
  predicate IsSubsequence<T(==)>(a: seq<T>, b: seq<T>)
    decreases |b|
  {
    a == [] || (b != [] && ((a[0] == b[0] && IsSubsequence(a[1..], b[1..])) || IsSubsequence(a, b[1..])))
  }

  lemma {:induction false} SubsequenceMembers<T>(a: seq<T>, b: seq<T>, x: T)
    requires IsSubsequence(a, b) && x in a
    ensures x in b
    decreases |b|
  {
    if a[0] == b[0] && IsSubsequence(a[1..], b[1..]) {
      if x != a[0] {
        SubsequenceMembers(a[1..], b[1..], x);
      }
    } else {
      SubsequenceMembers(a, b[1..], x);
    }
  }

  lemma {:induction false} SubsequenceOfSelf<T>(s: seq<T>)
    ensures IsSubsequence(s, s)
    decreases |s|
  {
    if s != [] {
      SubsequenceOfSelf(s[1..]);
    }
  }

  /** `s.filter(v => v !== x)`. */
  function RemoveAll<T(==)>(s: seq<T>, x: T): (r: seq<T>)
    ensures x !in r
    ensures forall i :: 0 <= i < |r| ==> r[i] in s
    ensures forall i :: 0 <= i < |s| && s[i] != x ==> s[i] in r
    decreases |s|
  {
    if s == [] then []
    else if s[0] == x then RemoveAll(s[1..], x)
    else [s[0]] + RemoveAll(s[1..], x)
  }

  /** Removing keeps the remaining elements in their order. */
  lemma {:induction false} RemoveAllIsSubsequence<T>(s: seq<T>, x: T)
    ensures IsSubsequence(RemoveAll(s, x), s)
    decreases |s|
  {
    if s != [] {
      RemoveAllIsSubsequence(s[1..], x);
    }
  }

  /** Removing a value that does not occur changes nothing. */
  lemma {:induction false} RemoveAllAbsent<T>(s: seq<T>, x: T)
    requires x !in s
    ensures RemoveAll(s, x) == s
    decreases |s|
  {
    if s != [] {
      RemoveAllAbsent(s[1..], x);
      assert [s[0]] + s[1..] == s;
    }
  }

  /** Appending a value that did not occur and then removing it gives the
      original sequence back. */
  lemma {:induction false} RemoveAllAppended<T>(s: seq<T>, x: T)
    requires x !in s
    ensures RemoveAll(s + [x], x) == s
    decreases |s|
  {
    if s == [] {
      assert s + [x] == [x];
    } else {
      assert (s + [x])[1..] == s[1..] + [x];
      RemoveAllAppended(s[1..], x);
      assert [s[0]] + s[1..] == s;
    }
  }

  /** A sequence that is not empty has a member. */
  lemma HasMember<T>(s: seq<T>)
    ensures s != [] ==> exists x :: x in s
  {
    if s != [] {
      assert s[0] in s;
    }
  }
}
