/**
 * The list operations every page of the application builds its state from:
 * filtering a list by a predicate, counting, and deleting every record with one id.
 */
module Lists {

  /** Number of elements of `s` that satisfy `p`. */
  function Count<T>(s: seq<T>, p: T -> bool): (n: nat)
    ensures n <= |s|
  {
    if s == [] then 0 else (if p(s[0]) then 1 else 0) + Count(s[1..], p)
  }

  /** `r` is `s` with some elements dropped and the others kept in their order. */
  ghost predicate IsSubsequence<T>(r: seq<T>, s: seq<T>)
  {
    if r == [] then true
    else if s == [] then false
    else (r[0] == s[0] && IsSubsequence(r[1..], s[1..])) || IsSubsequence(r, s[1..])
  }

  /**
   * The array filter: the elements of `s` that satisfy `p`, in their original order.
   * The three ensures of the first group characterise the result completely
   * (see KeepIsUnique); the membership one follows from them.
   */
  function Keep<T>(s: seq<T>, p: T -> bool): (r: seq<T>)
    ensures IsSubsequence(r, s)
    ensures forall i :: 0 <= i < |r| ==> p(r[i])
    ensures |r| == Count(s, p)
    ensures forall i :: 0 <= i < |s| ==> (s[i] in r <==> p(s[i]))
  {
    if s == [] then []
    else if p(s[0]) then [s[0]] + Keep(s[1..], p)
    else Keep(s[1..], p)
  }

  /** A subsequence made of `p`-elements has at most `Count(s, p)` elements. */
  lemma {:induction false} SubsequenceCountBound<T>(r: seq<T>, s: seq<T>, p: T -> bool)
    requires IsSubsequence(r, s)
    requires forall i :: 0 <= i < |r| ==> p(r[i])
    ensures |r| <= Count(s, p)
  {
    if r != [] {
      assert s != [];
      if r[0] == s[0] && IsSubsequence(r[1..], s[1..]) {
        SubsequenceCountBound(r[1..], s[1..], p);
      } else {
        SubsequenceCountBound(r, s[1..], p);
      }
    }
  }

  /**
   * The filter is the ONLY order-preserving selection of `p`-elements that
   * keeps as many elements as satisfy `p`: so it removes exactly the
   * elements failing `p`, and keeps every other one, in order.
   */
  lemma {:induction false} KeepIsUnique<T>(r: seq<T>, s: seq<T>, p: T -> bool)
    requires IsSubsequence(r, s)
    requires forall i :: 0 <= i < |r| ==> p(r[i])
    requires |r| == Count(s, p)
    ensures r == Keep(s, p)
  {
    if s == [] {
    } else if r == [] {
      assert Count(s, p) == 0;
      assert |Keep(s, p)| == 0;
    } else if p(s[0]) {
      if r[0] == s[0] && IsSubsequence(r[1..], s[1..]) {
        KeepIsUnique(r[1..], s[1..], p);
        assert r == [r[0]] + r[1..];
      } else {
        SubsequenceCountBound(r, s[1..], p);
        assert false;
      }
    } else {
      assert !(r[0] == s[0]);
      KeepIsUnique(r, s[1..], p);
    }
  }

  /** Filtering with a predicate every element already satisfies changes nothing. */
  lemma {:induction false} KeepAllIsIdentity<T>(s: seq<T>, p: T -> bool)
    requires forall i :: 0 <= i < |s| ==> p(s[i])
    ensures Keep(s, p) == s
  {
    if s != [] {
      KeepAllIsIdentity(s[1..], p);
      assert s == [s[0]] + s[1..];
    }
  }

  /** The filter only keeps elements of the original list, none more often. */
  lemma {:induction false} KeepMultiset<T>(s: seq<T>, p: T -> bool)
    ensures multiset(Keep(s, p)) <= multiset(s)
  {
    if s != [] {
      KeepMultiset(s[1..], p);
      assert s == [s[0]] + s[1..];
    }
  }

  /** The filter keeps every copy of a passing element and no copy of a failing one. */
  lemma {:induction false} KeepMultiplicity<T>(s: seq<T>, p: T -> bool, x: T)
    ensures multiset(Keep(s, p))[x] == if p(x) then multiset(s)[x] else 0
  {
    if s != [] {
      KeepMultiplicity(s[1..], p, x);
      assert s == [s[0]] + s[1..];
    }
  }

  /** Two predicates that agree everywhere filter alike. */
  lemma {:induction false} KeepCongruent<T>(s: seq<T>, p: T -> bool, q: T -> bool)
    requires forall x :: p(x) == q(x)
    ensures Keep(s, p) == Keep(s, q)
  {
    if s != [] {
      KeepCongruent(s[1..], p, q);
    }
  }

  /** A weaker predicate never keeps fewer elements. */
  lemma {:induction false} KeepMonotone<T>(s: seq<T>, p: T -> bool, q: T -> bool)
    requires forall x :: p(x) ==> q(x)
    ensures |Keep(s, p)| <= |Keep(s, q)|
  {
    if s != [] {
      KeepMonotone(s[1..], p, q);
    }
  }

  /** Every element of a subsequence comes from the original sequence. */
  lemma {:induction false} SubsequenceMembers<T>(r: seq<T>, s: seq<T>)
    requires IsSubsequence(r, s)
    ensures forall x :: x in r ==> x in s
  {
    if r != [] {
      if r[0] == s[0] && IsSubsequence(r[1..], s[1..]) {
        SubsequenceMembers(r[1..], s[1..]);
        assert forall x :: x in r ==> x == r[0] || x in r[1..];
      } else {
        SubsequenceMembers(r, s[1..]);
      }
    }
  }

  /** No two elements of `s` carry the same id. */
  ghost predicate DistinctIds<T>(s: seq<T>, idOf: T -> int)
  {
    forall i, j :: 0 <= i < j < |s| ==> idOf(s[i]) != idOf(s[j])
  }

  /** A subsequence of a list with distinct ids has distinct ids. */
  lemma {:induction false} SubsequenceKeepsDistinctIds<T>(r: seq<T>, s: seq<T>, idOf: T -> int)
    requires IsSubsequence(r, s)
    requires DistinctIds(s, idOf)
    ensures DistinctIds(r, idOf)
  {
    if r != [] {
      assert DistinctIds(s[1..], idOf) by {
        forall i, j | 0 <= i < j < |s[1..]| ensures idOf(s[1..][i]) != idOf(s[1..][j]) {
          assert s[1..][i] == s[i + 1] && s[1..][j] == s[j + 1];
        }
      }
      if r[0] == s[0] && IsSubsequence(r[1..], s[1..]) {
        SubsequenceKeepsDistinctIds(r[1..], s[1..], idOf);
        SubsequenceMembers(r[1..], s[1..]);
        forall j | 0 < j < |r| ensures idOf(r[0]) != idOf(r[j]) {
          assert r[j] == r[1..][j - 1];
          assert r[j] in s[1..];
          var k :| 0 <= k < |s[1..]| && s[1..][k] == r[j];
          assert s[k + 1] == r[j];
        }
      } else {
        SubsequenceKeepsDistinctIds(r, s[1..], idOf);
      }
    }
  }

  /**
   * Number of elements of `s` whose id is `id`. This is the count of the
   * complementary predicate to the one delete-by-id keeps. It is written
   * out on its own so that inductions over ids unfold one plain id test
   * per step; `WithoutIdCount` connects it to `Count`.
   */
  function CountId<T>(s: seq<T>, idOf: T -> int, id: int): (n: nat)
    ensures n == 0 <==> forall i :: 0 <= i < |s| ==> idOf(s[i]) != id
  {
    if s == [] then 0
    else (if idOf(s[0]) == id then 1 else 0) + CountId(s[1..], idOf, id)
  }

  /**
   * Delete by id, a filter keeping the records whose id differs: the handler
   * shared by the administration tables and the events page.
   */
  function WithoutId<T>(s: seq<T>, idOf: T -> int, id: int): (r: seq<T>)
    ensures IsSubsequence(r, s)
    ensures forall i :: 0 <= i < |r| ==> idOf(r[i]) != id
    ensures forall i :: 0 <= i < |s| ==> (s[i] in r <==> idOf(s[i]) != id)
    ensures |r| == |s| - CountId(s, idOf, id)
  {
    WithoutIdCount(s, idOf, id);
    Keep(s, x => idOf(x) != id)
  }

  /** Counting the kept elements and the removed ones adds up to the whole list. */
  lemma {:induction false} WithoutIdCount<T>(s: seq<T>, idOf: T -> int, id: int)
    ensures Count(s, x => idOf(x) != id) == |s| - CountId(s, idOf, id)
  {
    if s != [] {
      WithoutIdCount(s[1..], idOf, id);
    }
  }

  /** Deleting an id nobody carries leaves the list as it was. */
  lemma WithoutAbsentId<T>(s: seq<T>, idOf: T -> int, id: int)
    requires forall i :: 0 <= i < |s| ==> idOf(s[i]) != id
    ensures WithoutId(s, idOf, id) == s
  {
    KeepAllIsIdentity(s, x => idOf(x) != id);
  }

  /** Deleting the same id twice is deleting it once. */
  lemma WithoutIdIdempotent<T>(s: seq<T>, idOf: T -> int, id: int)
    ensures WithoutId(WithoutId(s, idOf, id), idOf, id) == WithoutId(s, idOf, id)
  {
    var r := WithoutId(s, idOf, id);
    WithoutAbsentId(r, idOf, id);
  }

  /** Deleting by id never introduces a duplicate id. */
  lemma WithoutIdKeepsDistinctIds<T>(s: seq<T>, idOf: T -> int, id: int)
    requires DistinctIds(s, idOf)
    ensures DistinctIds(WithoutId(s, idOf, id), idOf)
  {
    SubsequenceKeepsDistinctIds(WithoutId(s, idOf, id), s, idOf);
  }
}
