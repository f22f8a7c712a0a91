/**
 * Small shared vocabulary: a nullable value, and facts about sequences that
 * enumerate a set without repetition (how a hash set is walked).
 */
module Basics {

  /** A value that may be absent, standing for a nullable Java reference. */
  datatype Option<+T> = None | Some(value: T)

  /** No element occurs twice in `s`. */
  ghost predicate Distinct<T>(s: seq<T>) {
    forall i, j :: 0 <= i < j < |s| ==> s[i] != s[j]
  }

  /** A repetition-free sequence listing exactly the elements of `S` has the same multiset as `S`. */
  lemma {:induction false} EnumerationMultiset<T>(s: seq<T>, S: set<T>)
    requires Distinct(s)
    requires forall x :: x in s <==> x in S
    ensures multiset(s) == multiset(S)
    ensures |s| == |S|
    decreases |s|
  {
    if s == [] {
      assert forall x :: x !in S;
    } else {
      var rest := S - {s[0]};
      forall x ensures x in s[1..] <==> x in rest {
        if x in s[1..] {
          var k :| 1 <= k < |s| && s[k] == x;
          assert s[0] != s[k];
        }
        if x in rest {
          assert x in s;
          var k :| 0 <= k < |s| && s[k] == x;
          assert k != 0;
          assert s[1..][k - 1] == x;
        }
      }
      assert Distinct(s[1..]) by {
        forall i, j | 0 <= i < j < |s[1..]| ensures s[1..][i] != s[1..][j] {
          assert s[i + 1] != s[j + 1];
        }
      }
      EnumerationMultiset(s[1..], rest);
      assert s == [s[0]] + s[1..];
      assert S == rest + {s[0]};
      assert s[0] !in rest;
      assert multiset(S) == multiset(rest) + multiset{s[0]};
    }
  }

  /** `s` with every element looked up in `m`. */
  function MapSeq<A, B>(m: map<A, B>, s: seq<A>): (r: seq<B>)
    requires forall x :: x in s ==> x in m
    ensures |r| == |s|
    ensures forall i :: 0 <= i < |s| ==> r[i] == m[s[i]]
  {
    seq(|s|, i requires 0 <= i < |s| => m[s[i]])
  }

  /** Lookup distributes over concatenation. */
  lemma MapSeqConcat<A, B>(m: map<A, B>, x: seq<A>, y: seq<A>)
    requires forall e :: e in x ==> e in m
    requires forall e :: e in y ==> e in m
    ensures MapSeq(m, x + y) == MapSeq(m, x) + MapSeq(m, y)
  {
  }

  /** A sequence is its part before `k`, its element at `k` and its part after `k`. */
  lemma SplitAt<T>(s: seq<T>, k: int)
    requires 0 <= k < |s|
    ensures s == s[..k] + ([s[k]] + s[k + 1..])
  {
  }

  /** Removing the element at position `k` removes one occurrence of it from the multiset. */
  lemma MultisetRemoveAt<T>(s: seq<T>, k: int)
    requires 0 <= k < |s|
    ensures multiset(s[..k] + s[k + 1..]) == multiset(s) - multiset{s[k]}
  {
    SplitAt(s, k);
  }

  /** Looking up a sequence without its `k`-th element loses exactly that element's value. */
  lemma MapSeqRemoveAt<A, B>(m: map<A, B>, s: seq<A>, k: int)
    requires forall x :: x in s ==> x in m
    requires 0 <= k < |s|
    ensures forall x :: x in s[..k] + s[k + 1..] ==> x in m
    ensures multiset(MapSeq(m, s)) == multiset(MapSeq(m, s[..k] + s[k + 1..])) + multiset{m[s[k]]}
  {
    var front, back := s[..k], s[k + 1..];
    assert forall x :: x in front ==> x in s;
    assert forall x :: x in back ==> x in s;
    SplitAt(s, k);
    assert MapSeq(m, [s[k]]) == [m[s[k]]];
    MapSeqConcat(m, [s[k]], back);
    MapSeqConcat(m, front, [s[k]] + back);
    MapSeqConcat(m, front, back);
  }

  /** Looking up two rearrangements of the same elements gives rearrangements of the same values. */
  lemma {:induction false} MapSeqPermutation<A, B>(m: map<A, B>, a: seq<A>, b: seq<A>)
    requires forall x :: x in a ==> x in m
    requires forall x :: x in b ==> x in m
    requires multiset(a) == multiset(b)
    ensures multiset(MapSeq(m, a)) == multiset(MapSeq(m, b))
    decreases |a|
  {
    if a == [] {
      assert |multiset(b)| == 0;
    } else {
      assert a[0] in multiset(b);
      var k :| 0 <= k < |b| && b[k] == a[0];
      MultisetRemoveAt(b, k);
      MultisetRemoveAt(a, 0);
      MapSeqRemoveAt(m, b, k);
      MapSeqRemoveAt(m, a, 0);
      assert a[..0] + a[1..] == a[1..];
      MapSeqPermutation(m, a[1..], b[..k] + b[k + 1..]);
    }
  }
}
