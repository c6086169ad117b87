/** Lists without repetition, from which one element is taken out, and the sizes of finite sets. */
module Seqs {

  ghost predicate Distinct<T>(s: seq<T>) {
    forall i, j :: 0 <= i < j < |s| ==> s[i] != s[j]
  }

  /** `s` without its element `i`. */
  function Drop<T>(s: seq<T>, i: nat): seq<T>
    requires i < |s|
  {
    s[..i] + s[i + 1..]
  }

  lemma DropIs<T>(s: seq<T>, i: nat)
    requires Distinct(s) && i < |s|
    ensures var r := Drop(s, i);
            && Distinct(r) && |r| == |s| - 1 && (forall x :: x in r <==> x in s && x != s[i])
            && (forall k :: 0 <= k < |r| ==> r[k] == s[if k < i then k else k + 1])
  {
    var r := Drop(s, i);
    forall x | x in s && x != s[i] ensures x in r {
      var k :| 0 <= k < |s| && s[k] == x;
      assert r[if k < i then k else k - 1] == x;
    }
  }

  lemma {:induction false} SubsetSize<T>(x: set<T>, y: set<T>)
    requires x <= y
    ensures |x| <= |y| && (|x| == |y| ==> x == y)
  {
    if x != {} {
      var e :| e in x;
      SubsetSize(x - {e}, y - {e});
    }
  }

  /** A list without repetition is no longer than a set that holds its elements is large. */
  lemma {:induction false} DistinctSize<T>(s: seq<T>, y: set<T>)
    requires Distinct(s) && forall i :: 0 <= i < |s| ==> s[i] in y
    ensures |s| <= |y|
  {
    if s != [] {
      DistinctSize(s[1..], y - {s[0]});
    }
  }

  /** `q` without the first `y`. */
  function Without(q: seq<nat>, y: nat): seq<nat> {
    if q == [] then [] else if q[0] == y then q[1..] else [q[0]] + Without(q[1..], y)
  }

  lemma {:induction false} WithoutLength(q: seq<nat>, y: nat)
    ensures |Without(q, y)| == if y in q then |q| - 1 else |q|
  {
    if q != [] && q[0] != y {
      WithoutLength(q[1..], y);
    }
  }

  lemma {:induction false} WithoutMembers(q: seq<nat>, y: nat, x: nat)
    requires Distinct(q)
    ensures x in Without(q, y) <==> x in q && x != y
  {
    if q != [] {
      assert q == [q[0]] + q[1..];
      if q[0] != y {
        WithoutMembers(q[1..], y, x);
      }
    }
  }

  lemma {:induction false} WithoutDistinct(q: seq<nat>, y: nat, i: nat, j: nat)
    requires Distinct(q)
    requires i < j < |Without(q, y)|
    ensures Without(q, y)[i] != Without(q, y)[j]
  {
    if q[0] != y {
      if i > 0 {
        WithoutDistinct(q[1..], y, i - 1, j - 1);
      } else {
        WithoutMembers(q[1..], y, q[0]);
      }
    }
  }

  lemma WithoutIs(q: seq<nat>, y: nat)
    requires Distinct(q)
    ensures |Without(q, y)| == if y in q then |q| - 1 else |q|
    ensures forall x :: x in Without(q, y) <==> x in q && x != y
    ensures Distinct(Without(q, y))
  {
    hide Without;
    WithoutLength(q, y);
    forall x ensures x in Without(q, y) <==> x in q && x != y {
      if x in q || x in Without(q, y) {
        WithoutMembers(q, y, x);
      }
    }
    forall i, j | 0 <= i < j < |Without(q, y)| ensures Without(q, y)[i] != Without(q, y)[j] {
      WithoutDistinct(q, y, i, j);
    }
  }
}
