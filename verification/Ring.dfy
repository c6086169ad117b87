/** Circular doubly linked rings (`include/mthpc/list.h`), on the heap. A ring is described by the
    sequence of its nodes, from any one of them on. */
module Ring {
  import opened Seqs

  datatype Option<T> = None | Some(value: T)

  /** `entry` stands for `container_of`: the object in which the node is embedded, if any. */
  class ListHead<T> {
    var next: ListHead<T>
    var prev: ListHead<T>
    var entry: Option<T>

    constructor ()
      ensures next == this == prev && entry == None
    {
      next, prev, entry := this, this, None;
    }
  }

  /** `next` and `prev` run through `r` in both directions and close it. */
  ghost predicate Linked<T>(r: seq<ListHead<T>>)
    reads r`next, r`prev
  {
    && |r| > 0
    && (forall i, j :: 0 <= i < j < |r| ==> r[i] != r[j])
    && (forall i {:trigger r[i].next} :: 0 <= i < |r| ==> r[i].next == if i + 1 < |r| then r[i + 1] else r[0])
    && (forall i {:trigger r[i].prev} :: 0 <= i < |r| ==> r[i].prev == if i > 0 then r[i - 1] else r[|r| - 1])
  }

  lemma Neighbours<T>(r: seq<ListHead<T>>, i: nat)
    requires Linked(r) && i < |r|
    ensures r[i].next in r && r[i].prev in r
    ensures |r| > 1 ==> r[i].next in Drop(r, i) && r[i].prev in Drop(r, i)
  {
    var d := Drop(r, i);
    if |r| > 1 {
      assert r[i].next == d[if i + 1 < |r| then i else 0];
      assert r[i].prev == d[if i > 0 then i - 1 else |r| - 2];
    }
  }

  /** `next` and `prev` are inverse to each other all around the ring. */
  lemma Inverse<T>(r: seq<ListHead<T>>, x: ListHead<T>)
    requires Linked(r) && x in r
    ensures x.next.prev == x == x.prev.next
  {
    var i :| 0 <= i < |r| && r[i] == x;
    assert x.next == r[if i + 1 < |r| then i + 1 else 0];
    assert x.prev == r[if i > 0 then i - 1 else |r| - 1];
  }

  /** The pointers determine the sequence: from a given node on there is only one. */
  lemma {:induction false} Same<T>(r: seq<ListHead<T>>, t: seq<ListHead<T>>, k: nat)
    requires Linked(r) && Linked(t) && r[0] == t[0] && k <= |r| && k <= |t|
    ensures r[..k] == t[..k]
  {
    if k > 1 {
      Same(r, t, k - 1);
      assert r[k - 2] == r[..k - 1][k - 2] == t[..k - 1][k - 2] == t[k - 2];
      assert r[k - 2].next == r[k - 1] && t[k - 2].next == t[k - 1];
    }
  }

  lemma Unique<T>(r: seq<ListHead<T>>, t: seq<ListHead<T>>)
    requires Linked(r) && Linked(t) && r[0] == t[0]
    ensures r == t
  {
    var k := if |r| < |t| then |r| else |t|;
    Same(r, t, k);
    assert r[k - 1] == r[..k][k - 1] == t[..k][k - 1] == t[k - 1];
    assert r[k - 1].next == t[k - 1].next;
    assert |r| == |t|;
  }

  method Init<T>(node: ListHead<T>)
    modifies node`next, node`prev
    ensures Linked([node])
  {
    node.next := node;
    node.prev := node;
  }

  method IsEmpty<T>(head: ListHead<T>, ghost r: seq<ListHead<T>>) returns (empty: bool)
    requires Linked(r) && r[0] == head
    ensures empty <==> r == [head]
  {
    empty := head.next == head;
  }

  /** `__mthpc_list_add`, between the last node and the first one of `r`. */
  method Insert<T>(node: ListHead<T>, prev: ListHead<T>, next: ListHead<T>, ghost r: seq<ListHead<T>>)
    requires Linked(r) && r[|r| - 1] == prev && r[0] == next && node !in r
    modifies node`next, node`prev, prev`next, next`prev
    ensures Linked(r + [node])
  {
    next.prev := node;
    node.next := next;
    node.prev := prev;
    prev.next := node;
  }

  lemma Rotate<T>(r: seq<ListHead<T>>, k: nat)
    requires Linked(r) && k < |r|
    ensures Linked(r[k..] + r[..k])
  {
    var t := r[k..] + r[..k];
    forall i | 0 <= i < |t| ensures t[i] == if i < |r| - k then r[i + k] else r[i + k - |r|] {}
  }

  method Add<T>(node: ListHead<T>, head: ListHead<T>, ghost r: seq<ListHead<T>>)
    requires Linked(r) && r[0] == head && node !in r
    modifies node`next, node`prev, head`next, head.next`prev
    ensures Linked([head, node] + r[1..])
  {
    ghost var k := if |r| > 1 then 1 else 0;
    Rotate(r, k);
    ghost var t := r[k..] + r[..k];
    Insert(node, head, head.next, t);
    Rotate(t + [node], |r| - 1);
    assert (t + [node])[|r| - 1..] + (t + [node])[..|r| - 1] == [head, node] + r[1..];
  }

  method AddTail<T>(node: ListHead<T>, head: ListHead<T>, ghost r: seq<ListHead<T>>)
    requires Linked(r) && r[0] == head && node !in r
    modifies node`next, node`prev, head`prev, head.prev`next
    ensures Linked(r + [node])
  {
    Insert(node, head.prev, head, r);
  }

  /** `__mthpc_list_del` on the neighbours of `r[i]`. */
  method Unlink<T>(prev: ListHead<T>, next: ListHead<T>, ghost r: seq<ListHead<T>>, ghost i: nat)
    requires Linked(r) && i < |r| && prev == r[i].prev && next == r[i].next
    modifies prev`next, next`prev
    ensures |r| > 1 ==> Linked(Drop(r, i))
  {
    next.prev := prev;
    prev.next := next;
  }

  /** The rest of the ring closes up and the node is a ring of its own. */
  method Del<T>(node: ListHead<T>, ghost r: seq<ListHead<T>>, ghost i: nat)
    requires Linked(r) && i < |r| && r[i] == node
    modifies node`next, node`prev, node.prev`next, node.next`prev
    ensures |r| > 1 ==> Linked(Drop(r, i))
    ensures Linked([node])
  {
    Unlink(node.prev, node.next, r, i);
    Init(node);
  }

  /** The new node takes the exact place of the old one, also in a ring of one. */
  method Replace<T>(was: ListHead<T>, node: ListHead<T>, ghost r: seq<ListHead<T>>, ghost i: nat)
    requires Linked(r) && i < |r| && r[i] == was && node !in r
    modifies node`next, node`prev, was.prev`next, was.next`prev
    ensures Linked(r[i := node])
  {
    node.next := was.next;
    node.next.prev := node;
    node.prev := was.prev;
    node.prev.next := node;
  }

  method ReplaceInit<T>(was: ListHead<T>, node: ListHead<T>, ghost r: seq<ListHead<T>>, ghost i: nat)
    requires Linked(r) && i < |r| && r[i] == was && node !in r
    modifies node`next, node`prev, was`next, was`prev, was.prev`next, was.next`prev
    ensures Linked(r[i := node]) && Linked([was])
  {
    Replace(was, node, r, i);
    Init(was);
  }

  /** To the front of another ring. */
  method Move<T>(node: ListHead<T>, head: ListHead<T>, ghost r: seq<ListHead<T>>, ghost i: nat,
        ghost to: seq<ListHead<T>>)
    requires Linked(r) && i < |r| && r[i] == node
    requires Linked(to) && to[0] == head && forall x :: x in r ==> x !in to
    modifies node`next, node`prev, node.prev`next, node.next`prev, head`next, head.next`prev
    ensures |r| > 1 ==> Linked(Drop(r, i))
    ensures Linked([head, node] + to[1..])
  {
    Neighbours(r, i);
    Neighbours(to, 0);
    Unlink(node.prev, node.next, r, i);
    assert Linked(to);
    Add(node, head, to);
  }

  /** To the front of its own ring. */
  method MoveWithin<T>(node: ListHead<T>, head: ListHead<T>, ghost r: seq<ListHead<T>>, ghost i: nat)
    requires Linked(r) && 0 < i < |r| && r[0] == head && r[i] == node
    modifies r`next, r`prev
    ensures Linked([head, node] + r[1..i] + r[i + 1..])
  {
    Neighbours(r, i);
    Unlink(node.prev, node.next, r, i);
    Neighbours(Drop(r, i), 0);
    Add(node, head, Drop(r, i));
    assert [head, node] + Drop(r, i)[1..] == [head, node] + r[1..i] + r[i + 1..];
  }

  /** `next` and `prev` run through `r`, whatever they are at its ends. */
  ghost predicate Chain<T>(r: seq<ListHead<T>>)
    reads r`next, r`prev
  {
    && |r| > 0 && Distinct(r)
    && forall i {:trigger r[i].next} :: 0 <= i < |r| - 1 ==> r[i].next == r[i + 1] && r[i + 1].prev == r[i]
  }

  /** Two chains whose ends point to each other are a ring. */
  lemma Closed<T>(b: seq<ListHead<T>>, c: seq<ListHead<T>>)
    requires Chain(b) && Chain(c) && forall x :: x in b ==> x !in c
    requires b[|b| - 1].next == c[0] && c[0].prev == b[|b| - 1] && c[|c| - 1].next == b[0] && b[0].prev == c[|c| - 1]
    ensures Linked(b + c)
  {
    var t := b + c;
    assert Distinct(t) by {
      assert forall i :: 0 <= i < |t| ==> t[i] == (if i < |b| then b[i] else c[i - |b|]);
      assert forall i :: 0 <= i < |b| ==> b[i] in b;
    }
    forall i | 0 <= i < |t|
      ensures t[i].next == if i + 1 < |t| then t[i + 1] else t[0]
    {
      if i >= |b| {
        assert t[i] == c[i - |b|] && (i + 1 < |t| ==> t[i + 1] == c[i - |b| + 1]);
      } else if i + 1 < |b| {
        assert t[i] == b[i] && t[i + 1] == b[i + 1];
      }
    }
    forall i | 0 <= i < |t|
      ensures t[i].prev == if i > 0 then t[i - 1] else t[|t| - 1]
    {
      if i > |b| {
        assert c[i - 1 - |b|].next == c[i - |b|] && t[i] == c[i - |b|] && t[i - 1] == c[i - |b| - 1];
      } else if 0 < i < |b| {
        assert b[i - 1].next == b[i] && t[i] == b[i] && t[i - 1] == b[i - 1];
      }
    }
  }

  /** `__mthpc_list_splice`: the nodes of ring `a` but its head, after the last node of `b`. */
  method SpliceBetween<T>(list: ListHead<T>, prev: ListHead<T>, next: ListHead<T>, ghost a: seq<ListHead<T>>,
        ghost b: seq<ListHead<T>>)
    requires Linked(a) && |a| > 1 && a[0] == list
    requires Linked(b) && b[|b| - 1] == prev && b[0] == next && forall x :: x in a ==> x !in b
    modifies prev`next, next`prev, list.next`prev, list.prev`next
    ensures Linked(b + a[1..])
  {
    var first, last := list.next, list.prev;
    assert first == a[1] && last == a[|a| - 1];
    first.prev := prev;
    prev.next := first;
    last.next := next;
    next.prev := last;
    ghost var c := a[1..];
    assert forall i :: 0 <= i < |c| ==> c[i] == a[i + 1];
    forall i | 0 <= i < |c| - 1 ensures c[i].next == c[i + 1] && c[i + 1].prev == c[i] {
      assert c[i] == a[i + 1] && c[i + 1] == a[i + 2] && a[i + 1] in a && a[i + 2] in a && prev in b && next in b;
      assert old(a[i + 1].next) == a[i + 2] && old(a[i + 2].prev) == a[i + 1];
    }
    forall i | 0 <= i < |b| - 1 ensures b[i].next == b[i + 1] && b[i + 1].prev == b[i] {
      assert b[i] in b && b[i + 1] in b && first in a && last in a;
      assert old(b[i].next) == b[i + 1] && old(b[i + 1].prev) == b[i];
    }
    assert Chain(b) && Chain(c) && forall x :: x in b ==> x !in c;
    assert c[|c| - 1] == last && c[0] == first && last in a && first in a && prev in b && next in b;
    Closed(b, c);
  }

  method Splice<T>(list: ListHead<T>, head: ListHead<T>, ghost a: seq<ListHead<T>>, ghost b: seq<ListHead<T>>)
    requires Linked(a) && a[0] == list
    requires Linked(b) && b[0] == head && forall x :: x in a ==> x !in b
    modifies head`next, head.next`prev, list.next`prev, list.prev`next
    ensures Linked([head] + a[1..] + b[1..])
  {
    var empty := IsEmpty(list, a);
    if !empty {
      ghost var k := if |b| > 1 then 1 else 0;
      Rotate(b, k);
      ghost var t := b[k..] + b[..k];
      SpliceBetween(list, head, head.next, a, t);
      ghost var u := t + a[1..];
      Rotate(u, |b| - 1);
      assert u[|b| - 1..] + u[..|b| - 1] == [head] + a[1..] + b[1..];
    } else {
      assert [head] + a[1..] + b[1..] == b;
    }
  }

  method SpliceTail<T>(list: ListHead<T>, head: ListHead<T>, ghost a: seq<ListHead<T>>, ghost b: seq<ListHead<T>>)
    requires Linked(a) && a[0] == list
    requires Linked(b) && b[0] == head && forall x :: x in a ==> x !in b
    modifies head`prev, head.prev`next, list.next`prev, list.prev`next
    ensures Linked(b + a[1..])
  {
    var empty := IsEmpty(list, a);
    if !empty {
      SpliceBetween(list, head.prev, head, a, b);
    } else {
      assert b + a[1..] == b;
    }
  }
}
