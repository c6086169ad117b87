/** The registry of RCU nodes on the heap: `mthpc_rcu_add` and `mthpc_rcu_del` of
    `src/rcu/rcu.c`, which walk the list through a pointer to the pointer to the current node,
    and the read-side operations of `include/mthpc/rcu.h` on a node's word. */
module RcuRegistry {
  import opened Seqs
  import opened RcuWord

  class RcuNode {
    const id: nat
    var gpSeq: bv64
    var next: RcuNode?

    constructor (id: nat)
      ensures this.id == id && gpSeq == 0 && next == null
    {
      this.id, gpSeq, next := id, 0, null;
    }

    /** `mthpc_rcu_read_lock_internal`, with `gp` the value that the load of `data->gp_seq` gives. */
    method ReadLock(gp: bv64)
      requires Depth(gpSeq) < MAX_DEPTH
      modifies this`gpSeq
      ensures old(Active(gpSeq)) ==>
                Depth(gpSeq) == old(Depth(gpSeq)) + 1 && Bit(gpSeq) == old(Bit(gpSeq)) && Active(gpSeq)
      ensures !old(Active(gpSeq)) ==> gpSeq == gp
    {
      var nodeGp := gpSeq;
      if !Active(nodeGp) {
        gpSeq := gp;
      } else {
        IncWord(nodeGp);
        gpSeq := Inc(gpSeq);
      }
    }

    /** `mthpc_rcu_read_unlock_internal`; its two branches differ in memory order only. */
    method ReadUnlock()
      requires Active(gpSeq)
      modifies this`gpSeq
      ensures Depth(gpSeq) + 1 == old(Depth(gpSeq)) && Bit(gpSeq) == old(Bit(gpSeq))
    {
      DecWord(gpSeq);
      gpSeq := Dec(gpSeq);
    }

    /** A lock and its unlock restore the depth, and inside a section the phase. */
    method LockUnlock(gp: bv64)
      requires Depth(gpSeq) < MAX_DEPTH && Active(gp) && Depth(gp) == 1
      modifies this`gpSeq
      ensures Depth(gpSeq) == old(Depth(gpSeq))
      ensures old(Active(gpSeq)) ==> Bit(gpSeq) == old(Bit(gpSeq))
    {
      hide Depth, Active, Bit;
      ActiveIsDepth(gpSeq);
      ReadLock(gp);
      ReadUnlock();
    }
  }

  // ---------------------------------------------------------------- specification

  /** Position of the first node with this id, or the length of the list. */
  function Find(ids: seq<nat>, id: nat): (k: nat)
    ensures k <= |ids| && id !in ids[..k] && (k < |ids| ==> ids[k] == id)
  {
    if ids == [] || ids[0] == id then 0 else 1 + Find(ids[1..], id)
  }

  lemma {:induction false} FindIs(ids: seq<nat>, id: nat, k: nat)
    requires k <= |ids| && (forall j :: 0 <= j < k ==> ids[j] != id) && (k < |ids| ==> ids[k] == id)
    ensures Find(ids, id) == k
  {
    if k > 0 {
      FindIs(ids[1..], id, k - 1);
    }
  }

  function Ids(nodes: seq<RcuNode>): (r: seq<nat>)
    ensures |r| == |nodes| && forall i :: 0 <= i < |r| ==> r[i] == nodes[i].id
  {
    seq(|nodes|, i requires 0 <= i < |nodes| => nodes[i].id)
  }

  /** `mthpc_rcu_add` takes the thread id as an `unsigned int`. */
  function NodeId(tid: nat): nat {
    tid % 0x1_0000_0000
  }

  /** The ids after adding one. */
  function AddId(ids: seq<nat>, id: nat): seq<nat> {
    if Find(ids, id) < |ids| then ids else ids + [id]
  }

  /** The id has 32 bits and differs from the thread's by a multiple of 2^32. */
  lemma NodeIdIs(tid: nat)
    ensures NodeId(tid) < 0x1_0000_0000 && exists k: nat :: tid == NodeId(tid) + k * 0x1_0000_0000
  {
    assert tid == NodeId(tid) + (tid / 0x1_0000_0000) * 0x1_0000_0000;
  }

  lemma SameId(tid1: nat, tid2: nat)
    ensures NodeId(tid1) == NodeId(tid2) <==> exists k: int :: tid1 - tid2 == k * 0x1_0000_0000
  {
    NodeIdIs(tid1);
    NodeIdIs(tid2);
    var k1: nat :| tid1 == NodeId(tid1) + k1 * 0x1_0000_0000;
    var k2: nat :| tid2 == NodeId(tid2) + k2 * 0x1_0000_0000;
    if NodeId(tid1) == NodeId(tid2) {
      assert tid1 - tid2 == (k1 - k2) * 0x1_0000_0000;
    }
  }

  /** Two threads that register one after the other share a node exactly if their ids differ by a
      multiple of 2^32; whatever else is registered. */
  lemma SharedNodeIff(ids: seq<nat>, tid1: nat, tid2: nat)
    requires Distinct(ids)
    ensures var ids1 := AddId(ids, NodeId(tid1));
            var ids2 := AddId(ids1, NodeId(tid2));
            Find(ids2, NodeId(tid1)) == Find(ids2, NodeId(tid2)) <==> exists k: int :: tid1 - tid2 == k * 0x1_0000_0000
  {
    SameId(tid1, tid2);
    var ids1 := AddId(ids, NodeId(tid1));
    var ids2 := AddId(ids1, NodeId(tid2));
    FindBound(ids, NodeId(tid1));
    FindBound(ids1, NodeId(tid2));
    FindBound(ids2, NodeId(tid1));
    FindBound(ids2, NodeId(tid2));
  }

  lemma FindBound(ids: seq<nat>, id: nat)
    ensures Find(ids, id) < |ids| <==> id in ids
    ensures id in AddId(ids, id) && forall x :: x in ids ==> x in AddId(ids, id)
  {
    assert ids[..|ids|] == ids;
  }

  lemma DistinctNodes(nodes: seq<RcuNode>)
    requires Distinct(Ids(nodes))
    ensures forall i, j :: 0 <= i < j < |nodes| ==> nodes[i] != nodes[j]
  {
    forall i, j | 0 <= i < j < |nodes| ensures nodes[i] != nodes[j] {
      assert Ids(nodes)[i] != Ids(nodes)[j];
    }
  }

  lemma DistinctAppend(nodes: seq<RcuNode>, node: RcuNode)
    requires Distinct(Ids(nodes)) && node.id !in Ids(nodes)
    ensures Distinct(Ids(nodes + [node]))
  {
  }

  lemma DistinctDrop(nodes: seq<RcuNode>, k: nat)
    requires Distinct(Ids(nodes)) && k < |nodes|
    ensures Distinct(Ids(Drop(nodes, k)))
    ensures |Drop(nodes, k)| == |nodes| - 1
    ensures forall j :: 0 <= j < |nodes| - 1 ==> Drop(nodes, k)[j] == nodes[if j < k then j else j + 1]
  {
  }

  class RcuData {
    var head: RcuNode?
    ghost var nodes: seq<RcuNode>   // the list at head

    /** The list, with pairwise distinct ids. */
    ghost predicate Valid()
      reads this, nodes
    {
      && Distinct(Ids(nodes))
      && head == At(0)
      && forall i {:trigger nodes[i].next} :: 0 <= i < |nodes| ==> nodes[i].next == At(i + 1)
    }

    ghost function At(i: nat): RcuNode?
      reads this
    {
      if i < |nodes| then nodes[i] else null
    }

    constructor ()
      ensures Valid() && nodes == []
    {
      head, nodes := null, [];
    }

    /** The pointer that `indirect` points to: the head, or the `next` of a node. */
    function Deref(indirect: RcuNode?): RcuNode?
      reads this, indirect
    {
      if indirect == null then head else indirect.next
    }

    /** The walk that both operations share: `indirect` ends at the pointer to the node with this
        id, or at the null pointer that ends the list. */
    method Walk(id: nat) returns (indirect: RcuNode?, ghost i: nat)
      requires Valid()
      ensures i == Find(Ids(nodes), id)
      ensures indirect == (if i == 0 then null else nodes[i - 1])
      ensures Deref(indirect) == At(i)
    {
      indirect, i := null, 0;
      while Deref(indirect) != null && Deref(indirect).id != id
        invariant i <= |nodes|
        invariant indirect == (if i == 0 then null else nodes[i - 1])
        invariant forall j :: 0 <= j < i ==> nodes[j].id != id
        decreases |nodes| - i
      {
        indirect := Deref(indirect);
        i := i + 1;
      }
      FindIs(Ids(nodes), id, i);
    }

    /** `*indirect = node` at the end of the list. */
    method Link(indirect: RcuNode?, node: RcuNode)
      requires Valid() && indirect == (if |nodes| == 0 then null else nodes[|nodes| - 1])
      requires node !in nodes && node.next == null && node.id !in Ids(nodes)
      modifies this, nodes`next
      ensures Valid() && nodes == old(nodes) + [node]
    {
      DistinctNodes(nodes);
      DistinctAppend(nodes, node);
      hide Distinct, Ids;
      if indirect == null {
        head := node;
      } else {
        indirect.next := node;
      }
      nodes := nodes + [node];
    }

    /** `*indirect = (*indirect)->next` at the node with index `i`. */
    method Unlink(indirect: RcuNode?, ghost i: nat)
      requires Valid() && i < |nodes| && indirect == (if i == 0 then null else nodes[i - 1])
      modifies this, nodes`next
      ensures Valid() && nodes == Drop(old(nodes), i)
    {
      DistinctNodes(nodes);
      DistinctDrop(nodes, i);
      hide Distinct, Ids, Drop;
      if indirect == null {
        head := head.next;
      } else {
        indirect.next := indirect.next.next;
      }
      nodes := Drop(nodes, i);
    }

    /** `mthpc_rcu_add`: append a node with this id, or return the node that already has it. No
        word changes. */
    method Add(id: nat) returns (rev: RcuNode)
      requires Valid()
      modifies this, nodes`next
      ensures Valid()
      ensures var k := Find(Ids(old(nodes)), id);
              if k < |old(nodes)| then nodes == old(nodes) && rev == nodes[k]
              else nodes == old(nodes) + [rev] && fresh(rev) && rev.gpSeq == 0
      ensures rev.id == id
    {
      hide Find, Distinct;
      var node := new RcuNode(id);
      var indirect, i := Walk(id);
      FindBound(Ids(nodes), id);
      if Deref(indirect) != null {
        return Deref(indirect);
      }
      Link(indirect, node);
      rev := node;
    }

    /** `mthpc_rcu_del`: unlink the node with this id; the result says whether there was one. No
        word changes. */
    method Del(id: nat) returns (found: bool)
      requires Valid()
      modifies this, nodes`next
      ensures Valid()
      ensures found == (id in Ids(old(nodes)))
      ensures var k := Find(Ids(old(nodes)), id);
              nodes == if k < |old(nodes)| then Drop(old(nodes), k) else old(nodes)
    {
      hide Find, Distinct;
      var indirect, i := Walk(id);
      FindBound(Ids(nodes), id);
      found := Deref(indirect) != null;
      if found {
        Unlink(indirect, i);
      }
    }

    /** `mthpc_rcu_thread_init` of a thread without a node. */
    method ThreadInit(tid: nat) returns (rev: RcuNode)
      requires Valid()
      modifies this, nodes`next
      ensures Valid() && rev in nodes && rev.id == NodeId(tid)
      ensures rev.id < 0x1_0000_0000 && exists k: nat :: tid == rev.id + k * 0x1_0000_0000
      ensures Ids(nodes) == AddId(Ids(old(nodes)), NodeId(tid))
    {
      NodeIdIs(tid);
      rev := Add(NodeId(tid));
      ghost var k := Find(Ids(old(nodes)), NodeId(tid));
      if k < |old(nodes)| {
        assert rev == nodes[k];
      } else {
        assert rev == nodes[|nodes| - 1];
      }
    }
  }
}
