/** Taskflows on the heap (`src/taskflow/taskflow.c`): a ring of main tasks, each with the ring of
    its sub-tasks, and the operations that relink them. Module Phases says what they do to the
    phases. */
module Taskflow {
  import opened Seqs
  import opened Ring
  import opened Phases

  /** The flow and the sub-task bit, packed in one word in the source, are two fields here. */
  class Task {
    const tf: Flow
    const node: ListHead<Task>      // list_node
    const subNode: ListHead<Task>   // sub_task_list_head
    var isSub: bool
    var nr: int                     // nr_sub_task
    var main: Task?                 // main_task

    constructor (tf: Flow)
      ensures this.tf == tf && !isSub && nr == 1 && main == null
      ensures fresh(node) && fresh(subNode) && Linked([node]) && Linked([subNode]) && Owns(this)
    {
      this.tf := tf;
      node := new ListHead();
      subNode := new ListHead();
      isSub, nr, main := false, 1, null;
      new;
      node.entry := Some(this);
      subNode.entry := Some(this);
    }
  }

  class Flow {
    const head: ListHead<Task>      // list_head
    var nrTask: nat

    constructor ()
      ensures fresh(head) && Linked([head]) && head.entry == None && nrTask == 0
    {
      head := new ListHead();
      nrTask := 0;
    }
  }

  ghost predicate Owns(t: Task)
    reads t.node`entry, t.subNode`entry
  {
    t.node.entry == Some(t) && t.subNode.entry == Some(t) && t.node != t.subNode
  }

  ghost function Heads(ts: set<Task>): set<ListHead<Task>> {
    (set t | t in ts :: t.node) + (set t | t in ts :: t.subNode)
  }

  ghost predicate Inside(ph: seq<seq<Task>>, ts: set<Task>) {
    forall p, i :: 0 <= p < |ph| && 0 <= i < |ph[p]| ==> ph[p][i] in ts
  }

  ghost predicate NonEmpty(ph: seq<seq<Task>>) {
    forall p :: 0 <= p < |ph| ==> |ph[p]| > 0
  }

  function SubRing(s: seq<Task>): (r: seq<ListHead<Task>>)
    ensures |r| == |s| && forall i :: 0 <= i < |s| ==> r[i] == s[i].subNode
  {
    seq(|s|, i requires 0 <= i < |s| => s[i].subNode)
  }

  function Lead(head: ListHead<Task>, s: seq<Task>): ListHead<Task> {
    if |s| > 0 then s[0].node else head
  }

  function MainRing(head: ListHead<Task>, ph: seq<seq<Task>>): (r: seq<ListHead<Task>>)
    ensures |r| == |ph| + 1 && r[0] == head
    ensures forall p :: 0 <= p < |ph| ==> r[p + 1] == Lead(head, ph[p])
  {
    [head] + seq(|ph|, p requires 0 <= p < |ph| => Lead(head, ph[p]))
  }

  /** Every task is at one place, and the nodes of the rings are those of the tasks in `ts`. */
  ghost predicate Placed(head: ListHead<Task>, ph: seq<seq<Task>>, ts: set<Task>)
    reads head`entry, Heads(ts)`entry
  {
    && Ok(ph) && Inside(ph, ts) && NonEmpty(ph)
    && head.entry == None && (forall t :: t in ts ==> Owns(t))
  }

  ghost function SubNodes(s: seq<seq<Task>>): set<ListHead<Task>> {
    set p, i | 0 <= p < |s| && 0 <= i < |s[p]| :: s[p][i].subNode
  }

  function Nodes(r: seq<ListHead<Task>>): set<ListHead<Task>> {
    set x | x in r
  }

  lemma SubAt(s: seq<Task>, j: nat)
    requires j < |s|
    ensures |SubRing(s)| == |s| && SubRing(s)[j] == s[j].subNode
  {
  }

  lemma InSubNodes(s: seq<seq<Task>>, p: nat)
    requires p < |s|
    ensures forall x :: x in SubRing(s[p]) ==> x in SubNodes(s)
  {
    forall x | x in SubRing(s[p]) ensures x in SubNodes(s) {
      var i :| 0 <= i < |s[p]| && SubRing(s[p])[i] == x;
    }
  }

  /** The rings are as the phases say. */
  ghost predicate Shape(head: ListHead<Task>, ph: seq<seq<Task>>, ts: set<Task>)
    reads head`entry, Heads(ts)`entry, MainRing(head, ph)`next, MainRing(head, ph)`prev, SubNodes(ph)`next, SubNodes(ph)`prev
  {
    && Linked(MainRing(head, ph))
    && (forall p :: 0 <= p < |ph| ==> (InSubNodes(ph, p); Linked(SubRing(ph[p]))))
    && Placed(head, ph, ts)
  }

  function ListRing(list: ListHead<Task>, adding: seq<Task>): seq<ListHead<Task>> {
    [list] + SubRing(adding)
  }

  /** The tasks collected in a local list, linked by their `subNode`. */
  ghost predicate Listed(list: ListHead<Task>, adding: seq<Task>, ts: set<Task>)
    reads list`next, list`prev, list`entry, Heads(ts)`next, Heads(ts)`prev, Heads(ts)`entry
  {
    && list.entry == None && (forall i :: 0 <= i < |adding| ==> adding[i] in ts)
    && Linked(ListRing(list, adding))
  }

  ghost function Tasks(ph: seq<seq<Task>>): set<Task> {
    set p, i | 0 <= p < |ph| && 0 <= i < |ph[p]| :: ph[p][i]
  }

  ghost predicate Counts(ph: seq<seq<Task>>)
    reads Tasks(ph)`nr
  {
    forall p :: 0 <= p < |ph| && |ph[p]| > 0 ==> ph[p][0].nr == |ph[p]|
  }

  ghost predicate Flags(ph: seq<seq<Task>>)
    reads Tasks(ph)`isSub, Tasks(ph)`main
  {
    forall p, i :: 0 <= p < |ph| && 0 <= i < |ph[p]| ==>
      ph[p][i].isSub == (i > 0) && ph[p][i].main == if i > 0 then ph[p][0] else null
  }

  /** How the fields of the tasks differ from what their places say: the tasks in `stale` have the
      flag of a sub-task and this main task; `extra` is by how much a task's count is above the
      size of its phase, for a main task, or above one. */
  datatype Off = Off(stale: map<Task, Task?>, extra: map<Task, int>) {
    function Extra(t: Task): int { if t in extra then extra[t] else 0 }
  }

  ghost predicate Counted(g: Gathered<Task>, off: Off)
    reads Tasks(g.phases)`nr, g.adding`nr
  {
    && (forall p, i :: 0 <= p < |g.phases| && 0 <= i < |g.phases[p]| ==>
          g.phases[p][i].nr == (if i == 0 then |g.phases[p]| else 1) + off.Extra(g.phases[p][i]))
    && (forall t :: t in g.adding ==> t.nr == 1 + off.Extra(t))
  }

  ghost predicate Flagged(ph: seq<seq<Task>>, off: Off)
    reads Tasks(ph)`isSub, Tasks(ph)`main
  {
    forall p, i :: 0 <= p < |ph| && 0 <= i < |ph[p]| ==>
      var t := ph[p][i];
      if t in off.stale then t.isSub && t.main == off.stale[t]
      else t.isSub == (i > 0) && t.main == if i > 0 then ph[p][0] else null
  }

  /** No count is off, no flag and no main task is. */
  predicate CountsOk(ph: seq<seq<Task>>, off: Off) {
    forall p :: 0 <= p < |ph| && |ph[p]| > 0 ==> off.Extra(ph[p][0]) == 0
  }

  ghost predicate FlagsOk(ph: seq<seq<Task>>, off: Off) {
    forall p, i :: 0 <= p < |ph| && 0 <= i < |ph[p]| && ph[p][i] in off.stale ==> i > 0 && off.stale[ph[p][i]] == ph[p][0]
  }

  lemma OkIff(ph: seq<seq<Task>>, off: Off)
    requires Fields(Gathered(ph, []), off)
    ensures (CountsOk(ph, off) <==> Counts(ph)) && (FlagsOk(ph, off) <==> Flags(ph))
  {
  }

  /** A collected task. */
  ghost predicate Loose(adding: seq<Task>)
    reads adding`isSub, adding`main
  {
    forall t :: t in adding ==> t.isSub && t.main == null
  }

  // ---------------------------------------------------------------- rings do not share nodes

  lemma SubOwner(s: seq<Task>, x: ListHead<Task>)
    requires x in SubRing(s) && forall i :: 0 <= i < |s| ==> Owns(s[i])
    ensures exists i :: 0 <= i < |s| && x == s[i].subNode && x.entry == Some(s[i]) && x != s[i].node
  {
    var i :| 0 <= i < |s| && SubRing(s)[i] == x;
    assert Owns(s[i]);
  }

  lemma SubRingsApart(a: seq<Task>, b: seq<Task>)
    requires (forall i :: 0 <= i < |a| ==> Owns(a[i])) && (forall i :: 0 <= i < |b| ==> Owns(b[i]))
    requires forall i, j :: 0 <= i < |a| && 0 <= j < |b| ==> a[i] != b[j]
    ensures forall x :: x in SubRing(a) ==> x !in SubRing(b)
  {
    forall x | x in SubRing(a) ensures x !in SubRing(b) {
      SubOwner(a, x);
      if x in SubRing(b) { SubOwner(b, x); }
    }
  }

  lemma MainRingApart(head: ListHead<Task>, ph: seq<seq<Task>>, b: seq<Task>)
    requires NonEmpty(ph) && head.entry == None
    requires (forall p :: 0 <= p < |ph| ==> Owns(ph[p][0])) && (forall i :: 0 <= i < |b| ==> Owns(b[i]))
    ensures forall x :: x in MainRing(head, ph) ==> x !in SubRing(b)
  {
    forall x | x in SubRing(b) ensures x !in MainRing(head, ph) {
      SubOwner(b, x);
      forall k | 0 <= k < |ph| + 1 ensures MainRing(head, ph)[k] != x {
        if k > 0 { assert Owns(ph[k - 1][0]); }
      }
    }
  }

  lemma SubRingDrop(s: seq<Task>, i: nat)
    requires i < |s|
    ensures SubRing(Drop(s, i)) == Drop(SubRing(s), i)
  {
  }

  twostate lemma StaysLinked(r: seq<ListHead<Task>>)
    requires old(Linked(r))
    requires forall x :: x in r ==> x.next == old(x.next) && x.prev == old(x.prev)
    ensures Linked(r)
  {
  }

  datatype Flowing = Flowing(head: ListHead<Task>, ph: seq<seq<Task>>, ts: set<Task>)

  twostate lemma PlacedStays(w: Flowing)
    requires old(Placed(w.head, w.ph, w.ts))
    requires forall x :: x in Heads(w.ts) + {w.head} ==> x.entry == old(x.entry)
    ensures Placed(w.head, w.ph, w.ts)
  {
  }

  datatype Marked = Marked(g: Gathered<Task>, off: Off)

  twostate lemma FlaggedStays(m: Marked)
    requires old(Flagged(m.g.phases, m.off))
    requires forall t :: t in Tasks(m.g.phases) ==> t.isSub == old(t.isSub) && t.main == old(t.main)
    ensures Flagged(m.g.phases, m.off)
  {
  }

  twostate lemma CountedStays(m: Marked)
    requires old(Counted(m.g, m.off))
    requires forall t :: t in Tasks(m.g.phases) || t in m.g.adding ==> t.nr == old(t.nr)
    ensures Counted(m.g, m.off)
  {
  }

  twostate lemma SinglesStay(s: seq<Task>)
    requires old(forall j :: 0 <= j < |s| ==> Linked([s[j].subNode]))
    requires forall j :: 0 <= j < |s| ==> s[j].subNode.next == old(s[j].subNode.next) && s[j].subNode.prev == old(s[j].subNode.prev)
    ensures forall j :: 0 <= j < |s| ==> Linked([s[j].subNode])
  {
  }

  /** No sub node is touched. */
  twostate lemma SubsStay(s: seq<seq<Task>>)
    requires old(forall p :: 0 <= p < |s| ==> Linked(SubRing(s[p])))
    requires forall x :: x in SubNodes(s) ==> x.next == old(x.next) && x.prev == old(x.prev)
    ensures forall p :: 0 <= p < |s| ==> Linked(SubRing(s[p]))
  {
    forall p: nat | p < |s| ensures Linked(SubRing(s[p])) {
      InSubNodes(s, p);
      StaysLinked(SubRing(s[p]));
    }
  }

  lemma SubNodesInside(head: ListHead<Task>, ph: seq<seq<Task>>, ts: set<Task>)
    requires Placed(head, ph, ts)
    ensures SubNodes(ph) <= Heads(ts)
  {
  }

  twostate lemma ShapeStays(w: Flowing)
    requires old(Shape(w.head, w.ph, w.ts))
    requires forall x :: x in Heads(w.ts) + {w.head} ==> x.next == old(x.next) && x.prev == old(x.prev) && x.entry == old(x.entry)
    ensures Shape(w.head, w.ph, w.ts)
  {
    hide Ok, Inside, NonEmpty, Owns, Linked, Placed;
    PlacedStays(w);
    InsideMains(w.head, w.ph, w.ts);
    SubNodesInside(w.head, w.ph, w.ts);
    StaysLinked(MainRing(w.head, w.ph));
    SubsStay(w.ph);
  }

  lemma InsideOne(head: ListHead<Task>, ph: seq<seq<Task>>, ts: set<Task>, p: nat)
    requires Placed(head, ph, ts) && p < |ph|
    ensures forall x :: x in SubRing(ph[p]) ==> x in Heads(ts)
    ensures forall i :: 0 <= i < |ph[p]| ==> ph[p][i] in ts && Owns(ph[p][i])
  {
    forall x | x in SubRing(ph[p]) ensures x in Heads(ts) {
      var i :| 0 <= i < |ph[p]| && SubRing(ph[p])[i] == x;
      assert ph[p][i] in ts;
    }
  }

  lemma InsideMains(head: ListHead<Task>, ph: seq<seq<Task>>, ts: set<Task>)
    requires Placed(head, ph, ts)
    ensures forall x :: x in MainRing(head, ph) ==> x in Heads(ts) || x == head
    ensures forall p :: 0 <= p < |ph| ==> Owns(ph[p][0])
  {
    forall x | x in MainRing(head, ph) ensures x in Heads(ts) || x == head {
      var k :| 0 <= k < |ph| + 1 && MainRing(head, ph)[k] == x;
      if k > 0 { assert ph[k - 1][0] in ts; }
    }
  }

  lemma PhasesApart(head: ListHead<Task>, ph: seq<seq<Task>>, ts: set<Task>, p: nat, q: nat)
    requires Placed(head, ph, ts) && p < |ph| && q < |ph| && p != q
    ensures forall x :: x in SubRing(ph[q]) ==> x !in SubRing(ph[p]) && x in Heads(ts)
  {
    InsideOne(head, ph, ts, p);
    InsideOne(head, ph, ts, q);
    SubRingsApart(ph[q], ph[p]);
  }

  lemma MainsApart(head: ListHead<Task>, ph: seq<seq<Task>>, ts: set<Task>, p: nat)
    requires Placed(head, ph, ts) && p < |ph|
    ensures forall x :: x in MainRing(head, ph) ==> x !in SubRing(ph[p]) && (x in Heads(ts) || x == head)
  {
    InsideOne(head, ph, ts, p);
    InsideMains(head, ph, ts);
    MainRingApart(head, ph, ph[p]);
  }

  // ---------------------------------------------------------------- mthpc_taskflow_rlist_del

  lemma RemovedPlaced(head: ListHead<Task>, ph: seq<seq<Task>>, ts: set<Task>, p: nat, i: nat)
    requires Placed(head, ph, ts) && p < |ph| && i < |ph[p]|
    ensures Placed(head, RemoveAt(ph, p, i), ts)
  {
    RemovedOk(ph, p, i);
    var r := RemoveAt(ph, p, i);
    forall q, j | 0 <= q < |r| && 0 <= j < |r[q]| ensures r[q][j] in ts {
      var a, b := RemovedFrom(ph, p, i, q, j);
    }
  }

  lemma RemovedSub(head: ListHead<Task>, ph: seq<seq<Task>>, p: nat, i: nat)
    requires p < |ph| && 0 < i < |ph[p]|
    ensures var r := RemoveAt(ph, p, i);
            && |r| == |ph| && MainRing(head, r) == MainRing(head, ph)
            && SubRing(r[p]) == Drop(SubRing(ph[p]), i)
            && (forall q :: 0 <= q < |ph| && q != p ==> r[q] == ph[q])
  {
    SubRingDrop(ph[p], i);
  }

  lemma RemovedSubShape(head: ListHead<Task>, ph: seq<seq<Task>>, p: nat, i: nat, ts: set<Task>)
    requires Placed(head, ph, ts) && p < |ph| && 0 < i < |ph[p]|
    requires Linked(MainRing(head, ph)) && Linked(Drop(SubRing(ph[p]), i))
    requires forall q :: 0 <= q < |ph| && q != p ==> Linked(SubRing(ph[q]))
    ensures Shape(head, RemoveAt(ph, p, i), ts)
  {
    RemovedPlaced(head, ph, ts, p, i);
    hide Linked, Placed, Ok, RemoveAt, SubRing, MainRing, Drop;
    RemovedSub(head, ph, p, i);
  }

  /** A sub-task leaves its ring. */
  method UnlinkSub(t: Task, ghost head: ListHead<Task>, ghost ph: seq<seq<Task>>, ghost p: nat, ghost i: nat,
        ghost ts: set<Task>)
    requires Shape(head, ph, ts) && p < |ph| && 0 < i < |ph[p]| && t == ph[p][i]
    modifies SubRing(ph[p])`next, SubRing(ph[p])`prev
    ensures Shape(head, RemoveAt(ph, p, i), ts) && Linked([t.subNode])
  {
    ghost var r := SubRing(ph[p]);
    InsideOne(head, ph, ts, p);
    Neighbours(r, i);
    label L:
    Del(t.subNode, r, i);
    assert Linked(Drop(r, i));
    MainsApart(head, ph, ts, p);
    StaysLinked@L(MainRing(head, ph));
    forall q: nat | q < |ph| && q != p ensures Linked(SubRing(ph[q])) {
      PhasesApart(head, ph, ts, p, q);
      StaysLinked@L(SubRing(ph[q]));
    }
    RemovedSubShape(head, ph, p, i, ts);
  }

  lemma MainRingDrop(head: ListHead<Task>, ph: seq<seq<Task>>, p: nat)
    requires p < |ph|
    ensures MainRing(head, Drop(ph, p)) == Drop(MainRing(head, ph), p + 1)
  {
    hide Lead;
  }

  lemma RemovedMain(head: ListHead<Task>, ph: seq<seq<Task>>, p: nat)
    requires p < |ph| && |ph[p]| == 1
    ensures var r := RemoveAt(ph, p, 0);
            && MainRing(head, r) == Drop(MainRing(head, ph), p + 1)
            && |r| == |ph| - 1
            && (forall q :: 0 <= q < |r| ==> r[q] == ph[if q < p then q else q + 1])
  {
    MainRingDrop(head, ph, p);
  }

  lemma RemovedMainShape(head: ListHead<Task>, ph: seq<seq<Task>>, p: nat, ts: set<Task>)
    requires Placed(head, ph, ts) && p < |ph| && |ph[p]| == 1
    requires Linked(Drop(MainRing(head, ph), p + 1))
    requires forall q :: 0 <= q < |ph| ==> Linked(SubRing(ph[q]))
    ensures Shape(head, RemoveAt(ph, p, 0), ts)
  {
    RemovedPlaced(head, ph, ts, p, 0);
    RemovedMain(head, ph, p);
    hide Linked, Placed, Ok, RemoveAt, SubRing, MainRing, Drop;
  }

  lemma SubNodesApart(head: ListHead<Task>, ph: seq<seq<Task>>, ts: set<Task>)
    requires Placed(head, ph, ts)
    ensures forall x :: x in SubNodes(ph) ==> x !in MainRing(head, ph) && x in Heads(ts)
  {
    forall p, i | 0 <= p < |ph| && 0 <= i < |ph[p]| ensures ph[p][i].subNode !in MainRing(head, ph) {
      MainsApart(head, ph, ts, p);
      SubAt(ph[p], i);
    }
  }

  /** A main task without sub-tasks leaves the main ring. */
  method UnlinkMain(t: Task, ghost head: ListHead<Task>, ghost ph: seq<seq<Task>>, ghost p: nat, ghost ts: set<Task>)
    requires Shape(head, ph, ts) && p < |ph| && ph[p] == [t]
    modifies MainRing(head, ph)`next, MainRing(head, ph)`prev
    ensures Shape(head, RemoveAt(ph, p, 0), ts) && Linked([t.subNode])
  {
    hide Ok, NonEmpty, Inside, Linked, Owns, RemoveAt, Placed, SubNodes;
    ghost var r := MainRing(head, ph);
    Neighbours(r, p + 1);
    SubNodesApart(head, ph, ts);
    label L:
    Del(t.node, r, p + 1);
    PlacedStays@L(Flowing(head, ph, ts));
    SubsStay@L(ph);
    assert SubRing(ph[p]) == [t.subNode];
    RemovedMainShape(head, ph, p, ts);
  }

  lemma Promoted(head: ListHead<Task>, ph: seq<seq<Task>>, p: nat)
    requires p < |ph| && |ph[p]| > 1 && NonEmpty(ph)
    ensures var r := RemoveAt(ph, p, 0);
            && MainRing(head, r) == MainRing(head, ph)[p + 1 := ph[p][1].node]
            && |r| == |ph| && r[p] == ph[p][1..] && SubRing(r[p]) == Drop(SubRing(ph[p]), 0)
            && (forall q :: 0 <= q < |r| && q != p ==> r[q] == ph[q])
  {
    assert Drop(ph[p], 0) == ph[p][1..] && RemoveAt(ph, p, 0) == ph[p := ph[p][1..]];
    SubRingDrop(ph[p], 0);
    hide RemoveAt, SubRing, Drop;
  }

  lemma PromotedShape(head: ListHead<Task>, ph: seq<seq<Task>>, p: nat, ts: set<Task>)
    requires Placed(head, ph, ts) && p < |ph| && |ph[p]| > 1
    requires Linked(MainRing(head, ph)[p + 1 := ph[p][1].node]) && Linked(Drop(SubRing(ph[p]), 0))
    requires forall q :: 0 <= q < |ph| && q != p ==> Linked(SubRing(ph[q]))
    ensures Shape(head, RemoveAt(ph, p, 0), ts)
  {
    RemovedPlaced(head, ph, ts, p, 0);
    Promoted(head, ph, p);
    hide Linked, Placed, Ok, RemoveAt, SubRing, MainRing, Drop;
  }

  /** The node of a sub-task is in no ring of the taskflow. */
  lemma SubNodeFree(head: ListHead<Task>, ph: seq<seq<Task>>, ts: set<Task>, p: nat, i: nat)
    requires Placed(head, ph, ts) && p < |ph| && 0 < i < |ph[p]|
    ensures ph[p][i].node !in MainRing(head, ph)
    ensures forall q :: 0 <= q < |ph| ==> ph[p][i].node !in SubRing(ph[q])
  {
    var x := ph[p][i].node;
    assert Owns(ph[p][i]);
    forall k | 0 <= k < |ph| + 1 ensures MainRing(head, ph)[k] != x {
      if k > 0 { assert Owns(ph[k - 1][0]); }
    }
    forall q | 0 <= q < |ph| ensures x !in SubRing(ph[q]) {
      InsideOne(head, ph, ts, q);
      if x in SubRing(ph[q]) { SubOwner(ph[q], x); }
    }
  }

  /** No sub node is in the main ring or is the node of a sub-task. */
  lemma ReplaceNodes(head: ListHead<Task>, ph: seq<seq<Task>>, ts: set<Task>, p: nat)
    requires Placed(head, ph, ts) && p < |ph| && |ph[p]| > 1
    ensures forall x :: x in SubNodes(ph) ==> x !in MainRing(head, ph) && x != ph[p][1].node && x in Heads(ts)
    ensures SubNodes(Drop(ph, p)) <= SubNodes(ph)
    ensures forall x :: x in SubRing(ph[p]) ==> x in SubNodes(ph)
    ensures forall x :: x in Drop(SubRing(ph[p]), 0) ==> x in SubRing(ph[p])
    ensures ph[p][0].subNode in SubRing(ph[p])
    ensures ph[p][1].node !in MainRing(head, ph)
  {
    hide Ok, Owns, Placed, MainRing, SubRing;
    SubNodesApart(head, ph, ts);
    SubNodeFree(head, ph, ts, p, 1);
    SubAt(ph[p], 0);
    InSubNodes(ph, p);
    forall q, i | 0 <= q < |ph| && 0 <= i < |ph[q]| ensures ph[q][i].subNode in SubRing(ph[q]) { SubAt(ph[q], i); }
  }

  /** The first sub-task takes the place of `t` in the main ring. */
  method ReplaceMain(t: Task, next: Task, ghost head: ListHead<Task>, ghost ph: seq<seq<Task>>, ghost p: nat,
        ghost ts: set<Task>)
    requires Placed(head, ph, ts) && p < |ph| && |ph[p]| > 1 && ph[p][0] == t && ph[p][1] == next
    requires Linked(MainRing(head, ph)) && Linked(Drop(SubRing(ph[p]), 0)) && Linked([t.subNode])
    requires forall q :: 0 <= q < |ph| && q != p ==> Linked(SubRing(ph[q]))
    modifies MainRing(head, ph)`next, MainRing(head, ph)`prev, next.node`next, next.node`prev
    ensures Shape(head, RemoveAt(ph, p, 0), ts) && Linked([t.subNode])
  {
    hide Ok, Inside, NonEmpty, Linked, Placed, RemoveAt, Shape, Owns, SubRing, SubNodes, Drop;
    ghost var r, m := SubRing(ph[p]), MainRing(head, ph);
    ReplaceNodes(head, ph, ts, p);
    Neighbours(m, p + 1);
    OthersLinked(ph, p);
    label L:
    ReplaceInit(t.node, next.node, m, p + 1);
    PlacedStays@L(Flowing(head, ph, ts));
    StaysLinked@L(Drop(r, 0));
    StaysLinked@L([t.subNode]);
    SubsStay@L(Drop(ph, p));
    OthersLinked(ph, p);
    PromotedShape(head, ph, p, ts);
  }

  /** A main task with sub-tasks leaves; its first sub-task takes its exact place. */
  method Promote(t: Task, next: Task, ghost head: ListHead<Task>, ghost ph: seq<seq<Task>>, ghost p: nat,
        ghost ts: set<Task>)
    requires Shape(head, ph, ts) && p < |ph| && |ph[p]| > 1 && ph[p][0] == t && ph[p][1] == next
    modifies SubRing(ph[p])`next, SubRing(ph[p])`prev
    modifies MainRing(head, ph)`next, MainRing(head, ph)`prev, next.node`next, next.node`prev
    ensures Shape(head, RemoveAt(ph, p, 0), ts) && Linked([t.subNode])
  {
    hide Ok, NonEmpty, Inside, Owns, RemoveAt, MainRing, IsMain, In;
    ghost var r, m := SubRing(ph[p]), MainRing(head, ph);
    Neighbours(r, 0);
    MainsApart(head, ph, ts, p);
    label L:
    Del(t.subNode, r, 0);
    StaysLinked@L(m);
    forall q: nat | q < |ph| && q != p ensures Linked(SubRing(ph[q])) {
      PhasesApart(head, ph, ts, p, q);
      StaysLinked@L(SubRing(ph[q]));
    }
    ReplaceMain(t, next, head, ph, p, ts);
  }

  ghost predicate Elsewhere(t: Task, ph: seq<seq<Task>>, adding: seq<Task>) {
    && (forall p, i :: 0 <= p < |ph| && 0 <= i < |ph[p]| ==> ph[p][i] != t)
    && (forall i :: 0 <= i < |adding| ==> adding[i] != t)
  }

  /** The sub node of a task that is in no phase is in none of their rings. */
  lemma NodeElsewhere(t: Task, head: ListHead<Task>, ph: seq<seq<Task>>, ts: set<Task>)
    requires Placed(head, ph, ts) && t in ts
    requires forall p, i :: 0 <= p < |ph| && 0 <= i < |ph[p]| ==> ph[p][i] != t
    ensures t.subNode !in MainRing(head, ph)
    ensures forall p :: 0 <= p < |ph| ==> t.subNode !in SubRing(ph[p])
  {
    assert Owns(t);
    MainRingApart(head, ph, [t]);
    assert SubRing([t]) == [t.subNode];
    forall p | 0 <= p < |ph| ensures t.subNode !in SubRing(ph[p]) {
      SubRingsApart([t], ph[p]);
    }
  }

  /** The local list shares no node with the rings of the taskflow. */
  lemma ListApart(list: ListHead<Task>, adding: seq<Task>, head: ListHead<Task>, ph: seq<seq<Task>>, ts: set<Task>)
    requires Placed(head, ph, ts) && list.entry == None && list != head && Apart(ph, adding)
    requires forall i :: 0 <= i < |adding| ==> adding[i] in ts
    ensures forall x :: x in ListRing(list, adding) ==> x !in MainRing(head, ph)
    ensures forall x, p :: x in ListRing(list, adding) && 0 <= p < |ph| ==> x !in SubRing(ph[p])
  {
    InsideMains(head, ph, ts);
    forall t | t in ts ensures t.node != list && t.subNode != list { assert Owns(t); }
    forall i | 0 <= i < |adding| ensures Owns(adding[i]) { assert adding[i] in ts; }
    MainRingApart(head, ph, adding);
    forall p | 0 <= p < |ph| ensures list !in SubRing(ph[p]) && forall x :: x in SubRing(adding) ==> x !in SubRing(ph[p]) {
      InsideOne(head, ph, ts, p);
      SubRingsApart(adding, ph[p]);
    }
  }

  lemma JoinApart(t: Task, list: ListHead<Task>, adding: seq<Task>, head: ListHead<Task>, ph: seq<seq<Task>>,
        ts: set<Task>)
    requires Placed(head, ph, ts) && Listed(list, adding, ts) && list != head && Apart(ph, adding)
    requires t in ts && Elsewhere(t, ph, adding)
    ensures t.subNode !in ListRing(list, adding)
    ensures ListRing(list, adding + [t]) == ListRing(list, adding) + [t.subNode]
    ensures ListRing(list, [t] + adding) == [list, t.subNode] + ListRing(list, adding)[1..]
    ensures |ListRing(list, adding)| > 0 && ListRing(list, adding)[0] == list && list.next in ListRing(list, adding) && list.prev in ListRing(list, adding)
  {
    hide Linked, Ok, Apart, Inside, NonEmpty, SubRing, Placed, Elsewhere, Listed;
    NotInList(t, list, adding, head, ph, ts);
    ListEnds(list, adding, ts);
    SubRingConcat(adding, [t]);
    SubRingConcat([t], adding);
    SubRingOne(t);
  }

  lemma SubRingOne(t: Task)
    ensures SubRing([t]) == [t.subNode]
  {
  }

  lemma NotInList(t: Task, list: ListHead<Task>, adding: seq<Task>, head: ListHead<Task>, ph: seq<seq<Task>>, ts: set<Task>)
    requires Placed(head, ph, ts) && Listed(list, adding, ts) && t in ts && Elsewhere(t, ph, adding)
    ensures t.subNode !in ListRing(list, adding)
  {
    assert Owns(t);
    forall k | 0 <= k < |ListRing(list, adding)| ensures ListRing(list, adding)[k] != t.subNode {
      if k > 0 { assert adding[k - 1] in ts && Owns(adding[k - 1]); }
    }
  }

  lemma SubRingConcat(a: seq<Task>, b: seq<Task>)
    ensures SubRing(a + b) == SubRing(a) + SubRing(b)
  {
  }

  /** The nodes that joining the list may touch, and those it may not. */
  lemma ShapePlaced(head: ListHead<Task>, ph: seq<seq<Task>>, ts: set<Task>)
    requires Shape(head, ph, ts)
    ensures Placed(head, ph, ts) && Inside(ph, ts)
  {
  }

  lemma ElsewherePhases(t: Task, ph: seq<seq<Task>>, adding: seq<Task>)
    requires Elsewhere(t, ph, adding)
    ensures forall p, i :: 0 <= p < |ph| && 0 <= i < |ph[p]| ==> ph[p][i] != t
  {
  }

  lemma ListEnds(list: ListHead<Task>, adding: seq<Task>, ts: set<Task>)
    requires Listed(list, adding, ts)
    ensures list.next in ListRing(list, adding) && list.prev in ListRing(list, adding) && list in ListRing(list, adding)
    ensures forall x :: x in ListRing(list, adding) ==> x == list || x in Heads(ts)
  {
    Neighbours(ListRing(list, adding), 0);
    assert ListRing(list, adding)[0] == list;
  }

  lemma JoinNodes(t: Task, list: ListHead<Task>, adding: seq<Task>, head: ListHead<Task>, ph: seq<seq<Task>>,
        ts: set<Task>, xs: set<ListHead<Task>>)
    requires Shape(head, ph, ts) && Listed(list, adding, ts) && list != head && Apart(ph, adding)
    requires t in ts && Elsewhere(t, ph, adding) && xs == Nodes(ListRing(list, adding)) + {t.subNode}
    ensures list in xs && list.next in xs && list.prev in xs && t.subNode in xs
    ensures forall x :: x in xs ==> x == list || x in Heads(ts)
    ensures forall x :: x in SubNodes(ph) ==> x !in xs && x in Heads(ts)
    ensures forall x :: x in MainRing(head, ph) ==> x !in xs && (x == head || x in Heads(ts))
  {
    hide Ok, Apart, NonEmpty, Linked, Owns, SubRing, MainRing, ListRing, Elsewhere, Placed;
    ShapePlaced(head, ph, ts);
    ElsewherePhases(t, ph, adding);
    NodeElsewhere(t, head, ph, ts);
    ListApart(list, adding, head, ph, ts);
    ListEnds(list, adding, ts);
    InsideMains(head, ph, ts);
    forall p, i | 0 <= p < |ph| && 0 <= i < |ph[p]| ensures ph[p][i].subNode in SubRing(ph[p]) && ph[p][i] in ts {
      SubAt(ph[p], i);
    }
  }

  /** A task that has left the taskflow joins the local list. */
  method Join(t: Task, list: ListHead<Task>, tail: bool, ghost adding: seq<Task>, ghost head: ListHead<Task>,
        ghost ph: seq<seq<Task>>, ghost ts: set<Task>)
    requires Shape(head, ph, ts) && Listed(list, adding, ts) && list != head && Apart(ph, adding)
    requires t in ts && Elsewhere(t, ph, adding)
    modifies Heads(ts)`next, Heads(ts)`prev, list`next, list`prev
    ensures Shape(head, ph, ts)
    ensures Listed(list, if tail then adding + [t] else [t] + adding, ts)
  {
    hide Ok, Apart, NonEmpty, Inside, Lead, Owns, Linked, SubRing, MainRing, ListRing, Elsewhere, Nodes, SubNodes,
         Placed;
    ghost var r := ListRing(list, adding);
    ghost var xs := Nodes(r) + {t.subNode};
    JoinNodes(t, list, adding, head, ph, ts, xs);
    JoinApart(t, list, adding, head, ph, ts);
    label L:
    if tail {
      AddTail(t.subNode, list, r);
    } else {
      Add(t.subNode, list, r);
    }
    PlacedStays@L(Flowing(head, ph, ts));
    StaysLinked@L(MainRing(head, ph));
    SubsStay@L(ph);
  }

  /** A collected task is in no phase any more, and the local list stays as it was. */
  lemma PutElsewhere(g: Gathered<Task>, t: Task)
    requires Ok(g.phases) && Apart(g.phases, g.adding) && In(g.phases, t)
    ensures Elsewhere(t, Put(g, t).phases, g.adding) && Apart(Put(g, t).phases, g.adding)
  {
    var ph, p := g.phases, PhaseOf(g.phases, t);
    var i := IndexOf(ph[p], t);
    var r := Put(g, t).phases;
    assert forall j :: 0 <= j < |g.adding| ==> g.adding[j] != ph[p][i];
    forall q, j | 0 <= q < |r| && 0 <= j < |r[q]|
      ensures r[q][j] != t && forall k :: 0 <= k < |g.adding| ==> r[q][j] != g.adding[k]
    {
      var a, b := RemovedFrom(ph, p, i, q, j);
    }
  }

  /** The rings of the taskflow and of the local list, between two rounds of the loop. */
  ghost predicate Rings(list: ListHead<Task>, head: ListHead<Task>, g: Gathered<Task>, ts: set<Task>)
    reads head`entry, Heads(ts)`entry, MainRing(head, g.phases)`next, MainRing(head, g.phases)`prev
    reads SubNodes(g.phases)`next, SubNodes(g.phases)`prev, list`next, list`prev, list`entry, Heads(ts)`next, Heads(ts)`prev
  {
    Shape(head, g.phases, ts) && Listed(list, g.adding, ts) && Apart(g.phases, g.adding) && list != head
  }

  /** The fields of the tasks. */
  ghost predicate Fields(g: Gathered<Task>, off: Off)
    reads Tasks(g.phases)`nr, Tasks(g.phases)`isSub, Tasks(g.phases)`main, g.adding`nr, g.adding`isSub, g.adding`main
  {
    Counted(g, off) && Flagged(g.phases, off) && Loose(g.adding) && forall t :: t in g.adding ==> t !in off.stale
  }

  /** Relinking does not touch the fields, and marking does not touch the rings. */
  twostate lemma FieldsStay(m: Marked)
    requires old(Fields(m.g, m.off))
    requires forall t :: t in Tasks(m.g.phases) || t in m.g.adding ==>
               t.nr == old(t.nr) && t.isSub == old(t.isSub) && t.main == old(t.main)
    ensures Fields(m.g, m.off)
  {
  }

  datatype World = World(list: ListHead<Task>, head: ListHead<Task>, g: Gathered<Task>, ts: set<Task>)

  twostate lemma RingsStay(w: World)
    requires old(Rings(w.list, w.head, w.g, w.ts))
    requires forall x :: x in Heads(w.ts) + {w.head, w.list} ==> x.next == old(x.next) && x.prev == old(x.prev) && x.entry == old(x.entry)
    ensures Rings(w.list, w.head, w.g, w.ts)
  {
    ShapeStays(Flowing(w.head, w.g.phases, w.ts));
  }

  ghost predicate CanPut(g: Gathered<Task>, t: Task) {
    Ok(g.phases) && NonEmpty(g.phases) && Apart(g.phases, g.adding) && In(g.phases, t)
  }

  /** Its nodes, and that the list is not touched by what happens in the taskflow. */
  lemma RoundNodes(t: Task, list: ListHead<Task>, head: ListHead<Task>, g: Gathered<Task>, ts: set<Task>)
    requires Rings(list, head, g, ts) && In(g.phases, t)
    ensures var p := PhaseOf(g.phases, t);
            && Elsewhere(t, Put(g, t).phases, g.adding) && Apart(Put(g, t).phases, g.adding)
            && (forall x :: x in SubRing(g.phases[p]) ==> x in Heads(ts) && x !in ListRing(list, g.adding))
            && (forall x :: x in MainRing(head, g.phases) ==> (x == head || x in Heads(ts)) && x !in ListRing(list, g.adding))
            && (forall x :: x in ListRing(list, g.adding) ==> x in Heads(ts) + {list})
            && (forall i :: 0 <= i < |g.phases[p]| ==> g.phases[p][i] in ts && g.phases[p][i].node !in ListRing(list, g.adding))
            && t in ts && t.subNode in Heads(ts)
            && Apart(Put(g, t).phases, Put(g, t).adding)
            && Put(g, t).adding == (if |g.phases[p]| == 1 then g.adding + [t] else [t] + g.adding)
            && Put(g, t).phases == RemoveAt(g.phases, p, IndexOf(g.phases[p], t))
            && (|g.phases[p]| == 1 ==> g.phases[p] == [t] && IndexOf(g.phases[p], t) == 0)
            && (t == g.phases[p][0] ==> IndexOf(g.phases[p], t) == 0)
            && (|g.phases[p]| > 1 ==> g.phases[p][1].node in Heads(ts))
  {
    hide Put, Linked, SubRing, MainRing, ListRing, RemoveAt, NonEmpty;
    PutOk(g, t);
    var ph, p := g.phases, PhaseOf(g.phases, t);
    PutElsewhere(g, t);
    PutParts(g, t);
    ListApart(list, g.adding, head, ph, ts);
    ListNodes(list, g.adding, ts);
    InsideOne(head, ph, ts, p);
    InsideMains(head, ph, ts);
    forall u | u in ts ensures u.node !in ListRing(list, g.adding) {
      NodeNotListed(u, list, g.adding, ts);
    }
  }

  lemma ListNodes(list: ListHead<Task>, adding: seq<Task>, ts: set<Task>)
    requires Listed(list, adding, ts)
    ensures forall x :: x in ListRing(list, adding) ==> x in Heads(ts) + {list}
  {
  }

  lemma NodeNotListed(u: Task, list: ListHead<Task>, adding: seq<Task>, ts: set<Task>)
    requires Listed(list, adding, ts) && u in ts && forall t :: t in ts ==> Owns(t)
    ensures u.node !in ListRing(list, adding)
  {
    hide Linked;
    assert Owns(u);
    forall j | 0 <= j < |adding| ensures SubRing(adding)[j] != u.node { assert Owns(adding[j]); }
  }

  lemma PutParts(g: Gathered<Task>, t: Task)
    requires Ok(g.phases) && In(g.phases, t)
    ensures var p := PhaseOf(g.phases, t);
            && Put(g, t).adding == (if |g.phases[p]| == 1 then g.adding + [t] else [t] + g.adding)
            && Put(g, t).phases == RemoveAt(g.phases, p, IndexOf(g.phases[p], t))
            && (|g.phases[p]| == 1 ==> g.phases[p] == [t] && IndexOf(g.phases[p], t) == 0)
            && (t == g.phases[p][0] ==> IndexOf(g.phases[p], t) == 0)
  {
    hide RemoveAt, Ok;
  }

  method TakeSub(t: Task, list: ListHead<Task>, ghost head: ListHead<Task>, ghost g: Gathered<Task>,
        ghost ts: set<Task>)
    requires Rings(list, head, g, ts) && In(g.phases, t) && IndexOf(g.phases[PhaseOf(g.phases, t)], t) > 0
    modifies Heads(ts)`next, Heads(ts)`prev, head`next, head`prev, list`next, list`prev
    ensures Rings(list, head, Put(g, t), ts)
  {
    hide Ok, Apart, NonEmpty, Inside, Owns, Linked, SubRing, Elsewhere, Placed, In, Shape, Put, RemoveAt, IndexOf,
         PhaseOf;
    ghost var ph, p := g.phases, PhaseOf(g.phases, t);
    RoundNodes(t, list, head, g, ts);
    label L:
    UnlinkSub(t, head, ph, p, IndexOf(ph[p], t), ts);
    StaysLinked@L(ListRing(list, g.adding));
    Join(t, list, false, g.adding, head, Put(g, t).phases, ts);
  }

  method TakeSole(t: Task, list: ListHead<Task>, ghost head: ListHead<Task>, ghost g: Gathered<Task>,
        ghost ts: set<Task>)
    requires Rings(list, head, g, ts) && In(g.phases, t) && |g.phases[PhaseOf(g.phases, t)]| == 1
    modifies Heads(ts)`next, Heads(ts)`prev, head`next, head`prev, list`next, list`prev
    ensures Rings(list, head, Put(g, t), ts)
  {
    hide Ok, Apart, NonEmpty, Inside, Owns, Linked, SubRing, Elsewhere, Placed, In, Shape, Put, RemoveAt, IndexOf,
         PhaseOf;
    ghost var ph, p := g.phases, PhaseOf(g.phases, t);
    RoundNodes(t, list, head, g, ts);
    label L:
    UnlinkMain(t, head, ph, p, ts);
    StaysLinked@L(ListRing(list, g.adding));
    Join(t, list, true, g.adding, head, Put(g, t).phases, ts);
  }

  method TakeLeader(t: Task, next: Task, list: ListHead<Task>, ghost head: ListHead<Task>, ghost g: Gathered<Task>,
        ghost ts: set<Task>)
    requires Rings(list, head, g, ts) && In(g.phases, t) && |g.phases[PhaseOf(g.phases, t)]| > 1
    requires t == g.phases[PhaseOf(g.phases, t)][0] && next == g.phases[PhaseOf(g.phases, t)][1]
    modifies Heads(ts)`next, Heads(ts)`prev, head`next, head`prev, list`next, list`prev
    ensures Rings(list, head, Put(g, t), ts)
  {
    hide Ok, Apart, NonEmpty, Inside, Owns, Linked, SubRing, Elsewhere, Placed, In, Shape, Put, RemoveAt, IndexOf,
         PhaseOf;
    ghost var ph, p := g.phases, PhaseOf(g.phases, t);
    RoundNodes(t, list, head, g, ts);
    label L:
    Promote(t, next, head, ph, p, ts);
    StaysLinked@L(ListRing(list, g.adding));
    Join(t, list, false, g.adding, head, Put(g, t).phases, ts);
  }

  /** `container_of` on the node after `t`'s. */
  lemma NextInRing(head: ListHead<Task>, ph: seq<seq<Task>>, ts: set<Task>, p: nat)
    requires Shape(head, ph, ts) && p < |ph| && |ph[p]| > 1
    ensures ph[p][0].subNode.next.entry == Some(ph[p][1])
  {
    assert SubRing(ph[p])[0].next == SubRing(ph[p])[1];
    assert Owns(ph[p][1]);
  }

  /** The place of `Put` at which phase `q` and its `j`-th task were before. */
  function PhaseBefore(g: Gathered<Task>, t: Task, q: nat): nat
    requires In(g.phases, t)
  {
    if |g.phases[PhaseOf(g.phases, t)]| == 1 && q >= PhaseOf(g.phases, t) then q + 1 else q
  }

  function IndexBefore(g: Gathered<Task>, t: Task, q: nat, j: nat): nat
    requires In(g.phases, t)
  {
    var p := PhaseOf(g.phases, t);
    if |g.phases[p]| > 1 && q == p && j >= IndexOf(g.phases[p], t) then j + 1 else j
  }

  /** Places of the phases without `t`: where they come from, and who leads. */
  lemma PutFrom(g: Gathered<Task>, t: Task)
    requires Ok(g.phases) && NonEmpty(g.phases) && In(g.phases, t)
    ensures |Put(g, t).phases| == |g.phases| - if |g.phases[PhaseOf(g.phases, t)]| == 1 then 1 else 0
    ensures forall q: nat, j: nat :: q < |Put(g, t).phases| && j < |Put(g, t).phases[q]| ==>
              var a, b := PhaseBefore(g, t, q), IndexBefore(g, t, q, j);
              a < |g.phases| && b < |g.phases[a]| && Put(g, t).phases[q][j] == g.phases[a][b] && g.phases[a][b] != t
    ensures forall q: nat :: q < |Put(g, t).phases| ==>
              var a := PhaseBefore(g, t, q);
              a < |g.phases| && |Put(g, t).phases[q]| == |g.phases[a]| - if a == PhaseOf(g.phases, t) then 1 else 0
  {
    RemovedSizes(g.phases, PhaseOf(g.phases, t), IndexOf(g.phases[PhaseOf(g.phases, t)], t));
    forall q: nat, j: nat | q < |Put(g, t).phases| && j < |Put(g, t).phases[q]|
      ensures var a, b := PhaseBefore(g, t, q), IndexBefore(g, t, q, j);
              a < |g.phases| && b < |g.phases[a]| && Put(g, t).phases[q][j] == g.phases[a][b] && g.phases[a][b] != t
    {
      PutFromAt(g, t, q, j);
    }
  }

  lemma PutFromAt(g: Gathered<Task>, t: Task, q: nat, j: nat)
    requires Ok(g.phases) && In(g.phases, t) && q < |Put(g, t).phases| && j < |Put(g, t).phases[q]|
    ensures var a, b := PhaseBefore(g, t, q), IndexBefore(g, t, q, j);
            a < |g.phases| && b < |g.phases[a]| && Put(g, t).phases[q][j] == g.phases[a][b] && g.phases[a][b] != t
  {
    var p := PhaseOf(g.phases, t);
    var i := IndexOf(g.phases[p], t);
    var a, b := RemovedFrom(g.phases, p, i, q, j);
    OnePlace(g.phases, p, i, a, b);
  }

  lemma OnePlace(ph: seq<seq<Task>>, p: nat, i: nat, a: nat, b: nat)
    requires Ok(ph) && p < |ph| && i < |ph[p]| && a < |ph| && b < |ph[a]| && (a != p || b != i)
    ensures ph[a][b] != ph[p][i]
  {
  }

  lemma RemovedSizes(ph: seq<seq<Task>>, p: nat, i: nat)
    requires p < |ph| && i < |ph[p]|
    ensures var r := RemoveAt(ph, p, i);
            && |r| == |ph| - (if |ph[p]| == 1 then 1 else 0)
            && forall q :: 0 <= q < |r| ==>
                 |r[q]| == if |ph[p]| == 1 && q >= p then |ph[q + 1]| else if q == p then |ph[p]| - 1 else |ph[q]|
  {
  }

  /** On its turn `t` is a sub-task or alone: no main task with sub-tasks is moved. */
  predicate WholeTurn(g: Gathered<Task>, t: Task)
    requires In(g.phases, t)
  {
    IndexOf(g.phases[PhaseOf(g.phases, t)], t) > 0 || |g.phases[PhaseOf(g.phases, t)]| == 1
  }

  /** The flag and the main task of `t` are right. */
  predicate RightTask(ph: seq<seq<Task>>, off: Off, t: Task)
    requires In(ph, t)
  {
    t in off.stale ==> IndexOf(ph[PhaseOf(ph, t)], t) > 0 && off.stale[t] == ph[PhaseOf(ph, t)][0]
  }

  /** What the loop goes by is right for `t` on its turn: the flag, the main task, and whether its
      count is one. */
  predicate Turn(g: Gathered<Task>, off: Off, t: Task) {
    In(g.phases, t) && RightTask(g.phases, off, t) &&
    var s := g.phases[PhaseOf(g.phases, t)];
    IndexOf(s, t) == 0 ==> (|s| + off.Extra(t) == 1 <==> |s| == 1)
  }

  /** Afterwards: when a main task leaves its sub-tasks behind they keep it as their main task, the
      new main task keeps its flag, and takes over the count. */
  function OffPut(g: Gathered<Task>, off: Off, t: Task): Off
    requires In(g.phases, t)
  {
    var s := g.phases[PhaseOf(g.phases, t)];
    if WholeTurn(g, t) then off.(stale := off.stale - {t})
    else Off((off.stale + (map m | m in s && m !in off.stale :: t)) - {t}, off.extra[s[1] := off.Extra(t)][t := 0])
  }

  predicate Turns(g: Gathered<Task>, off: Off, news: seq<Task>)
    decreases |news|
  {
    news == [] || (Turn(g, off, news[0]) && Turns(Put(g, news[0]), OffPut(g, off, news[0]), news[1..]))
  }

  function OffGather(g: Gathered<Task>, off: Off, news: seq<Task>): Off
    requires CanGather(g, news)
    decreases |news|
  {
    if news == [] then off else OffGather(Put(g, news[0]), OffPut(g, off, news[0]), news[1..])
  }

  predicate Whole(g: Gathered<Task>, news: seq<Task>)
    decreases |news|
  {
    news == [] || (In(g.phases, news[0]) && WholeTurn(g, news[0]) && Whole(Put(g, news[0]), news[1..]))
  }

  /** A task whose turn it is. */
  datatype Round = Round(g: Gathered<Task>, off: Off, t: Task)

  ghost predicate RoundOk(r: Round) {
    CanPut(r.g, r.t) && Turn(r.g, r.off, r.t)
  }

  /** The counts, when one task has left the sub-tasks of its main task, or it was alone. */
  twostate lemma CountedWhole(r: Round)
    requires RoundOk(r) && WholeTurn(r.g, r.t) && old(Counted(r.g, r.off))
    requires var s := r.g.phases[PhaseOf(r.g.phases, r.t)]; |s| > 1 ==> s[0].nr == old(s[0].nr) - 1
    requires forall x :: (x in Tasks(r.g.phases) || x in r.g.adding) && x != r.g.phases[PhaseOf(r.g.phases, r.t)][0] ==> x.nr == old(x.nr)
    requires |r.g.phases[PhaseOf(r.g.phases, r.t)]| == 1 ==> r.t.nr == old(r.t.nr)
    ensures Counted(Put(r.g, r.t), OffPut(r.g, r.off, r.t))
  {
    hide Remove, RightTask, Turn, Apart, Ok;
    var p := PhaseOf(r.g.phases, r.t);
    PutAdding(r.g, r.t);
    assert r.t == r.g.phases[p][IndexOf(r.g.phases[p], r.t)] && r.t in Tasks(r.g.phases);
    assert r.t.nr == 1 + r.off.Extra(r.t) && r.g.phases[p][0] !in r.g.adding;
    var off' := OffPut(r.g, r.off, r.t);
    assert off'.extra == r.off.extra;
    forall x: Task | x in Put(r.g, r.t).adding ensures x.nr == 1 + off'.Extra(x) {
      if x != r.t { assert x in r.g.adding; }
    }
    var ph': seq<seq<Task>> := Put(r.g, r.t).phases;
    forall q, j | 0 <= q < |ph'| && 0 <= j < |ph'[q]|
      ensures ph'[q][j].nr == (if j == 0 then |ph'[q]| else 1) + off'.Extra(ph'[q][j])
    {
      var a, b := PlaceBefore(r, q, j);
    }
  }

  lemma PutAt(g: Gathered<Task>, t: Task, q: nat, j: nat)
    requires CanPut(g, t) && q < |Put(g, t).phases| && j < |Put(g, t).phases[q]|
    ensures var a, b := PhaseBefore(g, t, q), IndexBefore(g, t, q, j);
            && a < |g.phases| && b < |g.phases[a]| && Put(g, t).phases[q][j] == g.phases[a][b] && g.phases[a][b] != t
            && |Put(g, t).phases[q]| == |g.phases[a]| - (if a == PhaseOf(g.phases, t) then 1 else 0)
            && (a == PhaseOf(g.phases, t) <==> q == PhaseOf(g.phases, t) && |g.phases[q]| > 1)
  {
    PutFrom(g, t);
    hide Put, Ok, Apart, In, IndexOf, PhaseOf;
  }

  /** Where a task that is still in the taskflow was before. */
  lemma PlaceBefore(r: Round, q: nat, j: nat) returns (a: nat, b: nat)
    requires RoundOk(r) && q < |Put(r.g, r.t).phases| && j < |Put(r.g, r.t).phases[q]|
    ensures var ph, x := r.g.phases, Put(r.g, r.t).phases[q][j];
            var p := PhaseOf(ph, r.t);
            && a < |ph| && b < |ph[a]| && x == ph[a][b] && x != r.t && x in Tasks(ph) && PhaseOf(ph, x) == a && IndexOf(ph[a], x) == b
            && ph[a][0] in Tasks(ph) && (b > 0 ==> x != ph[a][0])
            && |Put(r.g, r.t).phases[q]| == |ph[a]| - (if a == p then 1 else 0)
            && Put(r.g, r.t).phases[q][0] == (if a == p && IndexOf(ph[a], r.t) == 0 then ph[a][1] else ph[a][0])
            && (j == 0 <==> b == if a == p && IndexOf(ph[a], r.t) == 0 then 1 else 0)
            && (x in ph[p] <==> a == p)
  {
    hide Put, Turn, Apart;
    var ph := r.g.phases;
    PutAt(r.g, r.t, q, j);
    PutAt(r.g, r.t, q, 0);
    a, b := PhaseBefore(r.g, r.t, q), IndexBefore(r.g, r.t, q, j);
    PhaseIs(ph, a, b);
    PhaseIs(ph, a, 0);
    InPhase(ph, PhaseOf(ph, r.t), ph[a][b]);
    hide Ok;
  }

  lemma InPhase(ph: seq<seq<Task>>, p: nat, x: Task)
    requires Ok(ph) && In(ph, x) && p < |ph|
    ensures x in ph[p] <==> PhaseOf(ph, x) == p
  {
    if x in ph[p] {
      PhaseIs(ph, p, IndexOf(ph[p], x));
    }
  }

  twostate lemma FlaggedPut(r: Round)
    requires RoundOk(r) && old(Flagged(r.g.phases, r.off))
    requires forall x :: x in Tasks(r.g.phases) && x != r.t ==> x.isSub == old(x.isSub) && x.main == old(x.main)
    ensures Flagged(Put(r.g, r.t).phases, OffPut(r.g, r.off, r.t))
  {
    hide Put, RightTask, Turn;
    var ph': seq<seq<Task>> := Put(r.g, r.t).phases;
    var off' := OffPut(r.g, r.off, r.t);
    forall q, j | 0 <= q < |ph'| && 0 <= j < |ph'[q]|
      ensures var x := ph'[q][j];
              if x in off'.stale then x.isSub && x.main == off'.stale[x]
              else x.isSub == (j > 0) && x.main == if j > 0 then ph'[q][0] else null
    {
      var a, b := PlaceBefore(r, q, j);
    }
  }

  /** The same for a main task with sub-tasks, whose count goes to the first one of them. */
  twostate lemma CountedLeader(r: Round)
    requires RoundOk(r) && !WholeTurn(r.g, r.t) && old(Counted(r.g, r.off))
    requires r.t.nr == 1 && r.g.phases[PhaseOf(r.g.phases, r.t)][1].nr == old(r.t.nr) - 1
    requires forall x :: (x in Tasks(r.g.phases) || x in r.g.adding) && x != r.t && x != r.g.phases[PhaseOf(r.g.phases, r.t)][1] ==> x.nr == old(x.nr)
    ensures Counted(Put(r.g, r.t), OffPut(r.g, r.off, r.t))
  {
    PutAdding(r.g, r.t);
    hide Put, RightTask, Turn;
    var ph': seq<seq<Task>> := Put(r.g, r.t).phases;
    forall q, j | 0 <= q < |ph'| && 0 <= j < |ph'[q]|
      ensures ph'[q][j].nr == (if j == 0 then |ph'[q]| else 1) + OffPut(r.g, r.off, r.t).Extra(ph'[q][j])
    {
      var a, b := PlaceBefore(r, q, j);
    }
  }

  twostate lemma LooseNow(r: Round)
    requires RoundOk(r) && old(Fields(r.g, r.off)) && r.t.isSub && r.t.main == null
    requires forall x :: x in r.g.adding ==> x.isSub == old(x.isSub) && x.main == old(x.main)
    ensures Loose(Put(r.g, r.t).adding) && forall x :: x in Put(r.g, r.t).adding ==> x !in OffPut(r.g, r.off, r.t).stale
  {
    PutAdding(r.g, r.t);
    hide Put, RightTask;
  }

  /** What the fields of `t` and of its main task are before. */
  lemma RoundFields(g: Gathered<Task>, off: Off, t: Task)
    requires CanPut(g, t) && Turn(g, off, t) && Fields(g, off)
    ensures var s := g.phases[PhaseOf(g.phases, t)];
            && (forall x :: x in s ==> x in Tasks(g.phases)) && s[0] in Tasks(g.phases)
            && (t.isSub ==> IndexOf(s, t) > 0 && |s| > 1 && t.main == s[0] && t != s[0] && WholeTurn(g, t))
            && (!t.isSub ==> t == s[0] && IndexOf(s, t) == 0 && t.main == null)
            && t !in g.adding && s[0] !in g.adding
  {
    PutAdding(g, t);
  }

  /** The fields of a sub-task that leaves, and of its main task. */
  method MarkSub(t: Task, ghost g: Gathered<Task>, ghost off: Off)
    requires CanPut(g, t) && Fields(g, off) && Turn(g, off, t) && t.isSub
    modifies t`main, t`isSub, t.main`nr
    ensures Fields(Put(g, t), OffPut(g, off, t))
  {
    hide Turn, CanPut, Counted, Flagged, Loose, Put, OffPut, PhaseOf, IndexOf, WholeTurn, In;
    RoundFields(g, off, t);
    ghost var r := Round(g, off, t);
    label L:
    t.main.nr := t.main.nr - 1;
    t.main := null;
    t.isSub := true;
    CountedWhole@L(r);
    FlaggedPut@L(r);
    LooseNow@L(r);
  }

  /** A main task that was alone. */
  method MarkSole(t: Task, ghost g: Gathered<Task>, ghost off: Off)
    requires CanPut(g, t) && Fields(g, off) && Turn(g, off, t) && |g.phases[PhaseOf(g.phases, t)]| == 1 && !t.isSub
    modifies t`isSub
    ensures Fields(Put(g, t), OffPut(g, off, t))
  {
    hide Turn, CanPut, Counted, Flagged, Loose, Put, OffPut, PhaseOf, IndexOf, In;
    RoundFields(g, off, t);
    ghost var r := Round(g, off, t);
    label L:
    t.isSub := true;
    CountedWhole@L(r);
    FlaggedPut@L(r);
    LooseNow@L(r);
  }

  /** The count goes to the sub-task that leads now; its flag and its `main` stay those of a sub-task. */
  method MarkLeader(t: Task, next: Task, ghost g: Gathered<Task>, ghost off: Off)
    requires CanPut(g, t) && Fields(g, off) && Turn(g, off, t) && |g.phases[PhaseOf(g.phases, t)]| > 1 && !t.isSub
    requires t == g.phases[PhaseOf(g.phases, t)][0] && next == g.phases[PhaseOf(g.phases, t)][1]
    modifies t`isSub, t`nr, next`nr
    ensures Fields(Put(g, t), OffPut(g, off, t))
  {
    hide Turn, CanPut, Counted, Flagged, Loose, Put, OffPut, PhaseOf, IndexOf, In;
    RoundFields(g, off, t);
    SecondApart(g, t);
    ghost var r := Round(g, off, t);
    label L:
    next.nr := t.nr - 1;
    t.nr := 1;
    t.isSub := true;
    CountedLeader@L(r);
    FlaggedPut@L(r);
    LooseNow@L(r);
  }

  lemma SecondApart(g: Gathered<Task>, t: Task)
    requires CanPut(g, t) && |g.phases[PhaseOf(g.phases, t)]| > 1 && t == g.phases[PhaseOf(g.phases, t)][0]
    ensures g.phases[PhaseOf(g.phases, t)][1] != t && g.phases[PhaseOf(g.phases, t)][1] !in g.adding
  {
    PutAdding(g, t);
  }

  lemma PutAdding(g: Gathered<Task>, t: Task)
    requires CanPut(g, t)
    ensures forall x :: x in Put(g, t).adding <==> x in g.adding || x == t
    ensures forall i :: 0 <= i < |g.phases[PhaseOf(g.phases, t)]| ==> g.phases[PhaseOf(g.phases, t)][i] !in g.adding
  {
    PutOk(g, t);
  }

  lemma RoundOf(t: Task, list: ListHead<Task>, head: ListHead<Task>, g: Gathered<Task>, off: Off, ts: set<Task>)
    requires Rings(list, head, g, ts) && Fields(g, off) && Turn(g, off, t)
    ensures CanPut(g, t) && t in ts
    ensures t.isSub ==> t.main != null && t.main in ts && IndexOf(g.phases[PhaseOf(g.phases, t)], t) > 0
    ensures !t.isSub && t.nr == 1 ==> |g.phases[PhaseOf(g.phases, t)]| == 1
    ensures !t.isSub && t.nr != 1 ==>
              var s := g.phases[PhaseOf(g.phases, t)];
              && |s| > 1 && t == s[0] && s[1] in ts && t.subNode.next.entry == Some(s[1])
  {
    var ph, p := g.phases, PhaseOf(g.phases, t);
    if |ph[p]| > 1 { NextInRing(head, ph, ts, p); }
  }

  /** One round of the loop: the task leaves its place, joins the list and is marked as a sub-task. */
  method Detach(t: Task, list: ListHead<Task>, ghost head: ListHead<Task>, ghost g: Gathered<Task>, ghost off: Off,
        ghost ts: set<Task>)
    requires Rings(list, head, g, ts) && Fields(g, off) && Turn(g, off, t)
    modifies ts`isSub, ts`nr, ts`main, Heads(ts)`next, Heads(ts)`prev, head`next, head`prev, list`next, list`prev
    ensures Rings(list, head, Put(g, t), ts) && Fields(Put(g, t), OffPut(g, off, t))
  {
    hide Ok, Apart, NonEmpty, Inside, Owns, Linked, Placed, In, Counted, Flagged, Loose, Rings, Fields, Shape, Listed,
         Put, CanPut, IndexOf, PhaseOf, WholeTurn, OffPut, RightTask;
    RoundOf(t, list, head, g, off, ts);
    label L:
    if t.isSub {
      TakeSub(t, list, head, g, ts);
      FieldsStay@L(Marked(g, off));
      label M:
      MarkSub(t, g, off);
      RingsStay@M(World(list, head, Put(g, t), ts));
    } else if t.nr == 1 {
      TakeSole(t, list, head, g, ts);
      FieldsStay@L(Marked(g, off));
      label N:
      MarkSole(t, g, off);
      RingsStay@N(World(list, head, Put(g, t), ts));
    } else {
      var next := t.subNode.next.entry.value;
      TakeLeader(t, next, list, head, g, ts);
      FieldsStay@L(Marked(g, off));
      label O:
      MarkLeader(t, next, g, off);
      RingsStay@O(World(list, head, Put(g, t), ts));
    }
  }

  /** From one ring to the front of another one; a third one stays. */
  method MoveBetween(node: ListHead<Task>, list: ListHead<Task>, ghost r: seq<ListHead<Task>>, ghost l: seq<ListHead<Task>>,
        ghost m: seq<ListHead<Task>>, ghost xs: set<ListHead<Task>>)
    requires |r| > 0 && |l| > 0 && Linked(r) && r[0] == node && Linked(l) && l[0] == list && Linked(m)
    requires (forall x :: x in r ==> x !in l && x !in m) && (forall x :: x in m ==> x !in l)
    requires forall x :: x in r || x in l ==> x in xs
    modifies xs`next, xs`prev
    ensures Linked(m)
  {
    hide Linked, Drop;
    Neighbours(r, 0);
    Neighbours(l, 0);
    label L:
    Del(node, r, 0);
    StaysLinked@L(l);
    StaysLinked@L(m);
    label M:
    Neighbours(l, 0);
    Add(node, list, l);
    StaysLinked@M(m);
  }

  /** The same steps for a task whose flag says sub-task while it leads a phase: its node stays in
      the main ring, and the rings are not those of the phases without it. */
  method DetachStale(t: Task, list: ListHead<Task>, ghost head: ListHead<Task>, ghost g: Gathered<Task>, ghost ts: set<Task>)
    requires Rings(list, head, g, ts) && In(g.phases, t) && t == g.phases[PhaseOf(g.phases, t)][0]
    requires t.isSub && t.main != null && t.main in ts
    modifies ts`isSub, ts`nr, ts`main, Heads(ts)`next, Heads(ts)`prev, list`next, list`prev
    ensures !Shape(head, Put(g, t).phases, ts)
  {
    hide Ok, Apart, NonEmpty, Inside, Owns, Linked, SubRing, Placed, In, Put, IndexOf, PhaseOf, ListRing, MainRing, Shape,
         Rings, Listed, CanPut, Drop;
    ghost var ph, p := g.phases, PhaseOf(g.phases, t);
    ghost var m := MainRing(head, ph);
    StaleNodes(t, list, head, g, ts);
    label L:
    MoveBetween(t.subNode, list, SubRing(ph[p]), ListRing(list, g.adding), m, Heads(ts) + {list});
    t.main.nr := t.main.nr - 1;
    t.main := null;
    t.isSub := true;
    PlacedStays@L(Flowing(head, ph, ts));
    StillMain(head, g, t, ts);
  }

  lemma StaleNodes(t: Task, list: ListHead<Task>, head: ListHead<Task>, g: Gathered<Task>, ts: set<Task>)
    requires Rings(list, head, g, ts) && In(g.phases, t) && t == g.phases[PhaseOf(g.phases, t)][0]
    ensures var p := PhaseOf(g.phases, t);
            var r, l, m := SubRing(g.phases[p]), ListRing(list, g.adding), MainRing(head, g.phases);
            && Linked(r) && Linked(l) && Linked(m) && r[0] == t.subNode && l[0] == list && t in ts
            && t.subNode.next in r && t.subNode.prev in r
            && (forall x :: x in r ==> x !in l && x !in m && x in Heads(ts)) && (forall x :: x in m ==> x !in l && (x == head || x in Heads(ts)))
            && (forall x :: x in l ==> x == list || x in Heads(ts)) && Placed(head, g.phases, ts) && CanPut(g, t)
  {
    RoundNodes(t, list, head, g, ts);
    MainsApart(head, g.phases, ts, PhaseOf(g.phases, t));
    Neighbours(SubRing(g.phases[PhaseOf(g.phases, t)]), 0);
  }

  lemma RingsDiffer(head: ListHead<Task>, g: Gathered<Task>, t: Task, ts: set<Task>)
    requires CanPut(g, t) && Placed(head, g.phases, ts) && t == g.phases[PhaseOf(g.phases, t)][0]
    ensures MainRing(head, g.phases) != MainRing(head, Put(g, t).phases)
  {
    var ph: seq<seq<Task>>, ph': seq<seq<Task>>, p := g.phases, Put(g, t).phases, PhaseOf(g.phases, t);
    PutFrom(g, t);
    hide Put;
    if |ph[p]| > 1 {
      assert ph'[p][0] == ph[p][1] != t && Owns(ph[p][1]) && Owns(t);
      assert MainRing(head, ph)[p + 1] == t.node && MainRing(head, ph')[p + 1] == ph[p][1].node;
    }
  }

  /** The pointers from the head on determine the main ring. */
  lemma StillMain(head: ListHead<Task>, g: Gathered<Task>, t: Task, ts: set<Task>)
    requires CanPut(g, t) && Placed(head, g.phases, ts) && t == g.phases[PhaseOf(g.phases, t)][0]
    requires Linked(MainRing(head, g.phases))
    ensures !Shape(head, Put(g, t).phases, ts)
  {
    hide Linked, Ok, Apart, Placed, MainRing, Put, CanPut;
    RingsDiffer(head, g, t, ts);
    RingHead(head, g.phases);
    RingHead(head, Put(g, t).phases);
    if Shape(head, Put(g, t).phases, ts) {
      Unique(MainRing(head, g.phases), MainRing(head, Put(g, t).phases));
    }
  }

  lemma RingHead(head: ListHead<Task>, ph: seq<seq<Task>>)
    ensures |MainRing(head, ph)| > 0 && MainRing(head, ph)[0] == head
  {
  }

  /** A local list starts empty. */
  method StartList(list: ListHead<Task>, ghost head: ListHead<Task>, ghost ph: seq<seq<Task>>, ghost ts: set<Task>)
    requires Shape(head, ph, ts) && list.entry == None && list != head
    modifies list`next, list`prev
    ensures Rings(list, head, Gathered(ph, []), ts)
  {
    forall t | t in ts ensures t.node != list && t.subNode != list { assert Owns(t); }
    InsideMains(head, ph, ts);
    forall p: nat | p < |ph| ensures list !in SubRing(ph[p]) { InsideOne(head, ph, ts, p); }
    hide Ok, NonEmpty, Inside, Owns, SubRing, MainRing;
    label L:
    Init(list);
    StaysLinked@L(MainRing(head, ph));
    forall p: nat | p < |ph| ensures Linked(SubRing(ph[p])) { StaysLinked@L(SubRing(ph[p])); }
    assert ListRing(list, []) == [list];
  }

  /** The rounds left after one. */
  lemma NextRound(g0: Gathered<Task>, off0: Off, tasks: seq<Task>, i: nat, g: Gathered<Task>, off: Off)
    requires CanGather(g0, tasks) && i < |tasks| && CanGather(g, tasks[i..]) && Turns(g, off, tasks[i..])
    requires Gather(g, tasks[i..]) == Gather(g0, tasks) && OffGather(g, off, tasks[i..]) == OffGather(g0, off0, tasks)
    ensures Turn(g, off, tasks[i]) && In(g.phases, tasks[i])
    ensures var g', off' := Put(g, tasks[i]), OffPut(g, off, tasks[i]);
            && CanGather(g', tasks[i + 1..]) && Turns(g', off', tasks[i + 1..])
            && Gather(g', tasks[i + 1..]) == Gather(g0, tasks) && OffGather(g', off', tasks[i + 1..]) == OffGather(g0, off0, tasks)
  {
    assert tasks[i..][0] == tasks[i] && tasks[i..][1..] == tasks[i + 1..];
  }

  /** `mthpc_taskflow_rlist_del` */
  method RlistDel(list: ListHead<Task>, tasks: seq<Task>, ghost head: ListHead<Task>, ghost ph: seq<seq<Task>>,
        ghost off: Off, ghost ts: set<Task>)
    requires Shape(head, ph, ts) && Fields(Gathered(ph, []), off) && list.entry == None && list != head
    requires CanGather(Gathered(ph, []), tasks) && Turns(Gathered(ph, []), off, tasks)
    modifies ts`isSub, ts`nr, ts`main, Heads(ts)`next, Heads(ts)`prev, head`next, head`prev, list`next, list`prev
    ensures Rings(list, head, Gather(Gathered(ph, []), tasks), ts)
    ensures Fields(Gather(Gathered(ph, []), tasks), OffGather(Gathered(ph, []), off, tasks))
  {
    hide Ok, Apart, NonEmpty, Inside, Owns, Linked, Placed, In, Counted, Flagged, Loose, Rings, Fields, Shape, Listed,
         Put, CanPut, IndexOf, PhaseOf, WholeTurn, Turn, Turns, OffPut, OffGather, Gather, CanGather;
    label L:
    StartList(list, head, ph, ts);
    ghost var g0 := Gathered(ph, []);
    FieldsStay@L(Marked(g0, off));
    ghost var g, o := g0, off;
    assert tasks[0..] == tasks;
    var i := 0;
    while i < |tasks|
      invariant i <= |tasks| && CanGather(g, tasks[i..]) && Turns(g, o, tasks[i..])
      invariant Gather(g, tasks[i..]) == Gather(g0, tasks) && OffGather(g, o, tasks[i..]) == OffGather(g0, off, tasks)
      invariant Rings(list, head, g, ts) && Fields(g, o)
    {
      NextRound(g0, off, tasks, i, g, o);
      Detach(tasks[i], list, head, g, o, ts);
      g, o := Put(g, tasks[i]), OffPut(g, o, tasks[i]);
      i := i + 1;
    }
    GatherNone(g, o, tasks[i..]);
  }

  lemma GatherNone(g: Gathered<Task>, off: Off, none: seq<Task>)
    requires none == []
    ensures CanGather(g, none) && Gather(g, none) == g && OffGather(g, off, none) == off && Whole(g, none)
  {
  }

  // ---------------------------------------------------------------- adding the collected tasks

  lemma ExtendPlaced(head: ListHead<Task>, ph: seq<seq<Task>>, k: nat, i: nat, adding: seq<Task>, ts: set<Task>)
    requires Placed(head, ph, ts) && Apart(ph, adding) && (forall j :: 0 <= j < |adding| ==> adding[j] in ts)
    requires k < |ph| && i <= |ph[k]|
    ensures Placed(head, Extend(ph, k, i, adding), ts)
  {
    ExtendOk(ph, k, i, adding);
    var r, n := Extend(ph, k, i, adding), |adding|;
    forall p, a | 0 <= p < |r| && 0 <= a < |r[p]| ensures r[p][a] in ts {
      if p == k && i <= a < i + n {
        assert r[p][a] == adding[a - i];
      } else {
        assert r[p][a] == ph[p][if p == k && a >= i + n then a - n else a];
      }
    }
  }

  lemma Extended(head: ListHead<Task>, ph: seq<seq<Task>>, k: nat, i: nat, adding: seq<Task>, ts: set<Task>)
    requires Placed(head, ph, ts) && k < |ph| && 0 < i <= |ph[k]|
    ensures var r := Extend(ph, k, i, adding);
            && |r| == |ph| && MainRing(head, r) == MainRing(head, ph)
            && SubRing(r[k]) == SubRing(ph[k])[..i] + SubRing(adding) + SubRing(ph[k])[i..]
            && (forall q :: 0 <= q < |ph| && q != k ==> r[q] == ph[q])
  {
    hide Placed;
  }

  lemma ExtendedShape(head: ListHead<Task>, ph: seq<seq<Task>>, k: nat, i: nat, adding: seq<Task>, ts: set<Task>)
    requires Placed(head, ph, ts) && Apart(ph, adding) && (forall j :: 0 <= j < |adding| ==> adding[j] in ts)
    requires k < |ph| && 0 < i <= |ph[k]|
    requires Linked(MainRing(head, ph)) && Linked(SubRing(ph[k])[..i] + SubRing(adding) + SubRing(ph[k])[i..])
    requires forall q :: 0 <= q < |ph| && q != k ==> Linked(SubRing(ph[q]))
    ensures Shape(head, Extend(ph, k, i, adding), ts)
  {
    hide Linked, Placed, Apart, Ok, Extend, SubRing, MainRing;
    ExtendPlaced(head, ph, k, i, adding, ts);
    Extended(head, ph, k, i, adding, ts);
  }

  /** What the splices work on. */
  lemma SpliceNodes(list: ListHead<Task>, head: ListHead<Task>, g: Gathered<Task>, ts: set<Task>, k: nat)
    requires Rings(list, head, g, ts) && k < |g.phases|
    ensures Placed(head, g.phases, ts) && |g.phases[k]| > 0
    ensures Linked(ListRing(list, g.adding)) && ListRing(list, g.adding)[0] == list && ListRing(list, g.adding)[1..] == SubRing(g.adding)
    ensures Linked(SubRing(g.phases[k])) && SubRing(g.phases[k])[0] == g.phases[k][0].subNode
    ensures forall j :: 0 <= j < |g.adding| ==> g.adding[j] in ts
    ensures forall x :: x in ListRing(list, g.adding) ==> x !in MainRing(head, g.phases) && (x == list || x in Heads(ts))
    ensures forall x, q :: x in ListRing(list, g.adding) && 0 <= q < |g.phases| ==> x !in SubRing(g.phases[q])
    ensures forall x :: x in SubRing(g.phases[k]) ==> x in Heads(ts)
    ensures list.next in ListRing(list, g.adding) && list.prev in ListRing(list, g.adding)
    ensures g.phases[k][0].subNode.next in SubRing(g.phases[k]) && g.phases[k][0].subNode.prev in SubRing(g.phases[k])
    ensures forall i {:trigger g.phases[k][i]} :: 0 <= i < |g.phases[k]| ==> g.phases[k][i] in ts
  {
    ListApart(list, g.adding, head, g.phases, ts);
    InsideOne(head, g.phases, ts, k);
    Neighbours(ListRing(list, g.adding), 0);
    Neighbours(SubRing(g.phases[k]), 0);
  }

  lemma SpliceSeqs(list: ListHead<Task>, adding: seq<Task>, s: seq<Task>)
    requires |s| > 0
    ensures var a, b := ListRing(list, adding), SubRing(s);
            && b + a[1..] == b[..|s|] + SubRing(adding) + b[|s|..]
            && [b[0]] + a[1..] + b[1..] == b[..1] + SubRing(adding) + b[1..]
  {
  }

  /** The sub nodes of all phases but one. */
  lemma OtherSubNodes(list: ListHead<Task>, head: ListHead<Task>, g: Gathered<Task>, ts: set<Task>, k: nat)
    requires Placed(head, g.phases, ts) && k < |g.phases|
    requires forall x, q :: x in ListRing(list, g.adding) && 0 <= q < |g.phases| ==> x !in SubRing(g.phases[q])
    ensures forall x :: x in SubNodes(Drop(g.phases, k)) ==> x in Heads(ts) && x !in SubRing(g.phases[k]) && x !in ListRing(list, g.adding)
  {
    var ph: seq<seq<Task>>, d: seq<seq<Task>> := g.phases, Drop(g.phases, k);
    forall p, i | 0 <= p < |d| && 0 <= i < |d[p]|
      ensures d[p][i].subNode in Heads(ts) && d[p][i].subNode !in SubRing(ph[k]) && d[p][i].subNode !in ListRing(list, g.adding)
    {
      var q := if p < k then p else p + 1;
      assert d[p] == ph[q];
      PhasesApart(head, ph, ts, k, q);
      SubAt(ph[q], i);
    }
  }

  lemma OthersLinked(ph: seq<seq<Task>>, k: nat)
    requires k < |ph|
    ensures (forall p :: 0 <= p < |Drop(ph, k)| ==> Linked(SubRing(Drop(ph, k)[p]))) <==>
            (forall q :: 0 <= q < |ph| && q != k ==> Linked(SubRing(ph[q])))
  {
    var d := Drop(ph, k);
    if forall p :: 0 <= p < |d| ==> Linked(SubRing(d[p])) {
      forall q | 0 <= q < |ph| && q != k ensures Linked(SubRing(ph[q])) { assert ph[q] == d[if q < k then q else q - 1]; }
    }
  }

  /** The collected tasks join the sub-tasks of a phase, at their front or at their tail. */
  method SpliceInto(list: ListHead<Task>, to: Task, tail: bool, ghost head: ListHead<Task>, ghost g: Gathered<Task>,
        ghost k: nat, ghost ts: set<Task>)
    requires Rings(list, head, g, ts) && k < |g.phases| && |g.phases[k]| > 0 && to == g.phases[k][0]
    modifies Heads(ts)`next, Heads(ts)`prev, head`next, head`prev, list`next, list`prev
    ensures Shape(head, Extend(g.phases, k, if tail then |g.phases[k]| else 1, g.adding), ts)
  {
    hide Ok, Apart, NonEmpty, Inside, Owns, Linked, Placed, SubRing, MainRing, Extend, Listed, SubNodes, Drop;
    ghost var ph, a, b := g.phases, ListRing(list, g.adding), SubRing(g.phases[k]);
    SpliceNodes(list, head, g, ts, k);
    SpliceSeqs(list, g.adding, ph[k]);
    OtherSubNodes(list, head, g, ts, k);
    OthersLinked(ph, k);
    MainsApart(head, ph, ts, k);
    label L:
    if tail {
      SpliceTail(list, to.subNode, a, b);
    } else {
      Splice(list, to.subNode, a, b);
    }
    PlacedStays@L(Flowing(head, ph, ts));
    StaysLinked@L(MainRing(head, ph));
    SubsStay@L(Drop(ph, k));
    OthersLinked(ph, k);
    ExtendedShape(head, ph, k, if tail then |ph[k]| else 1, g.adding, ts);
  }

  // ---------------------------------------------------------------- new main tasks

  function NodeRing(list: ListHead<Task>, s: seq<Task>): (r: seq<ListHead<Task>>)
    ensures |r| == |s| + 1 && r[0] == list && forall i :: 0 <= i < |s| ==> r[i + 1] == s[i].node
  {
    [list] + seq(|s|, i requires 0 <= i < |s| => s[i].node)
  }

  lemma AllOwned(head: ListHead<Task>, ph: seq<seq<Task>>, adding: seq<Task>, ts: set<Task>)
    requires Placed(head, ph, ts) && forall i :: 0 <= i < |adding| ==> adding[i] in ts
    ensures forall i :: 0 <= i < |adding| ==> Owns(adding[i])
  {
  }

  /** The second local list, `new_adding_list`. */
  ghost predicate Second(list: ListHead<Task>, other: ListHead<Task>, head: ListHead<Task>)
    reads other`entry
  {
    other.entry == None && other != list && other != head
  }

  /** The nodes of the two local lists are apart from each other and from the rings of the taskflow. */
  lemma OwnsIs(t: Task)
    requires Owns(t)
    ensures t.node.entry == Some(t) && t.subNode.entry == Some(t) && t.node != t.subNode
  {
  }

  lemma MainsOwned(head: ListHead<Task>, ph: seq<seq<Task>>, ts: set<Task>)
    requires Placed(head, ph, ts)
    ensures forall p :: 0 <= p < |ph| ==> |ph[p]| > 0 && Owns(ph[p][0]) && ph[p][0] in ts
  {
  }

  lemma ListInHeads(list: ListHead<Task>, other: ListHead<Task>, adding: seq<Task>, ts: set<Task>)
    requires forall i :: 0 <= i < |adding| ==> adding[i] in ts
    ensures forall x :: x in ListRing(list, adding) ==> x == list || x in Heads(ts)
    ensures forall x :: x in NodeRing(other, adding) ==> x == other || x in Heads(ts)
  {
  }

  lemma NodesDistinct(ph: seq<seq<Task>>, adding: seq<Task>)
    requires Apart(ph, adding) && forall i :: 0 <= i < |adding| ==> Owns(adding[i])
    ensures forall i, j :: 0 <= i < j < |adding| ==> adding[i].node != adding[j].node && adding[i].subNode != adding[j].subNode
  {
  }

  lemma NodesApart(list: ListHead<Task>, other: ListHead<Task>, head: ListHead<Task>, ph: seq<seq<Task>>,
        adding: seq<Task>, ts: set<Task>)
    requires Placed(head, ph, ts) && Apart(ph, adding) && (forall i :: 0 <= i < |adding| ==> Owns(adding[i]))
    requires list.entry == None && list != head && Second(list, other, head)
    ensures forall x :: x in NodeRing(other, adding) ==> x !in MainRing(head, ph) && x !in ListRing(list, adding)
    ensures forall x, q :: x in NodeRing(other, adding) && 0 <= q < |ph| ==> x !in SubRing(ph[q])
  {
    MainsOwned(head, ph, ts);
    forall k, m | 0 <= k < |adding| + 1 && 0 <= m < |ph| + 1 ensures MainRing(head, ph)[m] != NodeRing(other, adding)[k] {}
    forall q, k | 0 <= q < |ph| && 0 <= k < |adding| + 1 ensures NodeRing(other, adding)[k] !in SubRing(ph[q]) {
      InsideOne(head, ph, ts, q);
    }
    forall k, m | 0 <= k < |adding| + 1 && 0 <= m < |adding| + 1 ensures NodeRing(other, adding)[k] != ListRing(list, adding)[m] {}
  }

  lemma TwoLists(list: ListHead<Task>, other: ListHead<Task>, head: ListHead<Task>, ph: seq<seq<Task>>,
        adding: seq<Task>, ts: set<Task>)
    requires Placed(head, ph, ts) && Apart(ph, adding) && (forall i :: 0 <= i < |adding| ==> adding[i] in ts)
    requires list.entry == None && list != head && Second(list, other, head)
    ensures forall x :: x in ListRing(list, adding) ==> x !in NodeRing(other, adding) && x !in MainRing(head, ph)
    ensures forall x :: x in NodeRing(other, adding) ==> x !in MainRing(head, ph)
    ensures forall x, q :: x in ListRing(list, adding) && 0 <= q < |ph| ==> x !in SubRing(ph[q])
    ensures forall x, q :: x in NodeRing(other, adding) && 0 <= q < |ph| ==> x !in SubRing(ph[q])
    ensures forall i, j :: 0 <= i < j < |adding| ==> adding[i].node != adding[j].node && adding[i].subNode != adding[j].subNode
    ensures forall i :: 0 <= i < |adding| ==> adding[i].subNode.entry == Some(adding[i])
    ensures forall x, q :: 0 <= q < |ph| && x in SubRing(ph[q]) ==> x in Heads(ts)
    ensures forall x :: x in ListRing(list, adding) ==> x == list || x in Heads(ts)
    ensures forall x :: x in NodeRing(other, adding) ==> x == other || x in Heads(ts)
    ensures forall x :: x in MainRing(head, ph) ==> x in Heads(ts) || x == head
    ensures forall i :: 0 <= i < |adding| ==> adding[i].node in Heads(ts) && adding[i].subNode in Heads(ts)
  {
    hide Ok, Apart, NonEmpty, Linked, Owns, SubRing, MainRing, ListRing, NodeRing, Placed;
    ListApart(list, adding, head, ph, ts);
    InsideMains(head, ph, ts);
    AllOwned(head, ph, adding, ts);
    ListInHeads(list, other, adding, ts);
    NodesDistinct(ph, adding);
    MainsOwned(head, ph, ts);
    NodesApart(list, other, head, ph, adding, ts);
    forall q: nat | q < |ph| ensures forall x :: x in SubRing(ph[q]) ==> x in Heads(ts) { InsideOne(head, ph, ts, q); }
    forall i | 0 <= i < |adding| ensures adding[i].subNode.entry == Some(adding[i]) { OwnsIs(adding[i]); }
  }

  ghost predicate Locals(list: ListHead<Task>, other: ListHead<Task>, head: ListHead<Task>, g: Gathered<Task>,
        ts: set<Task>)
    reads list`entry, other`entry
  {
    && Apart(g.phases, g.adding) && (forall i :: 0 <= i < |g.adding| ==> g.adding[i] in ts)
    && list.entry == None && list != head && Second(list, other, head)
  }

  /** In the middle of the loop: the first `k` tasks have left the first list, and the first `i`
      hang in the second one by `node`. */
  ghost predicate Half(list: ListHead<Task>, other: ListHead<Task>, adding: seq<Task>, ts: set<Task>, i: nat, k: nat)
    requires i <= |adding| && k <= |adding| && forall j :: 0 <= j < |adding| ==> adding[j] in ts
    reads list`next, list`prev, other`next, other`prev, Heads(ts)`next, Heads(ts)`prev
  {
    && Linked(ListRing(list, adding[k..])) && Linked(NodeRing(other, adding[..i]))
    && forall j :: 0 <= j < k ==> Linked([adding[j].subNode])
  }

  lemma ListTail(list: ListHead<Task>, adding: seq<Task>, m: nat)
    requires m <= |adding|
    ensures forall x :: x in ListRing(list, adding[m..]) ==> x in ListRing(list, adding)
  {
    forall x | x in ListRing(list, adding[m..]) ensures x in ListRing(list, adding) {
      var k :| 0 <= k < |adding| - m + 1 && ListRing(list, adding[m..])[k] == x;
      assert x == ListRing(list, adding)[if k == 0 then 0 else k + m];
    }
  }

  lemma ListFront(list: ListHead<Task>, adding: seq<Task>, m: nat, j: nat)
    requires j < m <= |adding| && list.entry == None && Owns(adding[j])
    requires forall j, k :: 0 <= j < k < |adding| ==> adding[j].subNode != adding[k].subNode
    ensures adding[j].subNode in ListRing(list, adding) && adding[j].subNode !in ListRing(list, adding[m..])
  {
    assert ListRing(list, adding)[j + 1] == adding[j].subNode;
    forall k | 0 <= k < |adding| - m + 1 ensures ListRing(list, adding[m..])[k] != adding[j].subNode {}
  }

  lemma NodeFront(other: ListHead<Task>, adding: seq<Task>, i: nat)
    requires i < |adding| && other.entry == None && Owns(adding[i])
    requires forall j, k :: 0 <= j < k < |adding| ==> adding[j].node != adding[k].node
    ensures forall x :: x in NodeRing(other, adding[..i]) ==> x in NodeRing(other, adding)
    ensures adding[i].node in NodeRing(other, adding) && adding[i].node !in NodeRing(other, adding[..i])
  {
    forall x | x in NodeRing(other, adding[..i]) ensures x in NodeRing(other, adding) {
      var k :| 0 <= k < i + 1 && NodeRing(other, adding[..i])[k] == x;
      assert x == NodeRing(other, adding)[k];
    }
    assert NodeRing(other, adding)[i + 1] == adding[i].node;
    forall k | 0 <= k < i + 1 ensures NodeRing(other, adding[..i])[k] != adding[i].node {}
  }

  lemma RelinkSeqs(list: ListHead<Task>, other: ListHead<Task>, adding: seq<Task>, i: nat)
    requires i < |adding|
    ensures Drop(ListRing(list, adding[i..]), 1) == ListRing(list, adding[i + 1..])
    ensures |ListRing(list, adding[i..])| > 1 && ListRing(list, adding[i..])[1] == adding[i].subNode
    ensures NodeRing(other, adding[..i]) + [adding[i].node] == NodeRing(other, adding[..i + 1])
    ensures NodeRing(other, adding[..i])[0] == other
  {
  }

  /** All of it together, for round `i`. */
  lemma RelinkStep(list: ListHead<Task>, other: ListHead<Task>, head: ListHead<Task>, ph: seq<seq<Task>>,
        adding: seq<Task>, ts: set<Task>, i: nat)
    requires Placed(head, ph, ts) && Apart(ph, adding) && (forall i :: 0 <= i < |adding| ==> adding[i] in ts)
    requires list.entry == None && list != head && Second(list, other, head) && i < |adding|
    ensures forall m: nat, x :: m <= |adding| && x in ListRing(list, adding[m..]) ==> x in ListRing(list, adding)
    ensures forall j {:trigger adding[j]} :: 0 <= j <= i ==> adding[j].subNode in ListRing(list, adding) && adding[j].subNode !in ListRing(list, adding[i + 1..])
    ensures forall x :: x in NodeRing(other, adding[..i]) ==> x in NodeRing(other, adding)
    ensures adding[i].node in NodeRing(other, adding) && adding[i].node !in NodeRing(other, adding[..i])
    ensures forall x :: x in ListRing(list, adding) ==> x == list || x in Heads(ts)
    ensures forall x :: x in NodeRing(other, adding) ==> x == other || x in Heads(ts)
    ensures adding[i].node in Heads(ts) && adding[i].subNode in Heads(ts)
  {
    hide Ok, Apart, NonEmpty, Inside, SubRing, MainRing, Owns;
    AllOwned(head, ph, adding, ts);
    TwoLists(list, other, head, ph, adding, ts);
    NodeFront(other, adding, i);
    forall m: nat | m <= |adding| { ListTail(list, adding, m); }
    forall j: nat | j <= i ensures adding[j].subNode in ListRing(list, adding) && adding[j].subNode !in ListRing(list, adding[i + 1..]) {
      ListFront(list, adding, i + 1, j);
    }
  }

  /** The first half of a round takes `t` out of the first list. */
  method RelinkOut(t: Task, list: ListHead<Task>, ghost other: ListHead<Task>, ghost head: ListHead<Task>,
        ghost g: Gathered<Task>, ghost ts: set<Task>, ghost i: nat)
    requires Shape(head, g.phases, ts) && Locals(list, other, head, g, ts)
    requires i < |g.adding| && t == g.adding[i] && Half(list, other, g.adding, ts, i, i)
    modifies Heads(ts)`next, Heads(ts)`prev, list`next, list`prev
    ensures Shape(head, g.phases, ts) && Half(list, other, g.adding, ts, i, i + 1)
  {
    hide Ok, Apart, Owns, Placed, NonEmpty, Inside, Linked, SubRing, MainRing, ListRing, NodeRing, Drop;
    ghost var ph, a := g.phases, g.adding;
    ghost var r, n := ListRing(list, a[i..]), NodeRing(other, a[..i]);
    TwoLists(list, other, head, ph, a, ts);
    RelinkStep(list, other, head, ph, a, ts, i);
    RelinkSeqs(list, other, a, i);
    Neighbours(r, 1);
    label L:
    Del(t.subNode, r, 1);
    StaysLinked@L(n);
    StaysLinked@L(MainRing(head, ph));
    forall q: nat | q < |ph| ensures Linked(SubRing(ph[q])) {
      assert forall x :: x in SubRing(ph[q]) ==> x !in ListRing(list, a) && x in Heads(ts);
      StaysLinked@L(SubRing(ph[q]));
    }
    forall j: nat | j < i ensures Linked([a[j].subNode]) { StaysLinked@L([a[j].subNode]); }
  }

  /** The second half hangs it at the end of the second list. */
  method RelinkIn(t: Task, ghost list: ListHead<Task>, other: ListHead<Task>, ghost head: ListHead<Task>,
        ghost g: Gathered<Task>, ghost ts: set<Task>, ghost i: nat)
    requires Shape(head, g.phases, ts) && Locals(list, other, head, g, ts)
    requires i < |g.adding| && t == g.adding[i] && Half(list, other, g.adding, ts, i, i + 1)
    modifies Heads(ts)`next, Heads(ts)`prev, other`next, other`prev
    ensures Shape(head, g.phases, ts) && Half(list, other, g.adding, ts, i + 1, i + 1)
  {
    hide Ok, Apart, Owns, Placed, NonEmpty, Inside, Linked, SubRing, MainRing, ListRing, NodeRing, Drop;
    ghost var ph, a := g.phases, g.adding;
    ghost var r, n := ListRing(list, a[i + 1..]), NodeRing(other, a[..i]);
    TwoLists(list, other, head, ph, a, ts);
    RelinkStep(list, other, head, ph, a, ts, i);
    RelinkSeqs(list, other, a, i);
    Neighbours(n, 0);
    label L:
    AddTail(t.node, other, n);
    assert forall x :: x in r ==> x in ListRing(list, a) && x !in NodeRing(other, a);
    StaysLinked@L(r);
    StaysLinked@L(MainRing(head, ph));
    forall q: nat | q < |ph| ensures Linked(SubRing(ph[q])) {
      assert forall x :: x in SubRing(ph[q]) ==> x !in NodeRing(other, a) && x in Heads(ts);
      StaysLinked@L(SubRing(ph[q]));
    }
    forall j: nat | j <= i ensures Linked([a[j].subNode]) { StaysLinked@L([a[j].subNode]); }
  }

  lemma ListPointers(list: ListHead<Task>, adding: seq<Task>, i: nat)
    requires i <= |adding| && Linked(ListRing(list, adding[i..]))
    ensures list.next == if i < |adding| then adding[i].subNode else list
    ensures i < |adding| ==> adding[i].subNode.next == if i + 1 < |adding| then adding[i + 1].subNode else list
    ensures i < |adding| ==> adding[i].subNode != list
  {
    var r := ListRing(list, adding[i..]);
    assert r[0].next == if |r| > 1 then r[1] else r[0];
    if i < |adding| {
      assert r[1].next == if |r| > 2 then r[2] else r[0];
    }
  }

  /** The loop that moves the tasks from one local list to the other. */
  method Relink(list: ListHead<Task>, other: ListHead<Task>, ghost head: ListHead<Task>, ghost g: Gathered<Task>,
        ghost ts: set<Task>)
    requires Shape(head, g.phases, ts) && Locals(list, other, head, g, ts)
    requires Linked(ListRing(list, g.adding)) && Linked([other])
    modifies Heads(ts)`next, Heads(ts)`prev, list`next, list`prev, other`next, other`prev
    ensures Shape(head, g.phases, ts) && Half(list, other, g.adding, ts, |g.adding|, |g.adding|)
  {
    hide Ok, Apart, NonEmpty, Inside, Linked, SubRing, MainRing, ListRing, Placed, Shape;
    ghost var i, a := 0, g.adding;
    assert a[0..] == a && NodeRing(other, a[..0]) == [other];
    ListPointers(list, a, 0);
    AllOwnedShape(head, g.phases, a, ts);
    var pos := list.next;
    var n := pos.next;
    while pos != list
      invariant i <= |a| && Shape(head, g.phases, ts) && Half(list, other, a, ts, i, i)
      invariant pos == if i < |a| then a[i].subNode else list
      invariant n == pos.next
      decreases |a| - i
    {
      ListPointers(list, a, i);
      var tmp := pos.entry.value;
      RelinkOut(tmp, list, other, head, g, ts, i);
      RelinkIn(tmp, list, other, head, g, ts, i);
      i := i + 1;
      ListPointers(list, a, i);
      pos := n;
      n := pos.next;
    }
    ListPointers(list, a, i);
  }

  lemma AllOwnedShape(head: ListHead<Task>, ph: seq<seq<Task>>, adding: seq<Task>, ts: set<Task>)
    requires Shape(head, ph, ts) && forall i :: 0 <= i < |adding| ==> adding[i] in ts
    ensures forall i :: 0 <= i < |adding| ==> adding[i].subNode.entry == Some(adding[i])
  {
    AllOwned(head, ph, adding, ts);
  }

  lemma SpreadRings(head: ListHead<Task>, ph: seq<seq<Task>>, k: nat, adding: seq<Task>, other: ListHead<Task>)
    requires k <= |ph|
    ensures MainRing(head, Spread(ph, k, adding)) == MainRing(head, ph)[..k + 1] + NodeRing(other, adding)[1..] + MainRing(head, ph)[k + 1..]
    ensures forall j :: 0 <= j < |adding| ==> SubRing([adding[j]]) == [adding[j].subNode]
  {
    hide Spread, Lead, MainRing, NodeRing;
    var r, m := MainRing(head, Spread(ph, k, adding)), MainRing(head, ph);
    SpreadAt(ph, k, adding, 0);
    forall c | 0 <= c < |r| ensures r[c] == (m[..k + 1] + NodeRing(other, adding)[1..] + m[k + 1..])[c] {
      SpreadRing(head, ph, k, adding, other, c);
    }
  }

  lemma SpreadRing(head: ListHead<Task>, ph: seq<seq<Task>>, k: nat, adding: seq<Task>, other: ListHead<Task>, c: nat)
    requires k <= |ph| && c < |MainRing(head, Spread(ph, k, adding))|
    ensures c < |ph| + |adding| + 1
    ensures MainRing(head, Spread(ph, k, adding))[c] ==
              if c <= k then MainRing(head, ph)[c]
              else if c <= k + |adding| then NodeRing(other, adding)[c - k] else MainRing(head, ph)[c - |adding|]
  {
    hide Spread;
    SpreadAt(ph, k, adding, 0);
    if c > 0 { SpreadAt(ph, k, adding, c - 1); }
  }

  lemma SpreadPlaced(head: ListHead<Task>, ph: seq<seq<Task>>, k: nat, adding: seq<Task>, ts: set<Task>)
    requires Placed(head, ph, ts) && Apart(ph, adding) && (forall j :: 0 <= j < |adding| ==> adding[j] in ts)
    requires k <= |ph|
    ensures Placed(head, Spread(ph, k, adding), ts)
  {
    SpreadOk(ph, k, adding);
    var r, n := Spread(ph, k, adding), |adding|;
    forall p | 0 <= p < |r| ensures |r[p]| > 0 && forall a :: 0 <= a < |r[p]| ==> r[p][a] in ts {
      SpreadAt(ph, k, adding, p);
    }
  }

  lemma SpreadShape(head: ListHead<Task>, ph: seq<seq<Task>>, k: nat, adding: seq<Task>, ts: set<Task>,
        other: ListHead<Task>)
    requires Placed(head, ph, ts) && Apart(ph, adding) && (forall j :: 0 <= j < |adding| ==> adding[j] in ts)
    requires k <= |ph| && Linked(MainRing(head, ph)[..k + 1] + NodeRing(other, adding)[1..] + MainRing(head, ph)[k + 1..])
    requires forall q :: 0 <= q < |ph| ==> Linked(SubRing(ph[q]))
    requires forall j :: 0 <= j < |adding| ==> Linked([adding[j].subNode])
    ensures Shape(head, Spread(ph, k, adding), ts)
  {
    hide Linked, Placed, Ok, Apart, MainRing, SubRing, Spread;
    SpreadPlaced(head, ph, k, adding, ts);
    SpreadRings(head, ph, k, adding, other);
    forall q | 0 <= q < |Spread(ph, k, adding)| ensures Linked(SubRing(Spread(ph, k, adding)[q])) {
      SpreadAt(ph, k, adding, q);
    }
  }

  /** The second list goes after the last main task, or before the first one. */
  lemma Rotations(m: seq<ListHead<Task>>, nodes: seq<ListHead<Task>>)
    requires |m| > 1
    ensures var last := m[|m| - 1..] + m[..|m| - 1];
            var u := [last[0]] + nodes + last[1..];
            last[0] == m[|m| - 1] && u[|nodes| + 1..] + u[..|nodes| + 1] == m[..|m|] + nodes + m[|m|..]
    ensures var first := m[1..] + m[..1];
            var u := first + nodes;
            first[0] == m[1] && u[|m| - 1..] + u[..|m| - 1] == m[..1] + nodes + m[1..]
  {
    var last := m[|m| - 1..] + m[..|m| - 1];
    var u := [last[0]] + nodes + last[1..];
    assert u[|nodes| + 1..] == m[..|m| - 1];
    assert u[..|nodes| + 1] == [m[|m| - 1]] + nodes;
  }

  /** The main ring from the last main task on, or from the first one. */
  function Turned(m: seq<ListHead<Task>>, atEnd: bool): seq<ListHead<Task>>
    requires |m| > 1
  {
    if atEnd then m[|m| - 1..] + m[..|m| - 1] else m[1..] + m[..1]
  }

  lemma TurnedNodes(head: ListHead<Task>, ph: seq<seq<Task>>, main: Task, atEnd: bool)
    requires Linked(MainRing(head, ph)) && NonEmpty(ph)
    requires |ph| > 0 && main == ph[if atEnd then |ph| - 1 else 0][0]
    ensures var m := MainRing(head, ph);
            var b := Turned(m, atEnd);
            && |m| > 1 && Linked(b) && b[0] == main.node && main.node in m && main.node.next in m && main.node.prev in m
            && (forall x :: x in b ==> x in m)
  {
    var m := MainRing(head, ph);
    var c := if atEnd then |m| - 1 else 1;
    assert m[c] == main.node;
    hide Linked, MainRing, NonEmpty, Drop;
    Rotate(m, c);
    Neighbours(m, c);
    assert Turned(m, atEnd) == m[c..] + m[..c];
  }

  lemma SpliceNewNodes(other: ListHead<Task>, list: ListHead<Task>, head: ListHead<Task>, g: Gathered<Task>,
        ts: set<Task>, xs: set<ListHead<Task>>)
    requires Placed(head, g.phases, ts) && Locals(list, other, head, g, ts) && Linked(NodeRing(other, g.adding))
    requires xs == Nodes(MainRing(head, g.phases)) + Nodes(NodeRing(other, g.adding))
    ensures other.next in NodeRing(other, g.adding) && other.prev in NodeRing(other, g.adding)
    ensures forall x :: x in NodeRing(other, g.adding) ==> x !in MainRing(head, g.phases)
    ensures forall x :: x in MainRing(head, g.phases) || x in NodeRing(other, g.adding) ==> x in xs
    ensures forall x :: x in xs ==> x == head || x == other || x in Heads(ts)
    ensures forall x :: x in SubNodes(g.phases) ==> x !in xs && x in Heads(ts)
    ensures forall j :: 0 <= j < |g.adding| ==> g.adding[j].subNode !in xs && g.adding[j].subNode in Heads(ts)
  {
    hide Linked, SubRing, MainRing, Ok, Apart, Owns, NonEmpty, Inside;
    TwoLists(list, other, head, g.phases, g.adding, ts);
    RingEnds(other, g.adding);
    forall q: nat | q < |g.phases| ensures forall x :: x in SubRing(g.phases[q]) ==> x !in MainRing(head, g.phases) {
      MainsApart(head, g.phases, ts, q);
    }
    forall p, i | 0 <= p < |g.phases| && 0 <= i < |g.phases[p]| ensures g.phases[p][i].subNode in SubRing(g.phases[p]) {
      SubAt(g.phases[p], i);
    }
    forall j | 0 <= j < |g.adding| ensures g.adding[j].subNode in ListRing(list, g.adding) {
      assert ListRing(list, g.adding)[j + 1] == g.adding[j].subNode by { SubAt(g.adding, j); }
    }
  }

  lemma RingEnds(other: ListHead<Task>, adding: seq<Task>)
    requires Linked(NodeRing(other, adding))
    ensures other.next in NodeRing(other, adding) && other.prev in NodeRing(other, adding)
  {
    Neighbours(NodeRing(other, adding), 0);
  }

  lemma SpliceNewKnown(other: ListHead<Task>, list: ListHead<Task>, head: ListHead<Task>, g: Gathered<Task>,
        ts: set<Task>)
    requires Shape(head, g.phases, ts) && Locals(list, other, head, g, ts) && Half(list, other, g.adding, ts, |g.adding|, |g.adding|)
    ensures Placed(head, g.phases, ts) && NonEmpty(g.phases) && Apart(g.phases, g.adding)
    ensures forall j :: 0 <= j < |g.adding| ==> g.adding[j] in ts
    ensures Linked(MainRing(head, g.phases)) && |MainRing(head, g.phases)| == |g.phases| + 1
    ensures Linked(NodeRing(other, g.adding)) && other.entry == None && other != head
    ensures forall q :: 0 <= q < |g.phases| ==> Linked(SubRing(g.phases[q]))
    ensures forall j :: 0 <= j < |g.adding| ==> Linked([g.adding[j].subNode])
  {
    assert g.adding[..|g.adding|] == g.adding;
  }

  lemma NewRing(m: seq<ListHead<Task>>, nodes: seq<ListHead<Task>>, atEnd: bool)
    requires |m| > 1
    requires var b := Turned(m, atEnd);
             Linked(if atEnd then [b[0]] + nodes + b[1..] else b + nodes)
    ensures var k := if atEnd then |m| else 1;
            Linked(m[..k] + nodes + m[k..])
  {
    Rotations(m, nodes);
    var b := Turned(m, atEnd);
    if atEnd {
      Rotate([b[0]] + nodes + b[1..], |nodes| + 1);
    } else {
      Rotate(b + nodes, |m| - 1);
    }
  }

  /** The two splices, on rings. */
  method SpliceTurned(other: ListHead<Task>, to: ListHead<Task>, atEnd: bool, ghost m: seq<ListHead<Task>>,
        ghost n: seq<ListHead<Task>>, ghost xs: set<ListHead<Task>>)
    requires forall x :: x in m || x in n ==> x in xs
    requires |m| > 1 && Linked(Turned(m, atEnd)) && Turned(m, atEnd)[0] == to && Linked(n) && n[0] == other
    requires to in m && to.next in m && to.prev in m && other.next in n && other.prev in n
    requires (forall x :: x in Turned(m, atEnd) ==> x in m) && (forall x :: x in n ==> x !in m)
    modifies xs`next, xs`prev
    ensures var k := if atEnd then |m| else 1;
            Linked(m[..k] + n[1..] + m[k..])
  {
    hide Linked, Turned;
    ghost var b := Turned(m, atEnd);
    if atEnd {
      Splice(other, to, n, b);
    } else {
      SpliceTail(other, to, n, b);
    }
    NewRing(m, n[1..], atEnd);
  }

  /** New main tasks: at the end of the main ring, or at its front. */
  method SpliceNew(other: ListHead<Task>, main: Task, atEnd: bool, ghost list: ListHead<Task>,
        ghost head: ListHead<Task>, ghost g: Gathered<Task>, ghost ts: set<Task>)
    requires Shape(head, g.phases, ts) && Locals(list, other, head, g, ts) && Half(list, other, g.adding, ts, |g.adding|, |g.adding|)
    requires |g.phases| > 0 && main == g.phases[if atEnd then |g.phases| - 1 else 0][0]
    modifies Heads(ts)`next, Heads(ts)`prev, head`next, head`prev, other`next, other`prev
    ensures Shape(head, Spread(g.phases, if atEnd then |g.phases| else 0, g.adding), ts)
  {
    hide Ok, Apart, Inside, Linked, SubRing, ListRing, MainRing, Spread, Turned, Drop, Placed, NonEmpty, Shape,
         Half, Locals, Second, Nodes, NodeRing, SubNodes;
    ghost var ph, a := g.phases, g.adding;
    ghost var m, n := MainRing(head, ph), NodeRing(other, a);
    SpliceNewKnown(other, list, head, g, ts);
    ghost var xs := Nodes(m) + Nodes(n);
    SpliceNewNodes(other, list, head, g, ts, xs);
    TurnedNodes(head, ph, main, atEnd);
    label L:
    SpliceTurned(other, main.node, atEnd, m, n, xs);
    SubsStay@L(ph);
    SinglesStay@L(a);
    PlacedStays@L(Flowing(head, ph, ts));
    SpreadShape(head, ph, if atEnd then |ph| else 0, a, ts, other);
  }

  // ---------------------------------------------------------------- the fields afterwards

  /** Tasks joining phase `k` before its `i`-th task. */
  datatype Joining = Joining(g: Gathered<Task>, k: nat, i: nat, off: Off)

  ghost predicate JoiningOk(j: Joining) {
    && Ok(j.g.phases) && NonEmpty(j.g.phases) && Apart(j.g.phases, j.g.adding)
    && j.k < |j.g.phases| && 0 < j.i <= |j.g.phases[j.k]|
  }

  lemma ExtendAt(ph: seq<seq<Task>>, k: nat, i: nat, adding: seq<Task>, p: nat, a: nat)
    requires k < |ph| && i <= |ph[k]|
    ensures var r := Extend(ph, k, i, adding);
            && |r| == |ph|
            && (p < |ph| ==> |r[p]| == |ph[p]| + if p == k then |adding| else 0)
            && (p < |ph| && a < |r[p]| ==>
                  r[p][a] == if p != k || a < i then ph[p][a] else if a < i + |adding| then adding[a - i] else ph[p][a - |adding|])
  {
  }

  twostate lemma Joined(j: Joining)
    requires JoiningOk(j) && old(Counted(j.g, j.off))
    requires var to := j.g.phases[j.k][0]; to.nr == old(to.nr) + |j.g.adding|
    requires forall t :: (t in Tasks(j.g.phases) || t in j.g.adding) && t != j.g.phases[j.k][0] ==> t.nr == old(t.nr)
    ensures Counted(Gathered(Extend(j.g.phases, j.k, j.i, j.g.adding), []), j.off)
  {
    var ph, n := j.g.phases, |j.g.adding|;
    var r: seq<seq<Task>> := Extend(ph, j.k, j.i, j.g.adding);
    forall p, a | 0 <= p < |r| && 0 <= a < |r[p]|
      ensures r[p][a].nr == (if a == 0 then |r[p]| else 1) + j.off.Extra(r[p][a])
    {
      ExtendAt(ph, j.k, j.i, j.g.adding, p, a);
      if p == j.k && j.i <= a < j.i + n {
        assert r[p][a] == j.g.adding[a - j.i];
        assert ph[p][0] in Tasks(ph) && ph[p][0] != r[p][a];
      } else {
        var b := if p == j.k && a >= j.i + n then a - n else a;
        assert r[p][a] == ph[p][b] && ph[p][b] in Tasks(ph);
      }
    }
  }

  lemma JoinedFlags(j: Joining)
    requires JoiningOk(j) && Flagged(j.g.phases, j.off)
    requires forall t :: t in j.g.adding ==> t.isSub && t.main == j.g.phases[j.k][0] && t !in j.off.stale
    ensures Flagged(Extend(j.g.phases, j.k, j.i, j.g.adding), j.off)
  {
    var ph := j.g.phases;
    var r: seq<seq<Task>> := Extend(ph, j.k, j.i, j.g.adding);
    forall p, a | 0 <= p < |r| && 0 <= a < |r[p]|
      ensures var t := r[p][a];
              if t in j.off.stale then t.isSub && t.main == j.off.stale[t]
              else t.isSub == (a > 0) && t.main == if a > 0 then r[p][0] else null
    {
      ExtendAt(ph, j.k, j.i, j.g.adding, p, a);
      ExtendAt(ph, j.k, j.i, j.g.adding, p, 0);
    }
  }

  /** The collected tasks as phases: the first one is unmarked and gets the number of all of them
      as its count, the others stay marked. */
  function OffSpread(off: Off, adding: seq<Task>): Off
    requires |adding| > 0
  {
    Off(off.stale + (map t | t in adding[1..] :: null), off.extra[adding[0] := |adding| - 1])
  }

  lemma SpreadFields(g: Gathered<Task>, k: nat, off: Off)
    requires Ok(g.phases) && Apart(g.phases, g.adding) && k <= |g.phases| && |g.adding| > 0
    requires Counted(Gathered(g.phases, []), off) && Flagged(g.phases, off)
    requires forall t :: t in g.adding ==> t !in off.stale && t.main == null
    requires !g.adding[0].isSub && g.adding[0].nr == |g.adding|
    requires forall j :: 1 <= j < |g.adding| ==> g.adding[j].isSub && g.adding[j].nr == 1 + off.Extra(g.adding[j])
    ensures Counted(Gathered(Spread(g.phases, k, g.adding), []), OffSpread(off, g.adding))
    ensures Flagged(Spread(g.phases, k, g.adding), OffSpread(off, g.adding))
  {
    hide Spread, Ok;
    var ph, n, off' := g.phases, |g.adding|, OffSpread(off, g.adding);
    var r: seq<seq<Task>> := Spread(ph, k, g.adding);
    SpreadAt(ph, k, g.adding, 0);
    forall p, a | 0 <= p < |r| && 0 <= a < |r[p]|
      ensures var t := r[p][a];
              && t.nr == (if a == 0 then |r[p]| else 1) + off'.Extra(t)
              && if t in off'.stale then t.isSub && t.main == off'.stale[t]
                 else t.isSub == (a > 0) && t.main == if a > 0 then r[p][0] else null
    {
      SpreadAt(ph, k, g.adding, p);
      if k <= p < k + n {
        assert r[p] == [g.adding[p - k]] && g.adding[p - k] in g.adding;
        if p > k { assert g.adding[p - k] == g.adding[1..][p - k - 1]; }
      } else {
        var q := if p < k then p else p - n;
        assert r[p] == ph[q] && ph[q][a] !in g.adding;
      }
    }
  }

  lemma WalkPointers(list: ListHead<Task>, adding: seq<Task>, i: nat)
    requires i <= |adding| && Linked(ListRing(list, adding))
    ensures i == 0 ==> list.next == if |adding| > 0 then adding[0].subNode else list
    ensures i < |adding| ==> adding[i].subNode != list
    ensures i < |adding| ==> adding[i].subNode.next == if i + 1 < |adding| then adding[i + 1].subNode else list
  {
    var r := ListRing(list, adding);
    assert r[i].next == if i + 1 < |r| then r[i + 1] else r[0];
    if i < |adding| { assert r[0] != r[i + 1] && r[i + 1].next == if i + 2 < |r| then r[i + 2] else r[0]; }
  }

  /** The loop that tells the collected tasks their main task. */
  method SetMains(list: ListHead<Task>, to: Task, ghost adding: seq<Task>, ghost ms: set<Task>)
    requires forall t :: t in adding ==> t in ms
    requires Linked(ListRing(list, adding)) && forall i :: 0 <= i < |adding| ==> adding[i].subNode.entry == Some(adding[i])
    modifies ms`main
    ensures forall t :: t in adding ==> t.main == to
  {
    hide Linked, ListRing;
    ghost var i := 0;
    WalkPointers(list, adding, 0);
    var pos := list.next;
    while pos != list
      invariant i <= |adding| && Linked(ListRing(list, adding))
      invariant pos == if i < |adding| then adding[i].subNode else list
      invariant forall j :: 0 <= j < i ==> adding[j].main == to
      decreases |adding| - i
    {
      WalkPointers(list, adding, i);
      pos.entry.value.main := to;
      pos := pos.next;
      i := i + 1;
    }
    if i < |adding| { WalkPointers(list, adding, i); }
  }

  /** What joining a phase needs to know. */
  lemma JoinKnown(list: ListHead<Task>, head: ListHead<Task>, g: Gathered<Task>, k: nat, tail: bool, off: Off, ts: set<Task>)
    requires Rings(list, head, g, ts) && k < |g.phases|
    ensures |g.phases[k]| > 0 && JoiningOk(Joining(g, k, if tail then |g.phases[k]| else 1, off))
    ensures Linked(ListRing(list, g.adding)) && forall i :: 0 <= i < |g.adding| ==> g.adding[i].subNode.entry == Some(g.adding[i])
    ensures forall t :: t in g.adding ==> t in ts && t !in Tasks(g.phases)
    ensures g.phases[k][0] in ts && g.phases[k][0] in Tasks(g.phases)
  {
    AllOwned(head, g.phases, g.adding, ts);
  }

  ghost function Members(s: seq<Task>): set<Task> {
    set t | t in s
  }

  /** The collected tasks learn their main task and are spliced in. */
  method TellAndSplice(list: ListHead<Task>, to: Task, tail: bool, ghost head: ListHead<Task>,
        ghost g: Gathered<Task>, ghost k: nat, ghost off: Off, ghost ts: set<Task>)
    requires Rings(list, head, g, ts) && k < |g.phases| && |g.phases[k]| > 0 && to == g.phases[k][0]
    modifies Members(g.adding)`main, Heads(ts)`next, Heads(ts)`prev, head`next, head`prev, list`next, list`prev
    ensures Shape(head, Extend(g.phases, k, if tail then |g.phases[k]| else 1, g.adding), ts)
    ensures forall t :: t in g.adding ==> t.main == to
  {
    hide Ok, Apart, NonEmpty, Inside, Linked, ListRing, Listed, Shape, Rings, Extend, JoiningOk;
    JoinKnown(list, head, g, k, tail, off, ts);
    label L:
    SetMains(list, to, g.adding, Members(g.adding));
    RingsStay@L(World(list, head, g, ts));
    SpliceInto(list, to, tail, head, g, k, ts);
  }

  /** The branch in which there is a next, or previous, main task. */
  method AddToPhase(list: ListHead<Task>, to: Task, tail: bool, count: nat, ghost head: ListHead<Task>,
        ghost g: Gathered<Task>, ghost k: nat, ghost off: Off, ghost ts: set<Task>)
    requires Rings(list, head, g, ts) && Fields(g, off) && k < |g.phases| && |g.phases[k]| > 0 && to == g.phases[k][0] && count == |g.adding|
    modifies ts`nr, ts`main, Heads(ts)`next, Heads(ts)`prev, head`next, head`prev, list`next, list`prev
    ensures var r := Extend(g.phases, k, if tail then |g.phases[k]| else 1, g.adding);
            Shape(head, r, ts) && Fields(Gathered(r, []), off)
  {
    hide Ok, Apart, NonEmpty, Inside, Linked, ListRing, Listed, Shape, Rings, Counted, Flagged, Extend, JoiningOk;
    ghost var j := Joining(g, k, if tail then |g.phases[k]| else 1, off);
    JoinKnown(list, head, g, k, tail, off, ts);
    label L:
    TellAndSplice(list, to, tail, head, g, k, off, ts);
    label N:
    to.nr := to.nr + count;
    ShapeStays@N(Flowing(head, Extend(g.phases, k, j.i, g.adding), ts));
    FlaggedStays@L(Marked(g, off));
    Joined@L(j);
    JoinedFlags(j);
  }

  /** What becoming phases needs to know. */
  lemma SpreadKnown(list: ListHead<Task>, other: ListHead<Task>, head: ListHead<Task>, g: Gathered<Task>, ts: set<Task>)
    requires Rings(list, head, g, ts) && Second(list, other, head)
    ensures Locals(list, other, head, g, ts) && Shape(head, g.phases, ts) && Linked(ListRing(list, g.adding))
  {
  }

  lemma FirstKnown(list: ListHead<Task>, head: ListHead<Task>, g: Gathered<Task>, ts: set<Task>)
    requires Rings(list, head, g, ts) && |g.adding| > 0
    ensures Ok(g.phases) && Apart(g.phases, g.adding)
    ensures list.next.entry == Some(g.adding[0]) && g.adding[0] in ts
    ensures forall t :: t in g.adding ==> t in ts && t !in Tasks(g.phases)
    ensures forall i :: 1 <= i < |g.adding| ==> g.adding[i] != g.adding[0]
  {
    AllOwned(head, g.phases, g.adding, ts);
    WalkPointers(list, g.adding, 0);
  }

  /** The relinking in that branch, through the second local list. */
  method MakeMains(list: ListHead<Task>, main: Task, atEnd: bool, ghost head: ListHead<Task>,
        ghost g: Gathered<Task>, ghost ts: set<Task>)
    requires Rings(list, head, g, ts) && |g.phases| > 0 && |g.phases[if atEnd then |g.phases| - 1 else 0]| > 0
    requires main == g.phases[if atEnd then |g.phases| - 1 else 0][0]
    modifies Heads(ts)`next, Heads(ts)`prev, head`next, head`prev, list`next, list`prev
    ensures Shape(head, Spread(g.phases, if atEnd then |g.phases| else 0, g.adding), ts)
  {
    hide Ok, Apart, NonEmpty, Inside, Linked, ListRing, Listed, Shape, Rings, Spread, Half, Locals;
    label K:
    var other := new ListHead<Task>();
    Init(other);
    RingsStay@K(World(list, head, g, ts));
    SpreadKnown(list, other, head, g, ts);
    Relink(list, other, head, g, ts);
    SpliceNew(other, main, atEnd, list, head, g, ts);
  }

  lemma PhasesCounted(g: Gathered<Task>, off: Off)
    requires Counted(g, off)
    ensures Counted(Gathered(g.phases, []), off)
  {
  }

  /** The branch that makes the collected tasks main tasks. */
  method AddAsPhases(list: ListHead<Task>, main: Task, atEnd: bool, count: nat, ghost head: ListHead<Task>,
        ghost g: Gathered<Task>, ghost off: Off, ghost ts: set<Task>)
    requires Rings(list, head, g, ts) && Fields(g, off) && count == |g.adding| > 0
    requires |g.phases| > 0 && |g.phases[if atEnd then |g.phases| - 1 else 0]| > 0
    requires main == g.phases[if atEnd then |g.phases| - 1 else 0][0]
    modifies ts`isSub, ts`nr, Heads(ts)`next, Heads(ts)`prev, head`next, head`prev, list`next, list`prev
    ensures var r := Spread(g.phases, if atEnd then |g.phases| else 0, g.adding);
            Shape(head, r, ts) && Fields(Gathered(r, []), OffSpread(off, g.adding))
  {
    hide Ok, Apart, NonEmpty, Inside, Linked, ListRing, Listed, Shape, Rings, Flagged, Spread, OffSpread;
    ghost var k := if atEnd then |g.phases| else 0;
    ghost var r, off' := Spread(g.phases, k, g.adding), OffSpread(off, g.adding);
    FirstKnown(list, head, g, ts);
    PhasesCounted(g, off);
    label L:
    var first := list.next.entry.value;
    first.isSub := false;
    first.nr := count;
    label M:
    FlaggedStays@L(Marked(g, off));
    CountedStays@L(Marked(Gathered(g.phases, []), off));
    SpreadFields(g, k, off);
    RingsStay@L(World(list, head, g, ts));
    MakeMains(list, main, atEnd, head, g, ts);
    FieldsStay@M(Marked(Gathered(r, []), off'));
  }

  // ---------------------------------------------------------------- which fields are right

  /** A turn makes flags wrong exactly when it leaves sub-tasks behind, and no count. */
  lemma TurnOk(g: Gathered<Task>, off: Off, t: Task)
    requires CanPut(g, t) && Turn(g, off, t)
    ensures CountsOk(Put(g, t).phases, OffPut(g, off, t)) <==> CountsOk(g.phases, off)
    ensures FlagsOk(Put(g, t).phases, OffPut(g, off, t)) <==> FlagsOk(g.phases, off) && WholeTurn(g, t)
  {
    TurnCounts(g, off, t);
    TurnFlags(g, off, t);
  }

  lemma TurnCounts(g: Gathered<Task>, off: Off, t: Task)
    requires CanPut(g, t) && Turn(g, off, t)
    ensures CountsOk(Put(g, t).phases, OffPut(g, off, t)) <==> CountsOk(g.phases, off)
  {
    var ph, ph', off' := g.phases, Put(g, t).phases, OffPut(g, off, t);
    var p := PhaseOf(ph, t);
    var i := IndexOf(ph[p], t);
    PutFrom(g, t);
    hide Put;
    if CountsOk(ph, off) {
      forall q | 0 <= q < |ph'| && |ph'[q]| > 0 ensures off'.Extra(ph'[q][0]) == 0 {}
    }
    if CountsOk(ph', off') {
      forall q | 0 <= q < |ph| && |ph[q]| > 0 ensures off.Extra(ph[q][0]) == 0 {
        if q != p || |ph[p]| > 1 {
          var q' := if |ph[p]| == 1 && q > p then q - 1 else q;
          assert off'.Extra(ph'[q'][0]) == 0;
        }
      }
    }
  }

  lemma TurnFlags(g: Gathered<Task>, off: Off, t: Task)
    requires CanPut(g, t) && Turn(g, off, t)
    ensures FlagsOk(Put(g, t).phases, OffPut(g, off, t)) <==> FlagsOk(g.phases, off) && WholeTurn(g, t)
  {
    var ph, ph', off' := g.phases, Put(g, t).phases, OffPut(g, off, t);
    var p := PhaseOf(ph, t);
    var i := IndexOf(ph[p], t);
    PutFrom(g, t);
    hide Put;
    if !WholeTurn(g, t) {
      assert ph'[p][0] == ph[p][1] && ph[p][1] in off'.stale;
    } else if FlagsOk(ph, off) {
      forall q, j | 0 <= q < |ph'| && 0 <= j < |ph'[q]| && ph'[q][j] in off'.stale
        ensures j > 0 && off'.stale[ph'[q][j]] == ph'[q][0]
      {
      }
    } else {
      var q, j :| 0 <= q < |ph| && 0 <= j < |ph[q]| && ph[q][j] in off.stale && !(j > 0 && off.stale[ph[q][j]] == ph[q][0]);
      WrongStays(g, off, t, q, j);
    }
  }

  /** A task with a wrong flag or main task is not moved, and they stay wrong. */
  lemma WrongStays(g: Gathered<Task>, off: Off, t: Task, q: nat, j: nat)
    requires CanPut(g, t) && Turn(g, off, t) && WholeTurn(g, t)
    requires q < |g.phases| && j < |g.phases[q]| && g.phases[q][j] in off.stale
    requires !(j > 0 && off.stale[g.phases[q][j]] == g.phases[q][0])
    ensures !FlagsOk(Put(g, t).phases, OffPut(g, off, t))
  {
    WrongNotMoved(g, off, t, q, j);
    PlaceAfter(g, t, q, j);
    hide Put, Ok, Apart, In, IndexOf, PhaseOf, Turn, CanPut;
    var p := PhaseOf(g.phases, t);
    var q' := if |g.phases[p]| == 1 && q > p then q - 1 else q;
    var j' := if |g.phases[p]| > 1 && q == p && j > IndexOf(g.phases[p], t) then j - 1 else j;
    assert Put(g, t).phases[q'][j'] in OffPut(g, off, t).stale;
  }

  lemma WrongNotMoved(g: Gathered<Task>, off: Off, t: Task, q: nat, j: nat)
    requires CanPut(g, t) && Turn(g, off, t)
    requires q < |g.phases| && j < |g.phases[q]| && g.phases[q][j] in off.stale
    requires !(j > 0 && off.stale[g.phases[q][j]] == g.phases[q][0])
    ensures g.phases[q][j] != t
  {
    PhaseIs(g.phases, q, j);
  }

  /** Where a task that is not moved is afterwards. */
  lemma PlaceAfter(g: Gathered<Task>, t: Task, q: nat, j: nat)
    requires CanPut(g, t) && q < |g.phases| && j < |g.phases[q]| && g.phases[q][j] != t
    ensures var ph, ph', p := g.phases, Put(g, t).phases, PhaseOf(g.phases, t);
            var q' := if |ph[p]| == 1 && q > p then q - 1 else q;
            var j' := if |ph[p]| > 1 && q == p && j > IndexOf(ph[p], t) then j - 1 else j;
            && q' < |ph'| && j' < |ph'[q']| && ph'[q'][j'] == ph[q][j]
            && (WholeTurn(g, t) ==> ph'[q'][0] == ph[q][0] && (j' == 0 <==> j == 0))
  {
    hide Ok, Apart;
    PutFrom(g, t);
  }

  lemma {:induction false} GatherFlags(g: Gathered<Task>, off: Off, news: seq<Task>)
    requires Ok(g.phases) && Apart(g.phases, g.adding) && CanGather(g, news) && Turns(g, off, news)
    ensures CountsOk(Gather(g, news).phases, OffGather(g, off, news)) <==> CountsOk(g.phases, off)
    ensures FlagsOk(Gather(g, news).phases, OffGather(g, off, news)) <==> FlagsOk(g.phases, off) && Whole(g, news)
    decreases |news|
  {
    hide Ok, Apart, CountsOk, FlagsOk, Turn, WholeTurn, Put, OffPut;
    if news != [] {
      OkFull(g.phases);
      PutOk(g, news[0]);
      TurnOk(g, off, news[0]);
      GatherFlags(Put(g, news[0]), OffPut(g, off, news[0]), news[1..]);
    }
  }

  lemma ExtendFlags(j: Joining)
    requires JoiningOk(j) && forall t :: t in j.g.adding ==> t !in j.off.stale
    ensures var r := Extend(j.g.phases, j.k, j.i, j.g.adding);
            (CountsOk(r, j.off) <==> CountsOk(j.g.phases, j.off)) && (FlagsOk(r, j.off) <==> FlagsOk(j.g.phases, j.off))
  {
    var ph, n := j.g.phases, |j.g.adding|;
    var r: seq<seq<Task>> := Extend(ph, j.k, j.i, j.g.adding);
    ExtendAt(ph, j.k, j.i, j.g.adding, 0, 0);
    forall p: nat | p < |ph| ensures |r[p]| > 0 && r[p][0] == ph[p][0] { ExtendAt(ph, j.k, j.i, j.g.adding, p, 0); }
    forall p: nat, a: nat | p < |ph| && a < |ph[p]|
      ensures var b := if p == j.k && a >= j.i then a + n else a; b < |r[p]| && r[p][b] == ph[p][a] && (b == 0 <==> a == 0)
    {
      ExtendAt(ph, j.k, j.i, j.g.adding, p, if p == j.k && a >= j.i then a + n else a);
    }
    forall p: nat, b: nat | p < |r| && b < |r[p]| && r[p][b] in j.off.stale
      ensures var a := if p == j.k && b >= j.i then b - n else b;
              0 <= a < |ph[p]| && r[p][b] == ph[p][a] && (b == 0 <==> a == 0)
    {
      ExtendAt(ph, j.k, j.i, j.g.adding, p, b);
    }
  }

  lemma SpreadFlags(g: Gathered<Task>, k: nat, off: Off)
    requires Ok(g.phases) && NonEmpty(g.phases) && Apart(g.phases, g.adding) && k <= |g.phases| && |g.adding| > 0
    requires forall t :: t in g.adding ==> t !in off.stale
    ensures var r, off' := Spread(g.phases, k, g.adding), OffSpread(off, g.adding);
            && (CountsOk(r, off') <==> CountsOk(g.phases, off) && |g.adding| == 1)
            && (FlagsOk(r, off') <==> FlagsOk(g.phases, off) && |g.adding| == 1)
  {
    hide Spread, Ok;
    var ph, n, off' := g.phases, |g.adding|, OffSpread(off, g.adding);
    var r: seq<seq<Task>> := Spread(ph, k, g.adding);
    SpreadAt(ph, k, g.adding, k);
    assert r[k] == [g.adding[0]];
    if n > 1 {
      SpreadAt(ph, k, g.adding, k + 1);
      assert r[k + 1] == [g.adding[1]] && g.adding[1..][0] == g.adding[1];
      assert !CountsOk(r, off') by { assert off'.Extra(r[k][0]) == n - 1; }
      assert !FlagsOk(r, off') by { assert r[k + 1][0] in off'.stale; }
    } else {
      forall p: nat | p < |ph| ensures r[if p < k then p else p + 1] == ph[p] && forall a :: 0 <= a < |ph[p]| ==> ph[p][a] != g.adding[0] {
        SpreadAt(ph, k, g.adding, if p < k then p else p + 1);
      }
      forall p: nat | p < |r| && p != k ensures r[p] == ph[if p < k then p else p - 1] { SpreadAt(ph, k, g.adding, p); }
      OneMore(ph, r, k, g.adding[0], off, off');
    }
  }

  /** One more phase, of one task with nothing wrong. */
  lemma OneMore(ph: seq<seq<Task>>, r: seq<seq<Task>>, k: nat, t: Task, off: Off, off': Off)
    requires |r| == |ph| + 1 && k < |r| && r[k] == [t] && t !in off'.stale && off'.Extra(t) == 0 && NonEmpty(ph)
    requires forall p: nat :: p < |ph| ==> r[if p < k then p else p + 1] == ph[p]
    requires forall p: nat :: p < |r| && p != k ==> r[p] == ph[if p < k then p else p - 1]
    requires off'.stale == off.stale && forall p, a :: 0 <= p < |ph| && 0 <= a < |ph[p]| ==> off'.Extra(ph[p][a]) == off.Extra(ph[p][a])
    ensures (CountsOk(r, off') <==> CountsOk(ph, off)) && (FlagsOk(r, off') <==> FlagsOk(ph, off))
  {
    if FlagsOk(r, off') {
      forall p, a | 0 <= p < |ph| && 0 <= a < |ph[p]| && ph[p][a] in off.stale ensures a > 0 && off.stale[ph[p][a]] == ph[p][0] {
        assert r[if p < k then p else p + 1][a] in off'.stale;
      }
    }
    if CountsOk(r, off') {
      forall p | 0 <= p < |ph| ensures off.Extra(ph[p][0]) == 0 {
        assert off'.Extra(r[if p < k then p else p + 1][0]) == 0;
      }
    }
  }

  // ---------------------------------------------------------------- the operations

  lemma Start(task: Task, head: ListHead<Task>, ph: seq<seq<Task>>, off: Off, ts: set<Task>, news: seq<Task>)
    requires Shape(head, ph, ts) && Fields(Gathered(ph, []), off) && Movable(ph, task, news) && RightTask(ph, off, task)
    ensures CanGather(Gathered(ph, []), news) && Gather(Gathered(ph, []), news) == Collect(ph, task, news)
    ensures (if task.isSub then task.main else task) == MainOf(ph, task)
    ensures task in ts && MainOf(ph, task) in ts
  {
    GatherOk(Gathered(ph, []), news);
    var p := PhaseOf(ph, task);
    var i := IndexOf(ph[p], task);
    assert ph[p][i].isSub == (i > 0);
  }

  lemma LeadsItsPhase(ph: seq<seq<Task>>, main: Task)
    requires Ok(ph) && IsMain(ph, main) && In(ph, main)
    ensures PhaseOf(ph, main) < |ph| && |ph[PhaseOf(ph, main)]| > 0 && main == ph[PhaseOf(ph, main)][0]
  {
    var c :| 0 <= c < |ph| && |ph[c]| > 0 && ph[c][0] == main;
    PhaseIs(ph, c, 0);
  }

  lemma RingAround(m: seq<ListHead<Task>>, c: nat)
    requires Linked(m) && 0 < c < |m|
    ensures m[c].next == (if c + 1 < |m| then m[c + 1] else m[0]) && m[c].prev == m[c - 1]
    ensures (m[c].next == m[0] <==> c + 1 == |m|) && (m[c].prev == m[0] <==> c == 1)
  {
    if c + 1 < |m| { assert m[0] != m[c + 1]; }
    if c > 1 { assert m[0] != m[c - 1]; }
  }

  lemma MainNode(head: ListHead<Task>, ph: seq<seq<Task>>, ts: set<Task>, p: nat)
    requires Placed(head, ph, ts) && p < |ph|
    ensures |MainRing(head, ph)| == |ph| + 1 && MainRing(head, ph)[0] == head
    ensures |ph[p]| > 0 && MainRing(head, ph)[p + 1] == ph[p][0].node && ph[p][0].node.entry == Some(ph[p][0])
  {
    assert ph[p][0] in ts;
  }

  /** The neighbours of the main task after the collection. */
  lemma Around(list: ListHead<Task>, head: ListHead<Task>, g: Gathered<Task>, ts: set<Task>, main: Task, k: nat)
    requires Rings(list, head, g, ts) && k < |g.phases| && |g.phases[k]| > 0 && main == g.phases[k][0]
    ensures NonEmpty(g.phases)
    ensures main.node.next == head <==> k + 1 == |g.phases|
    ensures k + 1 < |g.phases| ==> main.node.next.entry == Some(g.phases[k + 1][0])
    ensures main.node.prev == head <==> k == 0
    ensures k > 0 ==> main.node.prev.entry == Some(g.phases[k - 1][0])
  {
    hide *;
    Unfolded(list, head, g, ts);
    MainNode(head, g.phases, ts, k);
    RingAround(MainRing(head, g.phases), k + 1);
    if k + 1 < |g.phases| { MainNode(head, g.phases, ts, k + 1); }
    if k > 0 { MainNode(head, g.phases, ts, k - 1); }
  }

  lemma Unfolded(list: ListHead<Task>, head: ListHead<Task>, g: Gathered<Task>, ts: set<Task>)
    requires Rings(list, head, g, ts)
    ensures Placed(head, g.phases, ts) && Linked(MainRing(head, g.phases)) && NonEmpty(g.phases) && Ok(g.phases)
  {
  }

  /** Where the main task is after the collection, and what the operations make of it. */
  lemma Placing(task: Task, ph: seq<seq<Task>>, news: seq<Task>)
    requires Movable(ph, task, news) && news != []
    ensures var g, m := Collect(ph, task, news), MainOf(ph, task);
            var k := PhaseOf(g.phases, m);
            && k < |g.phases| && |g.phases[k]| > 0 && m == g.phases[k][0] && |g.adding| == |news|
            && (k + 1 < |g.phases| <==> StaysLater(ph, task, news)) && (k > 0 <==> StaysEarlier(ph, task, news))
            && (k + 1 == |g.phases| ==> Succeed(ph, task, news) == Spread(g.phases, |g.phases|, g.adding))
            && (k + 1 < |g.phases| ==> |g.phases[k + 1]| > 0 && Succeed(ph, task, news) == Extend(g.phases, k + 1, 1, g.adding))
            && (k == 0 ==> Precede(ph, task, news) == Spread(g.phases, 0, g.adding))
            && (k > 0 ==> |g.phases[k - 1]| > 0 && Precede(ph, task, news) == Extend(g.phases, k - 1, |g.phases[k - 1]|, g.adding))
  {
    hide *;
    CollectedAt(ph, task, news);
    Collected(ph, task, news);
    Branches(ph, task, news);
    MainStays(task, ph, news);
  }

  lemma MainStays(task: Task, ph: seq<seq<Task>>, news: seq<Task>)
    requires Movable(ph, task, news)
    ensures var g, m := Collect(ph, task, news), MainOf(ph, task);
            PhaseOf(g.phases, m) < |g.phases| && |g.phases[PhaseOf(g.phases, m)]| > 0 && m == g.phases[PhaseOf(g.phases, m)][0]
  {
    var p, m := PhaseOf(ph, task), MainOf(ph, task);
    PhaseIs(ph, p, 0);
    GatherOk(Gathered(ph, []), news);
    assert IsMain(ph, m);
    GatherOrder(Gathered(ph, []), news, m, m);
    LeadsItsPhase(Collect(ph, task, news).phases, m);
  }

  /** The fields after `precede` or `succeed`: `joins` says whether there is a phase for the new
      tasks to join. */
  function OffMoved(ph: seq<seq<Task>>, off: Off, task: Task, news: seq<Task>, joins: bool): Off
    requires Movable(ph, task, news) && CanGather(Gathered(ph, []), news)
  {
    OffJoined(OffGather(Gathered(ph, []), off, news), Collect(ph, task, news).adding, joins)
  }

  function OffJoined(off: Off, adding: seq<Task>, joins: bool): Off {
    if joins || adding == [] then off else OffSpread(off, adding)
  }

  /** The phases with the collected tasks after, or before, phase `k`. */
  function JoinedAfter(g: Gathered<Task>, k: nat): seq<seq<Task>>
    requires k < |g.phases| && (k + 1 < |g.phases| ==> |g.phases[k + 1]| > 0)
  {
    if k + 1 < |g.phases| then Extend(g.phases, k + 1, 1, g.adding) else Spread(g.phases, |g.phases|, g.adding)
  }

  function JoinedBefore(g: Gathered<Task>, k: nat): seq<seq<Task>>
    requires k < |g.phases|
  {
    if k > 0 then Extend(g.phases, k - 1, |g.phases[k - 1]|, g.adding) else Spread(g.phases, 0, g.adding)
  }

  lemma NoneNew(task: Task, ph: seq<seq<Task>>, off: Off, news: seq<Task>)
    requires Movable(ph, task, news) && news == []
    ensures Succeed(ph, task, news) == ph && Precede(ph, task, news) == ph && Whole(Gathered(ph, []), news)
    ensures CanGather(Gathered(ph, []), news) && forall joins :: OffMoved(ph, off, task, news, joins) == off
  {
  }

  lemma MovedCan(task: Task, ph: seq<seq<Task>>, news: seq<Task>)
    requires Movable(ph, task, news)
    ensures In(ph, task) && CanGather(Gathered(ph, []), news)
  {
    GatherOk(Gathered(ph, []), news);
  }

  lemma MovedTotal(ph: seq<seq<Task>>, task: Task, news: seq<Task>)
    requires Movable(ph, task, news)
    ensures Total(Succeed(ph, task, news)) == Total(ph) && Total(Precede(ph, task, news)) == Total(ph)
  {
    hide *;
    if news == [] {
      NoneMoved(ph, task, news);
    } else {
      SucceedPlaces(ph, task, news);
      PrecedePlaces(ph, task, news);
    }
  }

  lemma NoneMoved(ph: seq<seq<Task>>, task: Task, news: seq<Task>)
    requires Movable(ph, task, news) && news == []
    ensures Succeed(ph, task, news) == ph && Precede(ph, task, news) == ph
  {
  }

  /** What both operations begin with: the main task, and the new tasks in a local list. */
  method TakeOut(task: Task, news: seq<Task>, ghost ph: seq<seq<Task>>, ghost off: Off,
        ghost ts: set<Task>) returns (list: ListHead<Task>, main: Task)
    requires Shape(task.tf.head, ph, ts) && Fields(Gathered(ph, []), off)
    requires Movable(ph, task, news) && RightTask(ph, off, task) && Turns(Gathered(ph, []), off, news)
    modifies ts`isSub, ts`nr, ts`main, Heads(ts)`next, Heads(ts)`prev, task.tf.head`next, task.tf.head`prev
    ensures fresh(list) && main == MainOf(ph, task) && CanGather(Gathered(ph, []), news)
    ensures Rings(list, task.tf.head, Collect(ph, task, news), ts)
    ensures Fields(Collect(ph, task, news), OffGather(Gathered(ph, []), off, news))
  {
    hide Ok, Apart, NonEmpty, Inside, Linked, Listed, Shape, Rings, Fields, Counted, Flagged, Extend, Spread, Movable,
         CanGather, Gather, Collect, Turns, OffGather, StaysLater, StaysEarlier, MainOf, In, PhaseOf, RightTask;
    Start(task, task.tf.head, ph, off, ts, news);
    main := if task.isSub then task.main else task;
    label L:
    list := new ListHead<Task>();
    ShapeStays@L(Flowing(task.tf.head, ph, ts));
    FieldsStay@L(Marked(Gathered(ph, []), off));
    RlistDel(list, news, task.tf.head, ph, off, ts);
  }

  /** Which counts, flags and main tasks are right afterwards. */
  lemma MovedOk(task: Task, ph: seq<seq<Task>>, off: Off, news: seq<Task>, r: seq<seq<Task>>, k: nat, i: nat, joins: bool)
    requires Movable(ph, task, news) && news != [] && CanGather(Gathered(ph, []), news) && Turns(Gathered(ph, []), off, news)
    requires var g := Collect(ph, task, news);
             && Ok(g.phases) && Apart(g.phases, g.adding) && |g.adding| == |news|
             && (forall t :: t in g.adding ==> t !in OffGather(Gathered(ph, []), off, news).stale)
             && if joins then k < |g.phases| && 0 < i <= |g.phases[k]| && r == Extend(g.phases, k, i, g.adding)
                else k <= |g.phases| && r == Spread(g.phases, k, g.adding)
    ensures var off' := OffMoved(ph, off, task, news, joins);
            && (CountsOk(r, off') <==> CountsOk(ph, off) && (joins || |news| == 1))
            && (FlagsOk(r, off') <==> FlagsOk(ph, off) && Whole(Gathered(ph, []), news) && (joins || |news| == 1))
  {
    hide Ok, Apart, Extend, Spread, CountsOk, FlagsOk, Turns, OffSpread, Whole;
    var g, off' := Collect(ph, task, news), OffGather(Gathered(ph, []), off, news);
    StartsApart(ph);
    MovedOkay(ph, task, news);
    GatherFlags(Gathered(ph, []), off, news);
    OkFull(g.phases);
    if joins {
      JoiningIs(g, k, i, off');
      ExtendFlags(Joining(g, k, i, off'));
    } else {
      SpreadFlags(g, k, off');
    }
  }

  lemma JoiningIs(g: Gathered<Task>, k: nat, i: nat, off: Off)
    requires Ok(g.phases) && Apart(g.phases, g.adding) && k < |g.phases| && 0 < i <= |g.phases[k]|
    ensures JoiningOk(Joining(g, k, i, off))
  {
  }

  lemma StartsApart(ph: seq<seq<Task>>)
    ensures Apart(ph, [])
  {
  }

  lemma MovedOkay(ph: seq<seq<Task>>, task: Task, news: seq<Task>)
    requires Movable(ph, task, news)
    ensures Ok(ph)
  {
  }

  lemma Unloose(list: ListHead<Task>, head: ListHead<Task>, g: Gathered<Task>, off: Off, ts: set<Task>)
    requires Rings(list, head, g, ts) && Fields(g, off)
    ensures Ok(g.phases) && Apart(g.phases, g.adding) && forall t :: t in g.adding ==> t !in off.stale
  {
  }

  /** The collected tasks go to the next phase, or make new ones at the end. */
  method PutAfter(tf: Flow, list: ListHead<Task>, main: Task, count: nat, ghost g: Gathered<Task>, ghost k: nat, ghost off: Off,
        ghost ts: set<Task>)
    requires Rings(list, tf.head, g, ts) && Fields(g, off) && k < |g.phases| && |g.phases[k]| > 0 && main == g.phases[k][0]
    requires count == |g.adding| > 0 && (k + 1 < |g.phases| ==> |g.phases[k + 1]| > 0)
    modifies ts`isSub, ts`nr, ts`main, Heads(ts)`next, Heads(ts)`prev, tf.head`next, tf.head`prev, list`next, list`prev
    ensures Shape(tf.head, JoinedAfter(g, k), ts) && Fields(Gathered(JoinedAfter(g, k), []), OffJoined(off, g.adding, k + 1 < |g.phases|))
  {
    hide Ok, Apart, NonEmpty, Inside, Linked, Listed, Shape, Rings, Fields, Extend, Spread, OffSpread;
    Around(list, tf.head, g, ts, main, k);
    if main.node.next == tf.head {
      AddAsPhases(list, main, true, count, tf.head, g, off, ts);
    } else {
      var next := main.node.next.entry.value;
      AddToPhase(list, next, false, count, tf.head, g, k + 1, off, ts);
    }
  }

  /** The collected tasks go to the previous phase, or make new ones at the front. */
  method PutBefore(tf: Flow, list: ListHead<Task>, main: Task, count: nat, ghost g: Gathered<Task>, ghost k: nat, ghost off: Off,
        ghost ts: set<Task>)
    requires Rings(list, tf.head, g, ts) && Fields(g, off) && k < |g.phases| && |g.phases[k]| > 0 && main == g.phases[k][0]
    requires count == |g.adding| > 0 && (k > 0 ==> |g.phases[k - 1]| > 0)
    modifies ts`isSub, ts`nr, ts`main, Heads(ts)`next, Heads(ts)`prev, tf.head`next, tf.head`prev, list`next, list`prev
    ensures Shape(tf.head, JoinedBefore(g, k), ts) && Fields(Gathered(JoinedBefore(g, k), []), OffJoined(off, g.adding, k > 0))
  {
    hide Ok, Apart, NonEmpty, Inside, Linked, Listed, Shape, Rings, Fields, Extend, Spread, OffSpread;
    Around(list, tf.head, g, ts, main, k);
    if main.node.prev == tf.head {
      AddAsPhases(list, main, false, count, tf.head, g, off, ts);
    } else {
      var prev := main.node.prev.entry.value;
      AddToPhase(list, prev, true, count, tf.head, g, k - 1, off, ts);
    }
  }

  lemma JoinedIs(ph: seq<seq<Task>>, off: Off, task: Task, news: seq<Task>, g: Gathered<Task>, k: nat)
    requires Movable(ph, task, news) && CanGather(Gathered(ph, []), news) && g == Collect(ph, task, news)
    requires k < |g.phases| && (k + 1 < |g.phases| ==> |g.phases[k + 1]| > 0)
    ensures JoinedAfter(g, k) == if k + 1 < |g.phases| then Extend(g.phases, k + 1, 1, g.adding) else Spread(g.phases, |g.phases|, g.adding)
    ensures JoinedBefore(g, k) == if k > 0 then Extend(g.phases, k - 1, |g.phases[k - 1]|, g.adding) else Spread(g.phases, 0, g.adding)
    ensures forall joins :: OffMoved(ph, off, task, news, joins) == OffJoined(OffGather(Gathered(ph, []), off, news), g.adding, joins)
  {
    hide Extend, Spread;
  }

  lemma CollectOk(ph: seq<seq<Task>>, task: Task, news: seq<Task>)
    requires Movable(ph, task, news)
    ensures Ok(Collect(ph, task, news).phases) && Apart(Collect(ph, task, news).phases, Collect(ph, task, news).adding)
    ensures In(ph, task) && In(Collect(ph, task, news).phases, MainOf(ph, task))
  {
  }

  /** What the collected tasks make of the phases and of the fields. */
  lemma Succeeded(task: Task, ph: seq<seq<Task>>, off: Off, news: seq<Task>)
    requires Movable(ph, task, news) && news != [] && CanGather(Gathered(ph, []), news) && Turns(Gathered(ph, []), off, news)
    requires forall t :: t in Collect(ph, task, news).adding ==> t !in OffGather(Gathered(ph, []), off, news).stale
    ensures var g, o, m := Collect(ph, task, news), OffGather(Gathered(ph, []), off, news), MainOf(ph, task);
            var k := PhaseOf(g.phases, m);
            && k < |g.phases| && |g.phases[k]| > 0 && m == g.phases[k][0] && |g.adding| == |news|
            && var joins := k + 1 < |g.phases|;
               && (joins <==> StaysLater(ph, task, news)) && (joins ==> |g.phases[k + 1]| > 0)
               && var r := Succeed(ph, task, news);
                  && r == JoinedAfter(g, k) && OffMoved(ph, off, task, news, joins) == OffJoined(o, g.adding, joins)
                  && (CountsOk(r, OffMoved(ph, off, task, news, joins)) <==> CountsOk(ph, off) && (joins || |news| == 1))
                  && (FlagsOk(r, OffMoved(ph, off, task, news, joins)) <==>
                        FlagsOk(ph, off) && Whole(Gathered(ph, []), news) && (joins || |news| == 1))
  {
    hide *;
    Placing(task, ph, news);
    CollectOk(ph, task, news);
    var g := Collect(ph, task, news);
    var k := PhaseOf(g.phases, MainOf(ph, task));
    JoinedIs(ph, off, task, news, g, k);
    if k + 1 < |g.phases| {
      MovedOk(task, ph, off, news, Succeed(ph, task, news), k + 1, 1, true);
    } else {
      MovedOk(task, ph, off, news, Succeed(ph, task, news), |g.phases|, 1, false);
    }
  }

  /** `__mthpc_taskflow_succeed`. The rings are those of the new phases, the fields are as `OffMoved`
      has them, and the conditions say when they are all right. */
  method SucceedTasks(task: Task, news: seq<Task>, ghost ph: seq<seq<Task>>, ghost off: Off, ghost ts: set<Task>)
    requires Shape(task.tf.head, ph, ts) && Fields(Gathered(ph, []), off)
    requires Movable(ph, task, news) && RightTask(ph, off, task) && Turns(Gathered(ph, []), off, news)
    modifies ts`isSub, ts`nr, ts`main, Heads(ts)`next, Heads(ts)`prev, task.tf.head`next, task.tf.head`prev
    ensures Shape(task.tf.head, Succeed(ph, task, news), ts) && CanGather(Gathered(ph, []), news)
    ensures Fields(Gathered(Succeed(ph, task, news), []), OffMoved(ph, off, task, news, StaysLater(ph, task, news)))
    ensures var joins := |news| <= 1 || StaysLater(ph, task, news);
            && (Counts(Succeed(ph, task, news)) <==> old(Counts(ph)) && joins)
            && (Flags(Succeed(ph, task, news)) <==> old(Flags(ph)) && Whole(Gathered(ph, []), news) && joins)
    ensures task.tf.nrTask == old(task.tf.nrTask) && Total(Succeed(ph, task, news)) == Total(ph)
  {
    hide Ok, Apart, NonEmpty, Inside, Linked, Listed, Shape, Rings, Fields, Counts, Flags, CountsOk, FlagsOk, Extend, Spread,
         Movable, CanGather, Collect, Whole, Turns, OffGather, OffJoined, OffMoved, StaysLater, MainOf, In, PhaseOf, Succeed,
         RightTask, Total, JoinedAfter, Gather;
    MovedTotal(ph, task, news);
    MovedCan(task, ph, news);
    OkIff(ph, off);
    if |news| == 0 {
      NoneNew(task, ph, off, news);
      return;
    }
    var list, main := TakeOut(task, news, ph, off, ts);
    CollectOk(ph, task, news);
    ghost var g, o := Collect(ph, task, news), OffGather(Gathered(ph, []), off, news);
    Unloose(list, task.tf.head, g, o, ts);
    Succeeded(task, ph, off, news);
    PutAfter(task.tf, list, main, |news|, g, PhaseOf(g.phases, main), o, ts);
    OkIff(Succeed(ph, task, news), OffMoved(ph, off, task, news, StaysLater(ph, task, news)));
  }

  /** What the collected tasks make of the phases and of the fields. */
  lemma Preceded(task: Task, ph: seq<seq<Task>>, off: Off, news: seq<Task>)
    requires Movable(ph, task, news) && news != [] && CanGather(Gathered(ph, []), news) && Turns(Gathered(ph, []), off, news)
    requires forall t :: t in Collect(ph, task, news).adding ==> t !in OffGather(Gathered(ph, []), off, news).stale
    ensures var g, o, m := Collect(ph, task, news), OffGather(Gathered(ph, []), off, news), MainOf(ph, task);
            var k := PhaseOf(g.phases, m);
            && k < |g.phases| && |g.phases[k]| > 0 && m == g.phases[k][0] && |g.adding| == |news|
            && var joins := k > 0;
               && (joins <==> StaysEarlier(ph, task, news)) && (joins ==> |g.phases[k - 1]| > 0)
               && var r := Precede(ph, task, news);
                  && r == JoinedBefore(g, k) && OffMoved(ph, off, task, news, joins) == OffJoined(o, g.adding, joins)
                  && (CountsOk(r, OffMoved(ph, off, task, news, joins)) <==> CountsOk(ph, off) && (joins || |news| == 1))
                  && (FlagsOk(r, OffMoved(ph, off, task, news, joins)) <==>
                        FlagsOk(ph, off) && Whole(Gathered(ph, []), news) && (joins || |news| == 1))
  {
    hide *;
    Placing(task, ph, news);
    CollectOk(ph, task, news);
    var g := Collect(ph, task, news);
    var k := PhaseOf(g.phases, MainOf(ph, task));
    JoinedIs(ph, off, task, news, g, k);
    if k > 0 {
      MovedOk(task, ph, off, news, Precede(ph, task, news), k - 1, |g.phases[k - 1]|, true);
    } else {
      MovedOk(task, ph, off, news, Precede(ph, task, news), 0, 1, false);
    }
  }

  /** `__mthpc_taskflow_precede` */
  method PrecedeTasks(task: Task, news: seq<Task>, ghost ph: seq<seq<Task>>, ghost off: Off, ghost ts: set<Task>)
    requires Shape(task.tf.head, ph, ts) && Fields(Gathered(ph, []), off)
    requires Movable(ph, task, news) && RightTask(ph, off, task) && Turns(Gathered(ph, []), off, news)
    modifies ts`isSub, ts`nr, ts`main, Heads(ts)`next, Heads(ts)`prev, task.tf.head`next, task.tf.head`prev
    ensures Shape(task.tf.head, Precede(ph, task, news), ts) && CanGather(Gathered(ph, []), news)
    ensures Fields(Gathered(Precede(ph, task, news), []), OffMoved(ph, off, task, news, StaysEarlier(ph, task, news)))
    ensures var joins := |news| <= 1 || StaysEarlier(ph, task, news);
            && (Counts(Precede(ph, task, news)) <==> old(Counts(ph)) && joins)
            && (Flags(Precede(ph, task, news)) <==> old(Flags(ph)) && Whole(Gathered(ph, []), news) && joins)
    ensures task.tf.nrTask == old(task.tf.nrTask) && Total(Precede(ph, task, news)) == Total(ph)
  {
    hide Ok, Apart, NonEmpty, Inside, Linked, Listed, Shape, Rings, Fields, Counts, Flags, CountsOk, FlagsOk, Extend, Spread,
         Movable, CanGather, Collect, Whole, Turns, OffGather, OffJoined, OffMoved, StaysEarlier, MainOf, In, PhaseOf, Precede,
         RightTask, Total, JoinedBefore, Gather;
    MovedTotal(ph, task, news);
    MovedCan(task, ph, news);
    OkIff(ph, off);
    if |news| == 0 {
      NoneNew(task, ph, off, news);
      return;
    }
    var list, main := TakeOut(task, news, ph, off, ts);
    CollectOk(ph, task, news);
    ghost var g, o := Collect(ph, task, news), OffGather(Gathered(ph, []), off, news);
    Unloose(list, task.tf.head, g, o, ts);
    Preceded(task, ph, off, news);
    PutBefore(task.tf, list, main, |news|, g, PhaseOf(g.phases, main), o, ts);
    OkIff(Precede(ph, task, news), OffMoved(ph, off, task, news, StaysEarlier(ph, task, news)));
  }

  /** A task that is new on the heap. */
  ghost predicate NewTask(task: Task, head: ListHead<Task>, ph: seq<seq<Task>>, ts: set<Task>)
    reads task.node`entry, task.subNode`entry, task.subNode`next, task.subNode`prev
  {
    && Owns(task) && task !in ts && task.node !in Heads(ts) && task.subNode !in Heads(ts)
    && task.node != head && task.subNode != head && Linked([task.subNode])
  }

  lemma GrownPlaced(task: Task, head: ListHead<Task>, ph: seq<seq<Task>>, ts: set<Task>)
    requires Placed(head, ph, ts) && NewTask(task, head, ph, ts)
    ensures Placed(head, ph, ts + {task}) && Apart(ph, [task])
    ensures task.node !in MainRing(head, ph) && task.subNode !in MainRing(head, ph)
    ensures forall q :: 0 <= q < |ph| ==> task.node !in SubRing(ph[q]) && task.subNode !in SubRing(ph[q])
  {
    hide Ok, NonEmpty, SubRing, MainRing, Linked;
    InsideMains(head, ph, ts);
    forall q: nat | q < |ph| ensures forall x :: x in SubRing(ph[q]) ==> x in Heads(ts) { InsideOne(head, ph, ts, q); }
    GrownApart(task, ph, ts);
  }

  lemma GrownApart(task: Task, ph: seq<seq<Task>>, ts: set<Task>)
    requires Inside(ph, ts) && task !in ts
    ensures Apart(ph, [task]) && Inside(ph, ts + {task})
  {
    forall p, i | 0 <= p < |ph| && 0 <= i < |ph[p]| ensures ph[p][i] != task { assert ph[p][i] in ts; }
  }

  lemma AppendedShape(task: Task, head: ListHead<Task>, ph: seq<seq<Task>>, ts: set<Task>)
    requires Placed(head, ph, ts + {task}) && Apart(ph, [task]) && Linked(MainRing(head, ph) + [task.node])
    requires Linked([task.subNode]) && forall q :: 0 <= q < |ph| ==> Linked(SubRing(ph[q]))
    ensures Shape(head, ph + [[task]], ts + {task})
  {
    hide Linked, Placed, Ok, Apart, Spread, MainRing, SubRing;
    AppendedSeqs(task, head, ph);
    SpreadShape(head, ph, |ph|, [task], ts + {task}, head);
  }

  lemma AppendedSeqs(task: Task, head: ListHead<Task>, ph: seq<seq<Task>>)
    ensures Spread(ph, |ph|, [task]) == ph + [[task]]
    ensures MainRing(head, ph)[..|ph| + 1] + NodeRing(head, [task])[1..] + MainRing(head, ph)[|ph| + 1..] == MainRing(head, ph) + [task.node]
  {
    assert Singles([task]) == [[task]];
  }

  /** Its node goes to the tail of the main ring. */
  method HangMain(task: Task, ghost head: ListHead<Task>, tail: ListHead<Task>, ghost ph: seq<seq<Task>>,
        ghost ts: set<Task>)
    requires Shape(head, ph, ts) && NewTask(task, head, ph, ts) && tail == head
    modifies task.node`next, task.node`prev, Heads(ts)`next, Heads(ts)`prev, head`next, head`prev
    ensures Shape(head, ph + [[task]], ts + {task})
  {
    hide Ok, Apart, Linked, Placed, SubRing, NonEmpty, Inside, Owns, MainRing;
    ghost var m := MainRing(head, ph);
    RingEndsMain(head, ph, ts);
    GrownPlaced(task, head, ph, ts);
    label M:
    AddTail(task.node, tail, m);
    PlacedStays@M(Flowing(head, ph, ts + {task}));
    forall q: nat | q < |ph| ensures Linked(SubRing(ph[q])) {
      MainsApartNow(head, ph, ts, task, q);
      StaysLinked@M(SubRing(ph[q]));
    }
    assert task.node != task.subNode by { GrownOwns(task, head, ph, ts); }
    StaysLinked@M([task.subNode]);
    AppendedShape(task, head, ph, ts);
  }

  lemma GrownOwns(task: Task, head: ListHead<Task>, ph: seq<seq<Task>>, ts: set<Task>)
    requires Placed(head, ph, ts + {task})
    ensures task.node != task.subNode
  {
    assert Owns(task);
  }

  lemma MainsApartNow(head: ListHead<Task>, ph: seq<seq<Task>>, ts: set<Task>, task: Task, q: nat)
    requires Placed(head, ph, ts + {task}) && Apart(ph, [task]) && q < |ph|
    ensures forall x :: x in SubRing(ph[q]) ==> x !in MainRing(head, ph) && x in Heads(ts + {task}) && x != task.node
  {
    MainsApart(head, ph, ts + {task}, q);
    InsideOne(head, ph, ts + {task}, q);
    assert Owns(task);
    if task.node in SubRing(ph[q]) { SubOwner(ph[q], task.node); }
  }

  /** `mthpc_task_create`: a phase of its own at the end. */
  method TaskCreate(tf: Flow, ghost ph: seq<seq<Task>>, ghost off: Off, ghost ts: set<Task>) returns (task: Task)
    requires Shape(tf.head, ph, ts) && Fields(Gathered(ph, []), off)
    modifies tf`nrTask, Heads(ts)`next, Heads(ts)`prev, tf.head`next, tf.head`prev
    ensures fresh(task) && task.tf == tf && tf.nrTask == old(tf.nrTask) + 1
    ensures Shape(tf.head, ph + [[task]], ts + {task}) && Fields(Gathered(ph + [[task]], []), off)
    ensures Counts(ph + [[task]]) <==> old(Counts(ph))
    ensures Flags(ph + [[task]]) <==> old(Flags(ph))
    ensures Total(ph + [[task]]) == Total(ph) + 1
  {
    hide Ok, Apart, Linked, Placed, SubRing, NonEmpty, Inside, Owns, Shape, Counted, Flagged, Counts, Flags, CountsOk,
         FlagsOk, Total, Fields;
    label L:
    TasksAllocated(ph, tf.head, ts);
    OkIff(ph, off);
    task := new Task(tf);
    tf.nrTask := tf.nrTask + 1;
    ShapeStays@L(Flowing(tf.head, ph, ts));
    FieldsStay@L(Marked(Gathered(ph, []), off));
    AppendedFields(ph, off, task);
    label M:
    HangMain(task, tf.head, tf.head, ph, ts);
    FieldsStay@M(Marked(Gathered(ph + [[task]], []), off));
    OkIff(ph + [[task]], off);
    OneMoreTask(ph, task);
  }

  lemma OneMoreTask(ph: seq<seq<Task>>, task: Task)
    ensures Total(ph + [[task]]) == Total(ph) + 1
  {
    TotalConcat(ph, [[task]]);
    assert [[task]][1..] == [];
  }

  lemma TasksAllocated(ph: seq<seq<Task>>, head: ListHead<Task>, ts: set<Task>)
    requires Shape(head, ph, ts)
    ensures forall t :: t in Tasks(ph) ==> t in ts
  {
  }

  lemma AppendedFields(ph: seq<seq<Task>>, off: Off, task: Task)
    requires Fields(Gathered(ph, []), off) && !task.isSub && task.nr == 1 && task.main == null
    requires task !in off.stale && off.Extra(task) == 0
    ensures Fields(Gathered(ph + [[task]], []), off)
    ensures CountsOk(ph + [[task]], off) <==> CountsOk(ph, off)
    ensures FlagsOk(ph + [[task]], off) <==> FlagsOk(ph, off)
  {
    var r := ph + [[task]];
    assert forall p :: 0 <= p < |ph| ==> r[p] == ph[p];
    assert r[|ph|] == [task];
  }

  lemma RingEndsMain(head: ListHead<Task>, ph: seq<seq<Task>>, ts: set<Task>)
    requires Shape(head, ph, ts)
    ensures head.prev in MainRing(head, ph) && forall x :: x in MainRing(head, ph) ==> x in Heads(ts) || x == head
  {
    Neighbours(MainRing(head, ph), 0);
    InsideMains(head, ph, ts);
  }

  /** Where a new sub-task of the `i`-th task of a phase goes: before it in the ring. */
  function SubPlace(s: seq<Task>, i: nat): nat {
    if i == 0 then |s| else i
  }

  /** Hanging it at the tail of the ring that starts at the `i`-th task. */
  lemma LongerSeqs(sub: Task, s: seq<Task>, i: nat)
    requires i < |s|
    requires Linked(SubRing(s)[i..] + SubRing(s)[..i] + [sub.subNode])
    ensures Linked(SubRing(s)[..SubPlace(s, i)] + SubRing([sub]) + SubRing(s)[SubPlace(s, i)..])
  {
    hide Linked;
    var r, k := SubRing(s), SubPlace(s, i);
    var t := r[i..] + r[..i] + [sub.subNode];
    assert SubRing([sub]) == [sub.subNode];
    if i == 0 {
      assert r[..k] + [sub.subNode] + r[k..] == t;
    } else {
      Rotate(t, |s| - i);
      assert t[|s| - i..] == r[..i] + [sub.subNode] && t[..|s| - i] == r[i..];
    }
  }

  lemma SubEnds(ph: seq<seq<Task>>, p: nat, i: nat)
    requires p < |ph| && i < |ph[p]| && Linked(SubRing(ph[p]))
    ensures var r := SubRing(ph[p]);
            && Linked(r[i..] + r[..i]) && (r[i..] + r[..i])[0] == ph[p][i].subNode
            && (forall x :: x in r[i..] + r[..i] <==> x in r)
            && ph[p][i].subNode in r && ph[p][i].subNode.prev in r
  {
    var r := SubRing(ph[p]);
    Rotate(r, i);
    Neighbours(r, i);
    assert r[i] == ph[p][i].subNode;
  }

  /** Its sub node goes to the tail of the ring, seen from the sub node of its parent. */
  method HangSub(sub: Task, to: ListHead<Task>, ghost head: ListHead<Task>, ghost ph: seq<seq<Task>>, ghost p: nat,
        ghost i: nat, ghost ts: set<Task>)
    requires Shape(head, ph, ts) && NewTask(sub, head, ph, ts) && p < |ph| && i < |ph[p]| && to == ph[p][i].subNode
    modifies sub.subNode`next, sub.subNode`prev, Heads(ts)`next, Heads(ts)`prev
    ensures Shape(head, Extend(ph, p, SubPlace(ph[p], i), [sub]), ts + {sub})
  {
    hide Ok, Apart, Linked, Placed, NonEmpty, Inside, Owns, MainRing, Extend, SubRing;
    ghost var r := SubRing(ph[p]);
    InsideOne(head, ph, ts, p);
    SubEnds(ph, p, i);
    GrownPlaced(sub, head, ph, ts);
    MainsApart(head, ph, ts, p);
    label M:
    AddTail(sub.subNode, to, r[i..] + r[..i]);
    PlacedStays@M(Flowing(head, ph, ts + {sub}));
    StaysLinked@M(MainRing(head, ph));
    forall q: nat | q < |ph| && q != p ensures Linked(SubRing(ph[q])) {
      PhasesApart(head, ph, ts + {sub}, p, q);
      StaysLinked@M(SubRing(ph[q]));
    }
    LongerSeqs(sub, ph[p], i);
    ExtendedShape(head, ph, p, SubPlace(ph[p], i), [sub], ts + {sub});
  }

  lemma SubKnown(head: ListHead<Task>, ph: seq<seq<Task>>, p: nat, i: nat, ts: set<Task>)
    requires Shape(head, ph, ts) && p < |ph| && i < |ph[p]|
    ensures ph[p][i] in ts && forall t :: t in Tasks(ph) ==> t in ts
  {
  }

  lemma NewApart(sub: Task, head: ListHead<Task>, ph: seq<seq<Task>>, ts: set<Task>, p: nat)
    requires Shape(head, ph, ts) && NewTask(sub, head, ph, ts) && p < |ph|
    ensures Ok(ph) && NonEmpty(ph) && Apart(ph, [sub])
  {
    GrownPlaced(sub, head, ph, ts);
  }

  /** A new task, linked as a sub-task. */
  method LinkSub(parent: Task, ghost ph: seq<seq<Task>>, ghost p: nat, ghost i: nat, ghost ts: set<Task>) returns (sub: Task)
    requires Shape(parent.tf.head, ph, ts) && p < |ph| && i < |ph[p]| && parent == ph[p][i]
    modifies parent.tf`nrTask, Heads(ts)`next, Heads(ts)`prev
    ensures fresh(sub) && sub.tf == parent.tf && parent.tf.nrTask == old(parent.tf.nrTask) + 1
    ensures sub.isSub && sub.nr == 1 && sub.main == null
    ensures Shape(parent.tf.head, Extend(ph, p, SubPlace(ph[p], i), [sub]), ts + {sub})
    ensures Ok(ph) && NonEmpty(ph) && Apart(ph, [sub])
  {
    hide Ok, Apart, Linked, Placed, SubRing, NonEmpty, Inside, Owns, Shape, Extend;
    ghost var head := parent.tf.head;
    label L:
    sub := new Task(parent.tf);
    parent.tf.nrTask := parent.tf.nrTask + 1;
    sub.isSub := true;
    ShapeStays@L(Flowing(head, ph, ts));
    NewApart(sub, head, ph, ts, p);
    HangSub(sub, parent.subNode, head, ph, p, i, ts);
  }

  /** The fields afterwards. A sub-task that is made the parent of another one counts it, instead of
      the main task of the phase, and is its main task. */
  function OffSub(off: Off, s: seq<Task>, i: nat, sub: Task): Off
    requires i < |s|
  {
    if i == 0 then off
    else Off(off.stale[sub := s[i]], off.extra[s[i] := off.Extra(s[i]) + 1][s[0] := off.Extra(s[0]) - 1])
  }

  datatype Hung = Hung(ph: seq<seq<Task>>, off: Off, p: nat, i: nat, sub: Task)

  ghost predicate HungOk(h: Hung) {
    && h.p < |h.ph| && h.i < |h.ph[h.p]| && Ok(h.ph) && NonEmpty(h.ph) && Apart(h.ph, [h.sub])
    && h.sub !in h.off.stale && h.off.Extra(h.sub) == 0
  }

  twostate lemma HungFields(h: Hung)
    requires HungOk(h) && old(Fields(Gathered(h.ph, []), h.off))
    requires h.sub.isSub && h.sub.nr == 1 && h.sub.main == h.ph[h.p][h.i] && h.ph[h.p][h.i].nr == old(h.ph[h.p][h.i].nr) + 1
    requires forall t :: t in Tasks(h.ph) ==> t.isSub == old(t.isSub) && t.main == old(t.main) && (t != h.ph[h.p][h.i] ==> t.nr == old(t.nr))
    ensures Fields(Gathered(Extend(h.ph, h.p, SubPlace(h.ph[h.p], h.i), [h.sub]), []), OffSub(h.off, h.ph[h.p], h.i, h.sub))
  {
    hide Extend, Ok, Apart;
    var ph, k := h.ph, SubPlace(h.ph[h.p], h.i);
    var off' := OffSub(h.off, ph[h.p], h.i, h.sub);
    var r: seq<seq<Task>> := Extend(ph, h.p, k, [h.sub]);
    forall p, a | 0 <= p < |r| && 0 <= a < |r[p]|
      ensures r[p][a].nr == (if a == 0 then |r[p]| else 1) + off'.Extra(r[p][a])
    {
      HungAt(h, p, a);
    }
    forall p, a | 0 <= p < |r| && 0 <= a < |r[p]|
      ensures var t := r[p][a];
              if t in off'.stale then t.isSub && t.main == off'.stale[t]
              else t.isSub == (a > 0) && t.main == if a > 0 then r[p][0] else null
    {
      HungAt(h, p, a);
    }
  }

  /** The place of the new task, and those of the others. */
  lemma HungAt(h: Hung, p: nat, a: nat)
    requires HungOk(h) && p < |Extend(h.ph, h.p, SubPlace(h.ph[h.p], h.i), [h.sub])|
    requires a < |Extend(h.ph, h.p, SubPlace(h.ph[h.p], h.i), [h.sub])[p]|
    ensures var ph, k := h.ph, SubPlace(h.ph[h.p], h.i);
            var r := Extend(ph, h.p, k, [h.sub]);
            && p < |ph| && 0 < |ph[p]| && |r[p]| == |ph[p]| + (if p == h.p then 1 else 0) && r[p][0] == ph[p][0] && ph[p][0] in Tasks(ph)
            && if p == h.p && a == k then r[p][a] == h.sub && a > 0
               else
                 var b := if p == h.p && a > k then a - 1 else a;
                 && b < |ph[p]| && r[p][a] == ph[p][b] && ph[p][b] in Tasks(ph) && ph[p][b] != h.sub && (a == 0 <==> b == 0)
                 && (ph[p][b] == ph[h.p][h.i] ==> p == h.p && b == h.i) && (ph[p][b] == ph[h.p][0] ==> p == h.p && b == 0)
  {
    var ph, k := h.ph, SubPlace(h.ph[h.p], h.i);
    assert [h.sub][0] == h.sub;
    ExtendAt(ph, h.p, k, [h.sub], p, a);
    ExtendAt(ph, h.p, k, [h.sub], p, 0);
    hide Extend;
  }

  /** Counts, flags and main tasks stay right exactly for a sub-task of a main task. */
  lemma HungOkIff(h: Hung)
    requires HungOk(h)
    ensures var r, off' := Extend(h.ph, h.p, SubPlace(h.ph[h.p], h.i), [h.sub]), OffSub(h.off, h.ph[h.p], h.i, h.sub);
            && (CountsOk(h.ph, h.off) ==> (CountsOk(r, off') <==> h.i == 0))
            && (FlagsOk(h.ph, h.off) ==> (FlagsOk(r, off') <==> h.i == 0))
  {
    var ph, k := h.ph, SubPlace(h.ph[h.p], h.i);
    var off' := OffSub(h.off, ph[h.p], h.i, h.sub);
    var r: seq<seq<Task>> := Extend(ph, h.p, k, [h.sub]);
    assert [h.sub][0] == h.sub;
    ExtendAt(ph, h.p, k, [h.sub], h.p, 0);
    if h.i > 0 {
      ExtendAt(ph, h.p, k, [h.sub], h.p, k);
      assert r[h.p][k] == h.sub && r[h.p][0] == ph[h.p][0] && ph[h.p][0] != ph[h.p][h.i];
      assert CountsOk(h.ph, h.off) ==> off'.Extra(r[h.p][0]) == -1;
    } else {
      var j := Joining(Gathered(ph, [h.sub]), h.p, k, h.off);
      ExtendFlags(j);
    }
  }

  /** `mthpc_sub_task_create`, for a main task or a sub-task. */
  method SubTaskCreate(parent: Task, ghost ph: seq<seq<Task>>, ghost p: nat, ghost i: nat, ghost off: Off,
        ghost ts: set<Task>) returns (sub: Task)
    requires Shape(parent.tf.head, ph, ts) && Fields(Gathered(ph, []), off) && p < |ph| && i < |ph[p]| && parent == ph[p][i]
    modifies parent.tf`nrTask, parent`nr, Heads(ts)`next, Heads(ts)`prev
    ensures fresh(sub) && sub.tf == parent.tf && parent.tf.nrTask == old(parent.tf.nrTask) + 1
    ensures var r := Extend(ph, p, SubPlace(ph[p], i), [sub]);
            && Shape(parent.tf.head, r, ts + {sub}) && Fields(Gathered(r, []), OffSub(off, ph[p], i, sub))
            && (old(Counts(ph)) ==> (Counts(r) <==> i == 0)) && (old(Flags(ph)) ==> (Flags(r) <==> i == 0))
            && Total(r) == Total(ph) + 1
  {
    hide Ok, Apart, Linked, Placed, SubRing, NonEmpty, Inside, Owns, Shape, Counted, Flagged, Counts, Flags, Extend,
         CountsOk, FlagsOk, OffSub;
    ghost var head := parent.tf.head;
    SubKnown(head, ph, p, i, ts);
    OkIff(ph, off);
    label L:
    sub := LinkSub(parent, ph, p, i, ts);
    ghost var h := Hung(ph, off, p, i, sub);
    ghost var r := Extend(ph, p, SubPlace(ph[p], i), [sub]);
    FieldsStay@L(Marked(Gathered(ph, []), off));
    label N:
    sub.main := parent;
    parent.nr := parent.nr + 1;
    ShapeStays@N(Flowing(head, r, ts + {sub}));
    HungFields@N(h);
    AddedTotal(ph, p, SubPlace(ph[p], i), [sub]);
    HungOkIff(h);
    OkIff(r, OffSub(off, ph[p], i, sub));
  }
}
