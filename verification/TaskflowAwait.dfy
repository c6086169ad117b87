/** What `mthpc_taskflow_await` makes of a taskflow as the operations of module Taskflow leave it. */
module TaskflowAwait {
  import opened Phases
  import opened Taskflow
  import A = TaskAwait

  /** No count is below what it should be. Only a sub-task created under a sub-task makes one so. */
  predicate NoneUnder(off: Off) {
    forall t :: t in off.extra ==> off.extra[t] >= 0
  }

  /** The counts that `await` reads. */
  ghost function Recorded(ph: seq<seq<Task>>, off: Off): (r: seq<nat>)
    requires NonEmpty(ph) && NoneUnder(off) && Fields(Gathered(ph, []), off)
    reads Tasks(ph)`nr, Tasks(ph)`isSub, Tasks(ph)`main
    ensures |r| == |ph| && forall p :: 0 <= p < |ph| ==> r[p] == ph[p][0].nr
  {
    seq(|ph|, p requires 0 <= p < |ph| => |ph[p]| + off.Extra(ph[p][0]))
  }

  /** `await` begins on this taskflow. */
  ghost predicate Begins(tf: Flow, ph: seq<seq<Task>>, off: Off, s: A.State)
    requires NonEmpty(ph) && NoneUnder(off) && Fields(Gathered(ph, []), off)
    reads tf`nrTask, Tasks(ph)`nr, Tasks(ph)`isSub, Tasks(ph)`main
  {
    && A.Init(Recorded(ph, off), s) && s.nrTask == tf.nrTask
    && forall p :: 0 <= p < |ph| ==> |s.tasks[p]| == |ph[p]|
  }

  /** It never goes on too early, and it can return exactly if all counts are right. */
  lemma AwaitIff(tf: Flow, ph: seq<seq<Task>>, off: Off, s: A.State)
    requires NonEmpty(ph) && NoneUnder(off) && Fields(Gathered(ph, []), off) && Begins(tf, ph, off, s)
    ensures A.Sound(Recorded(ph, off), s)
    ensures A.CanReturn(Recorded(ph, off), s) <==> Counts(ph)
  {
    var counts := Recorded(ph, off);
    OkIff(ph, off);
    forall p | 0 <= p < |counts| ensures counts[p] >= |s.tasks[p]| {
      assert counts[p] == |ph[p]| + off.Extra(ph[p][0]);
    }
    A.ReturnsIff(counts, s);
  }

  lemma {:induction false} SizesAreTotal(ph: seq<seq<Task>>, tasks: seq<seq<A.Status>>, k: nat)
    requires k <= |ph| == |tasks| && forall p :: 0 <= p < |ph| ==> |tasks[p]| == |ph[p]|
    ensures A.Sizes(tasks, k) == Total(ph[..k])
  {
    if k > 0 {
      SizesAreTotal(ph, tasks, k - 1);
      assert ph[..k] == ph[..k - 1] + [ph[k - 1]];
      TotalConcat(ph[..k - 1], [ph[k - 1]]);
      OneTotal(ph[k - 1]);
    }
  }

  lemma OneTotal(s: seq<Task>)
    ensures Total([s]) == |s|
  {
    var none: seq<seq<Task>> := [];
    assert [s][1..] == none;
  }

  /** With right counts and a right `nr_task` no run of `await` gives a warning, and every task has
      completed when it returns. */
  lemma AwaitClean(tf: Flow, ph: seq<seq<Task>>, off: Off, ss: seq<A.State>, steps: seq<A.Step>, i: nat)
    requires NonEmpty(ph) && NoneUnder(off) && Fields(Gathered(ph, []), off) && Counts(ph) && tf.nrTask == Total(ph)
    requires |ss| > 0 && Begins(tf, ph, off, ss[0]) && A.Run(Recorded(ph, off), ss, steps) && i < |ss|
    ensures ss[i].warnings == 0
    ensures ss[i].pc.Ended? ==> ss[i].total == Total(ph) && forall q: nat, j: nat :: A.At(ss[i], q, j) ==> ss[i].tasks[q][j].Completed?
  {
    AwaitIff(tf, ph, off, ss[0]);
    A.OnReturn(Recorded(ph, off), ss, steps, i);
    SizesAreTotal(ph, ss[0].tasks, |ph|);
    assert ph[..|ph|] == ph;
    forall q: nat, j: nat | ss[i].pc.Ended? && A.At(ss[i], q, j) ensures ss[i].tasks[q][j].Completed? {
      assert A.At(ss[i], A.Place(q, j).q, A.Place(q, j).j);
    }
  }

  // ---------------------------------------------------------------- after precede and succeed

  predicate NoneOff(off: Off) {
    forall t :: t in off.extra ==> off.extra[t] == 0
  }

  lemma {:induction false} GatherExact(g: Gathered<Task>, off: Off, news: seq<Task>)
    requires CanGather(g, news) && NoneOff(off)
    ensures NoneOff(OffGather(g, off, news))
    decreases |news|
  {
    if news != [] {
      GatherExact(Put(g, news[0]), OffPut(g, off, news[0]), news[1..]);
    }
  }

  /** New phases at `k`, from right counts: the first one's main task counts all the new tasks, and
      every other count is right. */
  lemma SpreadCounts(g: Gathered<Task>, off: Off, k: nat)
    requires NoneOff(off) && Apart(g.phases, g.adding) && NonEmpty(g.phases) && k <= |g.phases| && |g.adding| > 0
    ensures var r, off' := Spread(g.phases, k, g.adding), OffSpread(off, g.adding);
            && k < |r| == |g.phases| + |g.adding| && r[k] == [g.adding[0]] && NoneUnder(off') && NonEmpty(r)
            && forall p :: 0 <= p < |r| ==> off'.Extra(r[p][0]) == if p == k then |g.adding| - 1 else 0
  {
    hide Spread, Apart;
    var r, off' := Spread(g.phases, k, g.adding), OffSpread(off, g.adding);
    SpreadAt(g.phases, k, g.adding, k);
    forall p: nat | p < |r| ensures |r[p]| > 0 && off'.Extra(r[p][0]) == if p == k then |g.adding| - 1 else 0 {
      SpreadAt(g.phases, k, g.adding, p);
      SpreadFirst(g, k, p);
    }
  }

  lemma SpreadFirst(g: Gathered<Task>, k: nat, p: nat)
    requires Apart(g.phases, g.adding) && NonEmpty(g.phases) && k <= |g.phases| && p < |g.phases| + |g.adding| && |g.adding| > 0
    ensures p != k ==> (if p < k then g.phases[p] else if p < k + |g.adding| then [g.adding[p - k]] else g.phases[p - |g.adding|])[0] != g.adding[0]
  {
  }

  /** Moving several tasks after `task` when no task of a later phase stays: `await` hangs in the
      first new phase, whatever the workers do. */
  lemma SucceedHangs(tf: Flow, ph: seq<seq<Task>>, off: Off, task: Task, news: seq<Task>, off': Off, ss: seq<A.State>,
        steps: seq<A.Step>, i: nat)
    requires Movable(ph, task, news) && |news| > 1 && !StaysLater(ph, task, news) && NoneOff(off)
    requires CanGather(Gathered(ph, []), news) && Turns(Gathered(ph, []), off, news)
    requires off' == OffMoved(ph, off, task, news, false) && NonEmpty(Succeed(ph, task, news)) && NoneUnder(off')
    requires Fields(Gathered(Succeed(ph, task, news), []), off') && |ss| > 0 && Begins(tf, Succeed(ph, task, news), off', ss[0])
    requires A.Run(Recorded(Succeed(ph, task, news), off'), ss, steps) && i < |ss|
    ensures !ss[i].pc.Ended? && ss[i].p <= |Collect(ph, task, news).phases|
  {
    hide Movable, Turns, StaysLater, Fields, A.Run, A.Init, CanGather, Gather, NoneOff, OffGather, Succeed, OffMoved, Collect;
    var g, o := Collect(ph, task, news), OffGather(Gathered(ph, []), off, news);
    HangsKnown(ph, off, task, news);
    SpreadCounts(g, o, |g.phases|);
    AwaitIff(tf, Succeed(ph, task, news), off', ss[0]);
    Hangs(tf, Succeed(ph, task, news), off', |g.phases|, ss, steps, i);
  }

  lemma PrecedeHangs(tf: Flow, ph: seq<seq<Task>>, off: Off, task: Task, news: seq<Task>, off': Off, ss: seq<A.State>,
        steps: seq<A.Step>, i: nat)
    requires Movable(ph, task, news) && |news| > 1 && !StaysEarlier(ph, task, news) && NoneOff(off)
    requires CanGather(Gathered(ph, []), news) && Turns(Gathered(ph, []), off, news)
    requires off' == OffMoved(ph, off, task, news, false) && NonEmpty(Precede(ph, task, news)) && NoneUnder(off')
    requires Fields(Gathered(Precede(ph, task, news), []), off') && |ss| > 0 && Begins(tf, Precede(ph, task, news), off', ss[0])
    requires A.Run(Recorded(Precede(ph, task, news), off'), ss, steps) && i < |ss|
    ensures !ss[i].pc.Ended? && ss[i].p == 0
  {
    hide Movable, Turns, StaysEarlier, Fields, A.Run, A.Init, CanGather, Gather, NoneOff, OffGather, Precede, OffMoved, Collect;
    var g, o := Collect(ph, task, news), OffGather(Gathered(ph, []), off, news);
    HangsKnown(ph, off, task, news);
    SpreadCounts(g, o, 0);
    AwaitIff(tf, Precede(ph, task, news), off', ss[0]);
    Hangs(tf, Precede(ph, task, news), off', 0, ss, steps, i);
  }

  lemma HangsKnown(ph: seq<seq<Task>>, off: Off, task: Task, news: seq<Task>)
    requires Movable(ph, task, news) && |news| > 1 && NoneOff(off) && CanGather(Gathered(ph, []), news)
    ensures var g, o := Collect(ph, task, news), OffGather(Gathered(ph, []), off, news);
            && NoneOff(o) && Apart(g.phases, g.adding) && NonEmpty(g.phases) && |g.adding| == |news|
            && OffMoved(ph, off, task, news, false) == OffSpread(o, g.adding)
            && (!StaysLater(ph, task, news) ==> Succeed(ph, task, news) == Spread(g.phases, |g.phases|, g.adding))
            && (!StaysEarlier(ph, task, news) ==> Precede(ph, task, news) == Spread(g.phases, 0, g.adding))
  {
    hide *;
    GatherExact(Gathered(ph, []), off, news);
    Placing(task, ph, news);
    CollectOk(ph, task, news);
    CollectFull(ph, task, news);
    MovedIs(ph, off, task, news);
  }

  lemma CollectFull(ph: seq<seq<Task>>, task: Task, news: seq<Task>)
    requires Movable(ph, task, news)
    ensures NonEmpty(Collect(ph, task, news).phases)
  {
  }

  lemma MovedIs(ph: seq<seq<Task>>, off: Off, task: Task, news: seq<Task>)
    requires Movable(ph, task, news) && CanGather(Gathered(ph, []), news) && |Collect(ph, task, news).adding| > 0
    ensures OffMoved(ph, off, task, news, false) == OffSpread(OffGather(Gathered(ph, []), off, news), Collect(ph, task, news).adding)
  {
    hide Collect, OffGather;
  }

  /** A count that is too large. */
  lemma Hangs(tf: Flow, r: seq<seq<Task>>, off: Off, k: nat, ss: seq<A.State>, steps: seq<A.Step>, i: nat)
    requires NonEmpty(r) && NoneUnder(off) && Fields(Gathered(r, []), off) && k < |r| && off.Extra(r[k][0]) > 0
    requires |ss| > 0 && Begins(tf, r, off, ss[0]) && A.Run(Recorded(r, off), ss, steps) && i < |ss|
    ensures !ss[i].pc.Ended? && ss[i].p <= k
  {
    hide A.Run, A.Init;
    AwaitIff(tf, r, off, ss[0]);
    assert Recorded(r, off)[k] == |r[k]| + off.Extra(r[k][0]);
    A.Stuck(Recorded(r, off), ss, steps, i, k);
  }
}
