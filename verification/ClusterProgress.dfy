/** That a cluster of thread groups gets to its end (`src/thread/thread.c`): nothing that can happen
    keeps its threads from running or its barrier object from being freed. */
module ClusterProgress {
  import opened ThreadCluster
  import B = Barrier

  // ---------------------------------------------------------------- the threads run

  /** Steps left to a thread until its cleanup is done. */
  function ThreadLeft(stage: Stage, x: B.Thread): nat {
    match stage
    case Absent => 16
    case Initialising => 15
    case Ready => 14
    case Seen => 13
    case Sampled(_) => 12
    case AtBarrier => if B.Rest(x, 1) > 0 then 2 + B.Rest(x, 1) else 2
    case Working => 1
    case Cleaned => 0
  }

  function ThreadsLeft(stages: seq<Stage>, xs: seq<B.Thread>): nat
    requires |stages| == |xs|
  {
    if stages == [] then 0 else ThreadLeft(stages[0], xs[0]) + ThreadsLeft(stages[1..], xs[1..])
  }

  lemma {:induction false} ThreadsLeftAfter(stages: seq<Stage>, xs: seq<B.Thread>, t: nat, stage: Stage, x: B.Thread)
    requires t < |stages| == |xs|
    ensures ThreadsLeft(stages[t := stage], xs[t := x])
            == ThreadsLeft(stages, xs) - ThreadLeft(stages[t], xs[t]) + ThreadLeft(stage, x)
  {
    if t == 0 {
      assert stages[t := stage][1..] == stages[1..] && xs[t := x][1..] == xs[1..];
    } else {
      assert stages[t := stage][1..] == stages[1..][t - 1 := stage] && xs[t := x][1..] == xs[1..][t - 1 := x];
      ThreadsLeftAfter(stages[1..], xs[1..], t - 1, stage, x);
    }
  }

  /** Steps left until all groups have been made. */
  function Unmade(groups: seq<Group>): nat {
    if groups == [] then 0 else (if groups[0].made >= 2 then 0 else 2 - groups[0].made) + Unmade(groups[1..])
  }

  lemma {:induction false} UnmadeAfter(groups: seq<Group>, g: nat, x: Group)
    requires g < |groups|
    ensures Unmade(groups[g := x]) + (if groups[g].made >= 2 then 0 else 2 - groups[g].made)
            == Unmade(groups) + (if x.made >= 2 then 0 else 2 - x.made)
  {
    if g == 0 {
      assert groups[g := x][1..] == groups[1..];
    } else {
      assert groups[g := x][1..] == groups[1..][g - 1 := x];
      UnmadeAfter(groups[1..], g - 1, x);
    }
  }

  /** Steps until the lock can be given up. */
  function LockLeft(s: State): nat {
    match s.lock
    case Free => 0
    case ByWaiter(_) => 1
    case ByJoiner => if s.joiner.Putting? then 1 + PutLeft(s.joiner.put) else 1
  }

  function WorkLeft(s: State): nat {
    Unmade(s.groups) + if |s.stages| == |s.barrier.threads| then ThreadsLeft(s.stages, s.barrier.threads) else 0
  }

  ghost predicate Nearer(s: State, a: Step) {
    && Enabled(s, a)
    && (WorkLeft(Next(s, a)) < WorkLeft(s) || (WorkLeft(Next(s, a)) == WorkLeft(s) && LockLeft(Next(s, a)) < LockLeft(s)))
  }

  lemma MakesNearer(s: State, a: Step)
    requires Inv(s) && (a.ListGroup? || a.SetObject?) && Enabled(s, a)
    ensures Nearer(s, a)
  {
    hide Inv, ThreadsLeft;
    UnmadeAfter(s.groups, a.g, Next(s, a).groups[a.g]);
  }

  lemma DelistNearer(s: State)
    requires Inv(s) && s.lock.ByWaiter?
    ensures Nearer(s, WaiterDelist(s.lock.g))
  {
    hide ThreadsLeft, Members, Done, B.Inv, StageOk;
    assert GroupOk(s, s.lock.g);
    UnmadeAfter(s.groups, s.lock.g, Next(s, WaiterDelist(s.lock.g)).groups[s.lock.g]);
  }

  lemma PutNearer(s: State)
    requires Inv(s) && s.joiner.Putting?
    ensures Nearer(s, JoinerPut)
  {
    hide ThreadsLeft, Members, Done, B.Inv, StageOk, GroupOk;
    UnmadeAfter(s.groups, s.joiner.g, Next(s, JoinerPut).groups[s.joiner.g]);
  }

  /** Whoever holds the lock gets nearer to giving it up. */
  lemma HolderNearer(s: State) returns (a: Step)
    requires Inv(s) && !s.lock.Free?
    ensures Nearer(s, a)
  {
    hide ThreadsLeft, GroupOk, B.Inv, StageOk, Unmade;
    if s.lock.ByWaiter? {
      DelistNearer(s);
      a := WaiterDelist(s.lock.g);
    } else if s.joiner.Putting? {
      PutNearer(s);
      a := JoinerPut;
    } else {
      a := JoinerUnlock;
    }
  }

  /** The own step of a thread outside the barrier. */
  function StageStep(t: nat, stage: Stage): Step {
    match stage
    case Absent => Create(t)
    case Initialising => FinishInit(t)
    case Ready => CheckObject(t)
    case Seen => LoadCount(t)
    case Sampled(_) => EnterBarrier(t)
    case AtBarrier => StartFunc(t)
    case _ => CleanUp(t)
  }

  lemma StageEnabled(s: State, t: nat)
    requires Inv(s) && Unmade(s.groups) == 0 && t < |s.stages| && !s.stages[t].Cleaned?
    requires s.stages[t].AtBarrier? ==> s.barrier.threads[t].pc.Out?
    ensures Enabled(s, StageStep(t, s.stages[t]))
  {
    hide Members, Done, StageOk;
    assert B.ThreadOk(s.barrier, t) && GroupOk(s, s.team[t]);
    AllMade(s.groups, s.team[t]);
    InStage(s, t);
  }

  lemma InStage(s: State, t: nat)
    requires Inv(s) && t < |s.stages|
    ensures s.stages[t].Sampled? ==> s.stages[t].n >= 0 && s.barrier.threads[t].pc.Out? && s.barrier.threads[t].left == 0
    ensures s.stages[t].AtBarrier? && s.barrier.threads[t].pc.Out? ==> s.barrier.threads[t].left == 1
  {
    hide GroupOk;
    assert StageOk(s, t) && B.ThreadOk(s.barrier, t);
  }

  lemma StageNext(s: State, t: nat)
    requires Inv(s) && Unmade(s.groups) == 0 && t < |s.stages| && !s.stages[t].Cleaned?
    requires s.stages[t].AtBarrier? ==> s.barrier.threads[t].pc.Out?
    ensures Enabled(s, StageStep(t, s.stages[t])) && Moved(s, Next(s, StageStep(t, s.stages[t])), t)
  {
    hide Moved, StageStep, Enabled, Next, Unmade, GroupOk, StageOk, B.Inv;
    StageEnabled(s, t);
    InStage(s, t);
    StageMoves(s, t);
  }

  /** What such a step changes. */
  predicate Moved(s: State, s': State, t: nat) {
    && t < |s.stages| == |s'.stages| == |s.barrier.threads| == |s'.barrier.threads|
    && s'.stages == s.stages[t := s'.stages[t]] && s'.barrier.threads == s.barrier.threads[t := s'.barrier.threads[t]]
    && ThreadLeft(s'.stages[t], s'.barrier.threads[t]) < ThreadLeft(s.stages[t], s.barrier.threads[t])
    && Unmade(s'.groups) == Unmade(s.groups)
  }

  lemma StageMoves(s: State, t: nat)
    requires t < |s.stages| == |s.team| == |s.barrier.threads| && s.team[t] < |s.groups| && !s.stages[t].Cleaned?
    requires Enabled(s, StageStep(t, s.stages[t]))
    requires s.stages[t].Sampled? || s.stages[t].AtBarrier? ==> s.barrier.threads[t].pc.Out?
    requires s.stages[t].Sampled? ==> s.barrier.threads[t].left == 0
    requires s.stages[t].AtBarrier? ==> s.barrier.threads[t].left == 1
    ensures Moved(s, Next(s, StageStep(t, s.stages[t])), t)
  {
    hide Unmade;
    if s.stages[t].Working? {
      UnmadeAfter(s.groups, s.team[t], Next(s, CleanUp(t)).groups[s.team[t]]);
    }
  }

  lemma ThreadNearer(s: State, t: nat)
    requires Inv(s) && Unmade(s.groups) == 0 && t < |s.stages| && !s.stages[t].Cleaned?
    requires s.stages[t].AtBarrier? ==> s.barrier.threads[t].pc.Out?
    ensures Nearer(s, StageStep(t, s.stages[t]))
  {
    hide ThreadsLeft, ThreadLeft, Inv, StageStep, Next, Enabled, Unmade;
    StageNext(s, t);
    var s' := Next(s, StageStep(t, s.stages[t]));
    ThreadsLeftAfter(s.stages, s.barrier.threads, t, s'.stages[t], s'.barrier.threads[t]);
  }

  lemma {:induction false} AllMade(groups: seq<Group>, g: nat)
    requires Unmade(groups) == 0 && g < |groups|
    ensures groups[g].made >= 2
  {
    if g > 0 {
      AllMade(groups[1..], g - 1);
    }
  }

  lemma {:induction false} SomeUnmade(groups: seq<Group>) returns (g: nat)
    requires Unmade(groups) > 0
    ensures g < |groups| && groups[g].made < 2
  {
    if groups[0].made < 2 {
      g := 0;
    } else {
      g := SomeUnmade(groups[1..]);
      g := g + 1;
    }
  }

  /** When all threads that are not done are in the barrier, some of them gets further. */
  lemma BarrierNearer(s: State) returns (a: B.Step)
    requires Inv(s) && (exists t :: 0 <= t < |s.stages| && !s.stages[t].Cleaned?)
    requires forall t :: 0 <= t < |s.stages| && !s.stages[t].Cleaned? ==> s.stages[t].AtBarrier? && !s.barrier.threads[t].pc.Out?
    ensures Nearer(s, InBarrier(a))
  {
    hide ThreadsLeft, Members, Done, GroupOk, B.Rest;
    forall t | 0 <= t < |s.stages| ensures s.barrier.threads[t].entered == 1 && (s.stages[t].AtBarrier? ==> s.barrier.threads[t].left == 0)
      ensures s.stages[t].Cleaned? ==> s.barrier.threads[t].pc.Out?
    {
      assert StageOk(s, t) && B.ThreadOk(s.barrier, t);
    }
    a := B.SomeThreadAdvances(s.barrier, 1);
    B.AdvanceCounts(s.barrier, a, 1);
    var x, s' := s.barrier.threads[a.t], Next(s, InBarrier(a));
    Positive(x);
    ThreadsLeftAfter(s.stages, s.barrier.threads, a.t, s.stages[a.t], s'.barrier.threads[a.t]);
    assert s.stages[a.t := s.stages[a.t]] == s.stages;
    assert s.barrier.threads[a.t := s'.barrier.threads[a.t]] == s'.barrier.threads;
  }

  lemma Positive(x: B.Thread)
    requires x.left == 0
    ensures B.Rest(x, 1) > 0
  {
  }

  lemma SomeoneNearer(s: State) returns (a: Step)
    requires Inv(s) && !AllDone(s)
    ensures Nearer(s, a)
  {
    hide Nearer, B.Inv, StageOk;
    if Unmade(s.groups) > 0 {
      var g := SomeUnmade(s.groups);
      if s.groups[g].made == 1 {
        a := SetObject(g);
        MakesNearer(s, a);
      } else if s.lock.Free? {
        a := ListGroup(g);
        MakesNearer(s, a);
      } else {
        a := HolderNearer(s);
      }
    } else if t: nat :| t < |s.stages| && !s.stages[t].Cleaned? && (s.stages[t].AtBarrier? ==> s.barrier.threads[t].pc.Out?) {
      a := StageStep(t, s.stages[t]);
      ThreadNearer(s, t);
    } else {
      NotAllCleaned(s);
      var b := BarrierNearer(s);
      a := InBarrier(b);
    }
  }

  lemma NotAllCleaned(s: State)
    requires Inv(s) && !AllDone(s) && Unmade(s.groups) == 0
    ensures exists t :: 0 <= t < |s.stages| && !s.stages[t].Cleaned?
  {
    hide B.Inv, StageOk;
    var g :| 0 <= g < |s.groups| && !(s.groups[g].exited == s.groups[g].nr && s.groups[g].made == 2);
    AllMade(s.groups, g);
    assert GroupOk(s, g);
    assert Done(s, g) <= Members(s.team, g) && Done(s, g) != Members(s.team, g);
    var t :| t in Members(s.team, g) && t !in Done(s, g);
    assert 0 <= t < |s.stages| && !s.stages[t].Cleaned?;
  }

  /** Neither the lock nor the barrier keeps a cluster from its end: from every state some run lists the
      groups, takes all threads through the barrier and their cleanup, and frees the object. */
  lemma {:induction false} CanComplete(s: State) returns (ss: seq<State>, steps: seq<Step>)
    requires Inv(s)
    ensures |ss| > 0 && Run(ss, steps) && ss[0] == s && AllDone(ss[|ss| - 1]) && ss[|ss| - 1].freed == 1
    decreases WorkLeft(s), LockLeft(s)
  {
    hide Inv, Enabled, Next, AllDone, WorkLeft, LockLeft;
    if AllDone(s) {
      ss, steps := CanBeFreed(s);
    } else {
      var a := SomeoneNearer(s);
      NextInv(s, a);
      var ts, more := CanComplete(Next(s, a));
      ss, steps := [s] + ts, [a] + more;
      assert forall i :: 0 < i < |ss| ==> ss[i] == ts[i - 1];
      assert forall i :: 0 < i < |steps| ==> steps[i] == more[i - 1];
    }
  }

  // ---------------------------------------------------------------- a call of mthpc_thread_async_wait

  predicate OfWaiter(a: Step, g: nat) {
    a == WaiterLock(g) || a == WaiterDelist(g) || a == WaiterGo(g) || a == WaiterPut(g)
  }

  function WaitLeft(w: Waiter): nat {
    match w
    case NotCalled => 7
    case Delisting => 6
    case Polling => 5
    case WPut(put) => PutLeft(put)
  }

  function WaitStep(w: Waiter, g: nat): Step {
    match w
    case NotCalled => WaiterLock(g)
    case Delisting => WaiterDelist(g)
    case Polling => WaiterGo(g)
    case WPut(_) => WaiterPut(g)
  }

  lemma WaitNearer(s: State, g: nat)
    requires Inv(s) && AllDone(s) && g < |s.groups| && s.groups[g].waiter != WPut(Finished)
    requires s.groups[g].waiter.NotCalled? ==> s.lock.Free?
    ensures var a := WaitStep(s.groups[g].waiter, g);
            && Enabled(s, a) && AllDone(Next(s, a)) && |Next(s, a).groups| == |s.groups|
            && WaitLeft(Next(s, a).groups[g].waiter) < WaitLeft(s.groups[g].waiter)
            && (Next(s, a).groups[g].waiter.NotCalled? ==> Next(s, a).lock.Free?)
  {
    hide Inv;
  }

  lemma PutEnded(s: State, g: nat)
    requires Inv(s) && g < |s.groups| && s.groups[g].waiter == WPut(Finished)
    ensures s.groups[g].puts == 1 && !s.groups[g].hasObject
  {
    assert GroupOk(s, g);
  }

  /** Once its threads have run, and with the lock free, a group can be waited for by the steps of its
      waiter alone, which then leaves it put. */
  lemma {:induction false} WaitsAlone(s: State, g: nat) returns (ss: seq<State>, steps: seq<Step>)
    requires Inv(s) && AllDone(s) && g < |s.groups| && (s.groups[g].waiter.NotCalled? ==> s.lock.Free?)
    ensures |ss| > 0 && Run(ss, steps) && ss[0] == s && (forall k :: 0 <= k < |steps| ==> OfWaiter(steps[k], g))
    ensures var s' := ss[|ss| - 1];
            g < |s'.groups| && s'.groups[g].waiter == WPut(Finished) && s'.groups[g].puts == 1 && !s'.groups[g].hasObject
    decreases WaitLeft(s.groups[g].waiter)
  {
    hide Inv, Enabled, Next, AllDone;
    if s.groups[g].waiter == WPut(Finished) {
      ss, steps := [s], [];
      PutEnded(s, g);
    } else {
      var a := WaitStep(s.groups[g].waiter, g);
      WaitNearer(s, g);
      NextInv(s, a);
      var ts, more := WaitsAlone(Next(s, a), g);
      ss, steps := [s] + ts, [a] + more;
      assert forall i :: 0 < i < |ss| ==> ss[i] == ts[i - 1];
      assert forall i :: 0 < i < |steps| ==> steps[i] == more[i - 1];
    }
  }
}
