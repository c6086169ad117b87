/** Double-checked creation of queues: when a pool has at most one listed queue per CPU. */
module WorkCpus {
  import opened Seqs
  import opened WorkPool

  /** Every submission names a CPU that exists, or leaves the choice to the pool. */
  predicate InDomain(a: Step) {
    a.S? && a.act.Submit? ==> -1 <= a.act.cpu < NR_CPU
  }

  predicate OneQueuePerCpu(s: State) {
    forall i, j :: 0 <= i < j < |s.list| && s.list[i] < |s.queues| && s.list[j] < |s.queues| ==>
      s.queues[s.list[i]].cpu != s.queues[s.list[j]].cpu
  }

  /** What a submitter past its first lookup knows: the CPU it asks for, and during the second
      check that no queue passed so far has it. */
  ghost predicate AskerOk(s: State, c: nat)
    requires c < |s.submitters|
  {
    var x := s.submitters[c];
    && (!x.pc.Idle? ==> -1 <= x.cpu < NR_CPU)
    && (x.pc.Owning() ==> 0 <= x.cpu)
    && (x.pc.Checking? ==>
          forall i :: 0 <= i < x.pc.i && i < |s.list| && s.list[i] < |s.queues| ==> s.queues[s.list[i]].cpu != x.cpu)
  }

  ghost predicate CpusOk(s: State) {
    && OneQueuePerCpu(s)
    && (forall c :: 0 <= c < |s.submitters| ==> AskerOk(s, c))
  }

  /** Steps that leave the pool's list and the CPUs of its queues alone. */
  lemma SameList(s: State, s': State, c: nat)
    requires PoolOk(s) && CpusOk(s) && c < |s.submitters| == |s'.submitters| && s'.list == s.list
    requires |s.queues| <= |s'.queues| && forall q :: 0 <= q < |s.queues| ==> s'.queues[q].cpu == s.queues[q].cpu
    requires forall d :: 0 <= d < |s.submitters| && d != c ==> s'.submitters[d] == s.submitters[d]
    requires AskerOk(s', c)
    ensures CpusOk(s')
  {
    forall d | 0 <= d < |s.submitters| ensures AskerOk(s', d) {
      if d != c { assert AskerOk(s, d); }
    }
  }

  /** Adding the queue that the second check did not find. */
  lemma PublishCpus(s: State, c: nat)
    requires Inv(s) && CpusOk(s) && SubmitterEnabled(s, c, Publish)
    ensures CpusOk(SubmitterNext(s, c, Publish))
  {
    assert SubmitterIn(s, c) && AskerOk(s, c);
    var s' := SubmitterNext(s, c, Publish);
    forall d | 0 <= d < |s.submitters| ensures AskerOk(s', d) {
      assert SubmitterIn(s, d) && AskerOk(s, d);
    }
  }

  lemma SubmitterCpus(s: State, c: nat, act: SubmitterAct)
    requires Inv(s) && CpusOk(s) && SubmitterEnabled(s, c, act) && InDomain(S(c, act)) && !act.Publish?
    ensures CpusOk(SubmitterNext(s, c, act))
  {
    assert AskerOk(s, c);
    hide Inv, OneQueuePerCpu, SubmitterNext, SubmitterEnabled, AskerOk;
    AskerKeeps(s, c, act);
    ListKeeps(s, c, act);
    InvPool(s);
    SameList(s, SubmitterNext(s, c, act), c);
  }

  lemma InvPool(s: State)
    requires Inv(s)
    ensures PoolOk(s)
  {
  }

  lemma ListKeeps(s: State, c: nat, act: SubmitterAct)
    requires SubmitterEnabled(s, c, act) && !act.Publish?
    ensures var s' := SubmitterNext(s, c, act);
            && c < |s.submitters| == |s'.submitters| && s'.list == s.list && |s.queues| <= |s'.queues|
            && (forall q :: 0 <= q < |s.queues| ==> s'.queues[q].cpu == s.queues[q].cpu)
            && (forall d :: 0 <= d < |s.submitters| && d != c ==> s'.submitters[d] == s.submitters[d])
  {
    hide Mask, CanMeet, FastMatch, SlowMatch;
  }

  lemma AskerKeeps(s: State, c: nat, act: SubmitterAct)
    requires Inv(s) && CpusOk(s) && SubmitterEnabled(s, c, act) && InDomain(S(c, act)) && !act.Publish?
    ensures c < |SubmitterNext(s, c, act).submitters| && AskerOk(SubmitterNext(s, c, act), c)
  {
    hide QueueIn, SubmitterIn, WorksOk, QueueOk, OneQueuePerCpu, CanMeet, FastMatch, Mask;
    assert AskerOk(s, c);
  }

  lemma JoinerCpus(s: State, act: JoinerAct)
    requires Inv(s) && CpusOk(s) && JoinerEnabled(s, act)
    ensures CpusOk(JoinerNext(s, act))
  {
    hide QueueIn, WorksOk, QueueOk, OneQueuePerCpu, Mask, Missing, WaitedFor, CanMeet;
    var s' := JoinerNext(s, act);
    JoinerList(s, act);
    forall c | 0 <= c < |s.submitters| ensures AskerOk(s', c) {
      assert SubmitterIn(s, c) && AskerOk(s, c);
    }
  }

  /** The joiner changes no CPU, and the list only under its own lock and by taking a queue out. */
  lemma JoinerList(s: State, act: JoinerAct)
    requires JoinerEnabled(s, act) && OneQueuePerCpu(s)
    ensures var s' := JoinerNext(s, act); OneQueuePerCpu(s') && |s'.queues| == |s.queues|
    ensures forall q :: 0 <= q < |s.queues| ==> JoinerNext(s, act).queues[q].cpu == s.queues[q].cpu
  {
    hide Missing, WaitedFor, Mask, OneQueuePerCpu;
    var s', i := JoinerNext(s, act), if act.Decide? then s.joiner.i else 0;
    assert s'.list == s.list || (i < |s.list| && s'.list == Drop(s.list, i));
    DropCpus(s, s', i);
  }

  lemma DropCpus(s: State, s': State, i: nat)
    requires OneQueuePerCpu(s) && (s'.list == s.list || (i < |s.list| && s'.list == Drop(s.list, i)))
    requires |s'.queues| == |s.queues| && forall q :: 0 <= q < |s.queues| ==> s'.queues[q].cpu == s.queues[q].cpu
    ensures OneQueuePerCpu(s')
  {
    assert s'.list != s.list ==> forall k :: 0 <= k < |s'.list| ==> s'.list[k] == s.list[if k < i then k else k + 1];
  }

  lemma CpusStep(s: State, a: Step)
    requires Inv(s) && CpusOk(s) && Enabled(s, a) && InDomain(a)
    ensures CpusOk(Next(s, a))
  {
    match a
    case S(c, act) => if act.Publish? { PublishCpus(s, c); } else { SubmitterCpus(s, c, act); }
    case J(act) => JoinerCpus(s, act);
    case W(q, act) =>
      forall c | 0 <= c < |s.submitters| ensures AskerOk(Next(s, a), c) { assert AskerOk(s, c); }
  }

  /** At most one listed queue per CPU, in every interleaving of callers that name a CPU in
      range or none. */
  lemma {:induction false} UniqueQueues(ss: seq<State>, steps: seq<Step>, i: nat)
    requires |ss| > 0 && Init(ss[0]) && Run(ss, steps) && i < |ss|
    requires forall j :: 0 <= j < |steps| ==> InDomain(steps[j])
    ensures CpusOk(ss[i])
  {
    if i > 0 {
      hide Init, Inv, Enabled, Next, CpusOk;
      UniqueQueues(ss, steps, i - 1);
      RunInv(ss, steps, i - 1);
      CpusStep(ss[i - 1], steps[i - 1]);
    }
  }

  // ---------------------------------------------------------------- outside the domain

  /** Some run in which every submission asks for `cpu` ends with two listed queues of one CPU. */
  ghost predicate CanDuplicate(cpu: int) {
    exists ss: seq<State>, steps: seq<Step> :: Duplicates(ss, steps, cpu)
  }

  ghost predicate Duplicates(ss: seq<State>, steps: seq<Step>, cpu: int) {
    && |ss| > 0 && Init(ss[0]) && Run(ss, steps) && AllAsk(steps, cpu)
    && !OneQueuePerCpu(ss[|ss| - 1])
  }

  predicate AllAsk(steps: seq<Step>, cpu: int) {
    forall j :: 0 <= j < |steps| && steps[j].S? && steps[j].act.Submit? ==> steps[j].act.cpu == cpu
  }

  function Asking(cpu: int, pc0: Pc, pc1: Pc): seq<Submitter> {
    [Submitter(pc0, 0, cpu, false), Submitter(pc1, 1, cpu, false)]
  }

  function Queues(cpu: int, a: Place, b: Place): seq<Queue> {
    [NewQueue(0, cpu, 0).(place := a), NewQueue(1, cpu, 1).(place := b)]
  }

  /** Two submitters that both found an empty pool, each with its queue prepared. */
  function BothPrepared(cpu: int): State {
    State(Queues(cpu, Private, Private), Asking(cpu, Prepared(0), Prepared(1)), Resting, PFree, [], 0, [], {},
          2, map[0 := InHandOf(0), 1 := InHandOf(1)], map[0 := cpu, 1 := cpu])
  }

  /** The first has published its queue and the second is about to check. */
  function FirstPublished(cpu: int): State {
    State(Queues(cpu, Listed, Private), Asking(cpu, Spawning(0), Checking(1, 0)), Resting, PSubmitter(1), [0], 1, [], {},
          2, map[0 := InQueue(0), 1 := InHandOf(1)], map[0 := cpu, 1 := cpu])
  }

  function Start(): State {
    State([], [Submitter(Idle, 0, 0, false), Submitter(Idle, 0, 0, false)], Resting, PFree, [], 0, [], {}, 0, map[], map[])
  }

  function BothMissed(cpu: int): State {
    Start().(submitters := Asking(cpu, Missed, Missed), nextWork := 2, where := map[0 := InHandOf(0), 1 := InHandOf(1)],
                  asked := map[0 := cpu, 1 := cpu])
  }

  /** The two walks, over an empty pool. */
  lemma MissBoth(cpu: int) returns (ss: seq<State>, steps: seq<Step>)
    ensures Run(ss, steps) && AllAsk(steps, cpu) && ss[0] == Start() && ss[|ss| - 1] == BothMissed(cpu)
  {
    hide Mask, FastMatch, SlowMatch;
    steps := [S(0, Submit(cpu, false)), S(1, Submit(cpu, false)), S(0, Miss), S(1, Miss)];
    var s0 := Start();
    var s1 := Next(s0, steps[0]);
    var s2 := Next(s1, steps[1]);
    var s3 := Next(s2, steps[2]);
    var s4 := Next(s3, steps[3]);
    ss := [s0, s1, s2, s3, s4];
    assert s4 == BothMissed(cpu);
  }

  /** The two allocations. */
  lemma PrepareBoth(cpu: int) returns (ss: seq<State>, steps: seq<Step>)
    requires cpu != -1
    ensures Run(ss, steps) && AllAsk(steps, cpu) && ss[0] == BothMissed(cpu) && ss[|ss| - 1] == BothPrepared(cpu)
  {
    hide Mask, FastMatch, SlowMatch;
    steps := [S(0, Prepare(0)), S(1, Prepare(0))];
    var s0 := BothMissed(cpu);
    var s1 := Next(s0, steps[0]);
    var s2 := Next(s1, steps[1]);
    ss := [s0, s1, s2];
    assert s2 == BothPrepared(cpu);
  }

  function Counted(cpu: int): State {
    FirstPublished(cpu).(lock := PSubmitter(0), submitters := Asking(cpu, Created(0), Prepared(1)))
  }

  function Listing(cpu: int): State {
    FirstPublished(cpu).(count := 0, lock := PSubmitter(0), submitters := Asking(cpu, Published(0), Prepared(1)))
  }

  lemma PublishFirst(cpu: int) returns (ss: seq<State>, steps: seq<Step>)
    ensures Run(ss, steps) && AllAsk(steps, cpu) && ss[0] == BothPrepared(cpu) && ss[|ss| - 1] == Listing(cpu)
  {
    hide Mask, FastMatch, SlowMatch, CanMeet, JoinerEnabled, JoinerNext, WorkerReady, WorkerNext;
    steps := [S(0, TakePool), S(0, Publish)];
    var s0 := BothPrepared(cpu);
    var s1 := Next(s0, steps[0]);
    var s2 := Next(s1, steps[1]);
    ss := [s0, s1, s2];
    assert s2 == Listing(cpu);
  }

  lemma CountFirst(cpu: int) returns (ss: seq<State>, steps: seq<Step>)
    ensures Run(ss, steps) && AllAsk(steps, cpu) && ss[0] == Listing(cpu) && ss[|ss| - 1] == Counted(cpu)
  {
    hide Mask, FastMatch, SlowMatch, CanMeet, JoinerEnabled, JoinerNext, WorkerReady, WorkerNext;
    steps := [S(0, CountPool)];
    ss := [Listing(cpu), Next(Listing(cpu), steps[0])];
    assert ss[1] == Counted(cpu);
  }

  lemma PassPool(cpu: int) returns (ss: seq<State>, steps: seq<Step>)
    ensures Run(ss, steps) && AllAsk(steps, cpu) && ss[0] == Counted(cpu) && ss[|ss| - 1] == FirstPublished(cpu)
  {
    hide Mask, FastMatch, SlowMatch;
    steps := [S(0, DropPool), S(1, TakePool)];
    var s0 := Counted(cpu);
    var s1 := Next(s0, steps[0]);
    var s2 := Next(s1, steps[1]);
    ss := [s0, s1, s2];
    assert s2 == FirstPublished(cpu);
  }

  /** The second check compares the unmasked CPU with a masked one and finds no match. */
  lemma PublishSecond(cpu: int) returns (ss: seq<State>, steps: seq<Step>)
    requires Mask(cpu) != cpu
    ensures Run(ss, steps) && AllAsk(steps, cpu) && ss[0] == FirstPublished(cpu) && !OneQueuePerCpu(ss[|ss| - 1])
  {
    hide OneQueuePerCpu;
    steps := [S(1, Check), S(1, Publish)];
    var s0 := FirstPublished(cpu);
    var s1 := Next(s0, steps[0]);
    var s2 := Next(s1, steps[1]);
    ss := [s0, s1, s2];
    assert s2.list == [0, 1] && s2.queues[0].cpu == s2.queues[1].cpu;
    TwoOfOneCpu(s2);
  }

  lemma TwoOfOneCpu(s: State)
    requires s.list == [0, 1] && |s.queues| >= 2 && s.queues[0].cpu == s.queues[1].cpu
    ensures !OneQueuePerCpu(s)
  {
    assert s.queues[s.list[0]].cpu == s.queues[s.list[1]].cpu;
  }

  /** Exactly which CPU arguments let the pool hold two queues of one CPU: those out of range. */
  lemma DuplicateIff(cpu: int)
    ensures CanDuplicate(cpu) <==> !(-1 <= cpu <= 3)
  {
    hide Enabled, Next, Init, OneQueuePerCpu, CpusOk;
    if -1 <= cpu <= 3 {
      forall ss: seq<State>, steps: seq<Step> ensures !Duplicates(ss, steps, cpu) {
        if Duplicates(ss, steps, cpu) {
          UniqueQueues(ss, steps, |ss| - 1);
          NoDuplicates(ss[|ss| - 1]);
        }
      }
    } else {
      var m, v := MissBoth(cpu);
      var a, x := PrepareBoth(cpu);
      var b, y := PublishFirst(cpu);
      var e, v1 := CountFirst(cpu);
      JoinRuns(b, y, e, v1);
      b, y := b + e[1..], y + v1;
      var c, z := PassPool(cpu);
      var d, u := PublishSecond(cpu);
      JoinRuns(a, x, b, y);
      JoinRuns(c, z, d, u);
      JoinRuns(a + b[1..], x + y, c + d[1..], z + u);
      var rest, more := a + b[1..] + (c + d[1..])[1..], x + y + (z + u);
      JoinRuns(m, v, rest, more);
      StartInit();
      assert Duplicates(m + rest[1..], v + more, cpu);
    }
  }

  lemma NoDuplicates(s: State)
    requires CpusOk(s)
    ensures OneQueuePerCpu(s)
  {
  }

  lemma StartInit()
    ensures Init(Start())
  {
  }
}
