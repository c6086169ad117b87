/** Where the works of a pool go (`mthpc_get_workqueue` in `src/workqueue/workqueue.c`): to a queue
    of the CPU that their submitter asked for, whichever way they take. */
module WorkRoute {
  import opened WorkPool
  import J = WorkJoin

  /** A queue of `cpu` serves a request for `asked`: none in particular, or the same CPU modulo the
      number of CPUs. */
  predicate Serves(asked: int, cpu: nat) {
    asked == -1 || (asked - cpu) % NR_CPU == 0
  }

  ghost predicate QueueRoute(s: State, q: nat)
    requires q < |s.queues|
  {
    var x := s.queues[q];
    x.cpu < NR_CPU && forall w :: w in x.inserted ==> w in s.asked && Serves(s.asked[w], x.cpu)
  }

  /** What a submitter goes by is what was asked of it, or after a request for no CPU in particular
      the one that it has chosen. */
  ghost predicate SubmitterRoute(s: State, c: nat)
    requires c < |s.submitters|
  {
    var x := s.submitters[c];
    !x.pc.Idle? ==>
      && x.work in s.asked
      && (x.pc.Owning() ==> s.asked[x.work] == -1 || s.asked[x.work] == x.cpu)
      && (x.pc.InSection() || x.pc.Missed? ==> s.asked[x.work] == x.cpu)
      && (x.pc.Found? || x.pc.Adding? || x.pc.Lost? || x.pc.LostAdding? ==>
            x.pc.q < |s.queues| && Serves(s.asked[x.work], s.queues[x.pc.q].cpu))
  }

  ghost predicate RouteInv(s: State) {
    && (forall w: nat :: w in s.asked <==> w < s.nextWork)
    && (forall q :: 0 <= q < |s.queues| ==> QueueRoute(s, q))
    && (forall c :: 0 <= c < |s.submitters| ==> SubmitterRoute(s, c))
  }

  /** The two lookups and the mask, in numbers. */
  lemma Lookups(cpu: int, q: Queue)
    requires q.cpu < NR_CPU
    ensures FastMatch(cpu, q) <==> Serves(cpu, q.cpu)
    ensures SlowMatch(cpu, q) ==> Serves(cpu, q.cpu)
  {
  }

  lemma MaskServes(cpu: int)
    ensures Mask(cpu) < NR_CPU && Serves(cpu, Mask(cpu))
  {
  }

  /** What nobody but `c` and the queue that it links into notices. */
  lemma Others(s: State, s': State, c: nat)
    requires RouteInv(s) && |s'.submitters| == |s.submitters| && |s'.queues| >= |s.queues|
    requires s.nextWork <= s'.nextWork && forall w: nat :: w in s'.asked <==> w < s'.nextWork
    requires forall w :: w in s.asked ==> s'.asked[w] == s.asked[w]
    requires forall d :: 0 <= d < |s.submitters| && d != c ==>
               s'.submitters[d] == s.submitters[d].(stale := s'.submitters[d].stale)
    requires forall q :: 0 <= q < |s.queues| ==> s'.queues[q].cpu == s.queues[q].cpu
    requires forall q :: 0 <= q < |s'.queues| && (q >= |s.queues| || s'.queues[q].inserted != s.queues[q].inserted) ==> QueueRoute(s', q)
    requires c < |s.submitters| ==> SubmitterRoute(s', c)
    ensures RouteInv(s')
  {
    hide Serves;
    forall q | 0 <= q < |s'.queues| ensures QueueRoute(s', q) {
      if q < |s.queues| && s'.queues[q].inserted == s.queues[q].inserted { assert QueueRoute(s, q); }
    }
    forall d | 0 <= d < |s'.submitters| ensures SubmitterRoute(s', d) {
      if d != c { assert SubmitterRoute(s, d); }
    }
  }

  lemma SubmitterKeeps(s: State, c: nat, act: SubmitterAct)
    requires Inv(s) && RouteInv(s) && SubmitterEnabled(s, c, act) && !act.Prepare? && !act.Link?
    ensures RouteInv(SubmitterNext(s, c, act))
  {
    hide Inv, Serves, FastMatch, SlowMatch, Mask, CanMeet, SubmitterRoute, QueueRoute, SubmitterNext, SubmitterEnabled;
    SelfKeeps(s, c, act);
    CpusStay(s, c, act);
    Others(s, SubmitterNext(s, c, act), c);
  }

  /** What such a step leaves as it was. */
  lemma CpusStay(s: State, c: nat, act: SubmitterAct)
    requires RouteInv(s) && SubmitterEnabled(s, c, act) && !act.Prepare? && !act.Link?
    ensures var s' := SubmitterNext(s, c, act);
            && c < |s.submitters| == |s'.submitters| && |s'.queues| == |s.queues| && s.nextWork <= s'.nextWork
            && (forall w: nat :: w in s'.asked <==> w < s'.nextWork)
            && (forall w :: w in s.asked ==> s'.asked[w] == s.asked[w])
            && (forall d :: 0 <= d < |s.submitters| && d != c ==> s'.submitters[d] == s.submitters[d])
            && (forall q :: 0 <= q < |s.queues| ==>
                  s'.queues[q].cpu == s.queues[q].cpu && s'.queues[q].inserted == s.queues[q].inserted)
  {
    hide FastMatch, SlowMatch, Mask, CanMeet, SubmitterRoute, QueueRoute;
  }

  lemma SelfKeeps(s: State, c: nat, act: SubmitterAct)
    requires Inv(s) && RouteInv(s) && SubmitterEnabled(s, c, act) && !act.Prepare? && !act.Link?
    ensures c < |SubmitterNext(s, c, act).submitters| && SubmitterRoute(SubmitterNext(s, c, act), c)
  {
    hide QueueIn, PoolOk, WorksOk, QueueOk, Serves, FastMatch, SlowMatch, Mask, CanMeet;
    var x := s.submitters[c];
    assert SubmitterRoute(s, c) && SubmitterIn(s, c);
    if act.Hit? {
      assert QueueRoute(s, act.q);
      Lookups(x.cpu, s.queues[act.q]);
    }
    if act.Check? {
      assert QueueRoute(s, s.list[x.pc.i]);
      Lookups(x.cpu, s.queues[s.list[x.pc.i]]);
      Any(s.asked[x.work], s.queues[s.list[x.pc.i]].cpu);
    }
  }

  lemma PrepareKeeps(s: State, c: nat, act: SubmitterAct)
    requires Inv(s) && RouteInv(s) && SubmitterEnabled(s, c, act) && act.Prepare?
    ensures RouteInv(SubmitterNext(s, c, act))
  {
    hide QueueIn, PoolOk, WorksOk, QueueOk, Serves, FastMatch, SlowMatch, Mask, CanMeet;
    var s' := SubmitterNext(s, c, act);
    assert SubmitterRoute(s, c);
    MaskServes(s'.submitters[c].cpu);
    Any(s.asked[s.submitters[c].work], s'.queues[|s.queues|].cpu);
    assert QueueRoute(s', |s.queues|);
    Others(s, s', c);
  }

  lemma Any(asked: int, cpu: nat)
    ensures asked == -1 ==> Serves(asked, cpu)
  {
  }

  lemma LinkKeeps(s: State, c: nat)
    requires Inv(s) && RouteInv(s) && SubmitterEnabled(s, c, Link)
    ensures RouteInv(SubmitterNext(s, c, Link))
  {
    hide QueueIn, PoolOk, WorksOk, QueueOk, Serves, FastMatch, SlowMatch, Mask, CanMeet;
    var q := s.submitters[c].pc.q;
    assert SubmitterRoute(s, c) && QueueRoute(s, q) && SubmitterIn(s, c);
    assert QueueRoute(SubmitterNext(s, c, Link), q);
    Others(s, SubmitterNext(s, c, Link), c);
  }

  lemma JoinerKeeps(s: State, act: JoinerAct)
    requires Inv(s) && RouteInv(s) && JoinerEnabled(s, act)
    ensures RouteInv(JoinerNext(s, act))
  {
    hide QueueIn, PoolOk, WorksOk, QueueOk, SubmitterIn, Serves, Missing, WaitedFor;
    Others(s, JoinerNext(s, act), |s.submitters|);
  }

  lemma RouteStep(s: State, a: Step)
    requires Inv(s) && RouteInv(s) && Enabled(s, a)
    ensures RouteInv(Next(s, a))
  {
    hide Inv, RouteInv, SubmitterNext, JoinerNext, SubmitterEnabled, JoinerEnabled;
    match a
    case S(c, act) =>
      if act.Prepare? { PrepareKeeps(s, c, act); } else if act.Link? { LinkKeeps(s, c); } else { SubmitterKeeps(s, c, act); }
    case J(act) => JoinerKeeps(s, act);
    case W(q, act) => WorkerKeeps(s, q, act);
  }

  lemma WorkerKeeps(s: State, q: nat, act: WorkerAct)
    requires RouteInv(s) && WorkerEnabled(s, q, act)
    ensures RouteInv(Next(s, W(q, act)))
  {
    hide QueueRoute, SubmitterRoute;
    Others(s, Next(s, W(q, act)), |s.submitters|);
  }

  lemma InitRoute(s: State)
    requires Init(s)
    ensures RouteInv(s)
  {
  }

  lemma {:induction false} RunRoute(ss: seq<State>, steps: seq<Step>, i: nat)
    requires |ss| > 0 && Init(ss[0]) && Run(ss, steps) && i < |ss|
    ensures RouteInv(ss[i])
  {
    hide Init, Inv, RouteInv, Enabled, Next;
    if i == 0 {
      InitRoute(ss[0]);
    } else {
      RunRoute(ss, steps, i - 1);
      RunInv(ss, steps, i - 1);
      RouteStep(ss[i - 1], steps[i - 1]);
    }
  }

  /** What was asked stays on record. */
  lemma {:induction false} AskedStays(ss: seq<State>, steps: seq<Step>, i: nat, j: nat, w: nat)
    requires |ss| > 0 && Init(ss[0]) && Run(ss, steps) && i <= j < |ss| && w in ss[i].asked
    ensures w in ss[j].asked && ss[j].asked[w] == ss[i].asked[w]
    decreases j
  {
    hide Init, Inv, Enabled, Next, RouteInv;
    if i < j {
      AskedStays(ss, steps, i, j - 1, w);
      RunRoute(ss, steps, j - 1);
      AskedStep(ss[j - 1], steps[j - 1], w);
    }
  }

  lemma AskedStep(s: State, a: Step, w: nat)
    requires RouteInv(s) && Enabled(s, a) && w in s.asked
    ensures w in Next(s, a).asked && Next(s, a).asked[w] == s.asked[w]
  {
    hide QueueRoute, SubmitterRoute;
  }

  /** Every work is in a queue of the CPU for which it was submitted, modulo the number of CPUs,
      unless it was submitted for none in particular. */
  lemma RoutedRight(ss: seq<State>, steps: seq<Step>, i: nat, c: nat, cpu: int, stale: bool, j: nat, q: nat)
    requires |ss| > 0 && Init(ss[0]) && Run(ss, steps) && i < j < |ss| && steps[i] == S(c, Submit(cpu, stale))
    requires q < |ss[j].queues| && ss[i].nextWork in ss[j].queues[q].inserted
    ensures cpu == -1 || (cpu - ss[j].queues[q].cpu) % 4 == 0
  {
    SubmitAsks(ss[i], c, cpu, stale);
    assert Enabled(ss[i], steps[i]) && ss[i + 1] == Next(ss[i], steps[i]);
    AskedStays(ss, steps, i + 1, j, ss[i].nextWork);
    RunRoute(ss, steps, j);
    assert QueueRoute(ss[j], q);
  }

  lemma SubmitAsks(s: State, c: nat, cpu: int, stale: bool)
    requires Enabled(s, S(c, Submit(cpu, stale)))
    ensures var s' := Next(s, S(c, Submit(cpu, stale))); s.nextWork in s'.asked && s'.asked[s.nextWork] == cpu
  {
  }

  /** A submitter on its walk can take exactly those of the listed queues that are of its CPU. */
  lemma HitIff(ss: seq<State>, steps: seq<Step>, i: nat, c: nat, q: nat)
    requires |ss| > 0 && Init(ss[0]) && Run(ss, steps) && i < |ss|
    requires c < |ss[i].submitters| && ss[i].submitters[c].pc.Walking? && q < |ss[i].queues| && ss[i].queues[q].place.Listed?
    ensures ss[i].submitters[c].work in ss[i].asked
    ensures var asked := ss[i].asked[ss[i].submitters[c].work];
            Enabled(ss[i], S(c, Hit(q))) <==> asked == -1 || (asked - ss[i].queues[q].cpu) % 4 == 0
  {
    RunRoute(ss, steps, i);
    assert QueueRoute(ss[i], q) && SubmitterRoute(ss[i], c);
    Lookups(ss[i].submitters[c].cpu, ss[i].queues[q]);
  }

  /** Who can put a work into a queue after the joiner's grace period, without the lookup: a section
      that was not waited for and has found the queue, or is on its walk and of its CPU. */
  lemma ThreatIff(ss: seq<State>, steps: seq<Step>, i: nat, c: nat, q: nat)
    requires |ss| > 0 && Init(ss[0]) && Run(ss, steps) && i < |ss| && c < |ss[i].submitters| && q < |ss[i].queues|
    ensures var x := ss[i].submitters[c];
            J.Threatens(ss[i], c, q) <==>
              && x.work in ss[i].queues[q].seers
              && (x.pc == Found(q)
                  || (x.pc.Walking? && x.work in ss[i].asked
                      && (ss[i].asked[x.work] == -1 || (ss[i].asked[x.work] - ss[i].queues[q].cpu) % 4 == 0)))
  {
    RunRoute(ss, steps, i);
    assert QueueRoute(ss[i], q) && SubmitterRoute(ss[i], c);
    Lookups(ss[i].submitters[c].cpu, ss[i].queues[q]);
  }
}
