/** The passes of `mthpc_workqueues_join` (`src/workqueue/workqueue.c`) over a pool, and the freeing of
    the queues that a pass has taken out. */
module WorkReap {
  import opened Seqs
  import opened WorkPool
  import J = WorkJoin

  // ---------------------------------------------------------------- a pass

  /** How far the pass has come in the list. */
  function Position(j: Joiner): nat {
    if j.HoldsPool() then j.i else 0
  }

  /** During the pass from step `a` on, and before state `k`, the joiner has had `q` in its hands and
      left it in the pool because of its works. */
  ghost predicate Kept(ss: seq<State>, steps: seq<Step>, a: nat, k: nat, q: nat)
    requires k <= |steps| < |ss|
  {
    exists m :: a < m < k && Keeps(ss[m], steps[m], q)
  }

  predicate Keeps(s: State, a: Step, q: nat) {
    a == J(Decide) && s.joiner.Examining? && s.joiner.q == q && q < |s.queues| && s.queues[q].count != 0
  }

  lemma PassStep(s: State, a: Step)
    requires Inv(s) && Enabled(s, a) && s.joiner.HoldsPool() && a != J(Stop)
    ensures var s' := Next(s, a);
            && s'.joiner.HoldsPool() && Position(s'.joiner) <= |s'.list|
            && (forall m :: 0 <= m < Position(s.joiner) && m < |s.list| ==> m < |s'.list| && s'.list[m] == s.list[m])
            && (Position(s'.joiner) == Position(s.joiner)
                || (Position(s'.joiner) == Position(s.joiner) + 1 && Keeps(s, a, s'.list[Position(s.joiner)])))
  {
    hide QueueIn, WorksOk, SubmitterIn, Mask, CanMeet, Missing, WaitedFor, QueueOk, SubmitterNext, SubmitterEnabled;
    if a.S? {
      PoolStays(s, a.c, a.act);
    }
  }

  /** During a pass no submitter changes the list. */
  lemma PoolStays(s: State, c: nat, act: SubmitterAct)
    requires Inv(s) && SubmitterEnabled(s, c, act) && s.joiner.HoldsPool()
    ensures SubmitterNext(s, c, act).list == s.list && SubmitterNext(s, c, act).joiner == s.joiner
  {
    hide QueueIn, WorksOk, Mask, CanMeet, QueueOk, FastMatch;
    assert SubmitterIn(s, c);
  }

  lemma {:induction false} PassKeeps(ss: seq<State>, steps: seq<Step>, a: nat, k: nat)
    requires |ss| > 0 && Init(ss[0]) && Run(ss, steps) && a < k < |ss| && steps[a] == J(Start)
    requires forall m :: a < m < k ==> steps[m] != J(Stop)
    ensures ss[k].joiner.HoldsPool() && Position(ss[k].joiner) <= |ss[k].list|
    ensures forall m :: 0 <= m < Position(ss[k].joiner) ==> Kept(ss, steps, a, k, ss[k].list[m])
    decreases k
  {
    hide Init, Inv, Next, Keeps;
    assert Enabled(ss[a], steps[a]);
    if a + 1 == k {
      Starts(ss[a]);
    } else {
      hide Enabled;
      PassKeeps(ss, steps, a, k - 1);
      RunInv(ss, steps, k - 1);
      PassStep(ss[k - 1], steps[k - 1]);
    }
  }

  lemma Starts(s: State)
    requires Enabled(s, J(Start))
    ensures Next(s, J(Start)).joiner == Scanning(0)
  {
  }

  /** When a pass ends it has examined every queue that is still in the pool, and left it there because
      it had works. */
  lemma PassSeesAll(ss: seq<State>, steps: seq<Step>, a: nat, b: nat)
    requires |ss| > 0 && Init(ss[0]) && Run(ss, steps) && a < b < |steps| && steps[a] == J(Start) && steps[b] == J(Stop)
    requires forall m :: a < m < b ==> steps[m] != J(Stop)
    ensures forall q :: q in ss[b].list ==> exists m :: a < m < b && Keeps(ss[m], steps[m], q)
  {
    hide Init, Inv, Next, Keeps;
    PassKeeps(ss, steps, a, b);
    assert Enabled(ss[b], steps[b]);
    forall q | q in ss[b].list ensures Kept(ss, steps, a, b, q) {
      var m :| 0 <= m < |ss[b].list| && ss[b].list[m] == q;
    }
  }

  /** Steps that the joiner takes at most until the end of its pass. */
  function PassLeft(s: State): int {
    match s.joiner
    case Scanning(i) => 6 * (|s.list| - i) + 1
    case Examining(i, _) => 6 * (|s.list| - i)
    case Waiting(i, _) => 6 * (|s.list| - i) + 4
    case Clearing(i, _) => 6 * (|s.list| - i) + 3
    case Releasing(i, _) => 6 * (|s.list| - i) + 2
    case _ => 0
  }

  /** Every step of the joiner shortens its pass, and nobody else makes it longer. */
  lemma PassShortens(s: State, a: Step)
    requires Inv(s) && Enabled(s, a) && s.joiner.HoldsPool()
    ensures PassLeft(s) >= 0 && (if a.J? then PassLeft(Next(s, a)) < PassLeft(s) else PassLeft(Next(s, a)) == PassLeft(s))
  {
    hide QueueIn, WorksOk, SubmitterIn, Mask, CanMeet, Missing, WaitedFor, QueueOk, SubmitterNext, SubmitterEnabled;
    if a.S? {
      PoolStays(s, a.c, a.act);
    }
  }

  // ---------------------------------------------------------------- the joiner alone

  /** Nobody is in a section, and nobody but the joiner holds the lock of a queue. */
  predicate Calm(s: State) {
    && (forall c :: 0 <= c < |s.submitters| ==> !s.submitters[c].pc.InSection())
    && (forall q :: 0 <= q < |s.queues| ==> s.queues[q].lock.QFree? || s.queues[q].lock.QJoiner?)
  }

  function PassAct(s: State): JoinerAct {
    match s.joiner
    case Scanning(i) => if i == |s.list| then Stop else Lock
    case Examining(_, _) => Decide
    case Waiting(_, _) => Synchronized
    case Clearing(_, _) => Clear
    case _ => JoinerAct.Unlock
  }

  /** How far a pass that began in `s0` has got: the queues up to its position had works and stay in the
      pool, and exactly queues without works have been taken out. */
  ghost predicate Sorted(s0: State, s: State) {
    && |s.queues| == |s0.queues|
    && (forall q :: 0 <= q < |s.queues| ==> s.queues[q].items == s0.queues[q].items)
    && (forall m :: 0 <= m < |s.list| ==>
          s.list[m] in s0.list && s.list[m] < |s.queues| && (m < Position(s.joiner) ==> s0.queues[s.list[m]].items != []))
    && (forall q :: q in s0.list ==> q in s.list || q in s.gone)
    && (forall q :: q in s.gone ==> q in s0.list && q < |s.queues| && s0.queues[q].items == [])
  }

  lemma CanPass(s: State)
    requires Inv(s) && Calm(s) && s.joiner.HoldsPool()
    ensures JoinerEnabled(s, PassAct(s))
  {
    hide WorksOk, QueueOk, CanMeet;
    if s.joiner.Scanning? && s.joiner.i < |s.list| {
      assert QueueIn(s, s.list[s.joiner.i]);
    }
    WaitsForSections(s);
  }

  lemma WaitsForSections(s: State)
    requires Inv(s)
    ensures forall c :: c in s.sections ==> c < |s.submitters| && s.submitters[c].pc.InSection()
  {
    hide WorksOk, QueueIn;
    forall c | c in s.sections ensures c < |s.submitters| && s.submitters[c].pc.InSection() {
      assert SubmitterIn(s, c);
    }
  }

  lemma StaysCalm(s: State, act: JoinerAct)
    requires Calm(s) && JoinerEnabled(s, act)
    ensures Calm(JoinerNext(s, act))
  {
    hide Missing, WaitedFor;
  }

  lemma ExaminedCount(s: State)
    requires Inv(s) && s.joiner.Examining?
    ensures var q, i := s.joiner.q, s.joiner.i;
            q < |s.queues| && i < |s.list| && s.list[i] == q && s.queues[q].count == |s.queues[q].items|
  {
    assert QueueIn(s, s.joiner.q);
  }

  lemma SortsKept(s0: State, s: State)
    requires s.joiner.Examining? && JoinerEnabled(s, Decide) && Sorted(s0, s)
    requires var q := s.joiner.q; s.list[s.joiner.i] == q && s.queues[q].count == |s.queues[q].items| != 0
    ensures var s' := JoinerNext(s, Decide); Sorted(s0, s') && s'.joiner.HoldsPool()
  {
    hide Missing, WaitedFor, MissedOnce, Drop;
  }

  lemma SortsTaken(s0: State, s: State)
    requires s.joiner.Examining? && JoinerEnabled(s, Decide) && Sorted(s0, s)
    requires var q := s.joiner.q; s.list[s.joiner.i] == q && s.queues[q].count == |s.queues[q].items| == 0
    ensures var s' := JoinerNext(s, Decide); Sorted(s0, s') && s'.joiner.HoldsPool()
  {
    DropKeeps(s.list, s.joiner.i);
    hide Missing, WaitedFor, MissedOnce, Drop;
  }

  lemma SortsOn(s0: State, s: State)
    requires Inv(s) && s.joiner.HoldsPool() && JoinerEnabled(s, PassAct(s)) && Sorted(s0, s)
    ensures var s' := JoinerNext(s, PassAct(s)); Sorted(s0, s') && (s'.joiner.HoldsPool() || s'.joiner.Reaping?)
    ensures JoinerNext(s, PassAct(s)).joiner.Reaping? ==> s.joiner == Scanning(|s.list|) && s.list == JoinerNext(s, PassAct(s)).list
  {
    hide Inv, Sorted, JoinerNext, JoinerEnabled;
    if s.joiner.Examining? {
      ExaminedCount(s);
      if s.queues[s.joiner.q].count == 0 { SortsTaken(s0, s); } else { SortsKept(s0, s); }
    } else {
      SortsOther(s0, s, PassAct(s));
    }
  }

  lemma SortsOther(s0: State, s: State, act: JoinerAct)
    requires Sorted(s0, s) && JoinerEnabled(s, act) && s.joiner.HoldsPool() && act == PassAct(s) && !act.Decide?
    ensures var s' := JoinerNext(s, act); Sorted(s0, s') && (s'.joiner.HoldsPool() || s'.joiner.Reaping?)
    ensures JoinerNext(s, act).joiner.Reaping? ==> s.joiner == Scanning(|s.list|) && s.list == JoinerNext(s, act).list
  {
  }

  lemma DropKeeps(list: seq<nat>, i: nat)
    requires i < |list|
    ensures var r := Drop(list, i);
            && |r| == |list| - 1 && (forall m :: 0 <= m < |r| ==> r[m] == list[if m < i then m else m + 1])
            && (forall q :: q in list ==> q in r || q == list[i])
  {
    var r := Drop(list, i);
    forall q | q in list ensures q in r || q == list[i] {
      var k :| 0 <= k < |list| && list[k] == q;
      if k != i { assert r[if k < i then k else k - 1] == q; }
    }
  }

  predicate OfJoiner(steps: seq<Step>) {
    forall i :: 0 <= i < |steps| ==> steps[i].J?
  }

  lemma {:induction false} PassesOn(s0: State, s: State) returns (ss: seq<State>, steps: seq<Step>)
    requires Inv(s) && Calm(s) && s.joiner.HoldsPool() && Sorted(s0, s)
    ensures |ss| > 0 && Run(ss, steps) && ss[0] == s && OfJoiner(steps)
    ensures var s' := ss[|ss| - 1];
            && s'.joiner.Reaping? && Sorted(s0, s')
            && forall q :: q in s'.list ==> q < |s0.queues| && s0.queues[q].items != []
    decreases if PassLeft(s) >= 0 then PassLeft(s) else 0
  {
    hide Inv, Calm, JoinerEnabled, JoinerNext, Sorted, PassLeft, Position;
    var act := PassAct(s);
    CanPass(s);
    NextInv(s, J(act));
    StaysCalm(s, act);
    SortsOn(s0, s);
    PassShortens(s, J(act));
    var s1 := Next(s, J(act));
    assert Run([s, s1], [J(act)]);
    if s1.joiner.Reaping? {
      AllSorted(s0, s);
      ss, steps := [s, s1], [J(act)];
    } else {
      NotNegative(s1);
      var ts, more := PassesOn(s0, s1);
      JoinRuns([s, s1], [J(act)], ts, more);
      ss, steps := [s, s1] + ts[1..], [J(act)] + more;
    }
  }

  lemma NotNegative(s: State)
    requires Inv(s) && s.joiner.HoldsPool()
    ensures PassLeft(s) >= 0
  {
    hide QueueIn, WorksOk, SubmitterIn;
  }

  lemma AllSorted(s0: State, s: State)
    requires Sorted(s0, s) && s.joiner == Scanning(|s.list|)
    ensures forall q :: q in s.list ==> q < |s0.queues| && s0.queues[q].items != []
  {
  }

  /** With nobody in a section and no lock held, a pass of the joiner runs to its end, and it takes out
      exactly the queues without works. */
  lemma PassAlone(s: State) returns (ss: seq<State>, steps: seq<Step>)
    requires Inv(s) && Calm(s) && s.joiner.Resting? && s.lock.PFree?
    ensures |ss| > 0 && Run(ss, steps) && ss[0] == s && OfJoiner(steps) && ss[|ss| - 1].joiner.Reaping?
    ensures var s' := ss[|ss| - 1];
            && (forall q :: q in s'.list ==> q < |s.queues| && q in s.list && s.queues[q].items != [])
            && (forall q :: q in s'.gone ==> q < |s.queues| && q in s.list && s.queues[q].items == [])
            && (forall q :: q in s.list ==> q in s'.list || q in s'.gone)
  {
    var s1 := Next(s, J(Start));
    NoneGone(s);
    NextInv(s, J(Start));
    StaysCalm(s, Start);
    InPool(s);
    assert Run([s, s1], [J(Start)]) && Sorted(s, s1);
    hide Inv, Calm, JoinerEnabled, JoinerNext;
    var ts, more := PassesOn(s, s1);
    JoinRuns([s, s1], [J(Start)], ts, more);
    ss, steps := [s, s1] + ts[1..], [J(Start)] + more;
  }

  lemma InPool(s: State)
    requires Inv(s)
    ensures forall m :: 0 <= m < |s.list| ==> s.list[m] < |s.queues|
  {
  }

  // ---------------------------------------------------------------- freed queues

  /** The worker of a freed queue has exited: it takes no further step. */
  lemma FreedIsStill(ss: seq<State>, steps: seq<Step>, i: nat, q: nat, act: WorkerAct)
    requires |ss| > 0 && Init(ss[0]) && Run(ss, steps) && i < |ss| && q < |ss[i].queues| && ss[i].queues[q].place.Reaped?
    ensures !Enabled(ss[i], W(q, act))
  {
    RunInv(ss, steps, i);
    assert QueueIn(ss[i], q);
  }

  /** Steps that a worker has to take at most until it exits, once its queue is inactive. */
  function ExitRank(x: Queue): nat {
    match x.worker
    case Wanting => 6
    case Looking => 5
    case Taken(_) => 4
    case Counted(_) => 3
    case Nothing => 3
    case Running(_) => 2
    case Sleeping => 2
    case Top => 1
    case _ => 0
  }

  function ExitRanks(xs: seq<Queue>): nat {
    if xs == [] then 0 else ExitRank(xs[0]) + ExitRanks(xs[1..])
  }

  lemma {:induction false} ExitRanksAfter(xs: seq<Queue>, q: nat, x: Queue)
    requires q < |xs|
    ensures ExitRanks(xs[q := x]) == ExitRanks(xs) - ExitRank(xs[q]) + ExitRank(x)
  {
    if q == 0 {
      assert xs[q := x][1..] == xs[1..];
    } else {
      assert xs[q := x][1..] == xs[1..][q - 1 := x];
      ExitRanksAfter(xs[1..], q - 1, x);
    }
  }

  function JoinerRank(s: State): nat {
    match s.joiner
    case Reaping => 2 * |s.gone| + 1
    case Freed(_) => 2 * |s.gone|
    case _ => 0
  }

  function ReapRank(s: State): nat {
    J.SectionRanks(s.submitters) + ExitRanks(s.queues) + JoinerRank(s)
  }

  predicate Reaps(j: Joiner) { j.Reaping? || j.Freed? || j.Resting? }

  /** A step that brings the end of the freeing closer. */
  ghost predicate Frees(s: State, a: Step) {
    Enabled(s, a) && Reaps(Next(s, a).joiner) && ReapRank(Next(s, a)) < ReapRank(s)
  }

  lemma JoinerFrees(s: State, act: JoinerAct)
    requires Inv(s) && JoinerEnabled(s, act) && (act.Join? || act.CountPoolDown? || act.Rest?)
    ensures Frees(s, J(act))
  {
    hide WorksOk, SubmitterIn, QueueIn, J.SectionRanks;
    if act.Join? {
      ExitRanksAfter(s.queues, act.q, s.queues[act.q].(place := Reaped));
    }
    if act.CountPoolDown? {
      WithoutLength(s.gone, s.joiner.q);
    }
  }

  lemma WorkerFrees(s: State, q: nat, act: WorkerAct)
    requires Inv(s) && WorkerEnabled(s, q, act) && Reaps(s.joiner) && !s.queues[q].active
    ensures Frees(s, W(q, act))
  {
    hide Inv, J.SectionRanks;
    ExitRanksAfter(s.queues, q, WorkerNext(s.queues[q], act));
  }

  lemma SectionFrees(s: State, d: nat)
    requires Inv(s) && Reaps(s.joiner) && d < |s.submitters| && s.submitters[d].pc.HoldsQueue() && s.submitters[d].pc.InSection()
    ensures Frees(s, S(d, J.SectionAct(s.submitters[d].pc)))
  {
    hide Inv, Mask, CanMeet, J.SectionRanks, ExitRanks;
    J.SectionEnabled(s, d);
    var act := J.SectionAct(s.submitters[d].pc);
    var s' := SubmitterNext(s, d, act);
    J.SectionRanksAfter(s.submitters, d, s'.submitters[d]);
    ExitRanksAfter(s.queues, s.submitters[d].pc.q, s'.queues[s.submitters[d].pc.q]);
  }

  /** What is known of a queue that is to be freed. */
  lemma GoneIs(s: State, q: nat)
    requires Inv(s) && s.joiner.Reaping? && q in s.gone
    ensures q < |s.queues| && !s.queues[q].active && !s.queues[q].worker.NoWorker?
    ensures !s.queues[q].lock.QJoiner? && (s.queues[q].lock == QWorker <==> s.queues[q].worker.Holding())
    ensures s.queues[q].lock.QSubmitter? ==>
              var d := s.queues[q].lock.c;
              d < |s.submitters| && s.submitters[d].pc.HoldsQueue() && s.submitters[d].pc.InSection()
  {
    assert QueueIn(s, q);
    if s.queues[q].lock.QSubmitter? {
      assert SubmitterIn(s, s.queues[q].lock.c);
    }
  }

  lemma SomeoneFrees(s: State) returns (a: Step)
    requires Inv(s) && (s.joiner.Reaping? || s.joiner.Freed?)
    ensures Frees(s, a)
  {
    hide Inv, Frees, ReapRank;
    if s.joiner.Freed? {
      a := J(CountPoolDown);
      JoinerFrees(s, CountPoolDown);
    } else if s.gone == [] {
      a := J(Rest);
      JoinerFrees(s, Rest);
    } else {
      var q := s.gone[0];
      GoneIs(s, q);
      if s.queues[q].worker.Exited? {
        a := J(Join(q));
        JoinerFrees(s, Join(q));
      } else if s.queues[q].worker.Wanting? && s.queues[q].lock.QSubmitter? {
        var d := s.queues[q].lock.c;
        a := S(d, J.SectionAct(s.submitters[d].pc));
        SectionFrees(s, d);
      } else {
        var act := NextAct(s.queues[q].worker);
        a := W(q, act);
        WorkerFrees(s, q, act);
      }
    }
  }

  /** The next step of a worker. */
  function NextAct(w: Worker): WorkerAct {
    match w
    case Wanting => Take
    case Looking => Look
    case Taken(_) => CountDown
    case Counted(_) => Release
    case Nothing => Release
    case Sleeping => Wake
    case Running(_) => Finish
    case _ => Go
  }

  lemma NoneGone(s: State)
    requires Inv(s) && s.joiner.Resting?
    ensures s.gone == []
  {
  }

  /** Whatever has happened, the queues that a pass has taken out can all be freed: some run from here
      ends with the joiner at rest. */
  lemma {:induction false} CanFreeAll(s: State) returns (ss: seq<State>, steps: seq<Step>)
    requires Inv(s) && Reaps(s.joiner)
    ensures |ss| > 0 && Run(ss, steps) && ss[0] == s && ss[|ss| - 1].joiner.Resting? && ss[|ss| - 1].gone == []
    decreases ReapRank(s)
  {
    hide Inv, Enabled, Next, ReapRank;
    if s.joiner.Resting? {
      ss, steps := [s], [];
      NoneGone(s);
    } else {
      var a := SomeoneFrees(s);
      NextInv(s, a);
      var ts, more := CanFreeAll(Next(s, a));
      assert Run([s, Next(s, a)], [a]);
      JoinRuns([s, Next(s, a)], [a], ts, more);
      ss, steps := [s, Next(s, a)] + ts[1..], [a] + more;
    }
  }
}
