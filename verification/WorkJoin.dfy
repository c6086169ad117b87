/** Taking queues out of a pool (`mthpc_workqueues_join` in `src/workqueue/workqueue.c`) with one
    grace period, called while the queue is locked: when a queue that has been taken out can still
    get work, and when the grace period cannot end. */
module WorkJoin {
  import opened Seqs
  import opened WorkPool

  predicate TakenOut(s: State, q: nat) {
    q < |s.queues| && Out(s.queues[q])
  }

  // ---------------------------------------------------------------- works put in late

  /** What comes into a queue after it has been taken out is the work of a section that the
      joiner's grace period did not wait for. */
  predicate Late(x: Queue, x': Queue) {
    && Out(x') && x'.seers == x.seers
    && (x'.inserted == x.inserted
        || (|x'.inserted| == |x.inserted| + 1 && x'.inserted[..|x.inserted|] == x.inserted && x'.inserted[|x.inserted|] in x.seers))
  }

  /** The queue as far as its works are concerned. */
  predicate SameWorks(x: Queue, x': Queue) {
    Out(x') && x'.seers == x.seers && x'.inserted == x.inserted
  }

  lemma SubmitterWorks(s: State, c: nat, act: SubmitterAct, q: nat)
    requires SubmitterEnabled(s, c, act) && SubmitterIn(s, c) && TakenOut(s, q)
    requires !(act.Link? && s.submitters[c].pc.q == q)
    ensures var s' := SubmitterNext(s, c, act);
            q < |s'.queues| && SameWorks(s.queues[q], s'.queues[q]) && s'.queues[q].items == s.queues[q].items
  {
    hide Mask, CanMeet;
  }

  lemma JoinerWorks(s: State, act: JoinerAct, q: nat)
    requires Inv(s) && JoinerEnabled(s, act) && TakenOut(s, q)
    ensures var s' := JoinerNext(s, act);
            && q < |s'.queues| && SameWorks(s.queues[q], s'.queues[q]) && s'.queues[q].items == s.queues[q].items
            && (s'.queues[q].lock.QSubmitter? ==> s.queues[q].lock.QSubmitter?)
  {
    hide Mask, QueueOk, SubmitterIn, WorksOk, Missing, WaitedFor;
    assert QueueIn(s, q);
    if s.joiner.HoldsQueue() {
      assert QueueIn(s, s.joiner.q);
    }
  }

  lemma LateStep(s: State, a: Step, q: nat)
    requires Inv(s) && Enabled(s, a) && TakenOut(s, q)
    ensures q < |Next(s, a).queues| && Late(s.queues[q], Next(s, a).queues[q])
    ensures !SameWorks(s.queues[q], Next(s, a).queues[q]) ==> s.queues[q].lock.QSubmitter?
  {
    hide QueueOk, Mask, PoolOk, WorksOk, CanMeet, QueueIn, SubmitterIn, SubmitterNext, JoinerNext;
    match a
    case W(p, act) =>
    case S(c, act) =>
      assert SubmitterIn(s, c);
      if act.Link? && s.submitters[c].pc.q == q {
        assert act == Link;
        FoundQueue(s, c);
        LinkAdds(s, c);
        var x, w := s.queues[q], s.submitters[c].work;
        assert w in x.seers && (x.inserted + [w])[..|x.inserted|] == x.inserted;
      } else {
        SubmitterWorks(s, c, act, q);
      }
    case J(act) => JoinerWorks(s, act, q);
  }

  lemma LinkAdds(s: State, c: nat)
    requires SubmitterEnabled(s, c, Link)
    ensures var q, w := s.submitters[c].pc.q, s.submitters[c].work;
            && |SubmitterNext(s, c, Link).queues| == |s.queues|
            && SubmitterNext(s, c, Link).queues[q] == s.queues[q].(items := s.queues[q].items + [w], inserted := s.queues[q].inserted + [w])
  {
  }

  /** Whatever a queue gets after the joiner has taken it out comes from sections that its grace
      period did not wait for. */
  lemma {:induction false} LateWorks(ss: seq<State>, steps: seq<Step>, i: nat, j: nat, q: nat)
    requires |ss| > 0 && Init(ss[0]) && Run(ss, steps) && i <= j < |ss| && TakenOut(ss[i], q)
    ensures TakenOut(ss[j], q) && ss[j].queues[q].seers == ss[i].queues[q].seers
    ensures var a, b := ss[i].queues[q].inserted, ss[j].queues[q].inserted;
            |a| <= |b| && b[..|a|] == a && forall k :: |a| <= k < |b| ==> b[k] in ss[i].queues[q].seers
    decreases j
  {
    hide Inv, Enabled, Next, Init;
    if i < j {
      LateWorks(ss, steps, i, j - 1, q);
      RunInv(ss, steps, j - 1);
      LateStep(ss[j - 1], steps[j - 1], q);
    }
  }

  // ---------------------------------------------------------------- runs without late works

  /** A section that the grace period did not wait for has found `q`, which was unlinked meanwhile. */
  ghost predicate Meets(s: State, q: nat) {
    q < |s.queues| && exists c :: 0 <= c < |s.submitters| && s.submitters[c].pc == Found(q) && s.submitters[c].work in s.queues[q].seers
  }

  /** Once out, `q` holds no work and nobody is about to put one in. */
  predicate Empty(s: State, q: nat) {
    TakenOut(s, q) ==> s.queues[q].items == [] && !s.queues[q].lock.QSubmitter?
  }

  lemma EmptyBySubmitter(s: State, c: nat, act: SubmitterAct, q: nat)
    requires Inv(s) && SubmitterEnabled(s, c, act) && Empty(s, q) && !Meets(s, q)
    ensures Empty(SubmitterNext(s, c, act), q)
  {
    hide QueueOk, Mask, PoolOk, WorksOk, FastMatch, SubmitterNext;
    if q < |s.queues| && Out(s.queues[q]) {
      assert SubmitterIn(s, c) && QueueIn(s, q);
      if (s.submitters[c].pc.HoldsQueue() || act.TakeQueue?) && s.submitters[c].pc.q == q {
        FoundQueue(s, c);
      } else {
        LeavesEmpty(s, c, act, q);
      }
    } else {
      NotTakenOut(s, c, act, q);
    }
  }

  lemma LeavesEmpty(s: State, c: nat, act: SubmitterAct, q: nat)
    requires SubmitterEnabled(s, c, act) && SubmitterIn(s, c) && TakenOut(s, q)
    requires !((s.submitters[c].pc.HoldsQueue() || act.TakeQueue?) && s.submitters[c].pc.q == q)
    ensures var s' := SubmitterNext(s, c, act);
            q < |s'.queues| && s'.queues[q].items == s.queues[q].items && s'.queues[q].lock == s.queues[q].lock
  {
    hide Mask, CanMeet, FastMatch;
  }

  lemma NotTakenOut(s: State, c: nat, act: SubmitterAct, q: nat)
    requires SubmitterEnabled(s, c, act) && SubmitterIn(s, c) && !TakenOut(s, q)
    ensures !TakenOut(SubmitterNext(s, c, act), q)
  {
    hide Mask, CanMeet, FastMatch;
  }

  lemma EmptyByJoiner(s: State, act: JoinerAct, q: nat)
    requires Inv(s) && JoinerEnabled(s, act) && Empty(s, q)
    ensures Empty(JoinerNext(s, act), q)
  {
    if TakenOut(s, q) {
      JoinerWorks(s, act, q);
    } else if act.Decide? && s.joiner.q == q && s.queues[q].count == 0 {
      UnlinkFacts(s);
    }
    assert q < |s.queues| ==> QueueIn(s, q);
    hide QueueOk, SubmitterIn, WorksOk, Mask, Missing, WaitedFor;
  }

  lemma EmptyStep(s: State, a: Step, q: nat)
    requires Inv(s) && Enabled(s, a) && Empty(s, q) && !Meets(s, q)
    ensures Empty(Next(s, a), q)
  {
    hide QueueOk, Mask, PoolOk, WorksOk, QueueIn, SubmitterIn, SubmitterNext, JoinerNext;
    match a
    case W(p, act) => assert p < |s.queues| ==> QueueIn(s, p); hide WorkerNext; WorkerTakes(s, p, act);
    case S(c, act) => EmptyBySubmitter(s, c, act, q);
    case J(act) => EmptyByJoiner(s, act, q);
  }

  lemma WorkerTakes(s: State, q: nat, act: WorkerAct)
    requires WorkerEnabled(s, q, act)
    ensures var x, x' := s.queues[q], WorkerNext(s.queues[q], act);
            && x'.place == x.place && x'.seers == x.seers && x'.cpu == x.cpu && (x.items == [] ==> x'.items == []) && (x'.lock.QSubmitter? ==> x.lock.QSubmitter?)
  {
  }

  lemma {:induction false} RunEmpty(ss: seq<State>, steps: seq<Step>, j: nat, q: nat)
    requires |ss| > 0 && Init(ss[0]) && Run(ss, steps) && j < |ss|
    requires forall k :: 0 <= k < j ==> !Meets(ss[k], q)
    ensures Empty(ss[j], q)
  {
    hide Inv, Enabled, Next, Meets;
    if j > 0 {
      RunEmpty(ss, steps, j - 1, q);
      RunInv(ss, steps, j - 1);
      EmptyStep(ss[j - 1], steps[j - 1], q);
    }
  }

  /** A queue that the joiner has taken out is empty and never receives work again, and it is freed
      without one, unless a section that its grace period did not wait for has found it. */
  lemma {:induction false} TakenOutStaysEmpty(ss: seq<State>, steps: seq<Step>, i: nat, j: nat, q: nat)
    requires |ss| > 0 && Init(ss[0]) && Run(ss, steps) && i <= j < |ss| && TakenOut(ss[i], q)
    requires forall k :: 0 <= k < j ==> !Meets(ss[k], q)
    ensures TakenOut(ss[j], q) && ss[j].queues[q].items == []
    ensures ss[j].queues[q].inserted == ss[i].queues[q].inserted
    ensures ss[j].queues[q].worker.Exited? ==> ss[j].queues[q].count == 0
    decreases j
  {
    hide Inv, Enabled, Next, Init, Meets;
    RunEmpty(ss, steps, j, q);
    RunInv(ss, steps, j);
    if i < j {
      TakenOutStaysEmpty(ss, steps, i, j - 1, q);
      RunEmpty(ss, steps, j - 1, q);
      RunInv(ss, steps, j - 1);
      LateStep(ss[j - 1], steps[j - 1], q);
    }
    if ss[j].queues[q].worker.Exited? {
      ExitedCount(ss[j], q);
    }
  }

  lemma ExitedCount(s: State, q: nat)
    requires Inv(s) && q < |s.queues| && s.queues[q].worker.Exited? && !s.queues[q].lock.QSubmitter?
    ensures s.queues[q].count == |s.queues[q].items|
  {
    assert QueueIn(s, q);
  }

  // ---------------------------------------------------------------- when the grace period has ended

  /** A section that the grace period did not wait for has found `q`, or can still find it. */
  ghost predicate Threat(s: State, q: nat) {
    exists c :: 0 <= c < |s.submitters| && Threatens(s, c, q)
  }

  predicate Threatens(s: State, c: nat, q: nat)
    requires c < |s.submitters|
  {
    var x := s.submitters[c];
    && q < |s.queues| && x.work in s.queues[q].seers
    && (x.pc == Found(q) || (x.pc.Walking? && FastMatch(x.cpu, s.queues[q])))
  }

  /** Nothing can come into `q` any more. */
  ghost predicate Safe(s: State, q: nat) {
    TakenOut(s, q) && !s.queues[q].lock.QSubmitter? && !(s.joiner.Waiting? && s.joiner.q == q) && !Threat(s, q)
  }

  lemma SafeBySubmitter(s: State, c: nat, act: SubmitterAct, q: nat)
    requires Inv(s) && SubmitterEnabled(s, c, act) && Safe(s, q)
    ensures Safe(SubmitterNext(s, c, act), q)
  {
    hide QueueOk, Mask, PoolOk, WorksOk, FastMatch, SubmitterNext, QueueIn, SubmitterIn;
    assert !Threatens(s, c, q);
    if (s.submitters[c].pc.HoldsQueue() || act.TakeQueue?) && s.submitters[c].pc.q == q {
      FoundQueue(s, c);
    }
    assert SubmitterIn(s, c);
    SubmitterWorks(s, c, act, q);
    SafeLock(s, c, act, q);
    forall d | 0 <= d < |SubmitterNext(s, c, act).submitters| ensures !Threatens(SubmitterNext(s, c, act), d, q) {
      NoThreat(s, c, act, q, d);
    }
  }

  lemma SafeLock(s: State, c: nat, act: SubmitterAct, q: nat)
    requires Inv(s) && SubmitterEnabled(s, c, act) && Safe(s, q)
    requires !((s.submitters[c].pc.HoldsQueue() || act.TakeQueue?) && s.submitters[c].pc.q == q)
    ensures var s' := SubmitterNext(s, c, act);
            && q < |s'.queues| && !s'.queues[q].lock.QSubmitter? && s'.queues[q].cpu == s.queues[q].cpu
            && s'.joiner == s.joiner && |s'.submitters| == |s.submitters|
  {
    hide Inv, Threat, Mask, CanMeet, FastMatch;
  }

  lemma NoThreat(s: State, c: nat, act: SubmitterAct, q: nat, d: nat)
    requires Inv(s) && SubmitterEnabled(s, c, act) && Safe(s, q) && d < |s.submitters|
    requires !((s.submitters[c].pc.HoldsQueue() || act.TakeQueue?) && s.submitters[c].pc.q == q)
    ensures d < |SubmitterNext(s, c, act).submitters| && !Threatens(SubmitterNext(s, c, act), d, q)
  {
    hide QueueOk, Mask, PoolOk, WorksOk, SubmitterIn;
    assert !Threatens(s, d, q) && QueueIn(s, q) && SubmitterIn(s, c);
    SafeLock(s, c, act, q);
    SubmitterWorks(s, c, act, q);
    if d == c && act.Submit? {
      assert s.nextWork !in s.queues[q].seers;
    }
  }

  lemma SafeByJoiner(s: State, act: JoinerAct, q: nat)
    requires Inv(s) && JoinerEnabled(s, act) && Safe(s, q)
    ensures Safe(JoinerNext(s, act), q)
  {
    hide QueueOk, Mask, WorksOk, SubmitterIn, Missing, WaitedFor;
    JoinerWorks(s, act, q);
    assert QueueIn(s, q);
    var s' := JoinerNext(s, act);
    forall d | 0 <= d < |s'.submitters| ensures !Threatens(s', d, q) {
      assert !Threatens(s, d, q);
      SameCpu(s, act, q);
    }
  }

  lemma SameCpu(s: State, act: JoinerAct, q: nat)
    requires JoinerEnabled(s, act) && q < |s.queues|
    ensures q < |JoinerNext(s, act).queues| && JoinerNext(s, act).queues[q].cpu == s.queues[q].cpu
  {
  }

  lemma SafeByWorker(s: State, p: nat, act: WorkerAct, q: nat)
    requires Inv(s) && WorkerEnabled(s, p, act) && Safe(s, q)
    ensures Safe(Next(s, W(p, act)), q)
  {
    hide QueueOk, Mask, WorksOk, PoolOk, QueueIn, SubmitterIn, WorkerNext;
    WorkerTakes(s, p, act);
    var s' := Next(s, W(p, act));
    forall d | 0 <= d < |s'.submitters| ensures !Threatens(s', d, q) {
      assert !Threatens(s, d, q);
    }
  }

  lemma {:induction false} SafeRun(ss: seq<State>, steps: seq<Step>, j: nat, q: nat)
    requires Run(ss, steps) && Inv(ss[0]) && Safe(ss[0], q) && j < |ss|
    ensures Safe(ss[j], q) && q < |ss[0].queues| && ss[j].queues[q].inserted == ss[0].queues[q].inserted
  {
    hide Inv, Enabled, Next, Threat;
    if j > 0 {
      SafeRun(ss, steps, j - 1, q);
      InvFrom(ss, steps, j - 1);
      LateStep(ss[j - 1], steps[j - 1], q);
      SafeStep(ss[j - 1], steps[j - 1], q);
    }
  }

  lemma SafeStep(s: State, a: Step, q: nat)
    requires Inv(s) && Enabled(s, a) && Safe(s, q)
    ensures Safe(Next(s, a), q)
  {
    hide Safe, Inv, SubmitterNext, JoinerNext, WorkerNext;
    match a
    case W(p, act) => SafeByWorker(s, p, act, q);
    case S(c, act) => SafeBySubmitter(s, c, act, q);
    case J(act) => SafeByJoiner(s, act, q);
  }

  /** Some run from `s` puts a work into `q` after it has been marked inactive. */
  ghost predicate CanAdd(s: State, q: nat) {
    exists ss: seq<State>, steps: seq<Step> :: Adds(ss, steps, s, q)
  }

  ghost predicate Adds(ss: seq<State>, steps: seq<Step>, s: State, q: nat) {
    && Run(ss, steps) && ss[0] == s && q < |s.queues| && q < |ss[|ss| - 1].queues|
    && Out(ss[|ss| - 1].queues[q]) && !ss[|ss| - 1].queues[q].active
    && |ss[|ss| - 1].queues[q].inserted| > |s.queues[q].inserted|
  }

  /** From the return of the grace period to the moment when the lock is free again and a section
      that was not waited for, if there is one, has found the queue. */
  lemma Unlocked(s: State, c: nat, q: nat) returns (ss: seq<State>, steps: seq<Step>)
    requires Inv(s) && s.joiner.Clearing? && s.joiner.q == q && c < |s.submitters| && Threatens(s, c, q)
    ensures Run(ss, steps) && ss[0] == s
    ensures var t := ss[|ss| - 1];
            && c < |t.submitters| && t.submitters[c].pc == Found(q) && q < |t.queues| && t.queues[q].lock == QFree
            && t.queues[q].inserted == s.queues[q].inserted && Out(t.queues[q]) && !t.queues[q].active
  {
    assert Out(s.queues[q]);
    hide Inv, Mask;
    var s1 := Next(s, J(Clear));
    var s2 := Next(s1, J(Unlock));
    if s.submitters[c].pc.Walking? {
      assert Enabled(s2, S(c, Hit(q)));
      ss, steps := [s, s1, s2, Next(s2, S(c, Hit(q)))], [J(Clear), J(Unlock), S(c, Hit(q))];
    } else {
      ss, steps := [s, s1, s2], [J(Clear), J(Unlock)];
    }
  }

  lemma PutIn(s: State, c: nat, q: nat) returns (ss: seq<State>, steps: seq<Step>)
    requires c < |s.submitters| && s.submitters[c].pc == Found(q) && q < |s.queues| && s.queues[q].lock == QFree
    requires Out(s.queues[q]) && !s.queues[q].active
    ensures Adds(ss, steps, s, q)
  {
    hide Mask, FastMatch;
    var s1 := Next(s, S(c, TakeQueue));
    var s2 := Next(s1, S(c, Link));
    ss, steps := [s, s1, s2], [S(c, TakeQueue), S(c, Link)];
    assert |s2.queues[q].inserted| == |s.queues[q].inserted| + 1;
  }

  lemma LateRun(s: State, c: nat, q: nat) returns (ss: seq<State>, steps: seq<Step>)
    requires Inv(s) && s.joiner.Clearing? && s.joiner.q == q && c < |s.submitters| && Threatens(s, c, q)
    ensures Adds(ss, steps, s, q)
  {
    hide Inv, Enabled, Next;
    var a, x := Unlocked(s, c, q);
    var b, y := PutIn(a[|a| - 1], c, q);
    JoinRuns(a, x, b, y);
    ss, steps := a + b[1..], x + y;
  }

  /** When the joiner's grace period for `q` has ended, works can still be put into `q`, which is
      about to be freed, exactly if a section that was in progress at the unlink and that the
      grace period has not waited for has found `q` or can still find it. */
  lemma AddsAfterReturnIff(s: State, q: nat)
    requires Inv(s) && s.joiner.Clearing? && s.joiner.q == q
    ensures CanAdd(s, q) <==> Threat(s, q)
  {
    hide Enabled, Next, Inv, Safe;
    if Threat(s, q) {
      var c :| 0 <= c < |s.submitters| && Threatens(s, c, q);
      var ss, steps := LateRun(s, c, q);
    } else {
      ClearingSafe(s, q);
      forall ss: seq<State>, steps: seq<Step> ensures !Adds(ss, steps, s, q) {
        if Adds(ss, steps, s, q) {
          SafeRun(ss, steps, |ss| - 1, q);
        }
      }
    }
  }

  lemma ClearingSafe(s: State, q: nat)
    requires Inv(s) && s.joiner.Clearing? && s.joiner.q == q && !Threat(s, q)
    ensures Safe(s, q)
  {
    hide Threat, Mask, WorksOk, SubmitterIn;
    assert QueueIn(s, q);
  }

  // ---------------------------------------------------------------- a grace period that cannot end

  /** A section that the joiner waits for waits in turn for the lock of the queue that the joiner
      holds. */
  predicate Blocked(s: State, c: nat) {
    s.joiner.Waiting? && c in s.sections && c < |s.submitters| && s.submitters[c].pc == Found(s.joiner.q)
  }

  lemma BlockedStep(s: State, a: Step, c: nat)
    requires Inv(s) && Enabled(s, a) && Blocked(s, c)
    ensures Blocked(Next(s, a), c) && Next(s, a).joiner == s.joiner
  {
    hide QueueOk, Mask, WorksOk, SubmitterIn, CanMeet, SubmitterNext;
    assert QueueIn(s, s.joiner.q);
    match a
    case W(q, act) =>
    case S(d, act) => BlockedBySubmitter(s, d, act, c);
    case J(act) =>
  }

  lemma BlockedBySubmitter(s: State, d: nat, act: SubmitterAct, c: nat)
    requires SubmitterEnabled(s, d, act) && Blocked(s, c) && s.joiner.q < |s.queues| && s.queues[s.joiner.q].lock == QJoiner
    ensures Blocked(SubmitterNext(s, d, act), c) && SubmitterNext(s, d, act).joiner == s.joiner
  {
    hide Mask, CanMeet;
  }

  lemma {:induction false} BlockedForever(ss: seq<State>, steps: seq<Step>, c: nat, j: nat)
    requires Run(ss, steps) && Inv(ss[0]) && Blocked(ss[0], c) && j < |ss|
    ensures Blocked(ss[j], c) && ss[j].joiner == ss[0].joiner
  {
    hide Inv, Enabled, Next;
    if j > 0 {
      BlockedForever(ss, steps, c, j - 1);
      InvFrom(ss, steps, j - 1);
      BlockedStep(ss[j - 1], steps[j - 1], c);
    }
  }

  /** Steps that a section has to take at most until it ends. */
  function SectionRank(x: Submitter): nat {
    match x.pc
    case Walking => 1
    case Found(_) => 6
    case Adding(_) => 5
    case Linked(_) => 4
    case Added(_) => 3
    case Leaving => 2
    case _ => 0
  }

  /** Steps that a worker has to take at most until it gives up the lock. */
  function LockRank(x: Queue): nat {
    match x.worker
    case Looking => 3
    case Taken(_) => 2
    case Counted(_) => 1
    case Nothing => 1
    case _ => 0
  }

  function SectionRanks(xs: seq<Submitter>): nat {
    if xs == [] then 0 else SectionRank(xs[0]) + SectionRanks(xs[1..])
  }

  function LockRanks(xs: seq<Queue>): nat {
    if xs == [] then 0 else LockRank(xs[0]) + LockRanks(xs[1..])
  }

  lemma {:induction false} SectionRanksAfter(xs: seq<Submitter>, c: nat, x: Submitter)
    requires c < |xs|
    ensures SectionRanks(xs[c := x]) == SectionRanks(xs) - SectionRank(xs[c]) + SectionRank(x)
  {
    if c == 0 {
      assert xs[c := x][1..] == xs[1..];
    } else {
      assert xs[c := x][1..] == xs[1..][c - 1 := x];
      SectionRanksAfter(xs[1..], c - 1, x);
    }
  }

  lemma {:induction false} LockRanksAfter(xs: seq<Queue>, q: nat, x: Queue)
    requires q < |xs|
    ensures LockRanks(xs[q := x]) == LockRanks(xs) - LockRank(xs[q]) + LockRank(x)
  {
    if q == 0 {
      assert xs[q := x][1..] == xs[1..];
    } else {
      assert xs[q := x][1..] == xs[1..][q - 1 := x];
      LockRanksAfter(xs[1..], q - 1, x);
    }
  }

  ghost predicate NoneBlocked(s: State) {
    forall c :: !Blocked(s, c)
  }

  function Ranks(s: State): nat {
    SectionRanks(s.submitters) + LockRanks(s.queues)
  }

  /** A step that brings the end of the grace period closer. */
  ghost predicate Helps(s: State, a: Step) {
    && Enabled(s, a) && Next(s, a).joiner == s.joiner && NoneBlocked(Next(s, a)) && Ranks(Next(s, a)) < Ranks(s)
  }

  /** The next step of a section that does not wait for a lock, or whose lock is free. */
  function SectionAct(pc: Pc): SubmitterAct {
    match pc
    case Walking => Miss
    case Found(_) => TakeQueue
    case Adding(_) => Link
    case Linked(_) => CountUp
    case Added(_) => DropQueue
    case _ => Leave
  }

  /** Submitter `c` holds a lock, or the one that it needs is free. */
  lemma SectionEnabled(s: State, c: nat)
    requires Inv(s) && c < |s.submitters| && s.submitters[c].pc.InSection()
    requires s.submitters[c].pc.Found? ==> SubmitterEnabled(s, c, TakeQueue)
    ensures SubmitterEnabled(s, c, SectionAct(s.submitters[c].pc))
  {
    hide QueueIn, PoolOk, WorksOk, Mask, CanMeet;
    assert SubmitterIn(s, c);
  }

  lemma SectionHelps(s: State, c: nat)
    requires Inv(s) && s.joiner.Waiting? && NoneBlocked(s) && c < |s.submitters| && s.submitters[c].pc.InSection()
    requires s.submitters[c].pc.Found? ==> SubmitterEnabled(s, c, TakeQueue)
    ensures Helps(s, S(c, SectionAct(s.submitters[c].pc)))
  {
    hide Inv, Mask, CanMeet, Ranks, NoneBlocked, SubmitterNext, SubmitterEnabled;
    SectionEnabled(s, c);
    SectionShorter(s, c);
    SectionFrees(s, c);
  }

  lemma SectionShorter(s: State, c: nat)
    requires c < |s.submitters| && s.submitters[c].pc.InSection() && SubmitterEnabled(s, c, SectionAct(s.submitters[c].pc))
    ensures Ranks(SubmitterNext(s, c, SectionAct(s.submitters[c].pc))) < Ranks(s)
  {
    hide Mask, CanMeet, SectionRanks, LockRanks;
    var s' := SubmitterNext(s, c, SectionAct(s.submitters[c].pc));
    SectionRanksAfter(s.submitters, c, s'.submitters[c]);
    if 3 <= SectionRank(s.submitters[c]) {
      LockRanksAfter(s.queues, s.submitters[c].pc.q, s'.queues[s.submitters[c].pc.q]);
    }
  }

  lemma SectionFrees(s: State, c: nat)
    requires c < |s.submitters| && s.submitters[c].pc.InSection() && SubmitterEnabled(s, c, SectionAct(s.submitters[c].pc))
    requires NoneBlocked(s)
    ensures var s' := SubmitterNext(s, c, SectionAct(s.submitters[c].pc)); NoneBlocked(s') && s'.joiner == s.joiner
  {
    hide Mask, CanMeet;
    var s' := SubmitterNext(s, c, SectionAct(s.submitters[c].pc));
    forall d ensures !Blocked(s', d) {
      assert !Blocked(s, d);
    }
  }

  lemma WorkerHelps(s: State, q: nat)
    requires Inv(s) && s.joiner.Waiting? && NoneBlocked(s) && q < |s.queues| && s.queues[q].lock == QWorker
    ensures exists act :: Helps(s, W(q, act))
  {
    hide PoolOk, WorksOk, SubmitterIn, Mask, CanMeet;
    assert QueueIn(s, q);
    var act := match s.queues[q].worker case Looking => Look case Taken(_) => CountDown case _ => Release;
    LockRanksAfter(s.queues, q, WorkerNext(s.queues[q], act));
    forall d ensures !Blocked(Next(s, W(q, act)), d) {
      assert !Blocked(s, d);
    }
    assert Helps(s, W(q, act));
  }

  lemma SomeHelps(s: State) returns (a: Step)
    requires Inv(s) && s.joiner.Waiting? && NoneBlocked(s) && s.sections != {}
    ensures Helps(s, a)
  {
    var c :| c in s.sections;
    var d, p := Obstacle(s, c);
    hide Inv, Helps;
    if p < |s.queues| && s.queues[p].lock == QWorker {
      WorkerHelps(s, p);
      var act :| Helps(s, W(p, act));
      a := W(p, act);
    } else {
      SectionHelps(s, d);
      a := S(d, SectionAct(s.submitters[d].pc));
    }
  }

  /** What a section waits for, if not for itself: a worker of queue `p`, or another section `d`. */
  lemma Obstacle(s: State, c: nat) returns (d: nat, p: nat)
    requires Inv(s) && s.joiner.Waiting? && NoneBlocked(s) && c in s.sections && c < |s.submitters|
    ensures (p < |s.queues| && s.queues[p].lock == QWorker)
         || (d < |s.submitters| && s.submitters[d].pc.InSection()
             && (s.submitters[d].pc.Found? ==> SubmitterEnabled(s, d, TakeQueue)))
  {
    hide WorksOk, QueueOk, Mask;
    assert SubmitterIn(s, c) && !Blocked(s, c);
    d, p := c, |s.queues|;
    if s.submitters[c].pc.Found? {
      p := s.submitters[c].pc.q;
      assert QueueIn(s, p);
      if s.queues[p].lock.QSubmitter? {
        d := s.queues[p].lock.c;
        assert SubmitterIn(s, d);
      }
    }
  }

  /** From `s` the grace period can end. */
  ghost predicate CanReturn(s: State) {
    exists ss: seq<State>, steps: seq<Step> :: Returns(ss, steps, s)
  }

  ghost predicate Returns(ss: seq<State>, steps: seq<Step>, s: State) {
    Run(ss, steps) && ss[0] == s && !ss[|ss| - 1].joiner.Waiting?
  }

  lemma {:induction false} Drains(s: State) returns (ss: seq<State>, steps: seq<Step>)
    requires Inv(s) && s.joiner.Waiting? && NoneBlocked(s)
    ensures Returns(ss, steps, s)
    decreases Ranks(s)
  {
    hide Inv, NoneBlocked, Ranks, SubmitterNext, WorkerNext;
    if s.sections == {} {
      ss, steps := [s, Next(s, J(Synchronized))], [J(Synchronized)];
    } else {
      var a := SomeHelps(s);
      NextInv(s, a);
      var ts, more := Drains(Next(s, a));
      assert Run([s, Next(s, a)], [a]);
      JoinRuns([s, Next(s, a)], [a], ts, more);
      ss, steps := [s, Next(s, a)] + ts[1..], [a] + more;
    }
  }

  /** The joiner's grace period can end exactly if none of the sections that it waits for has found
      the queue that the joiner keeps locked meanwhile; else it never ends. */
  lemma ReturnsIff(s: State)
    requires Inv(s) && s.joiner.Waiting?
    ensures CanReturn(s) <==> !exists c :: Blocked(s, c)
  {
    hide Inv, Enabled, Next;
    if c :| Blocked(s, c) {
      forall ss: seq<State>, steps: seq<Step> ensures !Returns(ss, steps, s) {
        if Returns(ss, steps, s) {
          BlockedForever(ss, steps, c, |ss| - 1);
        }
      }
    } else {
      var ss, steps := Drains(s);
    }
  }

  // ---------------------------------------------------------------- both of it happens

  function OneSubmitter(queues: seq<Queue>, pc: Pc, work: nat, stale: bool): State {
    State(queues, [Submitter(pc, work, 0, stale)], Resting, PFree, [0], 1, [], {}, 1, map[0 := InQueue(0)],
          map[0 := 0])
  }

  function Begin(): State {
    OneSubmitter([], Idle, 0, false).(list := [], count := 0, nextWork := 0, where := map[], asked := map[])
  }

  /** The walk over the empty pool is over. */
  function Walked(): State {
    OneSubmitter([], Missed, 0, false).(list := [], count := 0, where := map[0 := InHandOf(0)])
  }

  function Allocated(): State {
    OneSubmitter([NewQueue(0, 0, 0)], Checking(0, 0), 0, false)
    .(lock := PSubmitter(0), list := [], count := 0, where := map[0 := InHandOf(0)])
  }

  function Spawned(): State {
    OneSubmitter([NewQueue(0, 0, 0).(place := Listed, worker := Top)], Idle, 0, false)
  }

  /** The queue's only work is done. */
  function Served(): Queue {
    NewQueue(0, 0, 0).(place := Listed, worker := Top, items := [], count := 0, started := [0], done := [0])
  }

  /** A second work, whose submitter has found the queue, and the joiner in its grace period. */
  function Unlinked(stale: bool): State {
    OneSubmitter([Served().(place := Delisted, lock := QJoiner, seers := if stale then {1} else {})], Found(0), 1, false)
    .(joiner := Waiting(0, 0), lock := PJoiner, list := [], gone := [0], sections := if stale then {} else {0},
      nextWork := 2, where := map[0 := InQueue(0), 1 := InHandOf(0)],
      asked := map[0 := 0, 1 := 0])
  }

  /** Steps that neither begin nor end a section or a grace period. */
  predicate Plain(b: Step) {
    !(b.S? && (b.act.Submit? || b.act.Miss? || b.act.Leave?)) && b != J(Decide) && b != J(Synchronized)
  }

  lemma Misses() returns (ss: seq<State>, steps: seq<Step>)
    ensures Run(ss, steps) && ss[0] == Begin() && ss[|ss| - 1] == Walked()
  {
    hide FastMatch, Mask;
    steps := [S(0, Submit(0, false)), S(0, Miss)];
    var s1 := Next(Begin(), steps[0]);
    var s2 := Next(s1, steps[1]);
    ss := [Begin(), s1, s2];
    assert s2 == Walked();
  }

  lemma Allocates() returns (ss: seq<State>, steps: seq<Step>)
    ensures Run(ss, steps) && ss[0] == Walked() && ss[|ss| - 1] == Allocated()
    ensures forall i :: 0 <= i < |steps| ==> Plain(steps[i])
  {
    hide FastMatch;
    steps := [S(0, Prepare(0)), S(0, TakePool)];
    var s1 := Next(Walked(), steps[0]);
    var s2 := Next(s1, steps[1]);
    ss := [Walked(), s1, s2];
    assert s2 == Allocated();
  }

  function Listing(): State {
    OneSubmitter([NewQueue(0, 0, 0).(place := Listed)], Created(0), 0, false).(lock := PSubmitter(0))
  }

  lemma Publishes() returns (ss: seq<State>, steps: seq<Step>)
    ensures Run(ss, steps) && ss[0] == Allocated() && ss[|ss| - 1] == Listing()
    ensures forall i :: 0 <= i < |steps| ==> Plain(steps[i])
  {
    hide FastMatch, Mask, CanMeet;
    steps := [S(0, Publish), S(0, CountPool)];
    var s1 := Next(Allocated(), steps[0]);
    var s2 := Next(s1, steps[1]);
    ss := [Allocated(), s1, s2];
    assert s2 == Listing();
  }

  lemma Spawns() returns (ss: seq<State>, steps: seq<Step>)
    ensures Run(ss, steps) && ss[0] == Listing() && ss[|ss| - 1] == Spawned()
    ensures forall i :: 0 <= i < |steps| ==> Plain(steps[i])
  {
    hide FastMatch, Mask, CanMeet;
    steps := [S(0, DropPool), S(0, Spawn)];
    var s1 := Next(Listing(), steps[0]);
    var s2 := Next(s1, steps[1]);
    ss := [Listing(), s1, s2];
    assert s2 == Spawned();
  }

  /** The worker has unlinked the work. */
  function InWork(): Queue {
    NewQueue(0, 0, 0).(place := Listed, worker := Taken(0), lock := QWorker, items := [], started := [0])
  }

  lemma Takes() returns (ss: seq<State>, steps: seq<Step>)
    ensures Run(ss, steps) && ss[0] == Spawned() && ss[|ss| - 1] == Spawned().(queues := [InWork()])
    ensures forall i :: 0 <= i < |steps| ==> Plain(steps[i])
  {
    hide FastMatch, Mask;
    steps := [W(0, Go), W(0, Take), W(0, Look)];
    var s1 := Next(Spawned(), steps[0]);
    var s2 := Next(s1, steps[1]);
    var s3 := Next(s2, steps[2]);
    ss := [Spawned(), s1, s2, s3];
    assert s3.queues[0].items == [] && s3.queues[0].started == [0];
    assert s3.queues == [InWork()];
  }

  lemma Serves() returns (ss: seq<State>, steps: seq<Step>)
    ensures Run(ss, steps) && ss[0] == Spawned().(queues := [InWork()]) && ss[|ss| - 1] == Spawned().(queues := [Served()])
    ensures forall i :: 0 <= i < |steps| ==> Plain(steps[i])
  {
    hide FastMatch, Mask;
    steps := [W(0, CountDown), W(0, Release), W(0, Finish)];
    var s0 := Spawned().(queues := [InWork()]);
    var s1 := Next(s0, steps[0]);
    var s2 := Next(s1, steps[1]);
    var s3 := Next(s2, steps[2]);
    ss := [s0, s1, s2, s3];
    assert s3.queues[0].done == [0];
    assert s3.queues == [Served()];
  }

  /** The queue is locked and about to be unlinked. */
  function Examined(stale: bool): State {
    OneSubmitter([Served().(lock := QJoiner)], Found(0), 1, stale)
    .(joiner := Examining(0, 0), lock := PJoiner, nextWork := 2, where := map[0 := InQueue(0), 1 := InHandOf(0)],
      asked := map[0 := 0, 1 := 0])
  }

  /** A second work is submitted. */
  function Again(stale: bool): State {
    OneSubmitter([Served()], Walking, 1, stale).(nextWork := 2, where := map[0 := InQueue(0), 1 := InHandOf(0)],
      asked := map[0 := 0, 1 := 0])
  }

  lemma Submits(stale: bool) returns (ss: seq<State>, steps: seq<Step>)
    ensures Run(ss, steps) && ss[0] == Spawned().(queues := [Served()]) && ss[|ss| - 1] == Again(stale)
  {
    hide FastMatch, Mask;
    var s0 := Spawned().(queues := [Served()]);
    steps := [S(0, Submit(0, stale))];
    ss := [s0, Next(s0, steps[0])];
    assert ss[1] == Again(stale);
  }

  lemma Finds(stale: bool) returns (ss: seq<State>, steps: seq<Step>)
    ensures Run(ss, steps) && ss[0] == Again(stale) && ss[|ss| - 1] == Examined(stale)
    ensures forall i :: 0 <= i < |steps| ==> Plain(steps[i])
  {
    steps := [S(0, Hit(0)), J(Start), J(Lock)];
    var s1 := Next(Again(stale), steps[0]);
    var s2 := Next(s1, steps[1]);
    var s3 := Next(s2, steps[2]);
    ss := [Again(stale), s1, s2, s3];
    assert s3 == Examined(stale);
  }

  lemma Unlinks(stale: bool) returns (ss: seq<State>, steps: seq<Step>)
    ensures Run(ss, steps) && ss[0] == Examined(stale) && ss[|ss| - 1] == Unlinked(stale) && steps == [J(Decide)]
  {
    hide Mask, FastMatch;
    var s := Examined(stale);
    assert WaitedFor(s) == if stale then {} else {0};
    assert Missing(s) == if stale then {1} else {} by {
      assert stale ==> s.submitters[0].work in Missing(s);
    }
    assert MissedOnce(s.submitters) == [Submitter(Found(0), 1, 0, false)];
    ss, steps := [s, Next(s, J(Decide))], [J(Decide)];
    assert ss[1] == Unlinked(stale);
  }

  /** A run to the joiner's grace period, with a section in progress that has found the queue; it
      is waited for or not. */
  lemma RunToUnlinked(stale: bool) returns (ss: seq<State>, steps: seq<Step>)
    ensures |ss| > 0 && Init(ss[0]) && Run(ss, steps) && ss[|ss| - 1] == Unlinked(stale)
  {
    hide Enabled, Next, Begin, Walked, Allocated, Listing, Spawned, InWork, Served, Again, Examined, Unlinked;
    ss, steps := Misses();
    var a, x := Allocates();
    JoinRuns(ss, steps, a, x);
    ss, steps := ss + a[1..], steps + x;
    a, x := Publishes();
    JoinRuns(ss, steps, a, x);
    ss, steps := ss + a[1..], steps + x;
    a, x := Spawns();
    JoinRuns(ss, steps, a, x);
    ss, steps := ss + a[1..], steps + x;
    a, x := Takes();
    JoinRuns(ss, steps, a, x);
    ss, steps := ss + a[1..], steps + x;
    a, x := Serves();
    JoinRuns(ss, steps, a, x);
    ss, steps := ss + a[1..], steps + x;
    a, x := Submits(stale);
    JoinRuns(ss, steps, a, x);
    ss, steps := ss + a[1..], steps + x;
    a, x := Finds(stale);
    JoinRuns(ss, steps, a, x);
    ss, steps := ss + a[1..], steps + x;
    a, x := Unlinks(stale);
    JoinRuns(ss, steps, a, x);
    ss, steps := ss + a[1..], steps + x;
    BeginInit();
  }

  lemma BeginInit()
    ensures Init(Begin())
  {
  }

  /** Some run ends in a grace period of the joiner that can never return. */
  lemma BlockedWitness() returns (ss: seq<State>, steps: seq<Step>)
    ensures |ss| > 0 && Init(ss[0]) && Run(ss, steps) && Blocked(ss[|ss| - 1], 0)
  {
    ss, steps := RunToUnlinked(false);
  }

  /** The grace period returns, and the section goes on. */
  lemma CallMissed() returns (ss: seq<State>, steps: seq<Step>)
    ensures |ss| > 0 && Init(ss[0]) && Run(ss, steps) && Inv(ss[|ss| - 1])
    ensures var s := ss[|ss| - 1]; s.joiner == Clearing(0, 0) && |s.submitters| == 1 && Threatens(s, 0, 0)
    ensures var s := ss[|ss| - 1]; |s.queues| == 1 && |s.queues[0].inserted| == 1
  {
    hide Inv, Mask, FastMatch, CanMeet, SubmitterNext, WorkerNext;
    var a, x := RunToUnlinked(true);
    var s := Unlinked(true);
    var b, y := [s, Next(s, J(Synchronized))], [J(Synchronized)];
    assert Run(b, y);
    JoinRuns(a, x, b, y);
    ss, steps := a + b[1..], x + y;
    RunInv(ss, steps, |ss| - 1);
  }

  /** Some run puts a work into a queue that the joiner has taken out and marked inactive. */
  lemma LateWitness() returns (ss: seq<State>, steps: seq<Step>)
    ensures |ss| > 0 && Init(ss[0]) && Run(ss, steps)
    ensures var s := ss[|ss| - 1]; TakenOut(s, 0) && !s.queues[0].active && |s.queues[0].inserted| > 1
  {
    hide Inv, Enabled, Next, Threatens;
    ss, steps := CallMissed();
    var c, z := LateRun(ss[|ss| - 1], 0, 0);
    JoinRuns(ss, steps, c, z);
    ss, steps := ss + c[1..], steps + z;
  }
}
