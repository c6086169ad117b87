/** What becomes of a worker that is left alone, and of the queues that submitters allocate
    (`src/workqueue/workqueue.c`). */
module WorkServe {
  import opened WorkPool

  /** Steps of the worker of `q` and nobody else. */
  predicate Alone(steps: seq<Step>, q: nat) {
    forall i :: 0 <= i < |steps| ==> steps[i].W? && steps[i].q == q
  }

  /** A step of the worker of `q`, in the words of its queue. */
  lemma OwnStep(ss: seq<State>, steps: seq<Step>, q: nat, i: nat)
    requires Run(ss, steps) && Alone(steps, q) && i < |steps|
    ensures q < |ss[i].queues| && q < |ss[i + 1].queues| && WorkerReady(ss[i].queues[q], steps[i].wact)
    ensures ss[i + 1].queues[q] == WorkerNext(ss[i].queues[q], steps[i].wact)
  {
    assert Enabled(ss[i], steps[i]) && ss[i + 1] == Next(ss[i], steps[i]);
  }

  /** A worker with nothing to do goes to sleep: four steps of its own, whichever it takes, and the
      queue is as before. */
  lemma IdleSleeps(ss: seq<State>, steps: seq<Step>, q: nat)
    requires Run(ss, steps) && Alone(steps, q) && |steps| == 4 && q < |ss[0].queues|
    requires var x := ss[0].queues[q]; x.worker.Top? && x.active && x.items == [] && x.lock.QFree?
    ensures q < |ss[4].queues| && ss[4].queues[q] == ss[0].queues[q].(worker := Sleeping)
  {
    hide Run;
    OwnStep(ss, steps, q, 0);
    OwnStep(ss, steps, q, 1);
    OwnStep(ss, steps, q, 2);
    OwnStep(ss, steps, q, 3);
  }

  /** A worker that has something to do runs the first work: six steps of its own and it is done, the
      others still wait in order, and the worker looks for the next one. */
  lemma ServesAlone(ss: seq<State>, steps: seq<Step>, q: nat)
    requires Run(ss, steps) && Alone(steps, q) && |steps| == 6 && q < |ss[0].queues|
    requires var x := ss[0].queues[q]; x.worker.Top? && x.active && x.items != [] && x.lock.QFree?
    ensures q < |ss[6].queues|
    ensures var x, y := ss[0].queues[q], ss[6].queues[q];
            && y.done == x.done + x.items[..1] && y.items == x.items[1..] && y.count == x.count - 1
            && y.worker.Top? && y.lock.QFree? && y.active && y.inserted == x.inserted
  {
    hide Run, Alone;
    TakesFirst(ss, steps, q);
    OwnStep(ss, steps, q, 3);
    OwnStep(ss, steps, q, 4);
    OwnStep(ss, steps, q, 5);
  }

  lemma TakesFirst(ss: seq<State>, steps: seq<Step>, q: nat)
    requires Run(ss, steps) && Alone(steps, q) && |steps| >= 3 && q < |ss[0].queues|
    requires var x := ss[0].queues[q]; x.worker.Top? && x.active && x.items != [] && x.lock.QFree?
    ensures |ss| == |steps| + 1 && q < |ss[3].queues|
    ensures var x := ss[0].queues[q];
            ss[3].queues[q] == x.(worker := Taken(x.items[0]), lock := QWorker, items := x.items[1..],
                                  started := x.started + [x.items[0]])
  {
    hide Alone, Enabled, Next;
    OwnStep(ss, steps, q, 0);
    OwnStep(ss, steps, q, 1);
    OwnStep(ss, steps, q, 2);
  }

  // ---------------------------------------------------------------- allocated queues

  /** The one that allocated it is still on the slow path with it. */
  predicate InHandsOfOwner(s: State, q: nat)
    requires q < |s.queues|
  {
    var c := s.queues[q].owner;
    c < |s.submitters| && s.submitters[c].pc.Owning() && s.submitters[c].pc.p == q
  }

  ghost predicate NoneLost(s: State) {
    forall q :: 0 <= q < |s.queues| && s.queues[q].place.Private? ==> InHandsOfOwner(s, q)
  }

  /** No step takes an allocated queue from its owner: by those of the owner it stays in his hands until
      it is published or freed. */
  lemma SubmitterLoses(s: State, c: nat, act: SubmitterAct, q: nat)
    requires NoneLost(s) && SubmitterEnabled(s, c, act)
    requires q < |SubmitterNext(s, c, act).queues| && SubmitterNext(s, c, act).queues[q].place.Private?
    ensures InHandsOfOwner(SubmitterNext(s, c, act), q)
  {
    hide Mask, CanMeet, FastMatch, SlowMatch;
    if q < |s.queues| {
      assert s.queues[q].place.Private? && SubmitterNext(s, c, act).queues[q].owner == s.queues[q].owner;
      assert InHandsOfOwner(s, q);
    }
  }

  lemma JoinerLoses(s: State, act: JoinerAct, q: nat)
    requires NoneLost(s) && JoinerEnabled(s, act)
    requires q < |JoinerNext(s, act).queues| && JoinerNext(s, act).queues[q].place.Private?
    ensures InHandsOfOwner(JoinerNext(s, act), q)
  {
    hide Missing, WaitedFor;
    assert s.queues[q].place.Private? && JoinerNext(s, act).queues[q].owner == s.queues[q].owner;
    assert InHandsOfOwner(s, q);
  }

  lemma WorkerLoses(s: State, p: nat, act: WorkerAct, q: nat)
    requires NoneLost(s) && Enabled(s, W(p, act)) && q < |s.queues| && Next(s, W(p, act)).queues[q].place.Private?
    ensures InHandsOfOwner(Next(s, W(p, act)), q)
  {
    assert s.queues[q].place.Private? && Next(s, W(p, act)).queues[q].owner == s.queues[q].owner;
    assert InHandsOfOwner(s, q);
  }

  lemma NoneLostStep(s: State, a: Step)
    requires NoneLost(s) && Enabled(s, a)
    ensures NoneLost(Next(s, a))
  {
    hide SubmitterNext, SubmitterEnabled, JoinerNext, JoinerEnabled, WorkerNext, WorkerReady, InHandsOfOwner;
    var s' := Next(s, a);
    forall q | 0 <= q < |s'.queues| && s'.queues[q].place.Private? ensures InHandsOfOwner(s', q) {
      match a
      case S(c, act) => SubmitterLoses(s, c, act, q);
      case J(act) => JoinerLoses(s, act, q);
      case W(p, act) => WorkerLoses(s, p, act, q);
    }
  }

  /** No queue is leaked: one that is not in the pool, not taken out of it and not freed is in the hands
      of the submitter that allocated it, who will publish or free it. */
  lemma NothingLeaks(ss: seq<State>, steps: seq<Step>, i: nat, q: nat)
    requires |ss| > 0 && Init(ss[0]) && Run(ss, steps) && i < |ss|
    requires q < |ss[i].queues| && ss[i].queues[q].place.Private?
    ensures exists c :: 0 <= c < |ss[i].submitters| && ss[i].submitters[c].pc.Owning() && ss[i].submitters[c].pc.p == q
  {
    RunNoneLost(ss, steps, i);
    assert InHandsOfOwner(ss[i], q);
  }

  lemma {:induction false} RunNoneLost(ss: seq<State>, steps: seq<Step>, i: nat)
    requires |ss| > 0 && Init(ss[0]) && Run(ss, steps) && i < |ss|
    ensures NoneLost(ss[i])
  {
    hide Enabled, Next, InHandsOfOwner;
    if i > 0 {
      RunNoneLost(ss, steps, i - 1);
      NoneLostStep(ss[i - 1], steps[i - 1]);
    }
  }

  // ---------------------------------------------------------------- a submitter alone

  /** Nobody but `c` holds a lock. */
  predicate Unlocked(s: State, c: nat) {
    && (s.lock.PFree? || s.lock == PSubmitter(c))
    && forall q :: 0 <= q < |s.queues| ==> s.queues[q].lock.QFree? || s.queues[q].lock == QSubmitter(c)
  }

  /** What a submitter does next; on its walk it finds nothing. */
  function NextAct(s: State, pc: Pc): SubmitterAct {
    match pc
    case Walking => Miss
    case Found(_) => TakeQueue
    case Lost(_, _) => TakeQueue
    case Adding(_) => Link
    case LostAdding(_, _) => Link
    case Linked(_) => CountUp
    case LostLinked(_, _) => CountUp
    case Added(_) => DropQueue
    case LostAdded(_, _) => DropQueue
    case Leaving => Leave
    case Missed => Prepare(0)
    case Prepared(_) => TakePool
    case Checking(_, i) => if i == |s.list| then Publish else Check
    case Published(_) => CountPool
    case Created(_) => DropPool
    case LostLeaving(_) => DropPool
    case Spawning(_) => Spawn
    case _ => SubmitterAct.Free
  }

  /** Steps left to a submitter. */
  function StepsLeft(s: State, pc: Pc): nat {
    match pc
    case Idle => 0
    case Walking => 12 + |s.list|
    case Found(_) => 5
    case Adding(_) => 4
    case Linked(_) => 3
    case Added(_) => 2
    case Leaving => 1
    case Missed => 11 + |s.list|
    case Prepared(_) => 10 + |s.list|
    case Checking(_, i) => if i <= |s.list| then 9 + |s.list| - i else 9
    case Lost(_, _) => 7
    case LostAdding(_, _) => 6
    case LostLinked(_, _) => 5
    case LostAdded(_, _) => 4
    case LostLeaving(_) => 3
    case Published(_) => 3
    case Created(_) => 2
    case Spawning(_) => 1
    case Freeing(_) => 1
  }

  lemma CanGoOn(s: State, c: nat)
    requires Inv(s) && c < |s.submitters| && Unlocked(s, c) && !s.submitters[c].pc.Idle?
    ensures SubmitterEnabled(s, c, NextAct(s, s.submitters[c].pc))
  {
    hide WorksOk, QueueOk, Mask, CanMeet, FastMatch;
    assert SubmitterIn(s, c);
    var x := s.submitters[c];
    if x.pc.Lost? {
      var q := x.pc.q;
      assert q < |s.queues|;
      assert QueueIn(s, q);
    } else if x.pc.Found? {
      assert QueueIn(s, x.pc.q);
    }
  }

  lemma StaysUnlocked(s: State, c: nat, act: SubmitterAct)
    requires Unlocked(s, c) && SubmitterEnabled(s, c, act)
    ensures |SubmitterNext(s, c, act).submitters| == |s.submitters| && Unlocked(SubmitterNext(s, c, act), c)
  {
    hide Mask, CanMeet, FastMatch, SlowMatch;
  }

  ghost predicate Shorter(s: State, c: nat)
    requires c < |s.submitters|
  {
    && SubmitterEnabled(s, c, NextAct(s, s.submitters[c].pc))
    && var s' := SubmitterNext(s, c, NextAct(s, s.submitters[c].pc));
       && |s'.submitters| == |s.submitters| && s'.submitters[c].work == s.submitters[c].work
       && StepsLeft(s', s'.submitters[c].pc) < StepsLeft(s, s.submitters[c].pc)
  }

  lemma ShorterOnWalk(s: State, c: nat)
    requires c < |s.submitters|
    requires var pc := s.submitters[c].pc; pc.Walking? || pc.Leaving? || pc.Missed?
    requires SubmitterEnabled(s, c, NextAct(s, s.submitters[c].pc))
    ensures Shorter(s, c)
  {
    hide Mask, CanMeet, FastMatch, SlowMatch;
  }

  lemma ShorterInSection(s: State, c: nat)
    requires c < |s.submitters|
    requires var pc := s.submitters[c].pc; pc.Found? || pc.Adding? || pc.Linked? || pc.Added?
    requires SubmitterEnabled(s, c, NextAct(s, s.submitters[c].pc))
    ensures Shorter(s, c)
  {
    hide Mask, CanMeet, FastMatch, SlowMatch;
  }

  lemma ShorterInPool(s: State, c: nat)
    requires c < |s.submitters| && (s.submitters[c].pc.Prepared? || s.submitters[c].pc.Checking?)
    requires SubmitterEnabled(s, c, NextAct(s, s.submitters[c].pc))
    requires s.submitters[c].pc.Checking? ==> s.submitters[c].pc.i <= |s.list|
    ensures Shorter(s, c)
  {
    hide Mask, CanMeet, FastMatch, SlowMatch;
  }

  lemma ShorterInQueue(s: State, c: nat)
    requires c < |s.submitters|
    requires var pc := s.submitters[c].pc; pc.Lost? || pc.LostAdding? || pc.LostLinked? || pc.LostAdded? || pc.LostLeaving?
    requires SubmitterEnabled(s, c, NextAct(s, s.submitters[c].pc))
    ensures Shorter(s, c)
  {
    hide Mask, CanMeet, FastMatch, SlowMatch;
  }

  lemma ShorterAtEnd(s: State, c: nat)
    requires c < |s.submitters|
    requires var pc := s.submitters[c].pc; pc.Published? || pc.Created? || pc.Spawning? || pc.Freeing?
    requires SubmitterEnabled(s, c, NextAct(s, s.submitters[c].pc))
    ensures Shorter(s, c)
  {
    hide Mask, CanMeet, FastMatch, SlowMatch;
  }

  lemma GetsShorter(s: State, c: nat)
    requires c < |s.submitters| && !s.submitters[c].pc.Idle? && SubmitterEnabled(s, c, NextAct(s, s.submitters[c].pc))
    requires s.submitters[c].pc.Checking? ==> s.submitters[c].pc.i <= |s.list|
    ensures Shorter(s, c)
  {
    hide SubmitterEnabled, NextAct, Shorter;
    match s.submitters[c].pc
    case Prepared(_) => ShorterInPool(s, c);
    case Checking(_, _) => ShorterInPool(s, c);
    case Published(_) => ShorterAtEnd(s, c);
    case Created(_) => ShorterAtEnd(s, c);
    case Spawning(_) => ShorterAtEnd(s, c);
    case Freeing(_) => ShorterAtEnd(s, c);
    case Lost(_, _) => ShorterInQueue(s, c);
    case LostAdding(_, _) => ShorterInQueue(s, c);
    case LostLinked(_, _) => ShorterInQueue(s, c);
    case LostAdded(_, _) => ShorterInQueue(s, c);
    case LostLeaving(_) => ShorterInQueue(s, c);
    case Found(_) => ShorterInSection(s, c);
    case Adding(_) => ShorterInSection(s, c);
    case Linked(_) => ShorterInSection(s, c);
    case Added(_) => ShorterInSection(s, c);
    case _ => ShorterOnWalk(s, c);
  }

  lemma GoesOn(s: State, c: nat)
    requires Inv(s) && c < |s.submitters| && Unlocked(s, c) && !s.submitters[c].pc.Idle?
    ensures SubmitterEnabled(s, c, NextAct(s, s.submitters[c].pc))
    ensures var s' := SubmitterNext(s, c, NextAct(s, s.submitters[c].pc));
            && |s'.submitters| == |s.submitters| && s'.submitters[c].work == s.submitters[c].work && Unlocked(s', c)
            && StepsLeft(s', s'.submitters[c].pc) < StepsLeft(s, s.submitters[c].pc)
  {
    hide PoolOk, WorksOk, QueueIn, CanMeet, SubmitterEnabled, SubmitterNext, Unlocked, NextAct, StepsLeft;
    CanGoOn(s, c);
    assert SubmitterIn(s, c);
    StaysUnlocked(s, c, NextAct(s, s.submitters[c].pc));
    GetsShorter(s, c);
  }

  /** The work of a submitter that has finished is in a queue. */
  lemma NotInHand(s: State, c: nat, w: nat)
    requires Inv(s) && c < |s.submitters| && s.submitters[c].pc.Idle? && Sole(s, c, w)
    ensures exists q :: QueuedIn(s, w, q)
  {
    assert w in s.where;
    if s.where[w].InQueue? {
      assert QueueIn(s, s.where[w].q);
      assert QueuedIn(s, w, s.where[w].q);
    }
  }

  predicate OfSubmitter(steps: seq<Step>, c: nat) {
    forall i :: 0 <= i < |steps| ==> steps[i].S? && steps[i].c == c
  }

  /** Nobody else has the work. */
  ghost predicate Sole(s: State, c: nat, w: nat) {
    w < s.nextWork && forall d :: 0 <= d < |s.submitters| && d != c ==> !(s.submitters[d].pc.InHand() && s.submitters[d].work == w)
  }

  lemma StaysSole(s: State, c: nat, act: SubmitterAct, w: nat)
    requires SubmitterEnabled(s, c, act) && Sole(s, c, w)
    ensures Sole(SubmitterNext(s, c, act), c, w)
  {
    hide Mask, CanMeet, FastMatch, SlowMatch;
  }

  lemma IsSole(s: State, c: nat)
    requires Inv(s) && c < |s.submitters| && s.submitters[c].pc.InHand()
    ensures Sole(s, c, s.submitters[c].work)
  {
    assert SubmitterIn(s, c);
    forall d | 0 <= d < |s.submitters| && d != c ensures !(s.submitters[d].pc.InHand() && s.submitters[d].work == s.submitters[c].work) {
      assert SubmitterIn(s, d);
    }
  }

  lemma {:induction false} FinishesFrom(s: State, c: nat, w: nat) returns (ss: seq<State>, steps: seq<Step>)
    requires Inv(s) && c < |s.submitters| && Unlocked(s, c) && s.submitters[c].work == w && Sole(s, c, w)
    ensures |ss| > 0 && Run(ss, steps) && ss[0] == s && OfSubmitter(steps, c)
    ensures var s' := ss[|ss| - 1];
            c < |s'.submitters| && s'.submitters[c].pc.Idle? && Unlocked(s', c) && exists q :: QueuedIn(s', w, q)
    decreases StepsLeft(s, s.submitters[c].pc)
  {
    hide Inv, SubmitterEnabled, SubmitterNext, Unlocked, Sole, StepsLeft;
    if s.submitters[c].pc.Idle? {
      ss, steps := [s], [];
      NotInHand(s, c, w);
    } else {
      var act := NextAct(s, s.submitters[c].pc);
      GoesOn(s, c);
      NextInv(s, S(c, act));
      StaysSole(s, c, act, w);
      var s1 := Next(s, S(c, act));
      var ts, more := FinishesFrom(s1, c, w);
      assert Run([s, s1], [S(c, act)]);
      JoinRuns([s, s1], [S(c, act)], ts, more);
      ss, steps := [s, s1] + ts[1..], [S(c, act)] + more;
    }
  }

  /** With no lock held by anybody else, a submitter finishes on its own, wherever it is and even if it
      finds nothing on its walk; it holds no lock in the end, and its work is in a queue. */
  lemma FinishesAlone(s: State, c: nat) returns (ss: seq<State>, steps: seq<Step>)
    requires Inv(s) && c < |s.submitters| && Unlocked(s, c) && s.submitters[c].pc.InHand()
    ensures |ss| > 0 && Run(ss, steps) && ss[0] == s && OfSubmitter(steps, c)
    ensures var s' := ss[|ss| - 1];
            && c < |s'.submitters| && s'.submitters[c].pc.Idle? && Unlocked(s', c)
            && exists q :: QueuedIn(s', s.submitters[c].work, q)
  {
    hide Inv, Unlocked, Sole;
    IsSole(s, c);
    ss, steps := FinishesFrom(s, c, s.submitters[c].work);
  }
}
