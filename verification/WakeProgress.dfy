/** That sleeping and waking gets to its end (`src/workqueue/workqueue.c`, `src/futex.c`): what a
    producer and a worker do when nobody interferes, and that nothing holds all of them up. */
module WakeProgress {
  import opened WorkWake

  // ---------------------------------------------------------------- one thread alone

  /** A run of `n` steps, all of them of the worker of `q`. */
  predicate OfWorker(ss: seq<State>, steps: seq<Step>, s: State, q: nat, n: nat) {
    && Run(ss, steps) && |steps| == n && ss[0] == s
    && forall k :: 0 <= k < n ==> steps[k].W? && steps[k].q == q
  }

  lemma Only(s: State, q: nat, act: WorkerAct, t: State)
    requires WorkerEnabled(s, q, act) && t == WorkerNext(s, q, act)
    ensures forall a :: WorkerEnabled(s, q, a) ==> a == act
  {
  }

  /** A worker that goes into the wait before the word has been written parks, if the mutex is free. */
  lemma GoesToSleep(s: State, q: nat)
    requires Inv(s) && q < |s.words| && s.workers[q].Awake? && s.words[q] == 0 && s.mutex == Free
    ensures exists ss: seq<State>, steps: seq<Step> :: OfWorker(ss, steps, s, q, 5)
    ensures forall ss: seq<State>, steps: seq<Step> :: OfWorker(ss, steps, s, q, 5) ==>
              ss[5] == s.(workers := s.workers[q := Parked])
  {
    var s1 := s.(workers := s.workers[q := Reading]);
    var s2 := s.(workers := s.workers[q := Wanting]);
    var s3 := s.(workers := s.workers[q := Checking], mutex := WorkerOf(q));
    var s4 := s3.(workers := s.workers[q := Parking]);
    var s5 := s.(workers := s.workers[q := Parked]);
    Only(s, q, Enter, s1);
    Only(s1, q, Read, s2);
    Only(s2, q, Acquire, s3);
    Only(s3, q, Check, s4);
    Only(s4, q, Park, s5);
    hide Inv, WorkerEnabled, WorkerNext;
    assert OfWorker([s, s1, s2, s3, s4, s5], [W(q, Enter), W(q, Read), W(q, Acquire), W(q, Check), W(q, Park)], s, q, 5);
    forall ss: seq<State>, steps: seq<Step> | OfWorker(ss, steps, s, q, 5) ensures ss[5] == s5 {
      assert Enabled(ss[0], steps[0]) && Enabled(ss[1], steps[1]) && Enabled(ss[2], steps[2]) && Enabled(ss[3], steps[3])
             && Enabled(ss[4], steps[4]);
    }
  }

  /** A spurious wake-up does not get a worker out of the wait: it parks again. */
  lemma SpuriousParksAgain(s: State, q: nat)
    requires Inv(s) && q < |s.words| && s.workers[q].Parked? && s.words[q] == 0 && s.mutex == Free
    ensures exists ss: seq<State>, steps: seq<Step> :: OfWorker(ss, steps, s, q, 4)
    ensures forall ss: seq<State>, steps: seq<Step> :: OfWorker(ss, steps, s, q, 4) ==> ss[4] == s
  {
    var s1 := s.(workers := s.workers[q := Woken]);
    var s2 := s.(workers := s.workers[q := Checking], mutex := WorkerOf(q));
    var s3 := s2.(workers := s.workers[q := Parking]);
    assert s == s.(workers := s.workers[q := Parked]);
    Only(s, q, Spurious, s1);
    Only(s1, q, Acquire, s2);
    Only(s2, q, Check, s3);
    Only(s3, q, Park, s);
    hide Inv, WorkerEnabled, WorkerNext;
    assert OfWorker([s, s1, s2, s3, s], [W(q, Spurious), W(q, Acquire), W(q, Check), W(q, Park)], s, q, 4);
    forall ss: seq<State>, steps: seq<Step> | OfWorker(ss, steps, s, q, 4) ensures ss[4] == s {
      assert Enabled(ss[0], steps[0]) && Enabled(ss[1], steps[1]) && Enabled(ss[2], steps[2]) && Enabled(ss[3], steps[3]);
    }
  }

  /** A run of `n` steps, all of them of producer `p`, the first of which is `act`. */
  predicate OfProducer(ss: seq<State>, steps: seq<Step>, s: State, p: nat, act: ProducerAct, n: nat) {
    && Run(ss, steps) && |steps| == n && n > 0 && ss[0] == s && steps[0] == P(p, act)
    && forall k :: 0 <= k < n ==> steps[k].P? && steps[k].p == p
  }

  lemma OnlyOf(s: State, p: nat, act: ProducerAct, t: State)
    requires ProducerEnabled(s, p, act) && t == ProducerNext(s, p, act) && !s.producers[p].Idle?
    ensures forall a :: ProducerEnabled(s, p, a) ==> a == act
  {
  }

  /** The end of every submission to `q`, from the write on. */
  lemma WritesAndWakes(s: State, p: nat, q: nat) returns (ts: seq<State>)
    requires p < |s.producers| && q < |s.words| == |s.workers| && s.producers[p] == Owing(q) && s.mutex == Free
    ensures Run(ts, [P(p, Write), P(p, Lock), P(p, Broadcast), P(p, Unlock)]) && ts[0] == s
    ensures ts[4] == s.(words := s.words[q := 1], workers := Woke(s.workers), producers := s.producers[p := Idle])
    ensures forall a :: ProducerEnabled(ts[0], p, a) ==> a == Write
    ensures forall a :: ProducerEnabled(ts[1], p, a) ==> a == Lock
    ensures forall a :: ProducerEnabled(ts[2], p, a) ==> a == Broadcast
    ensures forall a :: ProducerEnabled(ts[3], p, a) ==> a == Unlock
  {
    var s1 := s.(words := s.words[q := 1], producers := s.producers[p := Written(q)]);
    var s2 := s1.(producers := s.producers[p := Locked(q)], mutex := ProducerAt(p));
    var s3 := s2.(producers := s.producers[p := Told(q)], workers := Woke(s.workers));
    var s4 := s3.(producers := s.producers[p := Idle], mutex := Free);
    OnlyOf(s, p, Write, s1);
    OnlyOf(s1, p, Lock, s2);
    OnlyOf(s2, p, Broadcast, s3);
    OnlyOf(s3, p, Unlock, s4);
    ts := [s, s1, s2, s3, s4];
  }

  /** A submission to a queue, left alone with a free mutex: five steps, after which the word is 1 and
      whoever was parked has been woken. */
  lemma SubmitsAlone(s: State, p: nat, q: nat)
    requires Inv(s) && p < |s.producers| && s.producers[p].Idle? && q < |s.words| && s.mutex == Free
    ensures exists ss: seq<State>, steps: seq<Step> :: OfProducer(ss, steps, s, p, Add(q), 5)
    ensures forall ss: seq<State>, steps: seq<Step> :: OfProducer(ss, steps, s, p, Add(q), 5) ==>
              ss[5] == s.(words := s.words[q := 1], workers := Woke(s.workers))
  {
    var s1 := s.(producers := s.producers[p := Owing(q)]);
    var ts := WritesAndWakes(s1, p, q);
    assert s1.producers[p := Idle] == s.producers;
    hide Inv, ProducerEnabled;
    assert Enabled(s, P(p, Add(q))) && s1 == Next(s, P(p, Add(q))) by { Adds(s, p, q); }
    var steps := [P(p, Add(q))] + [P(p, Write), P(p, Lock), P(p, Broadcast), P(p, Unlock)];
    OneMore(s, steps[0], ts, steps[1..]);
    assert OfProducer([s] + ts, steps, s, p, Add(q), 5);
    forall ss: seq<State>, steps: seq<Step> | OfProducer(ss, steps, s, p, Add(q), 5) ensures ss[5] == ts[4] {
      assert ss[1] == s1;
      Same(ss, steps, ts, [P(p, Write), P(p, Lock), P(p, Broadcast), P(p, Unlock)], p, 1);
    }
  }

  lemma Adds(s: State, p: nat, q: nat)
    requires p < |s.producers| && s.producers[p].Idle? && q < |s.words|
    ensures Enabled(s, P(p, Add(q))) && Next(s, P(p, Add(q))) == s.(producers := s.producers[p := Owing(q)])
  {
  }

  /** One step before a run. */
  lemma OneMore(s: State, a: Step, ts: seq<State>, more: seq<Step>)
    requires Enabled(s, a) && Run(ts, more) && ts[0] == Next(s, a)
    ensures Run([s] + ts, [a] + more)
  {
    hide Enabled, Next;
    forall i | 0 <= i < |more| + 1
      ensures Enabled(([s] + ts)[i], ([a] + more)[i]) && ([s] + ts)[i + 1] == Next(([s] + ts)[i], ([a] + more)[i])
    {
      if i > 0 { assert ([a] + more)[i] == more[i - 1] && ([s] + ts)[i] == ts[i - 1]; }
    }
  }

  /** A producer that has no choice takes the same steps. */
  lemma {:induction false} Same(ss: seq<State>, steps: seq<Step>, ts: seq<State>, more: seq<Step>, p: nat, d: nat)
    requires Run(ss, steps) && Run(ts, more) && |steps| == d + |more| && ss[d] == ts[0]
    requires forall k :: 0 <= k < |steps| ==> steps[k].P? && steps[k].p == p
    requires forall k :: 0 <= k < |more| ==> more[k].P? && more[k].p == p
    requires forall k, a :: 0 <= k < |more| && ProducerEnabled(ts[k], p, a) ==> a == more[k].pact
    ensures ss[|steps|] == ts[|more|]
    decreases |more|
  {
    hide ProducerEnabled, ProducerNext;
    if more != [] {
      assert Enabled(ss[d], steps[d]) && steps[d] == more[0];
      assert Enabled(ts[0], more[0]) && ts[1] == Next(ts[0], more[0]);
      assert forall k :: 0 <= k < |more[1..]| ==> more[1..][k] == more[k + 1] && ts[1..][k] == ts[k + 1];
      assert ss[d + 1] == ts[1..][0];
      Same(ss, steps, ts[1..], more[1..], p, d + 1);
    }
  }

  /** A submission that creates its queue: six steps. The new queue has the word 1 and a worker that is
      awake, the others are woken. */
  lemma CreatesAlone(s: State, p: nat)
    requires Inv(s) && p < |s.producers| && s.producers[p].Idle? && s.mutex == Free
    ensures exists ss: seq<State>, steps: seq<Step> :: OfProducer(ss, steps, s, p, Create, 6)
    ensures forall ss: seq<State>, steps: seq<Step> :: OfProducer(ss, steps, s, p, Create, 6) ==>
              ss[6] == s.(words := s.words + [1], creator := s.creator + [p], workers := Woke(s.workers) + [Awake])
  {
    var q := |s.words|;
    var s1 := s.(words := s.words + [0], creator := s.creator + [p], workers := s.workers + [Unborn],
                 producers := s.producers[p := Spawning(q)]);
    var s2 := s1.(workers := s.workers + [Awake], producers := s.producers[p := Owing(q)]);
    assert s1.workers[q := Awake] == s2.workers;
    OnlyOf(s1, p, Spawn, s2);
    var ts := WritesAndWakes(s2, p, q);
    assert s2.producers[p := Idle] == s.producers && s2.words[q := 1] == s.words + [1];
    assert Woke(s2.workers) == Woke(s.workers) + [Awake];
    hide Inv, ProducerEnabled;
    assert Enabled(s, P(p, Create)) && s1 == Next(s, P(p, Create)) by { Creates(s, p); }
    var rest := [P(p, Write), P(p, Lock), P(p, Broadcast), P(p, Unlock)];
    OneMore(s1, P(p, Spawn), ts, rest);
    OneMore(s, P(p, Create), [s1] + ts, [P(p, Spawn)] + rest);
    assert OfProducer([s] + ([s1] + ts), [P(p, Create)] + ([P(p, Spawn)] + rest), s, p, Create, 6);
    forall ss: seq<State>, steps: seq<Step> | OfProducer(ss, steps, s, p, Create, 6) ensures ss[6] == ts[4] {
      assert ss[1] == s1;
      Same(ss, steps, [s1] + ts, [P(p, Spawn)] + rest, p, 1);
    }
  }

  lemma Creates(s: State, p: nat)
    requires p < |s.producers| && s.producers[p].Idle?
    ensures Enabled(s, P(p, Create))
    ensures Next(s, P(p, Create)) == s.(words := s.words + [0], creator := s.creator + [p], workers := s.workers + [Unborn],
                                        producers := s.producers[p := Spawning(|s.words|)])
  {
  }

  // ---------------------------------------------------------------- everybody together

  function Owed(p: Producer): nat {
    match p
    case Idle => 0
    case Told(_) => 1
    case Locked(_) => 2
    case Written(_) => 3
    case Owing(_) => 4
    case Spawning(_) => 5
  }

  function TotalOwed(ps: seq<Producer>): nat {
    if ps == [] then 0 else Owed(ps[0]) + TotalOwed(ps[1..])
  }

  lemma {:induction false} OwedAfter(ps: seq<Producer>, p: nat, x: Producer)
    requires p < |ps|
    ensures TotalOwed(ps[p := x]) == TotalOwed(ps) - Owed(ps[p]) + Owed(x)
  {
    if p == 0 {
      assert ps[p := x][1..] == ps[1..];
    } else {
      assert ps[p := x][1..] == ps[1..][p - 1 := x];
      OwedAfter(ps[1..], p - 1, x);
    }
  }

  /** Steps until the worker that has the mutex gives it up; without such a worker and without a
      submission under way, steps until all workers are out of the wait. */
  function Waiting(s: State): nat {
    if Quiet(s) then TotalLeft(s.workers)
    else if s.mutex.WorkerOf? && s.mutex.q < |s.workers| then
      match s.workers[s.mutex.q]
      case Checking => 2
      case _ => 1
    else 0
  }

  ghost predicate Closer(s: State, a: Step) {
    && Enabled(s, a)
    && (TotalOwed(Next(s, a).producers) < TotalOwed(s.producers)
        || (TotalOwed(Next(s, a).producers) == TotalOwed(s.producers) && Waiting(Next(s, a)) < Waiting(s)))
  }

  lemma ProducerCloser(s: State, p: nat, act: ProducerAct)
    requires Inv(s) && ProducerEnabled(s, p, act) && !s.producers[p].Idle?
    ensures Closer(s, P(p, act))
  {
    hide Waiting, QueueOk, WakeComing, Woke;
    assert ProducerOk(s, p);
    OwedAfter(s.producers, p, ProducerNext(s, p, act).producers[p]);
  }

  lemma HolderCloser(s: State) returns (a: Step)
    requires Inv(s) && !Quiet(s) && s.mutex.WorkerOf?
    ensures Closer(s, a)
  {
    hide ProducerOk, WakeComing;
    var q := s.mutex.q;
    assert QueueOk(s, q);
    a := W(q, match s.workers[q]
         case Checking => Check
         case Parking => Park
         case _ => Release);
    assert Next(s, a).producers == s.producers;
  }

  lemma SomeoneCloser(s: State) returns (a: Step)
    requires Inv(s) && !(Quiet(s) && TotalLeft(s.workers) == 0)
    ensures Closer(s, a)
  {
    hide Closer, Woke, WakeComing, QueueOk;
    if Quiet(s) {
      var q, act := QuietCloser(s);
      a := W(q, act);
    } else if s.mutex.WorkerOf? {
      a := HolderCloser(s);
    } else {
      var p :| 0 <= p < |s.producers| && !s.producers[p].Idle?;
      if s.mutex.ProducerAt? { p := s.mutex.p; }
      assert ProducerOk(s, p);
      var act := match s.producers[p]
        case Spawning(_) => Spawn
        case Owing(_) => ProducerAct.Write
        case Written(_) => ProducerAct.Lock
        case Locked(_) => Broadcast
        case _ => ProducerAct.Unlock;
      ProducerCloser(s, p, act);
      a := P(p, act);
    }
  }

  lemma QuietCloser(s: State) returns (q: nat, act: WorkerAct)
    requires Inv(s) && Quiet(s) && TotalLeft(s.workers) > 0
    ensures Closer(s, W(q, act))
  {
    hide Inv, Woke;
    WakesFrom(s);
    q, act :| WorkerEnabled(s, q, act) && !act.Enter?;
    assert Next(s, W(q, act)).producers == s.producers;
    assert Quiet(Next(s, W(q, act)));
  }

  lemma StepInv(s: State, a: Step)
    requires Inv(s) && Enabled(s, a)
    ensures Inv(Next(s, a))
  {
    hide Inv;
    match a
    case P(p, act) => ProducerInv(s, p, act);
    case W(q, act) => WorkerInv(s, q, act);
  }

  /** Nothing holds the wake-ups up: from every state some run ends with no submission under way and
      no worker in the wait. */
  lemma {:induction false} AllSettle(s: State) returns (ss: seq<State>, steps: seq<Step>)
    requires Inv(s)
    ensures |ss| > 0 && Run(ss, steps) && ss[0] == s && Quiet(ss[|ss| - 1]) && TotalLeft(ss[|ss| - 1].workers) == 0
    decreases TotalOwed(s.producers), Waiting(s)
  {
    hide Inv, Enabled, Next, Waiting;
    if Quiet(s) && TotalLeft(s.workers) == 0 {
      ss, steps := [s], [];
    } else {
      var a := SomeoneCloser(s);
      StepInv(s, a);
      var ts, more := AllSettle(Next(s, a));
      OneMore(s, a, ts, more);
      ss, steps := [s] + ts, [a] + more;
    }
  }
}
