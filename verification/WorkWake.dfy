/** Sleeping and waking of the workers (`src/workqueue/workqueue.c`, `mthpc_wq_futex_wait` and
    `mthpc_wq_futex_wake`) over the fallback futex (`src/futex.c`): one mutex and one condition
    variable for all queues, one word a queue. `pthread_cond_wait` releases the mutex and parks in
    one step, and may wake spuriously (POSIX.1, System Interfaces, pthread_cond_wait). */
module WorkWake {

  datatype Worker =
    | Unborn      // thread not created yet
    | Awake       // outside mthpc_wq_futex_wait
    | Reading     // next: read the word
    | Wanting     // in futex(FUTEX_WAIT), waits for the mutex
    | Checking    // holds it, next: compare the word with 0
    | Parking     // holds it, saw 0, next: pthread_cond_wait
    | Parked
    | Woken       // waits for the mutex again
    | Releasing   // holds it, next: unlock
  {
    predicate Holding() { Checking? || Parking? || Releasing? }
  }

  datatype Producer =
    | Idle
    | Spawning(q: nat)   // created queue q, next: create its thread
    | Owing(q: nat)      // put work in q, next: write 1
    | Written(q: nat)    // in futex(FUTEX_WAKE), waits for the mutex
    | Locked(q: nat)     // next: broadcast
    | Told(q: nat)       // next: unlock
  {
    predicate Holding() { Locked? || Told? }
    predicate OwesWrite(q': nat) { (Spawning? || Owing?) && q == q' }
    predicate OwesBroadcast(q': nat) { (Written? || Locked?) && q == q' }
  }

  datatype Owner = Free | WorkerOf(q: nat) | ProducerAt(p: nat)

  /** `creator` is history: the producer that made each queue. */
  datatype State = State(words: seq<int>, creator: seq<nat>, workers: seq<Worker>, producers: seq<Producer>, mutex: Owner)

  datatype ProducerAct = Create | Add(q: nat) | Spawn | Write | Lock | Broadcast | Unlock
  datatype WorkerAct = Enter | Read | Acquire | Check | Park | Spurious | Release
  datatype Step = P(p: nat, pact: ProducerAct) | W(q: nat, wact: WorkerAct)

  predicate Init(s: State) {
    && s.words == [] && s.creator == [] && s.workers == [] && s.mutex == Free
    && forall p :: 0 <= p < |s.producers| ==> s.producers[p] == Idle
  }

  predicate ProducerEnabled(s: State, p: nat, act: ProducerAct) {
    && p < |s.producers|
    && match act
       case Create => s.producers[p].Idle?
       case Add(q) => s.producers[p].Idle? && q < |s.words|
       case Spawn => s.producers[p].Spawning? && s.producers[p].q < |s.workers|
       case Write => s.producers[p].Owing? && s.producers[p].q < |s.words|
       case Lock => s.producers[p].Written? && s.mutex == Free
       case Broadcast => s.producers[p].Locked?
       case Unlock => s.producers[p].Told?
  }

  function Woke(ws: seq<Worker>): (r: seq<Worker>)
    ensures |r| == |ws|
    ensures forall i :: 0 <= i < |ws| ==> r[i] == if ws[i].Parked? then Woken else ws[i]
  {
    seq(|ws|, i requires 0 <= i < |ws| => if ws[i].Parked? then Woken else ws[i])
  }

  function ProducerNext(s: State, p: nat, act: ProducerAct): State
    requires ProducerEnabled(s, p, act)
  {
    match act
    case Create =>
      s.(words := s.words + [0], creator := s.creator + [p], workers := s.workers + [Unborn],
         producers := s.producers[p := Spawning(|s.words|)])
    case Add(q) => s.(producers := s.producers[p := Owing(q)])
    case Spawn =>
      s.(workers := s.workers[s.producers[p].q := Awake], producers := s.producers[p := Owing(s.producers[p].q)])
    case Write =>
      s.(words := s.words[s.producers[p].q := 1], producers := s.producers[p := Written(s.producers[p].q)])
    case Lock => s.(mutex := ProducerAt(p), producers := s.producers[p := Locked(s.producers[p].q)])
    case Broadcast => s.(workers := Woke(s.workers), producers := s.producers[p := Told(s.producers[p].q)])
    case Unlock => s.(mutex := Free, producers := s.producers[p := Idle])
  }

  predicate WorkerEnabled(s: State, q: nat, act: WorkerAct) {
    && q < |s.workers| && q < |s.words|
    && match act
       case Enter => s.workers[q].Awake?
       case Read => s.workers[q].Reading?
       case Acquire => (s.workers[q].Wanting? || s.workers[q].Woken?) && s.mutex == Free
       case Check => s.workers[q].Checking?
       case Park => s.workers[q].Parking?
       case Spurious => s.workers[q].Parked?
       case Release => s.workers[q].Releasing?
  }

  /** The fallback returns 0 from a wait, so `mthpc_wq_futex_wait` reads the word again; the
      branch that stores 0 is not taken. */
  function WorkerNext(s: State, q: nat, act: WorkerAct): State
    requires WorkerEnabled(s, q, act)
  {
    match act
    case Enter => s.(workers := s.workers[q := Reading])
    case Read => s.(workers := s.workers[q := if s.words[q] != 0 then Awake else Wanting])
    case Acquire => s.(workers := s.workers[q := Checking], mutex := WorkerOf(q))
    case Check => s.(workers := s.workers[q := if s.words[q] == 0 then Parking else Releasing])
    case Park => s.(workers := s.workers[q := Parked], mutex := Free)
    case Spurious => s.(workers := s.workers[q := Woken])
    case Release => s.(workers := s.workers[q := Reading], mutex := Free)
  }

  predicate Enabled(s: State, a: Step) {
    match a
    case P(p, act) => ProducerEnabled(s, p, act)
    case W(q, act) => WorkerEnabled(s, q, act)
  }

  function Next(s: State, a: Step): State
    requires Enabled(s, a)
  {
    match a
    case P(p, act) => ProducerNext(s, p, act)
    case W(q, act) => WorkerNext(s, q, act)
  }

  predicate Run(ss: seq<State>, steps: seq<Step>) {
    && |ss| == |steps| + 1
    && forall i :: 0 <= i < |steps| ==> Enabled(ss[i], steps[i]) && ss[i + 1] == Next(ss[i], steps[i])
  }

  // ---------------------------------------------------------------- invariant

  /** Somebody is on the way to wake the worker of `q`: its creator has not written the word, or
      somebody has written it and not broadcast yet. */
  ghost predicate WakeComing(s: State, q: nat)
    requires q < |s.words|
  {
    if s.words[q] == 0 then
      q < |s.creator| && s.creator[q] < |s.producers| && s.producers[s.creator[q]].OwesWrite(q)
    else
      exists p :: 0 <= p < |s.producers| && s.producers[p].OwesBroadcast(q)
  }

  ghost predicate QueueOk(s: State, q: nat)
    requires q < |s.words| == |s.creator| == |s.workers|
  {
    && s.creator[q] < |s.producers|
    && (s.words[q] == 0 || s.words[q] == 1)
    && (s.words[q] == 0 ==> s.producers[s.creator[q]].OwesWrite(q))
    && (s.workers[q].Parking? || s.workers[q].Parked? ==> WakeComing(s, q))
    && (s.workers[q].Holding() <==> s.mutex == WorkerOf(q))
  }

  ghost predicate ProducerOk(s: State, p: nat)
    requires p < |s.producers| && |s.words| == |s.workers|
  {
    && (!s.producers[p].Idle? ==> s.producers[p].q < |s.words|)
    && (s.producers[p].Spawning? ==> s.workers[s.producers[p].q].Unborn?)
    && (s.producers[p].Holding() <==> s.mutex == ProducerAt(p))
  }

  ghost predicate Inv(s: State) {
    && |s.words| == |s.creator| == |s.workers|
    && (forall q :: 0 <= q < |s.words| ==> QueueOk(s, q))
    && (forall p :: 0 <= p < |s.producers| ==> ProducerOk(s, p))
    && (forall p, p' :: 0 <= p < p' < |s.producers| && s.producers[p].Spawning? && s.producers[p'].Spawning? ==>
          s.producers[p].q != s.producers[p'].q)
    && (s.mutex.WorkerOf? ==> s.mutex.q < |s.workers|)
    && (s.mutex.ProducerAt? ==> s.mutex.p < |s.producers|)
  }

  lemma InitInv(s: State)
    requires Init(s)
    ensures Inv(s)
  {
  }

  lemma ProducerQueue(s: State, p: nat, act: ProducerAct, q: nat)
    requires Inv(s) && ProducerEnabled(s, p, act) && q < |s.words|
    ensures q < |ProducerNext(s, p, act).words| && QueueOk(ProducerNext(s, p, act), q)
  {
    var s' := ProducerNext(s, p, act);
    assert QueueOk(s, q) && ProducerOk(s, p);
    if s'.workers[q].Parking? || s'.workers[q].Parked? {
      if s.words[q] == 1 {
        var o :| 0 <= o < |s.producers| && s.producers[o].OwesBroadcast(q);
        assert s'.producers[o].OwesBroadcast(q);
      } else if s'.words[q] != 0 {
        assert s'.producers[p].OwesBroadcast(q);
      }
    }
  }

  lemma ProducerProducer(s: State, p: nat, act: ProducerAct, o: nat)
    requires Inv(s) && ProducerEnabled(s, p, act) && o < |s.producers|
    ensures ProducerOk(ProducerNext(s, p, act), o)
  {
    hide WakeComing, QueueOk;
    assert ProducerOk(s, p) && ProducerOk(s, o);
  }

  lemma ProducerInv(s: State, p: nat, act: ProducerAct)
    requires Inv(s) && ProducerEnabled(s, p, act)
    ensures Inv(ProducerNext(s, p, act))
  {
    var s' := ProducerNext(s, p, act);
    forall q | 0 <= q < |s'.words| ensures QueueOk(s', q) {
      if q < |s.words| { ProducerQueue(s, p, act, q); }
    }
    forall o | 0 <= o < |s'.producers| ensures ProducerOk(s', o) {
      ProducerProducer(s, p, act, o);
    }
    forall o | 0 <= o < |s.producers| && s.producers[o].Spawning? ensures s.producers[o].q < |s.words| {
      assert ProducerOk(s, o);
    }
    hide WakeComing, QueueOk, ProducerOk;
  }

  lemma WorkerInv(s: State, q: nat, act: WorkerAct)
    requires Inv(s) && WorkerEnabled(s, q, act)
    ensures Inv(WorkerNext(s, q, act))
  {
    var s' := WorkerNext(s, q, act);
    forall o | 0 <= o < |s'.words| ensures QueueOk(s', o) {
      WorkerQueue(s, q, act, o);
    }
    forall p | 0 <= p < |s'.producers| ensures ProducerOk(s', p) {
      WorkerProducer(s, q, act, p);
    }
    hide WakeComing, QueueOk, ProducerOk;
  }

  lemma WorkerQueue(s: State, q: nat, act: WorkerAct, o: nat)
    requires Inv(s) && WorkerEnabled(s, q, act) && o < |s.words|
    ensures QueueOk(WorkerNext(s, q, act), o)
  {
    assert QueueOk(s, o) && QueueOk(s, q);
    assert WakeComing(WorkerNext(s, q, act), o) <==> WakeComing(s, o);
  }

  lemma WorkerProducer(s: State, q: nat, act: WorkerAct, p: nat)
    requires Inv(s) && WorkerEnabled(s, q, act) && p < |s.producers|
    ensures ProducerOk(WorkerNext(s, q, act), p)
  {
    hide WakeComing;
    assert QueueOk(s, q) && ProducerOk(s, p);
  }

  lemma {:induction false} RunInv(ss: seq<State>, steps: seq<Step>, i: nat)
    requires |ss| > 0 && Init(ss[0]) && Run(ss, steps) && i < |ss|
    ensures Inv(ss[i])
  {
    if i == 0 {
      InitInv(ss[0]);
    } else {
      RunInv(ss, steps, i - 1);
      match steps[i - 1]
      case P(p, act) => ProducerInv(ss[i - 1], p, act);
      case W(q, act) => WorkerInv(ss[i - 1], q, act);
    }
  }

  // ---------------------------------------------------------------- no lost wake-up

  /** A worker parked, or past the check and about to park, is going to be woken: as long as the
      word is 0 the creator of the queue owes the write, afterwards somebody who wrote it owes the
      broadcast. */
  lemma NoLostWakeUp(ss: seq<State>, steps: seq<Step>, i: nat, q: nat)
    requires |ss| > 0 && Init(ss[0]) && Run(ss, steps) && i < |ss|
    requires q < |ss[i].workers| && (ss[i].workers[q].Parked? || ss[i].workers[q].Parking?)
    ensures var s := ss[i];
            && |s.words| == |s.creator| == |s.workers| && s.creator[q] < |s.producers|
            && if s.words[q] == 0 then s.producers[s.creator[q]].OwesWrite(q)
               else exists p :: 0 <= p < |s.producers| && s.producers[p].OwesBroadcast(q)
  {
    hide Init, Run;
    RunInv(ss, steps, i);
    assert QueueOk(ss[i], q);
  }

  /** The word never returns to 0, and a worker outside the wait then never parks again. */
  lemma {:induction false} NeverParksAgain(ss: seq<State>, steps: seq<Step>, i: nat, j: nat, q: nat)
    requires |ss| > 0 && Init(ss[0]) && Run(ss, steps) && i <= j < |ss|
    requires q < |ss[i].words| == |ss[i].workers| && ss[i].words[q] != 0 && ss[i].workers[q].Awake?
    ensures q < |ss[j].words| == |ss[j].workers| && ss[j].words[q] == 1
    ensures ss[j].workers[q].Awake? || ss[j].workers[q].Reading?
  {
    RunInv(ss, steps, j);
    assert i == j ==> QueueOk(ss[j], q);
    if i < j {
      NeverParksAgain(ss, steps, i, j - 1, q);
      RunInv(ss, steps, j - 1);
    }
  }

  /** One of the first `i` steps has written the word of `q`. */
  ghost predicate WrittenBy(ss: seq<State>, steps: seq<Step>, i: nat, q: nat)
    requires i <= |steps| < |ss|
  {
    exists k :: 0 <= k < i && Writes(ss[k], steps[k], q)
  }

  predicate Writes(s: State, a: Step, q: nat) {
    a.P? && a.pact.Write? && a.p < |s.producers| && s.producers[a.p].Owing? && s.producers[a.p].q == q
  }

  lemma WordStep(s: State, a: Step, q: nat)
    requires Inv(s) && Enabled(s, a) && q < |Next(s, a).words|
    ensures Next(s, a).words[q] == 1 <==> (q < |s.words| && s.words[q] == 1) || Writes(s, a, q)
  {
    hide WakeComing, QueueOk;
    if a.P? { assert ProducerOk(s, a.p); }
  }

  /** The word of a queue is 1 exactly if somebody has written it, and a queue begins with 0. */
  lemma {:induction false} WordIsWritten(ss: seq<State>, steps: seq<Step>, i: nat, q: nat)
    requires |ss| > 0 && Init(ss[0]) && Run(ss, steps) && i < |ss| && q < |ss[i].words|
    ensures ss[i].words[q] == 1 <==> WrittenBy(ss, steps, i, q)
  {
    hide Inv, Enabled, Next, Writes;
    if i > 0 {
      RunInv(ss, steps, i - 1);
      WordStep(ss[i - 1], steps[i - 1], q);
      if q < |ss[i - 1].words| {
        WordIsWritten(ss, steps, i - 1, q);
      } else {
        NoneWrites(ss, steps, i - 1, q);
      }
    }
  }

  /** Nobody has written the word of a queue that does not exist. */
  lemma {:induction false} NoneWrites(ss: seq<State>, steps: seq<Step>, i: nat, q: nat)
    requires |ss| > 0 && Init(ss[0]) && Run(ss, steps) && i < |ss| && q >= |ss[i].words|
    ensures !WrittenBy(ss, steps, i, q)
  {
    hide Inv, Enabled, Next;
    if i > 0 {
      RunInv(ss, steps, i - 1);
      Grows(ss[i - 1], steps[i - 1], q);
      NoneWrites(ss, steps, i - 1, q);
    }
  }

  lemma Grows(s: State, a: Step, q: nat)
    requires Inv(s) && Enabled(s, a)
    ensures |s.words| <= |Next(s, a).words| && (q >= |s.words| ==> !Writes(s, a, q))
  {
    hide WakeComing, QueueOk;
    if a.P? { assert ProducerOk(s, a.p); }
  }

  /** What producer `p` has done since step `i`, by where it is. */
  ghost predicate WakeDone(ss: seq<State>, steps: seq<Step>, i: nat, j: nat, p: nat, q: nat)
    requires i < j <= |steps| < |ss|
  {
    p < |ss[j].producers| && match ss[j].producers[p]
    case Idle => WroteAndTold(ss, steps, i, j, p, q)
    case Spawning(r) => r == q
    case Owing(r) => r == q
    case Written(r) => r == q && WrittenBetween(ss, steps, i, j, p, q)
    case Locked(r) => r == q && WrittenBetween(ss, steps, i, j, p, q)
    case Told(r) => r == q && WroteAndTold(ss, steps, i, j, p, q)
  }

  ghost predicate WrittenBetween(ss: seq<State>, steps: seq<Step>, i: nat, j: nat, p: nat, q: nat)
    requires i < j <= |steps| < |ss|
  {
    exists k :: i < k < j && Writes(ss[k], steps[k], q) && steps[k].p == p
  }

  ghost predicate WroteAndTold(ss: seq<State>, steps: seq<Step>, i: nat, j: nat, p: nat, q: nat)
    requires i < j <= |steps| < |ss|
  {
    exists k, m :: i < k < m < j && Writes(ss[k], steps[k], q) && steps[k].p == p && steps[m] == P(p, Broadcast)
  }

  /** A submission, up to the return of its call. */
  ghost predicate Submission(ss: seq<State>, steps: seq<Step>, i: nat, j: nat, p: nat, q: nat)
    requires i < j <= |steps| < |ss|
  {
    && (steps[i] == P(p, Add(q)) || (steps[i] == P(p, Create) && q == |ss[i].words|))
    && forall k :: i < k < j ==> p < |ss[k].producers| && !ss[k].producers[p].Idle?
  }

  /** Every submission, before it returns, writes the word of its queue and then wakes whoever waits. */
  lemma {:induction false} SubmissionWakes(ss: seq<State>, steps: seq<Step>, i: nat, j: nat, p: nat, q: nat)
    requires |ss| > 0 && Init(ss[0]) && Run(ss, steps) && i < j <= |steps| && Submission(ss, steps, i, j, p, q)
    ensures WakeDone(ss, steps, i, j, p, q)
    decreases j
  {
    hide Init, Inv, Woke;
    assert Enabled(ss[i], steps[i]) && ss[i + 1] == Next(ss[i], steps[i]);
    if i + 1 < j {
      SubmissionWakes(ss, steps, i, j - 1, p, q);
      var s, a := ss[j - 1], steps[j - 1];
      assert Enabled(s, a) && ss[j] == Next(s, a);
      if a.P? && a.p == p && a.pact.Write? {
        assert Writes(s, a, q);
      }
    }
  }

  // ---------------------------------------------------------------- the wait waits

  lemma WaitsStep(s: State, a: Step, q: nat)
    requires Inv(s) && Enabled(s, a) && q < |s.words| && !s.workers[q].Unborn?
    requires s.workers[q].Awake? ==> s.words[q] == 1
    ensures q < |Next(s, a).words| == |Next(s, a).workers| && !Next(s, a).workers[q].Unborn?
    ensures Next(s, a).workers[q].Awake? ==> Next(s, a).words[q] == 1
  {
    hide WakeComing;
    assert QueueOk(s, q);
    if a.P? { assert ProducerOk(s, a.p); }
  }

  /** A worker that has entered the wait leaves it only when the word is 1. */
  lemma {:induction false} WaitsForTheWord(ss: seq<State>, steps: seq<Step>, i: nat, j: nat, q: nat)
    requires |ss| > 0 && Init(ss[0]) && Run(ss, steps) && i < j < |ss| && steps[i] == W(q, Enter)
    ensures q < |ss[j].words| == |ss[j].workers| && !ss[j].workers[q].Unborn?
    ensures ss[j].workers[q].Awake? ==> ss[j].words[q] == 1
    decreases j
  {
    hide Init, Inv, Enabled, Next, Woke;
    RunInv(ss, steps, j - 1);
    if i + 1 == j {
      EnterReads(ss[i], q);
    } else {
      WaitsForTheWord(ss, steps, i, j - 1, q);
      WaitsStep(ss[j - 1], steps[j - 1], q);
    }
  }

  lemma EnterReads(s: State, q: nat)
    requires Inv(s) && Enabled(s, W(q, Enter))
    ensures q < |s.words| == |s.workers| && Next(s, W(q, Enter)).words == s.words
    ensures |Next(s, W(q, Enter)).workers| == |s.workers| && Next(s, W(q, Enter)).workers[q].Reading?
  {
  }

  /** As long as the word is 0 and nobody has the mutex, a worker in the wait parks: it can take
      four steps in a row, and any four that it takes in a row end there. */
  lemma ParksAlone(s: State, q: nat)
    requires Inv(s) && q < |s.words| && s.workers[q].Reading? && s.words[q] == 0 && s.mutex == Free
    ensures exists ss: seq<State>, steps: seq<Step> :: Alone(ss, steps, s, q)
    ensures forall ss: seq<State>, steps: seq<Step> :: Alone(ss, steps, s, q) ==>
              ss[4] == s.(workers := s.workers[q := Parked])
  {
    var s1 := s.(workers := s.workers[q := Wanting]);
    var s2 := s.(workers := s.workers[q := Checking], mutex := WorkerOf(q));
    var s3 := s2.(workers := s.workers[q := Parking]);
    var s4 := s.(workers := s.workers[q := Parked]);
    OnlyStep(s, q, Read, s1);
    OnlyStep(s1, q, Acquire, s2);
    OnlyStep(s2, q, Check, s3);
    OnlyStep(s3, q, Park, s4);
    hide Inv, WorkerEnabled, WorkerNext;
    assert Alone([s, s1, s2, s3, s4], [W(q, Read), W(q, Acquire), W(q, Check), W(q, Park)], s, q);
    forall ss: seq<State>, steps: seq<Step> | Alone(ss, steps, s, q) ensures ss[4] == s4 {
      assert Enabled(ss[0], steps[0]) && Enabled(ss[1], steps[1]) && Enabled(ss[2], steps[2]) && Enabled(ss[3], steps[3]);
    }
  }

  /** Four steps in a row, all of them of the worker of `q`. */
  predicate Alone(ss: seq<State>, steps: seq<Step>, s: State, q: nat) {
    && Run(ss, steps) && |steps| == 4 && ss[0] == s
    && forall k :: 0 <= k < 4 ==> steps[k].W? && steps[k].q == q
  }

  lemma OnlyStep(s: State, q: nat, act: WorkerAct, t: State)
    requires WorkerEnabled(s, q, act) && t == WorkerNext(s, q, act) && !s.workers[q].Parked?
    ensures forall a :: WorkerEnabled(s, q, a) ==> a == act
  {
  }

  // ---------------------------------------------------------------- everybody gets out

  predicate Quiet(s: State) {
    forall p :: 0 <= p < |s.producers| ==> s.producers[p].Idle?
  }

  /** Steps left to a worker until it is out of `mthpc_wq_futex_wait`. */
  function Left(w: Worker): nat {
    match w
    case Unborn => 0
    case Awake => 0
    case Reading => 1
    case Releasing => 2
    case Checking => 3
    case Wanting => 4
    case Woken => 4
    case Parking => 4
    case Parked => 4
  }

  function TotalLeft(ws: seq<Worker>): nat {
    if ws == [] then 0 else Left(ws[0]) + TotalLeft(ws[1..])
  }

  lemma {:induction false} TotalAfter(ws: seq<Worker>, q: nat, w: Worker)
    requires q < |ws|
    ensures TotalLeft(ws[q := w]) == TotalLeft(ws) - Left(ws[q]) + Left(w)
  {
    if q == 0 {
      assert ws[q := w][1..] == ws[1..];
    } else {
      assert ws[q := w][1..] == ws[1..][q - 1 := w];
      TotalAfter(ws[1..], q - 1, w);
    }
  }

  lemma {:induction false} SomeLeft(ws: seq<Worker>) returns (q: nat)
    requires TotalLeft(ws) > 0
    ensures q < |ws| && Left(ws[q]) > 0
  {
    if Left(ws[0]) > 0 {
      q := 0;
    } else {
      q := SomeLeft(ws[1..]);
      q := q + 1;
    }
  }

  /** When no producer is in the middle of anything, every word is 1 and no worker is parked or
      about to be. */
  lemma QuietWorkers(s: State, q: nat)
    requires Inv(s) && Quiet(s) && q < |s.words|
    ensures s.words[q] == 1 && !s.workers[q].Parked? && !s.workers[q].Parking?
  {
    assert QueueOk(s, q);
  }

  /** From such a state on, until somebody submits again, every step of a worker that is in the
      wait brings it closer to the end, and some worker can take one until all are out: after
      `TotalLeft` of these steps nobody waits. */
  lemma EverybodyWakes(ss: seq<State>, steps: seq<Step>, i: nat)
    requires |ss| > 0 && Init(ss[0]) && Run(ss, steps) && i < |ss| && Quiet(ss[i])
    ensures forall q: nat, act :: WorkerEnabled(ss[i], q, act) && !act.Enter? ==>
              TotalLeft(WorkerNext(ss[i], q, act).workers) < TotalLeft(ss[i].workers)
    ensures TotalLeft(ss[i].workers) > 0 ==> exists q: nat, act :: WorkerEnabled(ss[i], q, act) && !act.Enter?
  {
    RunInv(ss, steps, i);
    WakesFrom(ss[i]);
  }

  lemma WakesFrom(s: State)
    requires Inv(s) && Quiet(s)
    ensures forall q: nat, act :: WorkerEnabled(s, q, act) && !act.Enter? ==>
              TotalLeft(WorkerNext(s, q, act).workers) < TotalLeft(s.workers)
    ensures TotalLeft(s.workers) > 0 ==> exists q: nat, act :: WorkerEnabled(s, q, act) && !act.Enter?
  {
    forall q: nat, act | WorkerEnabled(s, q, act) && !act.Enter?
      ensures TotalLeft(WorkerNext(s, q, act).workers) < TotalLeft(s.workers)
    {
      QuietWorkers(s, q);
      TotalAfter(s.workers, q, WorkerNext(s, q, act).workers[q]);
    }
    if TotalLeft(s.workers) > 0 {
      var q := SomeLeft(s.workers);
      var holder := if s.mutex.WorkerOf? then s.mutex.q else q;
      assert QueueOk(s, holder);
      forall p | 0 <= p < |s.producers| ensures s.mutex != ProducerAt(p) {
        assert ProducerOk(s, p);
      }
      QuietWorkers(s, holder);
      var act := match s.workers[holder]
        case Reading => Read
        case Checking => Check
        case Releasing => Release
        case _ => Acquire;
      assert WorkerEnabled(s, holder, act);
    }
  }
}
