/** One pool of workqueues (`src/workqueue/workqueue.c`): submitters on the lock-free fast path and
    on the slow path that creates a queue, one worker a queue, and the joiner that takes empty
    queues out. Sleeping and waking is the subject of module WorkWake. The grace period of the
    joiner is the single one of the source, by what RcuLimits and RcuSafety show of it: it waits
    for the sections that were running at the unlink, but for those that store an old sample of
    the global word (`RcuLimits.Escapes`) and have not been missed by an earlier one. */
module WorkPool {
  import opened Seqs

  const NR_CPU: nat := 4

  /** `cpu & MTHPC_WQ_CPU_MASK`, on two's complement integers. */
  function Mask(cpu: int): nat {
    cpu % NR_CPU
  }

  /** `Dropped`: a preallocated queue that lost the race to be created. */
  datatype Place = Private | Listed | Delisted | Reaped | Dropped

  datatype Worker =
    | NoWorker
    | Top                  // next: check the active flag
    | Wanting              // waits for wq->lock
    | Looking              // holds it, next: is the list empty?
    | Taken(w: nat)        // work unlinked, next: count--
    | Counted(w: nat)      // next: unlock
    | Nothing              // list was empty, next: unlock
    | Sleeping             // in mthpc_wq_futex_wait
    | Running(w: nat)
    | Exited
  {
    predicate Holding() { Looking? || Taken? || Counted? || Nothing? }
    predicate Busy() { Taken? || Counted? || Running? }
  }

  datatype QLock = QFree | QSubmitter(c: nat) | QWorker | QJoiner

  /** History: the submitter that allocated the queue, all works ever `inserted`, those `started`
      and those `done`, in order; `seers` are the works whose submitters were in sections at the
      unlink that the joiner's grace period does not wait for. */
  datatype Queue = Queue(
    cpu: nat, place: Place, lock: QLock, items: seq<nat>, count: int, active: bool, worker: Worker,
    owner: nat, inserted: seq<nat>, started: seq<nat>, done: seq<nat>, seers: set<nat>)

  /** Fast path: `Walking` to `Leaving`, inside an RCU section. Slow path: from `Missed` on, with
      the preallocated queue `p`. */
  datatype Pc =
    | Idle
    | Walking
    | Found(q: nat)                    // waits for wq->lock
    | Adding(q: nat)                   // holds it, next: link the work
    | Linked(q: nat)                   // next: count++
    | Added(q: nat)                    // next: unlock
    | Leaving                          // next: rcu_read_unlock
    | Missed                           // next: allocate and fill a queue
    | Prepared(p: nat)                 // waits for wp->lock
    | Checking(p: nat, i: nat)         // holds it, at the i-th queue of the pool
    | Lost(p: nat, q: nat)             // found one, waits for its lock
    | LostAdding(p: nat, q: nat)       // holds it, next: link the work
    | LostLinked(p: nat, q: nat)       // next: count++
    | LostAdded(p: nat, q: nat)        // next: unlock the queue
    | LostLeaving(p: nat)              // next: unlock the pool
    | Published(p: nat)                // queue linked into the pool, next: wp->count++
    | Created(p: nat)                  // next: unlock the pool
    | Spawning(p: nat)                 // next: create the worker thread
    | Freeing(p: nat)                  // next: free the preallocated queue
  {
    predicate InSection() { Walking? || Found? || Adding? || Linked? || Added? || Leaving? }
    predicate HoldsPool() {
      Checking? || Lost? || LostAdding? || LostLinked? || LostAdded? || LostLeaving? || Published? || Created?
    }
    predicate HoldsQueue() { Adding? || Linked? || Added? || LostAdding? || LostLinked? || LostAdded? }
    // The work is in no queue of the pool yet.
    predicate InHand() {
      Walking? || Found? || Adding? || Missed? || Prepared? || Checking? || Lost? || LostAdding?
    }
    // The preallocated queue is still private.
    predicate Owning() {
      Prepared? || Checking? || Lost? || LostAdding? || LostLinked? || LostAdded? || LostLeaving? || Freeing?
    }
  }

  /** `stale`: the next grace period does not wait for the submitter's section. */
  datatype Submitter = Submitter(pc: Pc, work: nat, cpu: int, stale: bool)

  datatype Joiner =
    | Resting
    | Scanning(i: nat)                 // holds wp->lock, at the i-th queue
    | Examining(i: nat, q: nat)        // holds wq->lock too
    | Waiting(i: nat, q: nat)          // queue unlinked, in synchronize_rcu
    | Clearing(i: nat, q: nat)         // next: clear the active flag
    | Releasing(i: nat, q: nat)        // next: unlock the queue
    | Reaping                          // pool unlocked, next: join and free a queue of free_list
    | Freed(q: nat)                    // next: wp->count--
  {
    predicate HoldsPool() { Scanning? || Examining? || Waiting? || Clearing? || Releasing? }
    predicate HoldsQueue() { Examining? || Waiting? || Clearing? || Releasing? }
  }

  datatype PLock = PFree | PSubmitter(c: nat) | PJoiner

  /** Where a submission is until a worker has it: with its submitter or in a queue. */
  datatype Where = InHandOf(c: nat) | InQueue(q: nat)

  /** `list` is the pool's list of queues, `count` its counter; `gone` are the queues unlinked by
      the joiner and not yet accounted for; `sections` the submitters for which its running grace
      period waits. History: `where` says where every submission is or has been queued, `asked`
      for which CPU it was. */
  datatype State = State(
    queues: seq<Queue>,
    submitters: seq<Submitter>,
    joiner: Joiner,
    lock: PLock,
    list: seq<nat>,
    count: int,
    gone: seq<nat>,
    sections: set<nat>,
    nextWork: nat,
    where: map<nat, Where>,
    asked: map<nat, int>)

  datatype SubmitterAct =
    | Submit(cpu: int, stale: bool)
    | Hit(q: nat) | Miss | TakeQueue | Link | CountUp | DropQueue | Leave
    | Prepare(here: nat) | TakePool | Check | Publish | CountPool | DropPool | Spawn | Free

  datatype WorkerAct = Go | Take | Look | CountDown | Release | Wake | Finish

  datatype JoinerAct =
    | Start | Lock | Decide | Synchronized | Clear | Unlock | Stop
    | Join(q: nat) | CountPoolDown | Rest

  datatype Step = S(c: nat, act: SubmitterAct) | W(q: nat, wact: WorkerAct) | J(jact: JoinerAct)

  // ---------------------------------------------------------------- transition system

  predicate Init(s: State) {
    && s.queues == [] && s.joiner == Resting && s.lock == PFree && s.list == [] && s.count == 0
    && s.gone == [] && s.sections == {} && s.nextWork == 0 && s.where == map[] && s.asked == map[]
    && forall c :: 0 <= c < |s.submitters| ==> s.submitters[c].pc == Idle
  }

  predicate FastMatch(cpu: int, q: Queue) { cpu == -1 || Mask(cpu) == q.cpu }

  predicate SlowMatch(cpu: int, q: Queue) { cpu == q.cpu }

  /** A walk meets listed queues, and queues unlinked since its section began. */
  predicate CanMeet(s: State, c: nat, q: nat)
    requires c < |s.submitters| && q < |s.queues|
  {
    || s.queues[q].place.Listed?
    || (s.joiner.Waiting? && s.joiner.q == q && c in s.sections)
    || s.submitters[c].work in s.queues[q].seers
  }

  predicate SubmitterEnabled(s: State, c: nat, act: SubmitterAct) {
    c < |s.submitters| &&
    var x := s.submitters[c];
    match act
    case Submit(_, _) => x.pc.Idle?
    case Hit(q) => x.pc.Walking? && q < |s.queues| && FastMatch(x.cpu, s.queues[q]) && CanMeet(s, c, q)
    case Miss => x.pc.Walking?
    case TakeQueue => (x.pc.Found? || x.pc.Lost?) && x.pc.q < |s.queues| && s.queues[x.pc.q].lock.QFree?
    case Link => (x.pc.Adding? || x.pc.LostAdding?) && x.pc.q < |s.queues|
    case CountUp => (x.pc.Linked? || x.pc.LostLinked?) && x.pc.q < |s.queues|
    case DropQueue => (x.pc.Added? || x.pc.LostAdded?) && x.pc.q < |s.queues|
    case Leave => x.pc.Leaving?
    // For cpu == -1 the current CPU of the scheduler plus one, masked.
    case Prepare(here) => x.pc.Missed? && here < NR_CPU
    case TakePool => x.pc.Prepared? && s.lock.PFree?
    case Check => x.pc.Checking? && x.pc.i < |s.list| && s.list[x.pc.i] < |s.queues|
    case Publish => x.pc.Checking? && x.pc.i == |s.list| && x.pc.p < |s.queues|
    case CountPool => x.pc.Published?
    case DropPool => x.pc.Created? || x.pc.LostLeaving?
    case Spawn => x.pc.Spawning? && x.pc.p < |s.queues|
    case Free => x.pc.Freeing? && x.pc.p < |s.queues|
  }

  function SetPc(s: State, c: nat, pc: Pc): State
    requires c < |s.submitters|
  {
    s.(submitters := s.submitters[c := s.submitters[c].(pc := pc)])
  }

  function SetQueue(s: State, q: nat, x: Queue): State
    requires q < |s.queues|
  {
    s.(queues := s.queues[q := x])
  }

  function NewQueue(c: nat, cpu: int, w: nat): Queue {
    Queue(Mask(cpu), Private, QFree, [w], 1, true, NoWorker, c, [w], [], [], {})
  }

  function SubmitterNext(s: State, c: nat, act: SubmitterAct): State
    requires SubmitterEnabled(s, c, act)
  {
    var x := s.submitters[c];
    match act
    case Submit(cpu, stale) =>
      s.(submitters := s.submitters[c := Submitter(Walking, s.nextWork, cpu, stale)],
         nextWork := s.nextWork + 1, where := s.where[s.nextWork := InHandOf(c)], asked := s.asked[s.nextWork := cpu])
    case Hit(q) => SetPc(s, c, Found(q))
    case Miss => SetPc(s, c, Missed).(sections := s.sections - {c})
    case TakeQueue =>
      SetPc(SetQueue(s, x.pc.q, s.queues[x.pc.q].(lock := QSubmitter(c))), c,
            if x.pc.Found? then Adding(x.pc.q) else LostAdding(x.pc.p, x.pc.q))
    case Link =>
      var y := s.queues[x.pc.q];
      SetPc(SetQueue(s, x.pc.q, y.(items := y.items + [x.work], inserted := y.inserted + [x.work])), c,
            if x.pc.Adding? then Linked(x.pc.q) else LostLinked(x.pc.p, x.pc.q))
      .(where := s.where[x.work := InQueue(x.pc.q)])
    case CountUp =>
      SetPc(SetQueue(s, x.pc.q, s.queues[x.pc.q].(count := s.queues[x.pc.q].count + 1)), c,
            if x.pc.Linked? then Added(x.pc.q) else LostAdded(x.pc.p, x.pc.q))
    case DropQueue =>
      SetPc(SetQueue(s, x.pc.q, s.queues[x.pc.q].(lock := QFree)), c,
            if x.pc.Added? then Leaving else LostLeaving(x.pc.p))
    case Leave => SetPc(s, c, Idle).(sections := s.sections - {c})
    case Prepare(here) =>
      var cpu := if x.cpu == -1 then here else x.cpu;
      s.(queues := s.queues + [NewQueue(c, cpu, x.work)],
         submitters := s.submitters[c := Submitter(Prepared(|s.queues|), x.work, cpu, x.stale)])
    case TakePool => SetPc(s, c, Checking(x.pc.p, 0)).(lock := PSubmitter(c))
    case Check =>
      SetPc(s, c, if SlowMatch(x.cpu, s.queues[s.list[x.pc.i]]) then Lost(x.pc.p, s.list[x.pc.i])
                  else Checking(x.pc.p, x.pc.i + 1))
    case Publish =>
      SetPc(SetQueue(s, x.pc.p, s.queues[x.pc.p].(place := Listed)), c, Published(x.pc.p))
      .(list := s.list + [x.pc.p], where := s.where[x.work := InQueue(x.pc.p)])
    case CountPool => SetPc(s, c, Created(x.pc.p)).(count := s.count + 1)
    case DropPool => SetPc(s, c, if x.pc.Created? then Spawning(x.pc.p) else Freeing(x.pc.p)).(lock := PFree)
    case Spawn => SetPc(SetQueue(s, x.pc.p, s.queues[x.pc.p].(worker := Top)), c, Idle)
    case Free => SetPc(SetQueue(s, x.pc.p, s.queues[x.pc.p].(place := Dropped)), c, Idle)
  }

  predicate WorkerReady(x: Queue, act: WorkerAct) {
    match act
    case Go => x.worker.Top?
    case Take => x.worker.Wanting? && x.lock.QFree?
    case Look => x.worker.Looking?
    case CountDown => x.worker.Taken?
    case Release => x.worker.Counted? || x.worker.Nothing?
    case Wake => x.worker.Sleeping?
    case Finish => x.worker.Running?
  }

  predicate WorkerEnabled(s: State, q: nat, act: WorkerAct) {
    q < |s.queues| && WorkerReady(s.queues[q], act)
  }

  /** All that a worker changes is in its queue. */
  function WorkerNext(x: Queue, act: WorkerAct): Queue {
    match act
    case Go => x.(worker := if x.active then Wanting else Exited)
    case Take => x.(worker := Looking, lock := QWorker)
    case Look =>
      if x.items == [] then x.(worker := Nothing)
      else x.(worker := Taken(x.items[0]), items := x.items[1..], started := x.started + [x.items[0]])
    case CountDown => if x.worker.Taken? then x.(worker := Counted(x.worker.w), count := x.count - 1) else x
    case Release => x.(worker := if x.worker.Counted? then Running(x.worker.w) else Sleeping, lock := QFree)
    case Wake => x.(worker := Top)
    case Finish => if x.worker.Running? then x.(worker := Top, done := x.done + [x.worker.w]) else x
  }

  predicate JoinerEnabled(s: State, act: JoinerAct) {
    match act
    case Start => s.joiner.Resting? && s.lock.PFree?
    case Lock =>
      s.joiner.Scanning? && s.joiner.i < |s.list| && s.list[s.joiner.i] < |s.queues|
      && s.queues[s.list[s.joiner.i]].lock.QFree?
    case Decide => s.joiner.Examining? && s.joiner.q < |s.queues| && s.joiner.i < |s.list|
    case Synchronized => s.joiner.Waiting? && s.sections == {}
    case Clear => s.joiner.Clearing? && s.joiner.q < |s.queues|
    case Unlock => s.joiner.Releasing? && s.joiner.q < |s.queues|
    case Stop => s.joiner.Scanning? && s.joiner.i == |s.list|
    case Join(q) => s.joiner.Reaping? && q in s.gone && q < |s.queues| && s.queues[q].worker.Exited?
    case CountPoolDown => s.joiner.Freed?
    case Rest => s.joiner.Reaping? && s.gone == []
  }

  /** The submitters for which a grace period called now waits. */
  function WaitedFor(s: State): set<nat> {
    set c | 0 <= c < |s.submitters| && s.submitters[c].pc.InSection() && !s.submitters[c].stale
  }

  /** The works of the others that are in a section. */
  function Missing(s: State): set<nat> {
    set c | 0 <= c < |s.submitters| && s.submitters[c].pc.InSection() && s.submitters[c].stale :: s.submitters[c].work
  }

  /** No section is missed by two grace periods. */
  function MissedOnce(ss: seq<Submitter>): (r: seq<Submitter>)
    ensures |r| == |ss|
    ensures forall c :: 0 <= c < |ss| ==> r[c] == ss[c].(stale := false)
  {
    seq(|ss|, c requires 0 <= c < |ss| => ss[c].(stale := false))
  }

  function JoinerNext(s: State, act: JoinerAct): State
    requires JoinerEnabled(s, act)
  {
    var j := s.joiner;
    match act
    case Start => s.(joiner := Scanning(0), lock := PJoiner)
    case Lock =>
      var q := s.list[j.i];
      SetQueue(s, q, s.queues[q].(lock := QJoiner)).(joiner := Examining(j.i, q))
    case Decide =>
      if s.queues[j.q].count == 0 then
        SetQueue(s, j.q, s.queues[j.q].(place := Delisted, seers := Missing(s)))
        .(joiner := Waiting(j.i, j.q), list := Drop(s.list, j.i), gone := s.gone + [j.q],
          sections := WaitedFor(s), submitters := MissedOnce(s.submitters))
      else
        SetQueue(s, j.q, s.queues[j.q].(lock := QFree)).(joiner := Scanning(j.i + 1))
    case Synchronized => s.(joiner := Clearing(j.i, j.q))
    case Clear => SetQueue(s, j.q, s.queues[j.q].(active := false)).(joiner := Releasing(j.i, j.q))
    case Unlock => SetQueue(s, j.q, s.queues[j.q].(lock := QFree)).(joiner := Scanning(j.i))
    case Stop => s.(joiner := Reaping, lock := PFree)
    case Join(q) => SetQueue(s, q, s.queues[q].(place := Reaped)).(joiner := Freed(q))
    case CountPoolDown => s.(joiner := Reaping, gone := Without(s.gone, j.q), count := s.count - 1)
    case Rest => s.(joiner := Resting)
  }

  predicate Enabled(s: State, a: Step) {
    match a
    case S(c, act) => SubmitterEnabled(s, c, act)
    case W(q, act) => WorkerEnabled(s, q, act)
    case J(act) => JoinerEnabled(s, act)
  }

  function Next(s: State, a: Step): State
    requires Enabled(s, a)
  {
    match a
    case S(c, act) => SubmitterNext(s, c, act)
    case W(q, act) => SetQueue(s, q, WorkerNext(s.queues[q], act))
    case J(act) => JoinerNext(s, act)
  }

  predicate Run(ss: seq<State>, steps: seq<Step>) {
    && |ss| == |steps| + 1
    && forall i :: 0 <= i < |steps| ==> Enabled(ss[i], steps[i]) && ss[i + 1] == Next(ss[i], steps[i])
  }

  // ---------------------------------------------------------------- invariant

  /** A queue by itself: its works pass through it in order, and `count` is the length of its
      list but for what the holder of the lock is in the middle of. */
  predicate QueueOk(x: Queue) {
    && x.inserted == x.started + x.items && x.inserted != []
    && x.started == x.done + (if x.worker.Busy() then [x.worker.w] else [])
    && (x.worker.Holding() <==> x.lock == QWorker)
    && (!x.lock.QSubmitter? ==> x.count == |x.items| + if x.worker.Taken? then 1 else 0)
    && (x.worker.NoWorker? ==> x.started == [])
    && (x.place.Private? || x.place.Dropped? ==> x.worker.NoWorker? && x.lock.QFree?)
    && (!Out(x) ==> x.seers == {})
    && (x.place.Reaped? ==> x.worker.Exited?)
    && (Out(x) ==> !x.worker.NoWorker?)
  }

  /** Taken out by the joiner. */
  predicate Out(x: Queue) { x.place.Delisted? || x.place.Reaped? }

  predicate Public(x: Queue) { x.place.Listed? || Out(x) }

  /** A queue in the pool: who holds its lock, and where its works are said to be. */
  ghost predicate QueueIn(s: State, q: nat)
    requires q < |s.queues|
  {
    var x := s.queues[q];
    && QueueOk(x)
    && (x.lock == QJoiner <==> s.joiner.HoldsQueue() && s.joiner.q == q)
    && (x.lock.QSubmitter? ==>
          x.lock.c < |s.submitters| && s.submitters[x.lock.c].pc.HoldsQueue() && s.submitters[x.lock.c].pc.q == q)
    && (x.place.Listed? <==> q in s.list)
    && (x.place.Delisted? || s.joiner == Freed(q) <==> q in s.gone)
    && (s.joiner == Freed(q) ==> x.place.Reaped?)
    && (forall w :: w in x.seers ==> w < s.nextWork)
    && (x.active <==> !Out(x) || ((s.joiner.Waiting? || s.joiner.Clearing?) && s.joiner.q == q))
    && (Out(x) && x.lock == QJoiner ==> x.items == [])
    && (Public(x) ==>
          && (forall i, j :: 0 <= i < j < |x.inserted| ==> x.inserted[i] != x.inserted[j])
          && (forall w :: w in x.inserted <==> w in s.where && s.where[w] == InQueue(q)))
  }

  ghost predicate SubmitterIn(s: State, c: nat)
    requires c < |s.submitters|
  {
    var x := s.submitters[c];
    && (x.pc.InHand() ==> x.work in s.where && s.where[x.work] == InHandOf(c))
    && (x.pc.HoldsPool() <==> s.lock == PSubmitter(c))
    && (c in s.sections ==> x.pc.InSection())
    && (!x.pc.Idle? ==> x.work < s.nextWork)
    && (x.pc.Found? ==> x.pc.q < |s.queues| && CanMeet(s, c, x.pc.q))
    && (x.pc.Lost? ==> x.pc.q in s.list)
    && (x.pc.HoldsQueue() ==>
          && x.pc.q < |s.queues| && s.queues[x.pc.q].lock == QSubmitter(c)
          && (s.queues[x.pc.q].place.Listed? || (x.pc.InSection() && x.work in s.queues[x.pc.q].seers))
          && s.queues[x.pc.q].count == |s.queues[x.pc.q].items| - if x.pc.Linked? || x.pc.LostLinked? then 1 else 0)
    && (x.pc.Owning() ==>
          x.pc.p < |s.queues| && s.queues[x.pc.p].place.Private? && s.queues[x.pc.p].owner == c
          && s.queues[x.pc.p].inserted == [x.work] && s.queues[x.pc.p].cpu == Mask(x.cpu))
    && (x.pc.Published? || x.pc.Created? || x.pc.Spawning? ==>
          x.pc.p < |s.queues| && s.queues[x.pc.p].place.Listed? && s.queues[x.pc.p].owner == c && s.queues[x.pc.p].worker.NoWorker?)
    && (x.pc.Checking? ==> x.pc.i <= |s.list|)
  }

  ghost predicate PoolOk(s: State) {
    && (forall i :: 0 <= i < |s.list| ==> s.list[i] < |s.queues|)
    && Distinct(s.list)
    && (forall i :: 0 <= i < |s.gone| ==> s.gone[i] < |s.queues|)
    && Distinct(s.gone)
    && (s.joiner.HoldsPool() <==> s.lock == PJoiner)
    && (s.lock.PSubmitter? ==> s.lock.c < |s.submitters|)
    && (forall c :: c in s.sections ==> c < |s.submitters|)
    && s.count + (if s.lock.PSubmitter? && s.lock.c < |s.submitters| && s.submitters[s.lock.c].pc.Published? then 1 else 0)
         == |s.list| + |s.gone|
    && (s.joiner.Scanning? ==> s.joiner.i <= |s.list|)
    && (s.joiner.HoldsQueue() ==> s.joiner.q < |s.queues| && s.joiner.i <= |s.list|)
    && (s.joiner.Examining? ==> s.joiner.i < |s.list| && s.list[s.joiner.i] == s.joiner.q)
    && (s.joiner.Waiting? || s.joiner.Clearing? || s.joiner.Releasing? ==> s.queues[s.joiner.q].place.Delisted?)
    && (s.joiner.Freed? ==> s.joiner.q in s.gone)
    && (s.joiner.Resting? ==> s.gone == [])
  }

  /** Every submission so far is with its submitter or has been put in a queue. */
  ghost predicate WorksOk(s: State) {
    && (forall w: nat :: w in s.where <==> w < s.nextWork)
    && (forall w :: w in s.where ==>
          match s.where[w]
          case InHandOf(c) => c < |s.submitters| && s.submitters[c].pc.InHand() && s.submitters[c].work == w
          case InQueue(q) => q < |s.queues| && Public(s.queues[q]))
  }

  ghost predicate Inv(s: State) {
    && PoolOk(s) && WorksOk(s)
    && (forall q :: 0 <= q < |s.queues| ==> QueueIn(s, q))
    && (forall c :: 0 <= c < |s.submitters| ==> SubmitterIn(s, c))
  }

  lemma InitInv(s: State)
    requires Init(s)
    ensures Inv(s)
  {
  }

  // ---------------------------------------------------------------- frames

  predicate Concerns(j: Joiner, q: nat) {
    j.HoldsQueue() || j.Freed? ==> j.q == q
  }

  /** Between the states only queue `q`, submitter `c`, its work and the joiner's interest in `q`
      change, as far as other queues can tell; an index past the end stands for none. */
  ghost predicate Frame(s: State, s': State, q: nat, c: nat) {
    && |s'.submitters| == |s.submitters| && s.nextWork <= s'.nextWork
    && (|s'.queues| == |s.queues| || (|s'.queues| == |s.queues| + 1 && q == |s.queues|))
    && (s'.joiner == s.joiner || (Concerns(s.joiner, q) && Concerns(s'.joiner, q)))
    && (forall p :: 0 <= p < |s.queues| && p != q ==> s'.queues[p] == s.queues[p])
    && (forall p :: p != q ==> (p in s'.list <==> p in s.list) && (p in s'.gone <==> p in s.gone))
    && (forall d :: 0 <= d < |s.submitters| && d != c ==> s'.submitters[d].pc == s.submitters[d].pc)
    && (c < |s.submitters| && s.submitters[c].pc.HoldsQueue() ==> s.submitters[c].pc.q == q)
    && Moved(s.where, s'.where, q, c)
  }

  /** At most one work changes its place: it comes into the hand of `c`, or goes to `q`. */
  ghost predicate Moved(where: map<nat, Where>, where': map<nat, Where>, q: nat, c: nat) {
    || where' == where
    || exists w: nat ::
         && (w in where ==> where[w] == InHandOf(c))
         && (where' == where[w := InHandOf(c)] || where' == where[w := InQueue(q)])
  }

  lemma OtherQueue(s: State, s': State, q: nat, c: nat, p: nat)
    requires Inv(s) && Frame(s, s', q, c) && p < |s.queues| && p != q
    ensures QueueIn(s', p)
  {
    hide QueueOk, Mask, PoolOk, WorksOk, SubmitterIn;
    assert QueueIn(s, p);
  }

  /** What a submitter sees of a change to a queue. */
  predicate Seen(x: Queue, x': Queue, d: nat) {
    && (x.place.Listed? ==> x'.place.Listed?) && x'.seers == x.seers && x'.owner == x.owner && x'.cpu == x.cpu
    && (x.owner == d && x.place.Private? ==> x'.place.Private? && x'.inserted == x.inserted)
    && (x.owner == d && x.worker.NoWorker? ==> x'.worker.NoWorker?)
    && (x.lock == QSubmitter(d) ==> x'.lock == x.lock && x'.count == x.count && x'.items == x.items)
  }

  /** Nor can another submitter tell. */
  ghost predicate Unnoticed(s: State, s': State, q: nat, c: nat, d: nat) {
    && d < |s.submitters| == |s'.submitters| && s'.submitters[d] == s.submitters[d]
    && (q < |s.queues| <= |s'.queues| ==> Seen(s.queues[q], s'.queues[q], d))
    && (s'.lock == PSubmitter(d) <==> s.lock == PSubmitter(d))
    && (s.lock == PSubmitter(d) ==> s'.list == s.list)
    && (d in s'.sections <==> d in s.sections)
    && (s.joiner.Waiting? && d in s.sections ==> s'.joiner == s.joiner)
  }

  lemma OtherSubmitter(s: State, s': State, q: nat, c: nat, d: nat)
    requires Inv(s) && Frame(s, s', q, c) && d != c && Unnoticed(s, s', q, c, d)
    ensures SubmitterIn(s', d)
  {
    hide QueueOk, Mask, PoolOk, WorksOk, QueueIn;
    assert SubmitterIn(s, d);
  }

  lemma StepFrame(s: State, s': State, q: nat, c: nat)
    requires Inv(s) && Frame(s, s', q, c) && PoolOk(s') && WorksOk(s')
    requires forall d :: 0 <= d < |s.submitters| && d != c ==> Unnoticed(s, s', q, c, d)
    requires q < |s'.queues| ==> QueueIn(s', q)
    requires c < |s'.submitters| ==> SubmitterIn(s', c)
    ensures Inv(s')
  {
    hide PoolOk, WorksOk, QueueIn, SubmitterIn, Unnoticed, Moved;
    forall p | 0 <= p < |s'.queues| ensures QueueIn(s', p) {
      if p != q {
        OtherQueue(s, s', q, c, p);
      }
    }
    forall d | 0 <= d < |s'.submitters| ensures SubmitterIn(s', d) {
      if d != c {
        OtherSubmitter(s, s', q, c, d);
      }
    }
  }

  /** A step of submitter `c` on queue `q` that moves no work and leaves the pool alone. */
  ghost predicate Local(s: State, s': State, q: nat, c: nat) {
    && c < |s.submitters| == |s'.submitters| && q < |s.queues| == |s'.queues|
    && s' == s.(queues := s'.queues, submitters := s'.submitters)
    && (forall d :: 0 <= d < |s.submitters| && d != c ==> s'.submitters[d] == s.submitters[d])
    && (forall p :: 0 <= p < |s.queues| && p != q ==> s'.queues[p] == s.queues[p])
    && var x, x' := s.submitters[c], s'.submitters[c];
       && (x'.pc.HoldsPool() <==> x.pc.HoldsPool()) && !x.pc.Published? && !x'.pc.Published?
       && (x'.pc.InHand() <==> x.pc.InHand()) && x'.work == x.work && (x.pc.HoldsQueue() ==> x.pc.q == q)
       && (Public(s.queues[q]) ==> s'.queues[q].place == s.queues[q].place)
       && (forall d :: d != c ==> Seen(s.queues[q], s'.queues[q], d))
  }

  lemma LocalFrame(s: State, s': State, q: nat, c: nat)
    requires Inv(s) && Local(s, s', q, c) && QueueIn(s', q) && SubmitterIn(s', c)
    ensures Inv(s')
  {
    hide QueueIn, SubmitterIn, QueueOk, Mask, CanMeet, Seen;
    LocalPool(s, s', q, c);
    LocalWorks(s, s', q, c);
    StepFrame(s, s', q, c);
  }

  lemma LocalPool(s: State, s': State, q: nat, c: nat)
    requires Inv(s) && Local(s, s', q, c)
    ensures PoolOk(s')
  {
    hide QueueIn, QueueOk, Mask, CanMeet, Seen, WorksOk, SubmitterIn;
  }

  lemma LocalWorks(s: State, s': State, q: nat, c: nat)
    requires Inv(s) && Local(s, s', q, c)
    ensures WorksOk(s')
  {
    hide QueueIn, QueueOk, Mask, CanMeet, PoolOk, SubmitterIn;
  }

  // ---------------------------------------------------------------- steps of a worker

  lemma WorkerQueue(x: Queue, act: WorkerAct)
    requires QueueOk(x) && WorkerReady(x, act)
    ensures QueueOk(WorkerNext(x, act)) && Unaffected(x, WorkerNext(x, act))
  {
    if act.Look? && x.items != [] {
      assert x.started + [x.items[0]] + x.items[1..] == x.inserted;
    }
  }

  /** What everybody but the worker sees of a worker's step. */
  predicate Unaffected(x: Queue, x': Queue) {
    && x'.place == x.place && x'.owner == x.owner && x'.inserted == x.inserted && x'.cpu == x.cpu && x'.active == x.active
    && x'.seers == x.seers
    && (x'.worker.NoWorker? <==> x.worker.NoWorker?)
    && (x.lock.QSubmitter? || x.lock.QJoiner? || x'.lock.QSubmitter? || x'.lock.QJoiner? ==>
          x'.lock == x.lock && x'.count == x.count && x'.items == x.items)
  }

  lemma WorkerInv(s: State, q: nat, act: WorkerAct)
    requires Inv(s) && WorkerEnabled(s, q, act)
    ensures Inv(Next(s, W(q, act)))
  {
    hide QueueOk, Mask, WorkerNext, WorkerReady, SubmitterIn;
    assert QueueIn(s, q);
    WorkerQueue(s.queues[q], act);
    StepFrame(s, Next(s, W(q, act)), q, |s.submitters|);
  }

  // ---------------------------------------------------------------- steps of a submitter

  lemma SubmitInv(s: State, c: nat, act: SubmitterAct)
    requires Inv(s) && act.Submit? && SubmitterEnabled(s, c, act)
    ensures Inv(SubmitterNext(s, c, act))
  {
    hide QueueOk, Mask, QueueIn, CanMeet;
    assert SubmitterIn(s, c);
    StepFrame(s, SubmitterNext(s, c, act), |s.queues|, c);
  }

  lemma WalkInv(s: State, c: nat, act: SubmitterAct)
    requires Inv(s) && (act.Hit? || act.Miss? || act.Leave?) && SubmitterEnabled(s, c, act)
    ensures Inv(SubmitterNext(s, c, act))
  {
    hide QueueOk, Mask, QueueIn, SubmitterIn;
    WalkSelf(s, c, act);
    StepFrame(s, SubmitterNext(s, c, act), |s.queues|, c);
  }

  lemma WalkSelf(s: State, c: nat, act: SubmitterAct)
    requires Inv(s) && (act.Hit? || act.Miss? || act.Leave?) && SubmitterEnabled(s, c, act)
    ensures SubmitterIn(SubmitterNext(s, c, act), c) && s.lock != PSubmitter(c)
  {
    hide QueueOk, Mask, QueueIn, PoolOk, WorksOk;
    assert SubmitterIn(s, c);
  }

  lemma PoolLockInv(s: State, c: nat, act: SubmitterAct)
    requires Inv(s) && (act.TakePool? || act.Check? || act.DropPool? || act.CountPool?) && SubmitterEnabled(s, c, act)
    ensures Inv(SubmitterNext(s, c, act))
  {
    hide QueueOk, Mask, QueueIn, SubmitterIn, PoolOk;
    PoolLockSelf(s, c, act);
    PoolLockPool(s, c, act);
    StepFrame(s, SubmitterNext(s, c, act), |s.queues|, c);
  }

  lemma PoolLockSelf(s: State, c: nat, act: SubmitterAct)
    requires Inv(s) && (act.TakePool? || act.Check? || act.DropPool? || act.CountPool?) && SubmitterEnabled(s, c, act)
    ensures SubmitterIn(SubmitterNext(s, c, act), c)
    ensures s.lock == if act.TakePool? then PFree else PSubmitter(c)
  {
    hide QueueOk, Mask, QueueIn, PoolOk, WorksOk;
    assert SubmitterIn(s, c);
  }

  lemma PoolLockPool(s: State, c: nat, act: SubmitterAct)
    requires Inv(s) && (act.TakePool? || act.Check? || act.DropPool? || act.CountPool?) && SubmitterEnabled(s, c, act)
    ensures PoolOk(SubmitterNext(s, c, act))
  {
    hide QueueOk, Mask, QueueIn, WorksOk;
    assert SubmitterIn(s, c);
  }

  /** Steps on a queue that the submitter has found. */
  lemma LockInv(s: State, c: nat, act: SubmitterAct)
    requires Inv(s) && (act.TakeQueue? || act.CountUp? || act.DropQueue?) && SubmitterEnabled(s, c, act)
    ensures Inv(SubmitterNext(s, c, act))
  {
    hide Mask, QueueIn, QueueOk, CanMeet;
    FoundQueue(s, c);
    LockQueue(s, c, act);
    LockSelf(s, c, act);
    assert SubmitterIn(s, c);
    LocalFrame(s, SubmitterNext(s, c, act), s.submitters[c].pc.q, c);
  }

  /** At such a step the queue is public and its lock free or with the submitter. */
  lemma FoundQueue(s: State, c: nat)
    requires Inv(s) && c < |s.submitters|
    requires s.submitters[c].pc.HoldsQueue() || SubmitterEnabled(s, c, TakeQueue)
    ensures var x := s.submitters[c];
            && x.pc.q < |s.queues| && Public(s.queues[x.pc.q]) && QueueOk(s.queues[x.pc.q])
            && s.queues[x.pc.q].lock == (if x.pc.HoldsQueue() then QSubmitter(c) else QFree)
            && (s.queues[x.pc.q].place.Listed? || (x.pc.InSection() && x.work in s.queues[x.pc.q].seers))
  {
    assert SubmitterIn(s, c);
    assert QueueIn(s, s.submitters[c].pc.q);
  }

  lemma LockQueue(s: State, c: nat, act: SubmitterAct)
    requires Inv(s) && (act.TakeQueue? || act.CountUp? || act.DropQueue?) && SubmitterEnabled(s, c, act)
    ensures QueueIn(SubmitterNext(s, c, act), s.submitters[c].pc.q)
  {
    hide Inv, QueueIn, SubmitterNext, SubmitterEnabled;
    match act
    case TakeQueue => QueueTaken(s, c);
    case CountUp => QueueCounted(s, c);
    case DropQueue => QueueDropped(s, c);
  }

  lemma QueueTaken(s: State, c: nat)
    requires Inv(s) && SubmitterEnabled(s, c, TakeQueue)
    ensures QueueIn(SubmitterNext(s, c, TakeQueue), s.submitters[c].pc.q)
  {
    hide Mask, PoolOk, WorksOk, CanMeet;
    FoundQueue(s, c);
    assert SubmitterIn(s, c) && QueueIn(s, s.submitters[c].pc.q);
  }

  lemma QueueCounted(s: State, c: nat)
    requires Inv(s) && SubmitterEnabled(s, c, CountUp)
    ensures QueueIn(SubmitterNext(s, c, CountUp), s.submitters[c].pc.q)
  {
    hide Mask, PoolOk, WorksOk, CanMeet;
    FoundQueue(s, c);
    assert SubmitterIn(s, c) && QueueIn(s, s.submitters[c].pc.q);
  }

  lemma QueueDropped(s: State, c: nat)
    requires Inv(s) && SubmitterEnabled(s, c, DropQueue)
    ensures QueueIn(SubmitterNext(s, c, DropQueue), s.submitters[c].pc.q)
  {
    hide Mask, PoolOk, WorksOk, CanMeet;
    FoundQueue(s, c);
    assert SubmitterIn(s, c) && QueueIn(s, s.submitters[c].pc.q);
  }

  lemma LockSelf(s: State, c: nat, act: SubmitterAct)
    requires Inv(s) && (act.TakeQueue? || act.CountUp? || act.DropQueue?) && SubmitterEnabled(s, c, act)
    ensures SubmitterIn(SubmitterNext(s, c, act), c)
  {
    hide Mask, PoolOk, WorksOk, QueueIn, CanMeet;
    FoundQueue(s, c);
    assert SubmitterIn(s, c);
  }

  /** Linking a work into a queue: it leaves the submitter's hand for that queue alone. */
  lemma LinkInv(s: State, c: nat)
    requires Inv(s) && SubmitterEnabled(s, c, Link)
    ensures Inv(SubmitterNext(s, c, Link))
  {
    hide Mask, QueueIn, QueueOk, CanMeet, SubmitterIn, PoolOk, WorksOk;
    FoundQueue(s, c);
    LinkQueue(s, c);
    LinkSelf(s, c);
    LinkWorks(s, c);
    StepFrame(s, SubmitterNext(s, c, Link), s.submitters[c].pc.q, c);
  }

  lemma LinkWorks(s: State, c: nat)
    requires Inv(s) && SubmitterEnabled(s, c, Link)
    ensures PoolOk(SubmitterNext(s, c, Link)) && WorksOk(SubmitterNext(s, c, Link))
    ensures var w := s.submitters[c].work; w in s.where && s.where[w] == InHandOf(c)
  {
    hide Mask, QueueIn, QueueOk, CanMeet;
    FoundQueue(s, c);
    assert SubmitterIn(s, c);
  }

  lemma LinkQueue(s: State, c: nat)
    requires Inv(s) && SubmitterEnabled(s, c, Link)
    ensures QueueIn(SubmitterNext(s, c, Link), s.submitters[c].pc.q)
  {
    hide Mask, PoolOk, WorksOk, CanMeet, QueueOk, Public;
    FoundQueue(s, c);
    LinkedOk(s, c);
    assert SubmitterIn(s, c) && QueueIn(s, s.submitters[c].pc.q);
    assert s.submitters[c].work !in s.queues[s.submitters[c].pc.q].inserted;
  }

  lemma LinkedOk(s: State, c: nat)
    requires Inv(s) && SubmitterEnabled(s, c, Link)
    ensures QueueOk(SubmitterNext(s, c, Link).queues[s.submitters[c].pc.q])
  {
    hide Mask, PoolOk, WorksOk, CanMeet, QueueIn, SubmitterIn;
    FoundQueue(s, c);
    var x, w := s.queues[s.submitters[c].pc.q], s.submitters[c].work;
    assert x.started + x.items + [w] == x.started + (x.items + [w]);
  }

  lemma LinkSelf(s: State, c: nat)
    requires Inv(s) && SubmitterEnabled(s, c, Link)
    ensures SubmitterIn(SubmitterNext(s, c, Link), c)
  {
    hide Mask, PoolOk, WorksOk, QueueIn, CanMeet;
    FoundQueue(s, c);
    assert SubmitterIn(s, c);
    assert SubmitterNext(s, c, Link).submitters[c].pc.q == s.submitters[c].pc.q;
  }

  lemma PrepareInv(s: State, c: nat, act: SubmitterAct)
    requires Inv(s) && act.Prepare? && SubmitterEnabled(s, c, act)
    ensures Inv(SubmitterNext(s, c, act))
  {
    hide Mask, CanMeet;
    var s', q := SubmitterNext(s, c, act), |s.queues|;
    assert SubmitterIn(s, c);
    NotYet(s);
    assert QueueIn(s', q);
    StepFrame(s, s', q, c);
  }

  /** There is nothing about a queue that has not been allocated. */
  lemma NotYet(s: State)
    requires Inv(s)
    ensures |s.queues| !in s.list && |s.queues| !in s.gone && !(s.joiner.HoldsQueue() && s.joiner.q == |s.queues|)
    ensures s.joiner != Freed(|s.queues|)
  {
    hide Mask, QueueIn, SubmitterIn, WorksOk;
  }

  /** Steps on the preallocated queue. */
  lemma OwnInv(s: State, c: nat, act: SubmitterAct)
    requires Inv(s) && (act.Spawn? || act.Free?) && SubmitterEnabled(s, c, act)
    ensures Inv(SubmitterNext(s, c, act))
  {
    hide Mask, CanMeet, QueueIn, QueueOk;
    OwnQueue(s, c, act);
    assert SubmitterIn(s, c);
    LocalFrame(s, SubmitterNext(s, c, act), s.submitters[c].pc.p, c);
  }

  lemma PublishInv(s: State, c: nat)
    requires Inv(s) && SubmitterEnabled(s, c, Publish)
    ensures Inv(SubmitterNext(s, c, Publish))
  {
    hide Mask, CanMeet, QueueIn, QueueOk, SubmitterIn, PoolOk, WorksOk;
    OwnQueue(s, c, Publish);
    PublishPool(s, c);
    PublishWorks(s, c);
    PublishSelf(s, c);
    StepFrame(s, SubmitterNext(s, c, Publish), s.submitters[c].pc.p, c);
  }

  lemma PublishPool(s: State, c: nat)
    requires Inv(s) && SubmitterEnabled(s, c, Publish)
    ensures PoolOk(SubmitterNext(s, c, Publish))
  {
    hide Mask, CanMeet, QueueIn, QueueOk, WorksOk;
    OwnQueue(s, c, Publish);
    assert SubmitterIn(s, c);
  }

  lemma PublishWorks(s: State, c: nat)
    requires Inv(s) && SubmitterEnabled(s, c, Publish)
    ensures WorksOk(SubmitterNext(s, c, Publish))
    ensures var w := s.submitters[c].work; w in s.where && s.where[w] == InHandOf(c)
  {
    hide Mask, CanMeet, QueueIn, QueueOk, PoolOk;
    assert SubmitterIn(s, c);
  }

  lemma PublishSelf(s: State, c: nat)
    requires Inv(s) && SubmitterEnabled(s, c, Publish)
    ensures SubmitterIn(SubmitterNext(s, c, Publish), c) && s.lock == PSubmitter(c)
  {
    hide Mask, CanMeet, PoolOk, WorksOk;
    assert SubmitterIn(s, c);
    assert QueueIn(s, s.submitters[c].pc.p);
  }

  lemma OwnQueue(s: State, c: nat, act: SubmitterAct)
    requires Inv(s) && (act.Publish? || act.Spawn? || act.Free?) && SubmitterEnabled(s, c, act)
    ensures var p := s.submitters[c].pc.p;
            && QueueIn(SubmitterNext(s, c, act), p) && s.queues[p].owner == c && !Out(s.queues[p])
            && (act.Spawn? || (p !in s.list && p !in s.gone)) && (act.Free? ==> s.queues[p].lock == QFree)
  {
    hide Mask, CanMeet, PoolOk, QueueIn, QueueOk, SubmitterNext, SubmitterEnabled;
    OwnFacts(s, c, act);
    OwnNext(s, c, act);
  }

  lemma OwnFacts(s: State, c: nat, act: SubmitterAct)
    requires Inv(s) && (act.Publish? || act.Spawn? || act.Free?) && SubmitterEnabled(s, c, act)
    ensures var p := s.submitters[c].pc.p;
            && s.queues[p].owner == c && !Out(s.queues[p])
            && (act.Spawn? || (p !in s.list && p !in s.gone)) && (act.Free? ==> s.queues[p].lock == QFree)
  {
    hide Mask, CanMeet, PoolOk, WorksOk;
    assert SubmitterIn(s, c);
    assert QueueIn(s, s.submitters[c].pc.p);
  }

  lemma OwnNext(s: State, c: nat, act: SubmitterAct)
    requires Inv(s) && (act.Publish? || act.Spawn? || act.Free?) && SubmitterEnabled(s, c, act)
    ensures QueueIn(SubmitterNext(s, c, act), s.submitters[c].pc.p)
  {
    hide Mask, CanMeet, PoolOk;
    assert SubmitterIn(s, c);
    assert QueueIn(s, s.submitters[c].pc.p);
  }

  // ---------------------------------------------------------------- steps of the joiner

  /** Steps that touch no queue. */
  lemma JoinerSimpleInv(s: State, act: JoinerAct)
    requires Inv(s) && (act.Start? || act.Stop? || act.Rest?) && JoinerEnabled(s, act)
    ensures Inv(JoinerNext(s, act))
  {
    hide QueueOk, Mask, QueueIn;
    if s.lock.PSubmitter? {
      assert SubmitterIn(s, s.lock.c);
    }
    StepFrame(s, JoinerNext(s, act), |s.queues|, |s.submitters|);
  }

  /** Steps on a queue that keep it in or out of the pool. */
  lemma JoinerLockInv(s: State, act: JoinerAct)
    requires Inv(s) && JoinerEnabled(s, act)
    requires act.Lock? || act.Synchronized? || act.Clear? || act.Unlock? || (act.Decide? && s.queues[s.joiner.q].count != 0)
    ensures Inv(JoinerNext(s, act))
  {
    hide Mask, SubmitterIn, QueueIn, QueueOk, PoolOk, WorksOk;
    JoinerPool(s, act);
    var q := if act.Lock? then s.list[s.joiner.i] else s.joiner.q;
    LockedQueue(s, act, q);
    StepFrame(s, JoinerNext(s, act), q, |s.submitters|);
  }

  lemma JoinerPool(s: State, act: JoinerAct)
    requires Inv(s) && JoinerEnabled(s, act)
    requires act.Lock? || act.Synchronized? || act.Clear? || act.Unlock? || (act.Decide? && s.queues[s.joiner.q].count != 0)
    ensures PoolOk(JoinerNext(s, act)) && WorksOk(JoinerNext(s, act))
  {
    hide Mask, SubmitterIn, QueueIn, QueueOk;
  }

  lemma LockedQueue(s: State, act: JoinerAct, q: nat)
    requires Inv(s) && JoinerEnabled(s, act)
    requires act.Lock? || act.Synchronized? || act.Clear? || act.Unlock? || (act.Decide? && s.queues[s.joiner.q].count != 0)
    requires q == if act.Lock? then s.list[s.joiner.i] else s.joiner.q
    ensures QueueIn(JoinerNext(s, act), q) && s.queues[q].lock in {QFree, QJoiner}
  {
    hide Mask, SubmitterIn, WorksOk;
    assert QueueIn(s, q);
  }

  lemma JoinInv(s: State, act: JoinerAct)
    requires Inv(s) && act.Join? && JoinerEnabled(s, act)
    ensures Inv(JoinerNext(s, act))
  {
    hide Mask, SubmitterIn;
    assert QueueIn(s, act.q);
    assert QueueIn(JoinerNext(s, act), act.q);
    StepFrame(s, JoinerNext(s, act), act.q, |s.submitters|);
  }

  lemma CountDownInv(s: State)
    requires Inv(s) && JoinerEnabled(s, CountPoolDown)
    ensures Inv(JoinerNext(s, CountPoolDown))
  {
    hide QueueOk, Mask, SubmitterIn;
    var s', q := JoinerNext(s, CountPoolDown), s.joiner.q;
    WithoutIs(s.gone, q);
    assert forall i :: 0 <= i < |s'.gone| ==> s'.gone[i] in s.gone;
    assert QueueIn(s, q);
    StepFrame(s, s', q, |s.submitters|);
  }

  lemma UnlinkFacts(s: State)
    requires Inv(s) && JoinerEnabled(s, Decide) && s.queues[s.joiner.q].count == 0
    ensures var q, i := s.joiner.q, s.joiner.i;
            && QueueOk(s.queues[q].(place := Delisted, seers := Missing(s))) && !s.queues[q].worker.NoWorker?
            && s.queues[q].place.Listed? && s.queues[q].lock == QJoiner && q !in s.gone && s.queues[q].items == []
            && QueueIn(s, q)
            && var r := Drop(s.list, i);
               && Distinct(r) && |r| == |s.list| - 1 && (forall x :: x in r <==> x in s.list && x != q)
  {
    assert QueueIn(s, s.joiner.q);
    DropIs(s.list, s.joiner.i);
  }

  lemma MissingWork(s: State, w: nat)
    requires Inv(s) && w in Missing(s)
    ensures w < s.nextWork
  {
    var c :| 0 <= c < |s.submitters| && s.submitters[c].pc.InSection() && s.submitters[c].stale && s.submitters[c].work == w;
    assert SubmitterIn(s, c);
  }

  lemma UnlinkQueues(s: State)
    requires Inv(s) && JoinerEnabled(s, Decide) && s.queues[s.joiner.q].count == 0
    ensures forall p :: 0 <= p < |s.queues| ==> QueueIn(JoinerNext(s, Decide), p)
  {
    var s', q := JoinerNext(s, Decide), s.joiner.q;
    UnlinkFacts(s);
    hide QueueOk, Mask, Missing, WaitedFor, SubmitterIn;
    forall w | w in Missing(s) ensures w < s.nextWork {
      MissingWork(s, w);
    }
    assert QueueIn(s', q);
    assert Frame(s, s', q, |s.submitters|);
    forall p | 0 <= p < |s.queues| ensures QueueIn(s', p) {
      if p != q {
        OtherQueue(s, s', q, |s.submitters|, p);
      }
    }
  }

  lemma UnlinkSubmitter(s: State, d: nat)
    requires Inv(s) && JoinerEnabled(s, Decide) && s.queues[s.joiner.q].count == 0 && d < |s.submitters|
    ensures SubmitterIn(JoinerNext(s, Decide), d)
  {
    UnlinkFacts(s);
    hide QueueOk, Mask, QueueIn, WorksOk;
    assert SubmitterIn(s, d);
  }

  lemma UnlinkInv(s: State)
    requires Inv(s) && JoinerEnabled(s, Decide) && s.queues[s.joiner.q].count == 0
    ensures Inv(JoinerNext(s, Decide))
  {
    UnlinkFacts(s);
    UnlinkQueues(s);
    forall d | 0 <= d < |s.submitters| ensures SubmitterIn(JoinerNext(s, Decide), d) {
      UnlinkSubmitter(s, d);
    }
    hide QueueOk, Mask, QueueIn, SubmitterIn, Missing, WaitedFor;
  }

  // ---------------------------------------------------------------- runs

  lemma NextInv(s: State, a: Step)
    requires Inv(s) && Enabled(s, a)
    ensures Inv(Next(s, a))
  {
    hide Inv, SubmitterNext, JoinerNext;
    match a
    case W(q, act) => WorkerInv(s, q, act);
    case S(c, Submit(_, _)) => SubmitInv(s, c, a.act);
    case S(c, TakeQueue) => LockInv(s, c, a.act);
    case S(c, Link) => LinkInv(s, c);
    case S(c, CountUp) => LockInv(s, c, a.act);
    case S(c, DropQueue) => LockInv(s, c, a.act);
    case S(c, Prepare(_)) => PrepareInv(s, c, a.act);
    case S(c, Publish) => PublishInv(s, c);
    case S(c, Spawn) => OwnInv(s, c, a.act);
    case S(c, Free) => OwnInv(s, c, a.act);
    case S(c, TakePool) => PoolLockInv(s, c, a.act);
    case S(c, Check) => PoolLockInv(s, c, a.act);
    case S(c, DropPool) => PoolLockInv(s, c, a.act);
    case S(c, CountPool) => PoolLockInv(s, c, a.act);
    case S(c, _) => WalkInv(s, c, a.act);
    case J(Start) => JoinerSimpleInv(s, a.jact);
    case J(Stop) => JoinerSimpleInv(s, a.jact);
    case J(Rest) => JoinerSimpleInv(s, a.jact);
    case J(Join(_)) => JoinInv(s, a.jact);
    case J(CountPoolDown) => CountDownInv(s);
    case J(Decide) => if s.queues[s.joiner.q].count == 0 { UnlinkInv(s); } else { JoinerLockInv(s, a.jact); }
    case J(_) => JoinerLockInv(s, a.jact);
  }

  lemma {:induction false} RunInv(ss: seq<State>, steps: seq<Step>, i: nat)
    requires |ss| > 0 && Init(ss[0]) && Run(ss, steps) && i < |ss|
    ensures Inv(ss[i])
  {
    hide Init, Inv, Enabled, Next;
    if i == 0 {
      InitInv(ss[0]);
    } else {
      RunInv(ss, steps, i - 1);
      NextInv(ss[i - 1], steps[i - 1]);
    }
  }

  // ---------------------------------------------------------------- what the pool guarantees

  ghost predicate WithSubmitter(s: State, w: nat, c: nat) {
    c < |s.submitters| && s.submitters[c].pc.InHand() && s.submitters[c].work == w
  }

  ghost predicate QueuedIn(s: State, w: nat, q: nat) {
    q < |s.queues| && Public(s.queues[q]) && w in s.queues[q].inserted
  }

  /** Conservation: every submission is in exactly one place, with one submitter or in one queue
      of the pool; a submitter that loses the race to create a queue leaves its work in the
      winner's queue only. */
  lemma OnePlace(ss: seq<State>, steps: seq<Step>, i: nat, w: nat)
    requires |ss| > 0 && Init(ss[0]) && Run(ss, steps) && i < |ss| && w < ss[i].nextWork
    ensures (exists c :: WithSubmitter(ss[i], w, c)) <==> !(exists q :: QueuedIn(ss[i], w, q))
    ensures forall c, d :: WithSubmitter(ss[i], w, c) && WithSubmitter(ss[i], w, d) ==> c == d
    ensures forall q, p :: QueuedIn(ss[i], w, q) && QueuedIn(ss[i], w, p) ==> q == p
  {
    RunInv(ss, steps, i);
    var s := ss[i];
    hide QueueOk, PoolOk;
    assert w in s.where;
    forall c | WithSubmitter(s, w, c) ensures s.where[w] == InHandOf(c) {
      assert SubmitterIn(s, c);
    }
    forall q | QueuedIn(s, w, q) ensures s.where[w] == InQueue(q) {
      assert QueueIn(s, q);
    }
    if s.where[w].InQueue? {
      assert QueueIn(s, s.where[w].q);
      assert QueuedIn(s, w, s.where[w].q);
    } else {
      assert WithSubmitter(s, w, s.where[w].c);
    }
  }

  /** Within its queue a work is exactly one of waiting, with the worker and done, and a queue's
      works are started and done in the order in which they were put in: done, then the one with
      the worker, then the waiting ones are all the works put in, each of them once. */
  lemma FifoQueue(ss: seq<State>, steps: seq<Step>, i: nat, q: nat)
    requires |ss| > 0 && Init(ss[0]) && Run(ss, steps) && i < |ss|
    requires q < |ss[i].queues| && Public(ss[i].queues[q])
    ensures var x := ss[i].queues[q];
            && x.inserted == x.done + (if x.worker.Busy() then [x.worker.w] else []) + x.items
            && forall j, k :: 0 <= j < k < |x.inserted| ==> x.inserted[j] != x.inserted[k]
  {
    RunInv(ss, steps, i);
    assert QueueIn(ss[i], q);
  }

  /** The counters, whenever the lock that protects them is free, and the warnings: the one about
      an inactive queue comes up exactly for a work of a section that the joiner's grace period
      did not wait for. */
  lemma Counters(ss: seq<State>, steps: seq<Step>, i: nat)
    requires |ss| > 0 && Init(ss[0]) && Run(ss, steps) && i < |ss|
    ensures ss[i].lock.PFree? ==> ss[i].count == |ss[i].list| + |ss[i].gone|
    ensures forall q :: 0 <= q < |ss[i].queues| ==>
              var x := ss[i].queues[q];
              && (x.lock.QFree? ==> x.count == |x.items|)
              && (x.worker.Looking? && x.items == [] ==> x.count == 0)
    ensures forall c :: 0 <= c < |ss[i].submitters| && ss[i].submitters[c].pc.HoldsQueue() ==>
              var x := ss[i].submitters[c];
              && x.pc.q < |ss[i].queues|
              && (ss[i].queues[x.pc.q].active <==> x.work !in ss[i].queues[x.pc.q].seers)
              && (!x.pc.InSection() ==> ss[i].queues[x.pc.q].active)
  {
    RunInv(ss, steps, i);
    forall q | 0 <= q < |ss[i].queues| ensures QueueOk(ss[i].queues[q]) {
      assert QueueIn(ss[i], q);
    }
    forall c | 0 <= c < |ss[i].submitters| && ss[i].submitters[c].pc.HoldsQueue()
      ensures var x := ss[i].submitters[c];
              && x.pc.q < |ss[i].queues|
              && (ss[i].queues[x.pc.q].active <==> x.work !in ss[i].queues[x.pc.q].seers)
              && (!x.pc.InSection() ==> ss[i].queues[x.pc.q].active)
    {
      FoundQueue(ss[i], c);
      assert QueueIn(ss[i], ss[i].submitters[c].pc.q);
    }
  }

  // ---------------------------------------------------------------- putting runs together

  lemma JoinRuns(ss: seq<State>, steps: seq<Step>, ts: seq<State>, more: seq<Step>)
    requires Run(ss, steps) && Run(ts, more) && ss[|ss| - 1] == ts[0]
    ensures Run(ss + ts[1..], steps + more)
    ensures (ss + ts[1..])[0] == ss[0] && (ss + ts[1..])[|steps| + |more|] == ts[|more|]
  {
    hide Enabled, Next;
    var us, all := ss + ts[1..], steps + more;
    assert forall i :: |steps| <= i < |us| ==> us[i] == ts[i - |steps|];
    forall i | 0 <= i < |all| ensures Enabled(us[i], all[i]) && us[i + 1] == Next(us[i], all[i]) {
      if i < |steps| {
        assert all[i] == steps[i];
      } else {
        assert all[i] == more[i - |steps|];
      }
    }
  }

  /** A run from any state on that satisfies the invariant keeps it. */
  lemma {:induction false} InvFrom(ss: seq<State>, steps: seq<Step>, i: nat)
    requires Run(ss, steps) && Inv(ss[0]) && i < |ss|
    ensures Inv(ss[i])
  {
    hide Inv, Enabled, Next;
    if i > 0 {
      InvFrom(ss, steps, i - 1);
      NextInv(ss[i - 1], steps[i - 1]);
    }
  }
}
