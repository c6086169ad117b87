/** Clusters of thread groups (`src/thread/thread.c`): threads meet at a barrier between their
    `init` and their `func`, and the groups of an asynchronous run share the barrier object, which
    the auto-join work and `mthpc_thread_async_wait` give up group by group. A synchronous run is
    the part without lister, joiner and waiters. */
module ThreadCluster {
  import opened Seqs
  import B = Barrier

  /** Where a thread is in `__mthpc_thread_worker`. */
  datatype Stage =
    | Absent
    | Initialising
    | Ready               // next: is there a barrier object?
    | Seen                // next: load its reference count
    | Sampled(n: int)     // next: enter the barrier for that number of threads
    | AtBarrier
    | Working
    | Cleaned

  /** Where a call of `mthpc_group_put_barrier_object` is: its next action. */
  datatype Put = Check | Subtract | Release | Clear | Finished

  datatype Joiner = Asleep | Scanning | Putting(g: nat, put: Put)

  /** The caller of `mthpc_thread_async_wait`, for one group. */
  datatype Waiter = NotCalled | Delisting | Polling | WPut(put: Put)

  datatype Lock = Free | ByJoiner | ByWaiter(g: nat)

  /** `made`: 0 before the run, 1 when listed, 2 when the barrier object is set. History: `puts`
      counts the subtractions from the reference count. */
  datatype Group = Group(nr: nat, exited: nat, hasObject: bool, made: nat, listed: bool, waiter: Waiter, puts: nat)

  /** `team[t]` is the group of thread `t`. History: `freed` counts the frees of the object. */
  datatype State = State(
    barrier: B.State,
    stages: seq<Stage>,
    team: seq<nat>,
    groups: seq<Group>,
    joiner: Joiner,
    lock: Lock,
    refcount: int,
    freed: nat)

  datatype Step =
    | ListGroup(g: nat) | SetObject(g: nat) | Create(t: nat)
    | FinishInit(t: nat) | CheckObject(t: nat) | LoadCount(t: nat) | EnterBarrier(t: nat) | InBarrier(a: B.Step) | StartFunc(t: nat) | CleanUp(t: nat)
    | JoinerLock | JoinerTake(g: nat) | JoinerPut | JoinerUnlock
    | WaiterLock(g: nat) | WaiterDelist(g: nat) | WaiterGo(g: nat) | WaiterPut(g: nat)

  // ---------------------------------------------------------------- specification

  /** The threads of group `g` among the first `n`. */
  function Members(team: seq<nat>, g: nat): set<nat> {
    set t | 0 <= t < |team| && team[t] == g
  }

  function Done(s: State, g: nat): set<nat> {
    set t | 0 <= t < |s.team| && t < |s.stages| && s.team[t] == g && s.stages[t] == Cleaned
  }

  /** What the groups that have not been put contribute to the reference count. */
  function Owed(groups: seq<Group>): nat {
    if groups == [] then 0
    else Owed(groups[..|groups| - 1]) + (var g := groups[|groups| - 1]; if g.puts == 0 then g.nr else 0)
  }

  predicate Init(s: State) {
    && B.Init(s.barrier)
    && |s.stages| == |s.team| == |s.barrier.threads|
    && (forall t :: 0 <= t < |s.stages| ==> s.stages[t] == Absent && s.team[t] < |s.groups|)
    && (forall g :: 0 <= g < |s.groups| ==>
          s.groups[g] == Group(s.groups[g].nr, 0, false, 0, false, NotCalled, 0)
          && s.groups[g].nr > 0 && s.groups[g].nr == |Members(s.team, g)|)
    && s.joiner == Asleep && s.lock == Free && s.refcount == Owed(s.groups) && s.freed == 0
  }

  /** A put of group `g` takes its next action. */
  function PutNext(s: State, g: nat, put: Put): (State, Put)
    requires g < |s.groups|
  {
    var x := s.groups[g];
    match put
    case Check => (s, if x.hasObject then Subtract else Finished)
    case Subtract =>
      (s.(refcount := s.refcount - x.nr, groups := s.groups[g := x.(puts := x.puts + 1)]),
       if s.refcount - x.nr == 0 then Release else Clear)
    case Release => (s.(freed := s.freed + 1), Clear)
    case Clear => (s.(groups := s.groups[g := x.(hasObject := false)]), Finished)
    case Finished => (s, Finished)
  }

  predicate Enabled(s: State, a: Step) {
    match a
    case ListGroup(g) => g < |s.groups| && s.groups[g].made == 0 && s.lock.Free?
    case SetObject(g) => g < |s.groups| && s.groups[g].made == 1
    case Create(t) =>
      t < |s.stages| && t < |s.team| && s.team[t] < |s.groups| && s.stages[t].Absent? && s.groups[s.team[t]].made == 2
    case FinishInit(t) => t < |s.stages| && s.stages[t].Initialising?
    case CheckObject(t) => t < |s.stages| && t < |s.team| && s.team[t] < |s.groups| && s.stages[t].Ready?
    case LoadCount(t) => t < |s.stages| && s.stages[t].Seen?
    case EnterBarrier(t) =>
      t < |s.stages| && s.stages[t].Sampled? && s.stages[t].n >= 0 && B.Enabled(s.barrier, B.Enter(t, s.stages[t].n))
    case InBarrier(a) => !a.Enter? && B.Enabled(s.barrier, a)
    case StartFunc(t) =>
      t < |s.stages| && s.stages[t].AtBarrier? && t < |s.barrier.threads| && s.barrier.threads[t].pc.Out?
    case CleanUp(t) => t < |s.stages| && t < |s.team| && s.team[t] < |s.groups| && s.stages[t].Working?
    case JoinerLock => s.joiner.Asleep? && s.lock.Free?
    case JoinerTake(g) =>
      s.joiner.Scanning? && g < |s.groups| && s.groups[g].listed && s.groups[g].exited == s.groups[g].nr
    case JoinerPut => s.joiner.Putting? && s.joiner.g < |s.groups|
    case JoinerUnlock => s.joiner.Scanning?
    // The run call has returned, so all groups of the cluster have been made.
    case WaiterLock(g) =>
      g < |s.groups| && s.groups[g].waiter.NotCalled? && s.lock.Free?
      && forall h :: 0 <= h < |s.groups| ==> s.groups[h].made == 2
    case WaiterDelist(g) => g < |s.groups| && s.groups[g].waiter.Delisting?
    case WaiterGo(g) => g < |s.groups| && s.groups[g].waiter.Polling? && s.groups[g].exited == s.groups[g].nr
    case WaiterPut(g) => g < |s.groups| && s.groups[g].waiter.WPut? && !s.groups[g].waiter.put.Finished?
  }

  function Next(s: State, a: Step): State
    requires Enabled(s, a)
  {
    match a
    case ListGroup(g) => s.(groups := s.groups[g := s.groups[g].(made := 1, listed := true)])
    case SetObject(g) => s.(groups := s.groups[g := s.groups[g].(made := 2, hasObject := true)])
    case Create(t) => s.(stages := s.stages[t := Initialising])
    case FinishInit(t) => s.(stages := s.stages[t := Ready])
    case CheckObject(t) => s.(stages := s.stages[t := if s.groups[s.team[t]].hasObject then Seen else Working])
    // The number of participants is read from the reference count.
    case LoadCount(t) => s.(stages := s.stages[t := Sampled(s.refcount)])
    case EnterBarrier(t) =>
      s.(stages := s.stages[t := AtBarrier], barrier := B.Next(s.barrier, B.Enter(t, s.stages[t].n)))
    case InBarrier(a) => s.(barrier := B.Next(s.barrier, a))
    case StartFunc(t) => s.(stages := s.stages[t := Working])
    case CleanUp(t) =>
      var g := s.team[t];
      s.(stages := s.stages[t := Cleaned], groups := s.groups[g := s.groups[g].(exited := s.groups[g].exited + 1)])
    case JoinerLock => s.(joiner := Scanning, lock := ByJoiner)
    case JoinerTake(g) => s.(joiner := Putting(g, Check), groups := s.groups[g := s.groups[g].(listed := false)])
    case JoinerPut =>
      var (s', put) := PutNext(s, s.joiner.g, s.joiner.put);
      s'.(joiner := if put.Finished? then Scanning else Putting(s.joiner.g, put))
    case JoinerUnlock => s.(joiner := Asleep, lock := Free)
    case WaiterLock(g) => s.(groups := s.groups[g := s.groups[g].(waiter := Delisting)], lock := ByWaiter(g))
    case WaiterDelist(g) => s.(groups := s.groups[g := s.groups[g].(waiter := Polling, listed := false)], lock := Free)
    case WaiterGo(g) => s.(groups := s.groups[g := s.groups[g].(waiter := WPut(Check))])
    case WaiterPut(g) =>
      var (s', put) := PutNext(s, g, s.groups[g].waiter.put);
      s'.(groups := s'.groups[g := s'.groups[g].(waiter := WPut(put))])
  }

  predicate Run(ss: seq<State>, steps: seq<Step>) {
    && |ss| == |steps| + 1
    && forall i :: 0 <= i < |steps| ==> Enabled(ss[i], steps[i]) && ss[i + 1] == Next(ss[i], steps[i])
  }

  // ---------------------------------------------------------------- invariant

  predicate StageOk(s: State, t: nat)
    requires t < |s.stages| && t < |s.team| && t < |s.barrier.threads| && s.team[t] < |s.groups|
  {
    var x := s.barrier.threads[t];
    (s.stages[t].Absent? || s.groups[s.team[t]].made == 2) &&
    match s.stages[t]
    case Absent => x.entered == 0
    case Initialising => x.entered == 0
    case Ready => x.entered == 0
    case Seen => x.entered == 0
    case Sampled(n) => x.entered == 0 && n == |s.barrier.threads|
    case AtBarrier => x.entered == 1
    case Working => x.left == x.entered == 1
    case Cleaned => x.left == x.entered == 1
  }

  /** The put of `g` that is under way, if any. */
  function Underway(s: State, g: nat): Put
    requires g < |s.groups|
  {
    if s.joiner.Putting? && s.joiner.g == g then s.joiner.put
    else if s.groups[g].waiter.WPut? then s.groups[g].waiter.put
    else Finished
  }

  predicate GroupOk(s: State, g: nat)
    requires g < |s.groups|
  {
    var x := s.groups[g];
    var put := Underway(s, g);
    && x.nr > 0 && x.nr == |Members(s.team, g)| && x.exited == |Done(s, g)|
    && x.made <= 2 && (x.listed ==> x.waiter.NotCalled? || x.waiter.Delisting?)
    && (x.waiter.Delisting? <==> s.lock == ByWaiter(g))
    && (s.joiner.Putting? && s.joiner.g == g ==> x.waiter.NotCalled? && !x.listed && x.made == 2)
    && (!x.waiter.NotCalled? ==> x.made == 2)
    && ((!put.Finished? || x.puts > 0) ==> x.exited == x.nr)
    // Exactly one put of a group finds the object.
    && x.puts <= 1
    && (x.hasObject <==> x.made == 2 && (x.puts == 0 || put.Release? || put.Clear?))
    && (put.Subtract? ==> x.puts == 0 && x.hasObject)
    && (put.Release? || put.Clear? ==> x.puts == 1)
    && (put.Release? ==> s.refcount == 0 && s.freed == 0)
    // No put ends without giving the object up.
    && (x.waiter == WPut(Finished) ==> !x.hasObject)
    && (Taken(s, g) ==> !x.hasObject && x.made == 2)
  }

  /** The joiner has taken the group off the list and is done with it. */
  predicate Taken(s: State, g: nat)
    requires g < |s.groups|
  {
    s.groups[g].made > 0 && !s.groups[g].listed && s.groups[g].waiter.NotCalled? && !(s.joiner.Putting? && s.joiner.g == g)
  }

  ghost predicate Inv(s: State) {
    && B.Inv(s.barrier)
    && |s.stages| == |s.team| == |s.barrier.threads|
    && (forall t :: 0 <= t < |s.team| ==> s.team[t] < |s.groups|)
    && (forall t :: 0 <= t < |s.stages| ==> StageOk(s, t))
    && (forall g :: 0 <= g < |s.groups| ==> GroupOk(s, g))
    && s.refcount == Owed(s.groups)
    && s.freed <= 1 && (s.freed == 1 ==> s.refcount == 0)
    && (s.joiner.Asleep? <==> s.lock != ByJoiner)
    && (s.lock.ByWaiter? ==> s.lock.g < |s.groups|)
    && (s.joiner.Putting? ==> s.joiner.g < |s.groups| && !s.joiner.put.Finished?)
    && (forall g, h :: 0 <= g < h < |s.groups| ==> !(Underway(s, g).Release? && Underway(s, h).Release?))
    && (s.refcount == 0 && s.freed == 0 ==> exists g :: 0 <= g < |s.groups| && Underway(s, g).Release?)
  }

  // ---------------------------------------------------------------- counting

  function Share(x: Group): nat {
    if x.puts == 0 then x.nr else 0
  }

  lemma {:induction false} OwedUpdate(groups: seq<Group>, g: nat, x: Group)
    requires g < |groups|
    ensures Owed(groups[g := x]) == Owed(groups) - Share(groups[g]) + Share(x)
  {
    var n := |groups| - 1;
    if g < n {
      OwedUpdate(groups[..n], g, x);
      assert groups[g := x][..n] == groups[..n][g := x];
    } else {
      assert groups[g := x][..n] == groups[..n];
    }
  }

  lemma {:induction false} OwedBound(groups: seq<Group>, g: nat)
    requires g < |groups|
    ensures Share(groups[g]) <= Owed(groups)
  {
    var n := |groups| - 1;
    if g < n {
      OwedBound(groups[..n], g);
    }
  }

  function Total(groups: seq<Group>): nat {
    if groups == [] then 0 else Total(groups[..|groups| - 1]) + groups[|groups| - 1].nr
  }

  /** As long as no group has been put, the reference count is the total of the groups' sizes. */
  lemma {:induction false} OwedIsTotal(groups: seq<Group>)
    requires forall g :: 0 <= g < |groups| ==> groups[g].puts == 0
    ensures Owed(groups) == Total(groups)
  {
    if groups != [] {
      OwedIsTotal(groups[..|groups| - 1]);
    }
  }

  /** The sizes of the groups add up to the number of threads: induction on the groups, counting
      the threads of the first ones. */
  lemma {:induction false} TotalIsThreads(groups: seq<Group>, team: seq<nat>, k: nat)
    requires k <= |groups|
    requires forall g :: 0 <= g < |groups| ==> groups[g].nr == |Members(team, g)|
    ensures Total(groups[..k]) == |set t | 0 <= t < |team| && team[t] < k|
  {
    if k > 0 {
      TotalIsThreads(groups, team, k - 1);
      assert groups[..k][..k - 1] == groups[..k - 1];
      var low := set t | 0 <= t < |team| && team[t] < k - 1;
      var all := set t | 0 <= t < |team| && team[t] < k;
      assert all == low + Members(team, k - 1) && low !! Members(team, k - 1);
    }
  }

  lemma TotalOfCluster(groups: seq<Group>, team: seq<nat>)
    requires forall g :: 0 <= g < |groups| ==> groups[g].nr == |Members(team, g)|
    requires forall t :: 0 <= t < |team| ==> team[t] < |groups|
    ensures Total(groups) == |team|
  {
    TotalIsThreads(groups, team, |groups|);
    assert groups[..|groups|] == groups;
    var all := set t | 0 <= t < |team| && team[t] < |groups|;
    assert all == B.Range(|team|);
  }

  // ---------------------------------------------------------------- who is done

  /** Once one group has finished, every thread of the cluster has entered the barrier. */
  lemma FinishedGroup(s: State, g: nat)
    requires Inv(s) && g < |s.groups| && s.groups[g].exited == s.groups[g].nr
    ensures forall t :: 0 <= t < |s.team| && s.team[t] == g ==> s.stages[t].Cleaned?
    ensures forall u :: 0 <= u < |s.stages| ==> s.barrier.threads[u].entered >= 1
  {
    assert GroupOk(s, g);
    SubsetSize(Done(s, g), Members(s.team, g));
    forall t | 0 <= t < |s.team| && s.team[t] == g ensures s.stages[t].Cleaned? {
      assert t in Members(s.team, g);
    }
    var m :| m in Members(s.team, g);
    forall u | 0 <= u < |s.stages| ensures s.barrier.threads[u].entered >= 1 {
      assert StageOk(s, m) && B.ThreadOk(s.barrier, m) && B.ThreadOk(s.barrier, u);
    }
  }

  /** While some thread has not entered the barrier the object is whole: no put has begun, and
      the reference count is the number of threads. */
  lemma ObjectWhole(s: State, t: nat)
    requires Inv(s) && t < |s.stages| && s.barrier.threads[t].entered == 0
    ensures s.refcount == |s.barrier.threads| && s.freed == 0
    ensures forall g :: 0 <= g < |s.groups| ==>
              s.groups[g].puts == 0 && s.groups[g].exited != s.groups[g].nr && (s.groups[g].made == 2 ==> s.groups[g].hasObject)
  {
    forall g | 0 <= g < |s.groups|
      ensures s.groups[g].puts == 0 && s.groups[g].exited != s.groups[g].nr && (s.groups[g].made == 2 ==> s.groups[g].hasObject)
      ensures s.groups[g].nr == |Members(s.team, g)|
    {
      assert GroupOk(s, g);
      if s.groups[g].exited == s.groups[g].nr {
        FinishedGroup(s, g);
      }
    }
    OwedIsTotal(s.groups);
    TotalOfCluster(s.groups, s.team);
  }

  // ---------------------------------------------------------------- preservation

  lemma InitInv(s: State)
    requires Init(s)
    ensures Inv(s)
  {
    B.InitInv(s.barrier);
    OwedIsTotal(s.groups);
    TotalOfCluster(s.groups, s.team);
    forall g | 0 <= g < |s.groups| ensures GroupOk(s, g) {
      assert Done(s, g) == {};
    }
  }

  /** Steps that change one group's bookkeeping only. */
  lemma GroupFrame(s: State, s': State, g: nat)
    requires Inv(s) && g < |s.groups| == |s'.groups|
    requires s'.barrier == s.barrier && s'.stages == s.stages && s'.team == s.team
    requires s'.refcount == s.refcount && s'.freed == s.freed
    requires forall h :: 0 <= h < |s.groups| && h != g ==> s'.groups[h] == s.groups[h] && Underway(s', h) == Underway(s, h)
    requires s'.groups[g].made >= s.groups[g].made && Share(s'.groups[g]) == Share(s.groups[g])
    requires Underway(s, g).Release? <==> Underway(s', g).Release?
    requires s'.lock == s.lock || (s.lock in {Free, ByJoiner} && s'.lock in {Free, ByJoiner})
             || (s.lock in {Free, ByWaiter(g)} && s'.lock in {Free, ByWaiter(g)})
    requires s'.joiner.Putting? && s'.joiner.g != g ==> s'.joiner == s.joiner
    requires s'.joiner.Asleep? <==> s'.lock != ByJoiner
    requires s'.joiner.Putting? ==> s'.joiner.g < |s'.groups| && !s'.joiner.put.Finished?
    requires GroupOk(s', g)
    ensures Inv(s')
  {
    OwedUpdate(s.groups, g, s'.groups[g]);
    assert s'.groups == s.groups[g := s'.groups[g]];
    forall t | 0 <= t < |s'.stages| ensures StageOk(s', t) {
      assert StageOk(s, t);
    }
    forall h | 0 <= h < |s'.groups| ensures GroupOk(s', h) {
      assert GroupOk(s, h);
      assert Done(s', h) == Done(s, h);
    }
    if s'.refcount == 0 && s'.freed == 0 {
      var h :| 0 <= h < |s.groups| && Underway(s, h).Release?;
      assert Underway(s', h).Release?;
    }
  }

  lemma MadeIfFinished(s: State, g: nat)
    requires Inv(s) && g < |s.groups| && s.groups[g].exited == s.groups[g].nr
    ensures s.groups[g].made == 2
  {
    assert GroupOk(s, g);
    FinishedGroup(s, g);
    var m :| m in Members(s.team, g);
    assert StageOk(s, m);
  }

  lemma ListerInv(s: State, a: Step)
    requires Inv(s) && (a.ListGroup? || a.SetObject?) && Enabled(s, a)
    ensures Inv(Next(s, a))
  {
    assert GroupOk(s, a.g);
    assert Done(Next(s, a), a.g) == Done(s, a.g);
    if s.groups[a.g].exited == s.groups[a.g].nr {
      MadeIfFinished(s, a.g);
    }
    GroupFrame(s, Next(s, a), a.g);
  }

  lemma JoinerTakeInv(s: State, a: Step)
    requires Inv(s) && a.JoinerTake? && Enabled(s, a)
    ensures Inv(Next(s, a))
  {
    assert GroupOk(s, a.g);
    assert Done(Next(s, a), a.g) == Done(s, a.g);
    MadeIfFinished(s, a.g);
    GroupFrame(s, Next(s, a), a.g);
  }

  lemma JoinerLockInv(s: State, a: Step)
    requires Inv(s) && (a.JoinerLock? || a.JoinerUnlock?) && Enabled(s, a)
    ensures Inv(Next(s, a))
  {
    var g := s.team[0];
    assert GroupOk(s, g);
    assert Done(Next(s, a), g) == Done(s, g);
    GroupFrame(s, Next(s, a), g);
  }

  lemma WaiterInv(s: State, a: Step)
    requires Inv(s) && (a.WaiterLock? || a.WaiterDelist? || a.WaiterGo?) && Enabled(s, a)
    ensures Inv(Next(s, a))
  {
    assert GroupOk(s, a.g);
    assert Done(Next(s, a), a.g) == Done(s, a.g);
    GroupFrame(s, Next(s, a), a.g);
  }

  /** Steps of thread `t` that leave the groups alone. */
  lemma ThreadFrame(s: State, s': State, t: nat)
    requires Inv(s) && t < |s.stages| == |s'.stages|
    requires s' == s.(stages := s'.stages, barrier := s'.barrier)
    requires forall u :: 0 <= u < |s.stages| && u != t ==> s'.stages[u] == s.stages[u]
    requires B.Inv(s'.barrier) && |s'.barrier.threads| == |s.barrier.threads|
    requires forall u :: 0 <= u < |s.stages| && u != t ==> s'.barrier.threads[u] == s.barrier.threads[u]
    requires !s.stages[t].Cleaned? && !s'.stages[t].Cleaned? && StageOk(s', t)
    ensures Inv(s')
  {
    forall u | 0 <= u < |s'.stages| ensures StageOk(s', u) {
      assert StageOk(s, u);
    }
    forall g | 0 <= g < |s'.groups| ensures GroupOk(s', g) && Underway(s', g) == Underway(s, g) {
      assert GroupOk(s, g);
      assert Done(s', g) == Done(s, g);
    }
    if s'.refcount == 0 && s'.freed == 0 {
      var g :| 0 <= g < |s.groups| && Underway(s, g).Release?;
      assert Underway(s', g).Release?;
    }
  }

  lemma StartInv(s: State, a: Step)
    requires Inv(s) && (a.Create? || a.FinishInit? || a.StartFunc?) && Enabled(s, a)
    ensures Inv(Next(s, a))
  {
    assert StageOk(s, a.t) && B.ThreadOk(s.barrier, a.t);
    ThreadFrame(s, Next(s, a), a.t);
  }

  /** A thread on its way to the barrier finds the object at each of its accesses. */
  lemma ObjectThere(s: State, a: Step)
    requires Inv(s) && (a.CheckObject? || a.LoadCount? || a.EnterBarrier?) && Enabled(s, a)
    ensures s.groups[s.team[a.t]].hasObject && s.freed == 0 && s.refcount == |s.stages|
    ensures a.EnterBarrier? ==> s.stages[a.t].n == |s.stages|
  {
    assert StageOk(s, a.t);
    ObjectWhole(s, a.t);
  }

  lemma SampleInv(s: State, a: Step)
    requires Inv(s) && (a.CheckObject? || a.LoadCount?) && Enabled(s, a)
    ensures Inv(Next(s, a))
  {
    ObjectThere(s, a);
    assert StageOk(s, a.t);
    ThreadFrame(s, Next(s, a), a.t);
  }

  /** The barrier is always called with the number of threads of the cluster. */
  lemma EnterBarrierInv(s: State, a: Step)
    requires Inv(s) && a.EnterBarrier? && Enabled(s, a)
    ensures B.Disciplined(s.barrier, B.Enter(a.t, s.stages[a.t].n))
    ensures Inv(Next(s, a))
  {
    ObjectThere(s, a);
    assert StageOk(s, a.t);
    B.NextInv(s.barrier, B.Enter(a.t, s.stages[a.t].n));
    ThreadFrame(s, Next(s, a), a.t);
  }

  lemma InBarrierInv(s: State, a: Step)
    requires Inv(s) && a.InBarrier? && Enabled(s, a)
    ensures Inv(Next(s, a))
  {
    var t := a.a.t;
    assert StageOk(s, t) && B.ThreadOk(s.barrier, t);
    B.NextInv(s.barrier, a.a);
    ThreadFrame(s, Next(s, a), t);
  }

  lemma CleanUpStages(s: State, a: Step)
    requires |s.stages| == |s.team| && a.CleanUp? && Enabled(s, a)
    ensures a.t < |s.stages| && s.stages[a.t].Working?
    ensures Next(s, a).stages == s.stages[a.t := Cleaned] && Next(s, a).team == s.team
  {
  }

  lemma DoneAfterCleanUp(s: State, a: Step, h: nat)
    requires |s.stages| == |s.team| && a.CleanUp? && Enabled(s, a)
    ensures |Done(Next(s, a), h)| == |Done(s, h)| + if h == s.team[a.t] then 1 else 0
  {
    hide Next, Enabled;
    CleanUpStages(s, a);
    var d, d' := Done(s, h), Done(Next(s, a), h);
    if h == s.team[a.t] {
      assert d' == d + {a.t} && a.t !in d;
    } else {
      assert d' == d;
    }
  }

  lemma NotFinished(s: State, t: nat)
    requires Inv(s) && t < |s.stages| && !s.stages[t].Cleaned?
    ensures s.groups[s.team[t]].exited != s.groups[s.team[t]].nr
    ensures GroupOk(s, s.team[t])
  {
    if s.groups[s.team[t]].exited == s.groups[s.team[t]].nr {
      FinishedGroup(s, s.team[t]);
    }
  }

  lemma CleanUpGroup(s: State, a: Step, h: nat)
    requires Inv(s) && a.CleanUp? && Enabled(s, a) && h < |s.groups|
    ensures GroupOk(Next(s, a), h)
    ensures Underway(Next(s, a), h) == Underway(s, h) && Share(Next(s, a).groups[h]) == Share(s.groups[h])
  {
    DoneAfterCleanUp(s, a, h);
    NotFinished(s, a.t);
    assert GroupOk(s, h);
    hide Done, Members, Inv;
  }

  lemma CleanUpInv(s: State, a: Step)
    requires Inv(s) && a.CleanUp? && Enabled(s, a)
    ensures Inv(Next(s, a))
  {
    var s' := Next(s, a);
    var g := s.team[a.t];
    hide GroupOk, Done, Members;
    forall h | 0 <= h < |s'.groups| ensures GroupOk(s', h) && Underway(s', h) == Underway(s, h) {
      CleanUpGroup(s, a, h);
    }
    CleanUpGroup(s, a, g);
    OwedUpdate(s.groups, g, s'.groups[g]);
    forall u | 0 <= u < |s'.stages| ensures StageOk(s', u) {
      assert StageOk(s, u);
    }
    if s'.refcount == 0 && s'.freed == 0 {
      var h :| 0 <= h < |s.groups| && Underway(s, h).Release?;
      assert Underway(s', h).Release?;
    }
  }

  // ---------------------------------------------------------------- putting the object

  /** The actions of a put, by the joiner or by the waiter of the group. */
  lemma PutFrame(s: State, s': State, g: nat)
    requires Inv(s) && g < |s.groups| == |s'.groups|
    requires s'.barrier == s.barrier && s'.stages == s.stages && s'.team == s.team && s'.lock == s.lock
    requires forall h :: 0 <= h < |s.groups| && h != g ==> s'.groups[h] == s.groups[h] && Underway(s', h) == Underway(s, h)
    requires s'.groups[g].made == s.groups[g].made
    requires s'.refcount == s.refcount - Share(s.groups[g]) + Share(s'.groups[g])
    requires forall h :: 0 <= h < |s.groups| && h != g && Underway(s, h).Release? ==> s'.refcount == 0 && s'.freed == 0
    requires s'.freed <= 1 && (s'.freed == 1 ==> s'.refcount == 0)
    requires Underway(s', g).Release? ==> forall h :: 0 <= h < |s.groups| && h != g ==> !Underway(s, h).Release?
    requires s'.refcount == 0 && s'.freed == 0 ==>
               Underway(s', g).Release? || (s.refcount == 0 && s.freed == 0 && !Underway(s, g).Release?)
    requires s'.joiner.Asleep? <==> s.joiner.Asleep?
    requires s'.joiner.Putting? ==> s'.joiner.g < |s'.groups| && !s'.joiner.put.Finished?
    requires s'.joiner.Putting? && s'.joiner.g != g ==> s'.joiner == s.joiner
    requires s.joiner.Putting? && s.joiner.g != g ==> s'.joiner == s.joiner
    requires GroupOk(s', g)
    ensures Inv(s')
  {
    hide Members;
    OwedUpdate(s.groups, g, s'.groups[g]);
    assert s'.groups == s.groups[g := s'.groups[g]];
    forall t | 0 <= t < |s'.stages| ensures StageOk(s', t) {
      assert StageOk(s, t);
    }
    forall h | 0 <= h < |s'.groups| ensures GroupOk(s', h) {
      assert GroupOk(s, h);
      assert Done(s', h) == Done(s, h);
    }
    if s'.refcount == 0 && s'.freed == 0 && !Underway(s', g).Release? {
      var h :| 0 <= h < |s.groups| && Underway(s, h).Release?;
      assert Underway(s', h).Release?;
    }
  }

  /** What one action does to the group, the reference count and the object. */
  lemma PutEffect(s: State, a: Step, g: nat)
    requires Inv(s) && (a.JoinerPut? || a.WaiterPut?) && Enabled(s, a)
    requires g == if a.JoinerPut? then s.joiner.g else a.g
    ensures var s' := Next(s, a);
            && g < |s.groups| && GroupOk(s, g) && !Underway(s, g).Finished?
            && s' == s.(groups := s.groups[g := s'.groups[g]], joiner := s'.joiner, refcount := s'.refcount, freed := s'.freed)
            && (s'.joiner == s.joiner || (s.joiner.Putting? && s.joiner.g == g && (s'.joiner.Scanning? || (s'.joiner.Putting? && s'.joiner.g == g && !s'.joiner.put.Finished?))))
            && var x, x' := s.groups[g], s'.groups[g];
               var put, put' := Underway(s, g), Underway(s', g);
               && x' == x.(puts := x'.puts, hasObject := x'.hasObject, waiter := x'.waiter)
               && x'.waiter.WPut? == x.waiter.WPut? && (x'.waiter.WPut? || x'.waiter == x.waiter)
               && match put
                  case Check => s'.refcount == s.refcount && s'.freed == s.freed && x'.puts == x.puts
                                && x'.hasObject == x.hasObject && put' == (if x.hasObject then Subtract else Finished)
                  case Subtract => s'.refcount == s.refcount - x.nr && s'.freed == s.freed && x'.puts == 1
                                   && x'.hasObject && put' == (if s'.refcount == 0 then Release else Clear)
                  case Release => s'.refcount == s.refcount && s'.freed == s.freed + 1 && x'.puts == x.puts
                                  && x'.hasObject == x.hasObject && put' == Clear
                  case Clear => s'.refcount == s.refcount && s'.freed == s.freed && x'.puts == x.puts
                                && !x'.hasObject && put' == Finished
                  case Finished => true
  {
    assert a.WaiterPut? ==> GroupOk(s, a.g);
    assert a.JoinerPut? ==> GroupOk(s, s.joiner.g);
  }

  lemma PutGroup(s: State, a: Step, g: nat)
    requires Inv(s) && (a.JoinerPut? || a.WaiterPut?) && Enabled(s, a)
    requires g == if a.JoinerPut? then s.joiner.g else a.g
    ensures GroupOk(Next(s, a), g)
  {
    PutEffect(s, a, g);
    OwedBound(s.groups, g);
    assert Done(Next(s, a), g) == Done(s, g);
    hide Next, Members;
  }

  lemma PutInv(s: State, a: Step)
    requires Inv(s) && (a.JoinerPut? || a.WaiterPut?) && Enabled(s, a)
    ensures Inv(Next(s, a))
  {
    var s' := Next(s, a);
    var g := if a.JoinerPut? then s.joiner.g else a.g;
    PutEffect(s, a, g);
    PutGroup(s, a, g);
    forall h | 0 <= h < |s.groups| && Underway(s, h).Release? ensures s.refcount == 0 && s.freed == 0 {
      assert GroupOk(s, h);
    }
    OwedBound(s.groups, g);
    hide Next, Members, Enabled;
    PutFrame(s, s', g);
  }

  lemma NextInv(s: State, a: Step)
    requires Inv(s) && Enabled(s, a)
    ensures Inv(Next(s, a))
  {
    match a
    case ListGroup(_) => ListerInv(s, a);
    case SetObject(_) => ListerInv(s, a);
    case Create(_) => StartInv(s, a);
    case FinishInit(_) => StartInv(s, a);
    case StartFunc(_) => StartInv(s, a);
    case CheckObject(_) => SampleInv(s, a);
    case LoadCount(_) => SampleInv(s, a);
    case EnterBarrier(_) => EnterBarrierInv(s, a);
    case InBarrier(_) => InBarrierInv(s, a);
    case CleanUp(_) => CleanUpInv(s, a);
    case JoinerLock => JoinerLockInv(s, a);
    case JoinerUnlock => JoinerLockInv(s, a);
    case JoinerTake(_) => JoinerTakeInv(s, a);
    case JoinerPut => PutInv(s, a);
    case WaiterPut(_) => PutInv(s, a);
    case _ => WaiterInv(s, a);
  }

  lemma {:induction false} RunInv(ss: seq<State>, steps: seq<Step>, i: nat)
    requires |ss| > 0 && Init(ss[0]) && Run(ss, steps) && i < |ss|
    ensures Inv(ss[i])
  {
    hide Init, Inv, Enabled, Next;
    if i == 0 {
      InitInv(ss[0]);
    } else {
      RunInv(ss, steps, i - 1);
      NextInv(ss[i - 1], steps[i - 1]);
    }
  }

  // ---------------------------------------------------------------- what a cluster guarantees

  /** No thread runs `func` before every thread of every group has finished `init`. */
  lemma Rendezvous(ss: seq<State>, steps: seq<Step>, i: nat, t: nat, u: nat)
    requires |ss| > 0 && Init(ss[0]) && Run(ss, steps) && i < |ss|
    requires t < |ss[i].stages| && u < |ss[i].stages| && (ss[i].stages[t].Working? || ss[i].stages[t].Cleaned?)
    ensures ss[i].stages[u].AtBarrier? || ss[i].stages[u].Working? || ss[i].stages[u].Cleaned?
  {
    RunInv(ss, steps, i);
    var s := ss[i];
    assert StageOk(s, t) && StageOk(s, u) && B.ThreadOk(s.barrier, t) && B.ThreadOk(s.barrier, u);
  }

  /** Every thread finds the barrier object, whenever it looks: when it checks for it, when it reads
      the reference count, which is the full number of threads, and when it goes to the barrier
      with that number; and so it calls the barrier as it has to be called. */
  lemma FullTotal(ss: seq<State>, steps: seq<Step>, i: nat)
    requires |ss| > 0 && Init(ss[0]) && Run(ss, steps) && i < |steps|
    requires steps[i].CheckObject? || steps[i].LoadCount? || steps[i].EnterBarrier?
    ensures steps[i].t < |ss[i].team| && ss[i].team[steps[i].t] < |ss[i].groups|
    ensures ss[i].groups[ss[i].team[steps[i].t]].hasObject && ss[i].freed == 0
    ensures ss[i].refcount == |ss[i].stages|
    ensures steps[i].EnterBarrier? ==> ss[i].stages[steps[i].t].n == |ss[i].stages|
  {
    RunInv(ss, steps, i);
    ObjectThere(ss[i], steps[i]);
  }

  /** The reference count is what the groups not yet put contribute; every group is put at most
      once, however the joiner and the waiters compete, and only after all its threads have run
      their cleanup; the object is freed at most once, after the last of them. */
  lemma Lifetime(ss: seq<State>, steps: seq<Step>, i: nat)
    requires |ss| > 0 && Init(ss[0]) && Run(ss, steps) && i < |ss|
    ensures var s := ss[i];
            && s.refcount == Owed(s.groups) && s.freed <= 1
            && (forall g :: 0 <= g < |s.groups| ==> s.groups[g].puts <= 1)
            && (forall t :: 0 <= t < |s.stages| && t < |s.team| && s.team[t] < |s.groups| && s.groups[s.team[t]].puts == 1
                  ==> s.stages[t].Cleaned?)
            && (s.freed == 1 ==> forall t :: 0 <= t < |s.stages| ==> s.stages[t].Cleaned?)
  {
    RunInv(ss, steps, i);
    var s := ss[i];
    forall g | 0 <= g < |s.groups| ensures s.groups[g].puts <= 1 {
      assert GroupOk(s, g);
    }
    forall t | 0 <= t < |s.stages| && s.groups[s.team[t]].puts == 1 ensures s.stages[t].Cleaned? {
      assert GroupOk(s, s.team[t]);
      FinishedGroup(s, s.team[t]);
    }
    if s.freed == 1 {
      forall t | 0 <= t < |s.stages| ensures s.stages[t].Cleaned? {
        assert GroupOk(s, s.team[t]);
        OwedBound(s.groups, s.team[t]);
      }
    }
  }

  /** No thread is in the barrier once the object is freed. */
  lemma NoUseAfterFree(ss: seq<State>, steps: seq<Step>, i: nat)
    requires |ss| > 0 && Init(ss[0]) && Run(ss, steps) && i < |steps| && steps[i].InBarrier?
    ensures ss[i].freed == 0
  {
    RunInv(ss, steps, i);
    Lifetime(ss, steps, i);
    var s, t := ss[i], steps[i].a.t;
    assert StageOk(s, t) && B.ThreadOk(s.barrier, t);
  }

  /** When all groups have been put and no put is under way, the object has been freed. */
  lemma FreedInTheEnd(ss: seq<State>, steps: seq<Step>, i: nat)
    requires |ss| > 0 && Init(ss[0]) && Run(ss, steps) && i < |ss|
    requires forall g :: 0 <= g < |ss[i].groups| ==> ss[i].groups[g].puts == 1 && Underway(ss[i], g).Finished?
    ensures ss[i].freed == 1
  {
    RunInv(ss, steps, i);
    OwedNothing(ss[i].groups);
  }

  /** A call of `mthpc_thread_async_wait` that has returned, and a put by the joiner that has ended,
      leave the group put and without the object. */
  lemma PutAtReturn(ss: seq<State>, steps: seq<Step>, i: nat, g: nat)
    requires |ss| > 0 && Init(ss[0]) && Run(ss, steps) && i < |ss| && g < |ss[i].groups|
    requires ss[i].groups[g].waiter == WPut(Finished) || Taken(ss[i], g)
    ensures ss[i].groups[g].puts == 1 && !ss[i].groups[g].hasObject
  {
    RunInv(ss, steps, i);
    assert GroupOk(ss[i], g);
  }

  /** The last action of a put by the joiner. */
  lemma PutByJoiner(ss: seq<State>, steps: seq<Step>, i: nat)
    requires |ss| > 0 && Init(ss[0]) && Run(ss, steps) && i < |steps| && steps[i].JoinerPut? && ss[i + 1].joiner.Scanning?
    ensures var g := ss[i].joiner.g;
            g < |ss[i + 1].groups| && ss[i + 1].groups[g].puts == 1 && !ss[i + 1].groups[g].hasObject
  {
    hide Init, Inv;
    RunInv(ss, steps, i);
    JoinerPutEnds(ss[i]);
    RunInv(ss, steps, i + 1);
    PutAtReturn(ss, steps, i + 1, ss[i].joiner.g);
  }

  lemma JoinerPutEnds(s: State)
    requires Inv(s) && Enabled(s, JoinerPut) && Next(s, JoinerPut).joiner.Scanning?
    ensures s.joiner.g < |Next(s, JoinerPut).groups| && Taken(Next(s, JoinerPut), s.joiner.g)
  {
    assert GroupOk(s, s.joiner.g);
  }

  /** When every group has been waited for, or dealt with by the joiner, the object is freed. */
  lemma FreedWhenAllReturned(ss: seq<State>, steps: seq<Step>, i: nat)
    requires |ss| > 0 && Init(ss[0]) && Run(ss, steps) && i < |ss|
    requires forall g :: 0 <= g < |ss[i].groups| ==> ss[i].groups[g].waiter == WPut(Finished) || Taken(ss[i], g)
    ensures ss[i].freed == 1
  {
    RunInv(ss, steps, i);
    forall g | 0 <= g < |ss[i].groups| ensures ss[i].groups[g].puts == 1 && Underway(ss[i], g).Finished? {
      PutAtReturn(ss, steps, i, g);
      assert GroupOk(ss[i], g);
    }
    FreedInTheEnd(ss, steps, i);
  }

  lemma {:induction false} OwedNothing(groups: seq<Group>)
    requires forall g :: 0 <= g < |groups| ==> groups[g].puts > 0
    ensures Owed(groups) == 0
  {
    if groups != [] {
      OwedNothing(groups[..|groups| - 1]);
    }
  }

  // ---------------------------------------------------------------- the object is freed

  /** All threads have run, and all groups have been made. */
  predicate AllDone(s: State) {
    forall g :: 0 <= g < |s.groups| ==> s.groups[g].exited == s.groups[g].nr && s.groups[g].made == 2
  }

  /** Actions left to a put. */
  function PutLeft(put: Put): nat {
    match put
    case Check => 4
    case Subtract => 3
    case Release => 2
    case Clear => 1
    case Finished => 0
  }

  /** Steps left until the group has been put, by whoever does it. */
  function GroupLeft(x: Group): nat {
    match x.waiter
    case NotCalled => if x.listed then 8 else 0
    case Delisting => 6
    case Polling => 5
    case WPut(put) => PutLeft(put)
  }

  function GroupsLeft(groups: seq<Group>): nat {
    if groups == [] then 0 else GroupLeft(groups[0]) + GroupsLeft(groups[1..])
  }

  function Left(s: State): nat {
    GroupsLeft(s.groups) + match s.joiner
    case Asleep => 1
    case Scanning => 0
    case Putting(_, put) => PutLeft(put)
  }

  lemma {:induction false} GroupsLeftAfter(groups: seq<Group>, g: nat, x: Group)
    requires g < |groups|
    ensures GroupsLeft(groups[g := x]) == GroupsLeft(groups) - GroupLeft(groups[g]) + GroupLeft(x)
  {
    if g == 0 {
      assert groups[g := x][1..] == groups[1..];
    } else {
      assert groups[g := x][1..] == groups[1..][g - 1 := x];
      GroupsLeftAfter(groups[1..], g - 1, x);
    }
  }

  /** A step that brings the free closer. */
  ghost predicate Helps(s: State, a: Step) {
    Enabled(s, a) && AllDone(Next(s, a)) && Left(Next(s, a)) < Left(s)
  }

  lemma PutHelps(s: State, a: Step)
    requires Inv(s) && AllDone(s) && (a.JoinerPut? || a.WaiterPut?) && Enabled(s, a)
    ensures Helps(s, a)
  {
    hide Inv, GroupOk, GroupsLeft, Done, Members, Next, Enabled;
    WhoPuts(s, a);
    var g := if a.JoinerPut? then s.joiner.g else a.g;
    PutEffect(s, a, g);
    GroupsLeftAfter(s.groups, g, Next(s, a).groups[g]);
  }

  /** A put is made by the joiner or by the waiter, not by both. */
  lemma WhoPuts(s: State, a: Step)
    requires Inv(s) && (a.JoinerPut? || a.WaiterPut?) && Enabled(s, a)
    ensures a.JoinerPut? ==> s.joiner.Putting? && s.joiner.g < |s.groups| && s.groups[s.joiner.g].waiter.NotCalled?
    ensures a.WaiterPut? ==>
              && a.g < |s.groups| && s.groups[a.g].waiter.WPut? && !(s.joiner.Putting? && s.joiner.g == a.g)
              && Next(s, a).joiner == s.joiner
  {
    var g := if a.JoinerPut? then s.joiner.g else a.g;
    assert GroupOk(s, g);
  }

  lemma OtherHelps(s: State, a: Step)
    requires AllDone(s) && (a.JoinerTake? || a.JoinerLock? || a.WaiterDelist? || a.WaiterGo?) && Enabled(s, a)
    requires a.JoinerTake? ==> s.groups[a.g].waiter.NotCalled?
    ensures Helps(s, a)
  {
    if !a.JoinerLock? {
      GroupsLeftAfter(s.groups, a.g, Next(s, a).groups[a.g]);
    }
  }

  /** Until the object is freed the joiner, or the waiter of some group, can bring that closer. */
  lemma SomeoneHelps(s: State) returns (a: Step)
    requires Inv(s) && AllDone(s) && s.freed == 0
    ensures Helps(s, a)
  {
    var g := Unput(s);
    hide Helps, Left;
    if s.joiner.Putting? {
      a := JoinerPut;
      PutHelps(s, a);
    } else if s.groups[g].waiter.WPut? {
      a := WaiterPut(g);
      PutHelps(s, a);
    } else if s.groups[g].waiter.Polling? {
      a := WaiterGo(g);
      OtherHelps(s, a);
    } else if s.groups[g].waiter.Delisting? {
      a := WaiterDelist(g);
      OtherHelps(s, a);
    } else if s.lock.ByWaiter? {
      a := WaiterDelist(s.lock.g);
      Delists(s);
      OtherHelps(s, a);
    } else if s.lock.Free? {
      a := JoinerLock;
      OtherHelps(s, a);
    } else {
      a := JoinerTake(g);
      OtherHelps(s, a);
    }
  }

  lemma Delists(s: State)
    requires Inv(s) && s.lock.ByWaiter?
    ensures s.lock.g < |s.groups| && s.groups[s.lock.g].waiter.Delisting?
  {
    assert s.lock.g < |s.groups| ==> GroupOk(s, s.lock.g);
  }

  /** A group that has not been put, or whose put is about to free the object. */
  lemma Unput(s: State) returns (g: nat)
    requires Inv(s) && AllDone(s) && s.freed == 0
    ensures g < |s.groups| && GroupOk(s, g) && (s.groups[g].waiter.WPut? ==> !s.groups[g].waiter.put.Finished?)
    ensures s.joiner.Putting? || !s.groups[g].waiter.NotCalled? || s.groups[g].listed
  {
    if h :| 0 <= h < |s.groups| && Underway(s, h).Release? {
      g := h;
    } else {
      if forall h :: 0 <= h < |s.groups| ==> s.groups[h].puts > 0 {
        OwedNothing(s.groups);
      }
      g :| 0 <= g < |s.groups| && s.groups[g].puts == 0;
    }
    assert GroupOk(s, g);
  }

  /** Nothing that can have happened prevents the free: from every state in which all threads have
      run and all groups have been made, some run frees the object. */
  lemma {:induction false} CanBeFreed(s: State) returns (ss: seq<State>, steps: seq<Step>)
    requires Inv(s) && AllDone(s)
    ensures |ss| > 0 && Run(ss, steps) && ss[0] == s && AllDone(ss[|ss| - 1]) && ss[|ss| - 1].freed == 1
    decreases Left(s)
  {
    hide Inv, Enabled, Next, AllDone, Left;
    if s.freed == 1 {
      ss, steps := [s], [];
    } else {
      AtMostOnce(s);
      var a := SomeoneHelps(s);
      NextInv(s, a);
      var ts, more := CanBeFreed(Next(s, a));
      ss, steps := [s] + ts, [a] + more;
      assert forall i :: 0 < i < |ss| ==> ss[i] == ts[i - 1];
      assert forall i :: 0 < i < |steps| ==> steps[i] == more[i - 1];
    }
  }

  lemma AtMostOnce(s: State)
    requires Inv(s)
    ensures s.freed <= 1
  {
  }
}
