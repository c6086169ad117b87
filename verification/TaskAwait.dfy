/** `mthpc_taskflow_await` (`src/taskflow/taskflow.c`) over its completion
    (`include/mthpc/completion.h`), against workers that run every scheduled task once, in any
    order. A task is named by its place: the phase and the index in it. */
module TaskAwait {

  datatype Status =
    | Idle
    | Scheduled   // handed to a workqueue
    | Running     // in task->func
    | Returned    // next: mthpc_complete
    | Completed

  datatype Place = Place(q: nat, j: nat)

  /** The awaiting thread, at phase `p` of the state. */
  datatype Pc =
    | Clearing              // next: cnt = 0
    | Setting               // next: nr = nr_sub_task
    | Scheduling(i: nat)    // next: schedule the i-th task of the phase
    | Waiting               // next: compare cnt with nr
    | Ended

  /** `total` is `nr_completed`, `nrTask` is `nr_task` of the taskflow, and `warnings` counts the
      warnings given; history: `started`, in order. */
  datatype State = State(
    p: nat, pc: Pc, cnt: nat, nr: nat, tasks: seq<seq<Status>>, total: nat, nrTask: nat, warnings: nat, started: seq<Place>)

  datatype Step = Clear | Set | Schedule | Check | Start(q: nat, j: nat) | Return(q: nat, j: nat) | Complete(q: nat, j: nat)

  /** `counts` holds `nr_sub_task` of every main task. */
  predicate Init(counts: seq<nat>, s: State) {
    && |s.tasks| == |counts| && s.p == 0 && s.cnt == 0 && s.nr == 0 && s.total == 0 && s.started == []
    && s.pc == (if |counts| == 0 then Ended else Clearing)
    && s.warnings == (if |counts| == 0 then Differ(0, s.nrTask) else 0)
    && (forall q :: 0 <= q < |s.tasks| ==> |s.tasks[q]| > 0)
    && (forall q, j :: 0 <= q < |s.tasks| && 0 <= j < |s.tasks[q]| ==> s.tasks[q][j].Idle?)
  }

  /** A warning, if the two differ. */
  function Differ(a: nat, b: nat): nat {
    if a == b then 0 else 1
  }

  predicate At(s: State, q: nat, j: nat) { q < |s.tasks| && j < |s.tasks[q]| }

  predicate Enabled(s: State, a: Step) {
    match a
    case Clear => s.pc.Clearing?
    case Set => s.pc.Setting?
    case Schedule => s.pc.Scheduling? && At(s, s.p, s.pc.i)
    case Check => s.pc.Waiting?
    case Start(q, j) => At(s, q, j) && s.tasks[q][j].Scheduled?
    case Return(q, j) => At(s, q, j) && s.tasks[q][j].Running?
    case Complete(q, j) => At(s, q, j) && s.tasks[q][j].Returned?
  }

  function Mark(s: State, q: nat, j: nat, x: Status): State
    requires At(s, q, j)
  {
    s.(tasks := s.tasks[q := s.tasks[q][j := x]])
  }

  predicate Fits(counts: seq<nat>, s: State) {
    |counts| == |s.tasks| && s.p <= |counts| && (s.p == |counts| ==> s.pc.Ended?)
  }

  function Next(counts: seq<nat>, s: State, a: Step): State
    requires Fits(counts, s) && Enabled(s, a)
  {
    match a
    case Clear => s.(cnt := 0, pc := Setting)
    case Set => s.(nr := counts[s.p], pc := Scheduling(0))
    case Schedule =>
      Mark(s, s.p, s.pc.i, Scheduled)
      .(pc := if s.pc.i + 1 < |s.tasks[s.p]| then Scheduling(s.pc.i + 1) else Waiting)
    case Check =>
      if s.cnt != s.nr then s
      else
        var n := |s.tasks[s.p]|;
        var last := s.p + 1 == |counts|;
        s.(p := s.p + 1, total := s.total + n, pc := if last then Ended else Clearing,
           warnings := s.warnings + Differ(n, counts[s.p]) + if last then Differ(s.total + n, s.nrTask) else 0)
    case Start(q, j) => Mark(s, q, j, Running).(started := s.started + [Place(q, j)])
    case Return(q, j) => Mark(s, q, j, Returned)
    case Complete(q, j) => Mark(s, q, j, Completed).(cnt := s.cnt + 1)
  }

  predicate Run(counts: seq<nat>, ss: seq<State>, steps: seq<Step>) {
    && |ss| == |steps| + 1
    && forall i :: 0 <= i < |steps| ==>
         Fits(counts, ss[i]) && Enabled(ss[i], steps[i]) && ss[i + 1] == Next(counts, ss[i], steps[i])
  }

  // ---------------------------------------------------------------- invariant

  function Done(ts: seq<Status>): nat {
    if ts == [] then 0 else (if ts[0].Completed? then 1 else 0) + Done(ts[1..])
  }

  lemma {:induction false} DoneAfter(ts: seq<Status>, j: nat, x: Status)
    requires j < |ts|
    ensures Done(ts[j := x]) == Done(ts) - (if ts[j].Completed? then 1 else 0) + (if x.Completed? then 1 else 0)
  {
    if j == 0 {
      assert ts[j := x][1..] == ts[1..];
    } else {
      assert ts[j := x][1..] == ts[1..][j - 1 := x];
      DoneAfter(ts[1..], j - 1, x);
    }
  }

  /** The count is at most the number of tasks, and equal to it only when all are completed. */
  lemma {:induction false} DoneAll(ts: seq<Status>)
    ensures Done(ts) <= |ts|
    ensures Done(ts) == |ts| <==> forall j :: 0 <= j < |ts| ==> ts[j].Completed?
    ensures Done(ts) > 0 ==> exists j :: 0 <= j < |ts| && ts[j].Completed?
  {
    if ts != [] {
      DoneAll(ts[1..]);
      assert forall j :: 1 <= j < |ts| ==> ts[j] == ts[1..][j - 1];
      if Done(ts[1..]) > 0 {
        var j :| 0 <= j < |ts[1..]| && ts[1..][j].Completed?;
        assert ts[j + 1].Completed?;
      }
    }
  }

  function Sizes(tasks: seq<seq<Status>>, k: nat): nat
    requires k <= |tasks|
  {
    if k == 0 then 0 else Sizes(tasks, k - 1) + |tasks[k - 1]|
  }

  /** The first count that is not the size of its phase, if there is any, is too large. */
  predicate Sound(counts: seq<nat>, s: State) {
    && |counts| == |s.tasks|
    && forall p :: 0 <= p < |counts| && counts[p] < |s.tasks[p]| ==> exists q :: 0 <= q < p && counts[q] > |s.tasks[q]|
  }

  predicate Begun(x: Status) { x.Running? || x.Returned? || x.Completed? }

  /** How many tasks of the current phase have been scheduled. */
  function Handed(s: State): nat {
    if s.pc.Scheduling? then s.pc.i else if s.pc.Waiting? && s.p < |s.tasks| then |s.tasks[s.p]| else 0
  }

  ghost predicate PhaseOk(counts: seq<nat>, s: State, q: nat)
    requires q < |s.tasks| == |counts|
  {
    && |s.tasks[q]| > 0
    && (forall j {:trigger s.tasks[q][j]} :: 0 <= j < |s.tasks[q]| ==>
          && (q < s.p ==> s.tasks[q][j].Completed?)
          && (q > s.p ==> s.tasks[q][j].Idle?)
          && (q == s.p ==> (s.tasks[q][j].Idle? <==> j >= Handed(s))))
    && (q < s.p ==> counts[q] == |s.tasks[q]|)
  }

  ghost predicate StartedOk(s: State) {
    && (forall a, b :: 0 <= a < b < |s.started| ==> s.started[a] != s.started[b] && s.started[a].q <= s.started[b].q)
    && (forall x: Place :: x in s.started <==> At(s, x.q, x.j) && Begun(s.tasks[x.q][x.j]))
  }

  ghost predicate Inv(counts: seq<nat>, s: State) {
    && Fits(counts, s) && Sound(counts, s) && StartedOk(s)
    && (forall q :: 0 <= q < |s.tasks| ==> PhaseOk(counts, s, q))
    && (s.pc.Ended? <==> s.p == |counts|)
    && s.total == Sizes(s.tasks, s.p)
    && s.warnings == (if s.pc.Ended? then Differ(s.total, s.nrTask) else 0)
    && (s.pc.Scheduling? ==> s.pc.i < |s.tasks[s.p]|)
    && (s.pc.Setting? ==> s.cnt == 0)
    && (s.pc.Scheduling? || s.pc.Waiting? ==> s.nr == counts[s.p] && s.cnt == Done(s.tasks[s.p]))
  }

  lemma {:induction false} SizesSame(a: seq<seq<Status>>, b: seq<seq<Status>>, k: nat)
    requires k <= |a| == |b| && forall q :: 0 <= q < |a| ==> |a[q]| == |b[q]|
    ensures Sizes(a, k) == Sizes(b, k)
  {
    if k > 0 { SizesSame(a, b, k - 1); }
  }

  lemma {:induction false} NoneDone(ts: seq<Status>)
    requires forall j :: 0 <= j < |ts| ==> ts[j].Idle?
    ensures Done(ts) == 0
  {
    if ts != [] { NoneDone(ts[1..]); }
  }

  lemma InitInv(counts: seq<nat>, s: State)
    requires Init(counts, s) && Sound(counts, s)
    ensures Inv(counts, s)
  {
  }

  /** Every place is started at most once, and in the order of the phases. */
  lemma StartsOnce(counts: seq<nat>, s: State, a: Step)
    requires Inv(counts, s) && Enabled(s, a) && a.Start?
    ensures StartedOk(Next(counts, s, a))
  {
    var s' := Next(counts, s, a);
    forall x: Place | x in s.started ensures x != Place(a.q, a.j) && x.q <= a.q {
      assert PhaseOk(counts, s, x.q) && PhaseOk(counts, s, a.q);
    }
    assert s'.started == s.started + [Place(a.q, a.j)];
    forall x: Place ensures x in s'.started <==> At(s', x.q, x.j) && Begun(s'.tasks[x.q][x.j]) {
      assert x in s.started <==> At(s, x.q, x.j) && Begun(s.tasks[x.q][x.j]);
      assert x in s'.started <==> x in s.started || x == Place(a.q, a.j);
    }
  }

  lemma StartedStep(counts: seq<nat>, s: State, a: Step)
    requires Inv(counts, s) && Enabled(s, a)
    ensures StartedOk(Next(counts, s, a))
  {
    hide Inv, StartedOk, Next, Enabled;
    if a.Start? {
      StartsOnce(counts, s, a);
    } else {
      OthersStarted(counts, s, a);
    }
  }

  lemma OthersStarted(counts: seq<nat>, s: State, a: Step)
    requires Inv(counts, s) && Enabled(s, a) && !a.Start?
    ensures StartedOk(Next(counts, s, a))
  {
    var s' := Next(counts, s, a);
    if a.Schedule? { assert PhaseOk(counts, s, s.p) && s.tasks[s.p][s.pc.i].Idle?; }
    forall x: Place ensures x in s'.started <==> At(s', x.q, x.j) && Begun(s'.tasks[x.q][x.j]) {
      assert x in s.started <==> At(s, x.q, x.j) && Begun(s.tasks[x.q][x.j]);
    }
  }

  lemma NotSmall(counts: seq<nat>, s: State)
    requires Inv(counts, s) && s.p < |counts|
    ensures counts[s.p] >= |s.tasks[s.p]|
  {
    forall q | 0 <= q < s.p ensures counts[q] == |s.tasks[q]| { assert PhaseOk(counts, s, q); }
  }

  /** Steps of the awaiting thread that touch no task. */
  lemma AwaitInv(counts: seq<nat>, s: State, a: Step)
    requires Inv(counts, s) && Enabled(s, a) && (a.Clear? || a.Set? || a.Check?)
    ensures Inv(counts, Next(counts, s, a))
  {
    StartedStep(counts, s, a);
    hide StartedOk;
    var s' := Next(counts, s, a);
    assert PhaseOk(counts, s, s.p);
    if a.Set? { NoneDone(s.tasks[s.p]); }
    if a.Check? { DoneAll(s.tasks[s.p]); NotSmall(counts, s); }
    forall q | 0 <= q < |s'.tasks| ensures PhaseOk(counts, s', q) { assert PhaseOk(counts, s, q); }
  }

  /** Steps of a task of the current phase; there is no other one that can step. */
  lemma TaskInv(counts: seq<nat>, s: State, a: Step)
    requires Inv(counts, s) && Enabled(s, a) && (a.Start? || a.Return? || a.Complete?)
    ensures Inv(counts, Next(counts, s, a))
  {
    StartedStep(counts, s, a);
    hide StartedOk;
    var s' := Next(counts, s, a);
    assert PhaseOk(counts, s, a.q);
    assert a.q == s.p;
    DoneAfter(s.tasks[a.q], a.j, s'.tasks[a.q][a.j]);
    SoundSame(counts, s, s');
    SizesSame(s.tasks, s'.tasks, s.p);
    forall q | 0 <= q < |s'.tasks| ensures PhaseOk(counts, s', q) { assert PhaseOk(counts, s, q); }
  }

  lemma SoundSame(counts: seq<nat>, s: State, t: State)
    requires Sound(counts, s) && |s.tasks| == |t.tasks| && forall q :: 0 <= q < |s.tasks| ==> |s.tasks[q]| == |t.tasks[q]|
    ensures Sound(counts, t)
  {
    forall p | 0 <= p < |counts| && counts[p] < |t.tasks[p]| ensures exists q :: 0 <= q < p && counts[q] > |t.tasks[q]| {
      var q :| 0 <= q < p && counts[q] > |s.tasks[q]|;
    }
  }

  lemma ScheduleInv(counts: seq<nat>, s: State)
    requires Inv(counts, s) && Enabled(s, Schedule)
    ensures Inv(counts, Next(counts, s, Schedule))
  {
    StartedStep(counts, s, Schedule);
    hide StartedOk;
    var s' := Next(counts, s, Schedule);
    DoneAfter(s.tasks[s.p], s.pc.i, Scheduled);
    SoundSame(counts, s, s');
    SizesSame(s.tasks, s'.tasks, s.p);
    assert PhaseOk(counts, s, s.p);
    forall q | 0 <= q < |s'.tasks| ensures PhaseOk(counts, s', q) { assert PhaseOk(counts, s, q); }
  }

  lemma NextInv(counts: seq<nat>, s: State, a: Step)
    requires Inv(counts, s) && Enabled(s, a)
    ensures Inv(counts, Next(counts, s, a))
  {
    if a.Clear? || a.Set? || a.Check? { AwaitInv(counts, s, a); }
    else if a.Schedule? { ScheduleInv(counts, s); }
    else { TaskInv(counts, s, a); }
  }

  predicate SameSizes(s: State, t: State) {
    |s.tasks| == |t.tasks| && s.nrTask == t.nrTask && forall q :: 0 <= q < |s.tasks| ==> |s.tasks[q]| == |t.tasks[q]|
  }

  lemma NextSizes(counts: seq<nat>, s: State, a: Step)
    requires Fits(counts, s) && Enabled(s, a)
    ensures SameSizes(s, Next(counts, s, a))
  {
  }

  lemma {:induction false} RunInv(counts: seq<nat>, ss: seq<State>, steps: seq<Step>, i: nat)
    requires |ss| > 0 && Init(counts, ss[0]) && Sound(counts, ss[0]) && Run(counts, ss, steps) && i < |ss|
    ensures Inv(counts, ss[i]) && SameSizes(ss[0], ss[i])
  {
    hide Inv, Init, Sound, Fits, Enabled, Next;
    if i == 0 {
      InitInv(counts, ss[0]);
    } else {
      RunInv(counts, ss, steps, i - 1);
      NextInv(counts, ss[i - 1], steps[i - 1]);
      NextSizes(counts, ss[i - 1], steps[i - 1]);
    }
  }

  // ---------------------------------------------------------------- guarantees

  /** No task is running, or has run, unless all tasks of the earlier phases have called
      `mthpc_complete`. */
  lemma PhaseOrder(counts: seq<nat>, ss: seq<State>, steps: seq<Step>, i: nat, q: nat, j: nat, r: nat, k: nat)
    requires |ss| > 0 && Init(counts, ss[0]) && Sound(counts, ss[0]) && Run(counts, ss, steps) && i < |ss|
    requires At(ss[i], q, j) && !ss[i].tasks[q][j].Idle? && r < q && At(ss[i], r, k)
    ensures ss[i].tasks[r][k].Completed?
  {
    RunInv(counts, ss, steps, i);
    assert PhaseOk(counts, ss[i], q) && PhaseOk(counts, ss[i], r);
  }

  /** While tasks of a phase are handed out or awaited, `cnt` is the number of its finished tasks,
      and not above `nr`. */
  lemma CountExact(counts: seq<nat>, ss: seq<State>, steps: seq<Step>, i: nat)
    requires |ss| > 0 && Init(counts, ss[0]) && Sound(counts, ss[0]) && Run(counts, ss, steps) && i < |ss|
    requires ss[i].pc.Scheduling? || ss[i].pc.Waiting?
    ensures ss[i].p < |ss[i].tasks| && ss[i].cnt == Done(ss[i].tasks[ss[i].p]) <= ss[i].nr
  {
    RunInv(counts, ss, steps, i);
    DoneAll(ss[i].tasks[ss[i].p]);
    NotSmall(counts, ss[i]);
  }

  /** No task is under way while the counter is being initialised, so no late completion hits it. */
  lemma NoLateCompletion(counts: seq<nat>, ss: seq<State>, steps: seq<Step>, i: nat, q: nat, j: nat)
    requires |ss| > 0 && Init(counts, ss[0]) && Sound(counts, ss[0]) && Run(counts, ss, steps) && i < |ss|
    requires (ss[i].pc.Clearing? || ss[i].pc.Setting?) && At(ss[i], q, j)
    ensures ss[i].tasks[q][j].Idle? || ss[i].tasks[q][j].Completed?
  {
    RunInv(counts, ss, steps, i);
    assert PhaseOk(counts, ss[i], q);
  }

  /** A phase is left only if its count is exact; on return every task has been started exactly
      once, in the order of the phases, and has completed. No warning is given, but for the last
      one exactly when `nr_task` is not the number of tasks. */
  lemma OnReturn(counts: seq<nat>, ss: seq<State>, steps: seq<Step>, i: nat)
    requires |ss| > 0 && Init(counts, ss[0]) && Sound(counts, ss[0]) && Run(counts, ss, steps) && i < |ss|
    ensures forall q :: 0 <= q < ss[i].p ==> q < |counts| == |ss[i].tasks| && counts[q] == |ss[i].tasks[q]|
    ensures ss[i].pc.Ended? ==> ss[i].total == Sizes(ss[0].tasks, |ss[0].tasks|)
    ensures ss[i].warnings == if ss[i].pc.Ended? then Differ(Sizes(ss[0].tasks, |ss[0].tasks|), ss[0].nrTask) else 0
    ensures forall a, b :: 0 <= a < b < |ss[i].started| ==> ss[i].started[a] != ss[i].started[b] && ss[i].started[a].q <= ss[i].started[b].q
    ensures ss[i].pc.Ended? ==> forall x: Place :: At(ss[i], x.q, x.j) ==> ss[i].tasks[x.q][x.j].Completed? && x in ss[i].started
  {
    RunInv(counts, ss, steps, i);
    var s := ss[i];
    forall q | 0 <= q < s.p ensures q < |counts| == |s.tasks| && counts[q] == |s.tasks[q]| {
      assert PhaseOk(counts, s, q);
    }
    if s.pc.Ended? {
      SizesSame(s.tasks, ss[0].tasks, |s.tasks|);
      forall x: Place | At(s, x.q, x.j) ensures s.tasks[x.q][x.j].Completed? && x in s.started {
        assert PhaseOk(counts, s, x.q);
      }
    }
  }

  /** A phase whose count is too large is never left: `await` hangs there. */
  lemma Stuck(counts: seq<nat>, ss: seq<State>, steps: seq<Step>, i: nat, q: nat)
    requires |ss| > 0 && Init(counts, ss[0]) && Sound(counts, ss[0]) && Run(counts, ss, steps) && i < |ss|
    requires q < |counts| && counts[q] > |ss[0].tasks[q]|
    ensures ss[i].p <= q && !ss[i].pc.Ended?
  {
    RunInv(counts, ss, steps, i);
    assert PhaseOk(counts, ss[i], q);
  }

  // ---------------------------------------------------------------- which counts are needed

  ghost predicate Reach(counts: seq<nat>, s: State, t: State) {
    exists ss: seq<State>, steps: seq<Step> :: Leads(counts, ss, steps, s, t)
  }

  predicate Leads(counts: seq<nat>, ss: seq<State>, steps: seq<Step>, s: State, t: State) {
    |ss| > 0 && Run(counts, ss, steps) && ss[0] == s && ss[|ss| - 1] == t
  }

  lemma Stay(counts: seq<nat>, s: State)
    ensures Reach(counts, s, s)
  {
    assert Leads(counts, [s], [], s, s);
  }

  lemma Go(counts: seq<nat>, s: State, t: State, a: Step)
    requires Reach(counts, s, t) && Fits(counts, t) && Enabled(t, a)
    ensures Reach(counts, s, Next(counts, t, a)) && SameSizes(t, Next(counts, t, a))
  {
    hide Fits, Enabled, Next;
    var ss, steps :| Leads(counts, ss, steps, s, t);
    assert Leads(counts, ss + [Next(counts, t, a)], steps + [a], s, Next(counts, t, a));
    NextSizes(counts, t, a);
  }

  /** The tasks of phase `p`: the first `d` are completed, those up to `h` scheduled, the others idle. */
  predicate Progress(ts: seq<Status>, d: nat, h: nat) {
    forall j :: 0 <= j < |ts| ==> ts[j] == if j < d then Completed else if j < h then Scheduled else Idle
  }

  /** At phase `p` with everything before completed and nothing after begun. */
  predicate Between(counts: seq<nat>, s: State, p: nat) {
    && Fits(counts, s) && s.p == p < |counts|
    && (forall q :: 0 <= q < |s.tasks| ==> |s.tasks[q]| > 0)
    && (forall q, j :: 0 <= q < p && 0 <= j < |s.tasks[q]| ==> s.tasks[q][j].Completed?)
    && (forall q, j :: p < q < |s.tasks| && 0 <= j < |s.tasks[q]| ==> s.tasks[q][j].Idle?)
  }

  /** All tasks of the phase are handed out. */
  lemma {:induction false} HandOut(counts: seq<nat>, s0: State, s: State) returns (t: State)
    requires Reach(counts, s0, s) && Between(counts, s, s.p) && SameSizes(s0, s)
    requires s.pc.Scheduling? && s.pc.i < |s.tasks[s.p]| && Progress(s.tasks[s.p], 0, s.pc.i) && s.cnt == 0 && s.nr == counts[s.p]
    ensures Reach(counts, s0, t) && Between(counts, t, s.p) && SameSizes(s0, t)
    ensures t.pc.Waiting? && Progress(t.tasks[t.p], 0, |t.tasks[t.p]|) && t.cnt == 0 && t.nr == counts[t.p]
    decreases |s.tasks[s.p]| - s.pc.i
  {
    Go(counts, s0, s, Schedule);
    t := Next(counts, s, Schedule);
    if t.pc.Scheduling? { t := HandOut(counts, s0, t); }
  }

  /** One more task is run to its end. */
  lemma RunOne(counts: seq<nat>, s0: State, s: State, d: nat) returns (t: State)
    requires Reach(counts, s0, s) && Between(counts, s, s.p) && SameSizes(s0, s) && s.pc.Waiting?
    requires d < |s.tasks[s.p]| && Progress(s.tasks[s.p], d, |s.tasks[s.p]|) && s.cnt == d
    ensures Reach(counts, s0, t) && Between(counts, t, s.p) && SameSizes(s0, t) && t.pc.Waiting?
    ensures Progress(t.tasks[t.p], d + 1, |t.tasks[t.p]|) && t.cnt == d + 1 && t.nr == s.nr
  {
    Go(counts, s0, s, Start(s.p, d));
    var a := Next(counts, s, Start(s.p, d));
    Go(counts, s0, a, Return(s.p, d));
    var b := Next(counts, a, Return(s.p, d));
    Go(counts, s0, b, Complete(s.p, d));
    t := Next(counts, b, Complete(s.p, d));
    assert t.tasks[s.p] == s.tasks[s.p][d := Completed];
    assert forall q :: 0 <= q < |s.tasks| && q != s.p ==> t.tasks[q] == s.tasks[q];
  }

  lemma {:induction false} RunSome(counts: seq<nat>, s0: State, s: State, d: nat, m: nat) returns (t: State)
    requires Reach(counts, s0, s) && Between(counts, s, s.p) && SameSizes(s0, s) && s.pc.Waiting?
    requires d <= m <= |s.tasks[s.p]| && Progress(s.tasks[s.p], d, |s.tasks[s.p]|) && s.cnt == d
    ensures Reach(counts, s0, t) && Between(counts, t, s.p) && SameSizes(s0, t) && t.pc.Waiting?
    ensures Progress(t.tasks[t.p], m, |t.tasks[t.p]|) && t.cnt == m && t.nr == s.nr
    decreases m - d
  {
    if d == m {
      t := s;
    } else {
      var u := RunOne(counts, s0, s, d);
      t := RunSome(counts, s0, u, d + 1, m);
    }
  }

  /** From the start of a phase to the moment at which exactly as many tasks have completed as `nr` says. */
  lemma ToTheCount(counts: seq<nat>, s0: State, s: State) returns (t: State)
    requires Reach(counts, s0, s) && Between(counts, s, s.p) && SameSizes(s0, s) && s.pc.Clearing? && Progress(s.tasks[s.p], 0, 0)
    requires counts[s.p] <= |s.tasks[s.p]|
    ensures Reach(counts, s0, t) && Between(counts, t, s.p) && SameSizes(s0, t) && t.pc.Waiting?
    ensures Progress(t.tasks[t.p], counts[t.p], |t.tasks[t.p]|) && t.cnt == t.nr == counts[t.p]
  {
    Go(counts, s0, s, Clear);
    var a := Next(counts, s, Clear);
    Go(counts, s0, a, Set);
    var b := Next(counts, a, Set);
    var c := HandOut(counts, s0, b);
    t := RunSome(counts, s0, c, 0, counts[s.p]);
  }

  /** Phases with exact counts can be gone through. */
  lemma {:induction false} ToPhase(counts: seq<nat>, s0: State, p: nat) returns (t: State)
    requires Init(counts, s0) && p < |counts| && forall q :: 0 <= q < p ==> counts[q] == |s0.tasks[q]|
    ensures Reach(counts, s0, t) && Between(counts, t, p) && SameSizes(s0, t) && t.pc.Clearing? && Progress(t.tasks[p], 0, 0)
  {
    if p == 0 {
      Stay(counts, s0);
      t := s0;
    } else {
      var u := ToPhase(counts, s0, p - 1);
      var v := ToTheCount(counts, s0, u);
      Go(counts, s0, v, Check);
      t := Next(counts, v, Check);
    }
  }

  /** Some run leaves a phase while one of its tasks has not completed. */
  ghost predicate LeavesEarly(counts: seq<nat>, s0: State) {
    exists t, q: nat, j: nat :: Reach(counts, s0, t) && q < t.p && At(t, q, j) && !t.tasks[q][j].Completed?
  }

  lemma {:induction false} FirstInexact(counts: seq<nat>, s: State, p: nat) returns (f: nat)
    requires |counts| == |s.tasks| && p < |counts| && counts[p] < |s.tasks[p]|
    requires forall q :: 0 <= q < p ==> counts[q] <= |s.tasks[q]|
    ensures f <= p && counts[f] < |s.tasks[f]| && forall q :: 0 <= q < f ==> counts[q] == |s.tasks[q]|
    decreases p
  {
    if q :| 0 <= q < p && counts[q] < |s.tasks[q]| {
      f := FirstInexact(counts, s, q);
    } else {
      f := p;
    }
  }

  /** Exactly when every run completes each phase before it goes on: when the first count that
      differs from the size of its phase, if there is any, is too large. */
  lemma LeavesEarlyIff(counts: seq<nat>, s0: State)
    requires Init(counts, s0)
    ensures LeavesEarly(counts, s0) <==> !Sound(counts, s0)
  {
    if Sound(counts, s0) {
      forall t, q: nat, j: nat | Reach(counts, s0, t) && q < t.p && At(t, q, j) ensures t.tasks[q][j].Completed? {
        var ss, steps :| Leads(counts, ss, steps, s0, t);
        RunInv(counts, ss, steps, |ss| - 1);
        assert PhaseOk(counts, t, q);
      }
    } else {
      var p :| 0 <= p < |counts| && counts[p] < |s0.tasks[p]| && forall q :: 0 <= q < p ==> counts[q] <= |s0.tasks[q]|;
      var f := FirstInexact(counts, s0, p);
      var u := ToPhase(counts, s0, f);
      var v := ToTheCount(counts, s0, u);
      Go(counts, s0, v, Check);
      var t := Next(counts, v, Check);
      assert t.tasks[f][counts[f]] == Scheduled;
      assert Reach(counts, s0, t) && f < t.p && At(t, f, counts[f]);
    }
  }

  // ---------------------------------------------------------------- when await can return

  ghost predicate CanReturn(counts: seq<nat>, s0: State) {
    exists t :: Reach(counts, s0, t) && t.pc.Ended?
  }

  /** Unless the first inexact count is too small, `await` can return exactly if all of them are
      exact; otherwise it never does. */
  lemma ReturnsIff(counts: seq<nat>, s0: State)
    requires Init(counts, s0) && Sound(counts, s0)
    ensures CanReturn(counts, s0) <==> forall q :: 0 <= q < |counts| ==> counts[q] == |s0.tasks[q]|
  {
    if forall q :: 0 <= q < |counts| ==> counts[q] == |s0.tasks[q]| {
      if |counts| == 0 {
        Stay(counts, s0);
      } else {
        var u := ToPhase(counts, s0, |counts| - 1);
        var v := ToTheCount(counts, s0, u);
        Go(counts, s0, v, Check);
        assert Next(counts, v, Check).pc.Ended?;
      }
    } else {
      var q :| 0 <= q < |counts| && counts[q] != |s0.tasks[q]|;
      forall t | Reach(counts, s0, t) ensures !t.pc.Ended? {
        var ss, steps :| Leads(counts, ss, steps, s0, t);
        OnReturn(counts, ss, steps, |ss| - 1);
        RunInv(counts, ss, steps, |ss| - 1);
      }
    }
  }

  // ---------------------------------------------------------------- whatever the counts are

  /** The first `k` counts that are not the sizes of their phases. */
  function Inexact(counts: seq<nat>, tasks: seq<seq<Status>>, k: nat): nat
    requires k <= |counts| == |tasks|
  {
    if k == 0 then 0 else Inexact(counts, tasks, k - 1) + Differ(|tasks[k - 1]|, counts[k - 1])
  }

  lemma {:induction false} InexactSame(counts: seq<nat>, a: seq<seq<Status>>, b: seq<seq<Status>>, k: nat)
    requires k <= |counts| == |a| == |b| && forall q :: 0 <= q < |a| ==> |a[q]| == |b[q]|
    ensures Inexact(counts, a, k) == Inexact(counts, b, k)
  {
    if k > 0 { InexactSame(counts, a, b, k - 1); }
  }

  ghost predicate Tallied(counts: seq<nat>, s: State, tasks: seq<seq<Status>>) {
    && Fits(counts, s) && |tasks| == |counts| && (s.pc.Ended? <==> s.p == |counts|)
    && s.total == Sizes(tasks, s.p)
    && s.warnings == Inexact(counts, tasks, s.p) + if s.pc.Ended? then Differ(s.total, s.nrTask) else 0
  }

  lemma TallyStep(counts: seq<nat>, s: State, a: Step, tasks: seq<seq<Status>>)
    requires Tallied(counts, s, tasks) && Enabled(s, a) && forall q :: 0 <= q < |s.tasks| ==> |tasks[q]| == |s.tasks[q]|
    ensures Tallied(counts, Next(counts, s, a), tasks)
  {
  }

  /** Without any condition on the counts: `nr_completed` is the number of tasks of the phases left
      behind, and a warning is given for each of these whose count is not its size, and in the end
      if the sum is not `nr_task`. */
  lemma {:induction false} Warnings(counts: seq<nat>, ss: seq<State>, steps: seq<Step>, i: nat)
    requires |ss| > 0 && Init(counts, ss[0]) && Run(counts, ss, steps) && i < |ss|
    ensures Tallied(counts, ss[i], ss[0].tasks) && SameSizes(ss[0], ss[i])
  {
    hide Enabled, Next, Tallied;
    if i == 0 {
      InitTally(counts, ss[0]);
    } else {
      Warnings(counts, ss, steps, i - 1);
      NextSizes(counts, ss[i - 1], steps[i - 1]);
      TallyStep(counts, ss[i - 1], steps[i - 1], ss[0].tasks);
    }
  }

  lemma InitTally(counts: seq<nat>, s: State)
    requires Init(counts, s)
    ensures Tallied(counts, s, s.tasks)
  {
  }

  /** The counter has passed `nr`. */
  predicate Passed(s: State) {
    s.pc.Waiting? && s.cnt > s.nr
  }

  /** Then the wait, which asks for equality, never ends. */
  lemma {:induction false} PassedHangs(counts: seq<nat>, ss: seq<State>, steps: seq<Step>, i: nat, j: nat)
    requires Run(counts, ss, steps) && i <= j < |ss| && Passed(ss[i])
    ensures Passed(ss[j]) && ss[j].p == ss[i].p
    decreases j
  {
    if i < j {
      PassedHangs(counts, ss, steps, i, j - 1);
    }
  }

  /** When the first count that differs from the size of its phase is too small, `await` can also hang
      there: if it does not look at the counter in the moment in which the two are equal. */
  lemma SmallCanHang(counts: seq<nat>, s0: State)
    requires Init(counts, s0) && !Sound(counts, s0)
    ensures exists t :: Reach(counts, s0, t) && Passed(t)
  {
    var p :| 0 <= p < |counts| && counts[p] < |s0.tasks[p]| && forall q :: 0 <= q < p ==> counts[q] <= |s0.tasks[q]|;
    var f := FirstInexact(counts, s0, p);
    var u := ToPhase(counts, s0, f);
    Go(counts, s0, u, Clear);
    var a := Next(counts, u, Clear);
    Go(counts, s0, a, Set);
    var b := Next(counts, a, Set);
    var c := HandOut(counts, s0, b);
    var t := RunSome(counts, s0, c, 0, |c.tasks[f]|);
    assert Reach(counts, s0, t) && Passed(t);
  }
}
