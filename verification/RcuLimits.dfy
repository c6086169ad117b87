/** Which sections a single grace period can miss, exactly. */
module RcuLimits {
  import opened RcuWord
  import opened RcuGrace
  import opened RcuSafety

  /** Judged right after the outermost store of `t`: the stored sample is out of date, and the
      next flip of `data->gp_seq` belongs to a grace period that has not locked `data` yet; a
      running second scan, which would still wait for the stored phase, is already past `t`. */
  predicate Escapes(s: State, t: nat) {
    && t < |s.readers| && OtherPhase(s.readers[t].word, s.gp)
    && (!s.lock.HeldByUpdater?
        || (InScan2(s) && s.updaters[s.lock.u].pc.i <= |s.registry|
            && t in s.registry[..s.updaters[s.lock.u].pc.i]))
  }

  // ---------------------------------------------------------------- the others are waited for

  /** Only the holder of `data->lock` gives it up, and an updater does so by returning. */
  lemma HolderStep(s: State, a: Step, u: nat)
    requires Enabled(s, a) && s.lock == HeldByUpdater(u) && u < |s.updaters| && UpdaterOk(s, u)
    requires a.U? ==> UpdaterOk(s, a.u)
    requires a.R? ==> ReaderOk(s, a.t)
    ensures var s' := Next(s, a);
            if a == U(u, Return) then s'.done == s.done + [Grace(s.updaters[u].called, s.updaters[u].pc.gp)]
            else && s'.done == s.done && s'.lock == s.lock && s'.registry == s.registry
                 && s'.updaters[u].called == s.updaters[u].called
                 && (a != U(u, Scan) && s.updaters[u].pc.Scan2? ==> s'.updaters[u].pc == s.updaters[u].pc)
  {
  }

  lemma HolderExists(s: State)
    requires Inv(s)
    ensures s.lock.HeldByUpdater? ==> s.lock.u < |s.updaters|
  {
  }

  /** An updater that holds the lock completes the next grace period. */
  lemma {:induction false} HolderIsNext(ss: seq<State>, steps: seq<Step>, i: nat, j: nat)
    requires |ss| > 0 && Init(ss[0]) && Run(ss, steps) && i <= j < |ss|
    requires ss[i].lock.HeldByUpdater?
    ensures var u, k := ss[i].lock.u, |ss[i].done|;
            && u < |ss[i].updaters| == |ss[j].updaters| && |ss[j].done| >= k
            && (|ss[j].done| == k ==> ss[j].lock == ss[i].lock && ss[j].updaters[u].called == ss[i].updaters[u].called)
            && (|ss[j].done| > k ==> ss[j].done[k].called == ss[i].updaters[u].called)
    decreases j
  {
    hide Inv, Enabled, Next;
    RunInv(ss, steps, i);
    HolderExists(ss[i]);
    if i < j {
      HolderIsNext(ss, steps, i, j - 1);
      RunGrows(ss, steps, j - 1, j);
      RunInv(ss, steps, j - 1);
      if |ss[j - 1].done| == |ss[i].done| {
        HolderStepInv(ss[j - 1], steps[j - 1], ss[i].lock.u);
      } else {
        assert ss[j].done[..|ss[j - 1].done|][|ss[i].done|] == ss[j].done[|ss[i].done|];
      }
    }
  }

  lemma HolderStepInv(s: State, a: Step, u: nat)
    requires Inv(s) && Enabled(s, a) && s.lock == HeldByUpdater(u)
    ensures u < |s.updaters| && UpdaterOk(s, u)
    ensures var s' := Next(s, a);
            if a == U(u, Return) then s'.done == s.done + [Grace(s.updaters[u].called, s.updaters[u].pc.gp)]
            else && s'.done == s.done && s'.lock == s.lock && s'.registry == s.registry
                 && s'.updaters[u].called == s.updaters[u].called
                 && (a != U(u, Scan) && s.updaters[u].pc.Scan2? ==> s'.updaters[u].pc == s.updaters[u].pc)
  {
    assert UpdaterOk(s, u);
    assert a.U? ==> UpdaterOk(s, a.u);
    assert a.R? ==> ReaderOk(s, a.t);
    HolderStep(s, a, u);
  }

  /** A second scan that has not passed a node of its own phase waits there. */
  predicate WaitsAt(s: State, t: nat) {
    && InScan2(s) && t in s.registry && s.updaters[s.lock.u].pc.i <= |s.registry|
    && t !in s.registry[..s.updaters[s.lock.u].pc.i]
    && InSection(s, t) && !OtherPhase(s.readers[t].word, s.updaters[s.lock.u].pc.gp)
  }

  lemma WaitsAtStep(s: State, a: Step, t: nat)
    requires Inv(s) && Enabled(s, a) && WaitsAt(s, t) && InSection(Next(s, a), t)
    ensures WaitsAt(Next(s, a), t) && Next(s, a).done == s.done
  {
    var u := s.lock.u;
    HolderStepInv(s, a, u);
    assert ReaderOk(s, t);
    SectionStep(s, a, t);
    var gp := s.updaters[u].pc.gp;
    OtherPhaseIsBit(s.readers[t].word, gp);
    OtherPhaseIsBit(Next(s, a).readers[t].word, gp);
    if a == U(u, Scan) {
      var i := s.updaters[u].pc.i;
      assert s.registry[..i + 1] == s.registry[..i] + [s.registry[i]];
    }
  }

  lemma {:induction false} WaitsAtRun(ss: seq<State>, steps: seq<Step>, t: nat, a: nat, c: nat)
    requires |ss| > 0 && Init(ss[0]) && Run(ss, steps) && Section(ss, steps, t, a, c)
    requires WaitsAt(ss[a + 1], t)
    ensures |ss[c].done| == |ss[a + 1].done|
    ensures WaitsAt(ss[c], t)
    decreases c
  {
    hide Inv, Enabled, Next, WaitsAt;
    if a + 1 < c {
      WaitsAtRun(ss, steps, t, a, c - 1);
      RunInv(ss, steps, c - 1);
      assert InSection(ss[c], t);
      WaitsAtStep(ss[c - 1], steps[c - 1], t);
    }
  }

  /** Every grace period called during a section that does not escape waits for it. */
  lemma NonEscapingIsWaitedFor(ss: seq<State>, steps: seq<Step>, t: nat, a: nat, c: nat,
                               u: nat, b: nat, e: nat)
    requires |ss| > 0 && Init(ss[0]) && Run(ss, steps)
    requires Section(ss, steps, t, a, c) && GracePeriod(steps, u, b, e) && a < b
    requires !Escapes(ss[a + 1], t)
    ensures c <= e
  {
    var s := ss[a + 1];
    RunInv(ss, steps, a);
    RunInv(ss, steps, a + 1);
    assert s == Next(ss[a], steps[a]);
    assert InSection(s, t);
    assert ReaderOk(s, t);
    if e < c {
      if !OtherPhase(s.readers[t].word, s.gp) {
        OneGracePeriodSuffices(ss, steps, t, a, c, u, b, e);
      } else {
        assert UpdaterOk(s, s.lock.u);
        GraceRecorded(ss, steps, u, b, e, c);
        if InScan2(s) {
          OldScanWaits(s, t);
          WaitsAtRun(ss, steps, t, a, c);
          RunGrows(ss, steps, a + 1, e);
        } else {
          LockedBeforeStore(ss, steps, t, a, c, u, b, e);
        }
      }
    }
  }

  lemma OldScanWaits(s: State, t: nat)
    requires Inv(s) && InSection(s, t) && InScan2(s) && t in s.registry
    requires OtherPhase(s.readers[t].word, s.gp) && !Escapes(s, t)
    ensures WaitsAt(s, t)
  {
    var u := s.lock.u;
    assert UpdaterOk(s, u);
    OtherPhaseIsBit(s.readers[t].word, s.gp);
    OtherPhaseIsBit(s.readers[t].word, s.updaters[u].pc.gp);
    GpWords(|s.done|);
  }

  lemma LockedBeforeStore(ss: seq<State>, steps: seq<Step>, t: nat, a: nat, c: nat, u: nat, b: nat, e: nat)
    requires |ss| > 0 && Init(ss[0]) && Run(ss, steps)
    requires Section(ss, steps, t, a, c) && GracePeriod(steps, u, b, e) && a < b
    requires ss[a + 1].lock.HeldByUpdater? && !InScan2(ss[a + 1])
    ensures c <= e
  {
    hide Enabled, Next;
    if e < c {
      var s := ss[a + 1];
      RunInv(ss, steps, a + 1);
      assert UpdaterOk(s, s.lock.u);
      GraceRecorded(ss, steps, u, b, e, c);
      RunInv(ss, steps, c);
      SectionKeeps(ss, steps, t, a, c);
      RunGrows(ss, steps, a, a + 1);
      RunGrows(ss, steps, a, b);
      Waited(ss[c], t, |ss[e].done|);
      StoreKeepsFlips(ss[a], t);
      assert Enabled(ss[a], steps[a]) && s == Next(ss[a], steps[a]);
      HolderIsNext(ss, steps, a + 1, c);
    }
  }

  lemma StoreKeepsFlips(s: State, t: nat)
    ensures Enabled(s, R(t, StoreWord)) ==>
              var s' := Next(s, R(t, StoreWord)); s'.done == s.done && s'.updaters == s.updaters && s'.lock == s.lock
  {
  }

  // ---------------------------------------------------------------- the same, state by state

  /** What keeps the section of `t`, which did not escape, covered: it stored the current phase; or
      the grace period of the next flip was called before its store; or the running second scan
      waits for it. */
  predicate Covered(s: State, t: nat)
    requires t < |s.readers|
  {
    var r := s.readers[t];
    || Due(r) == r.flips
    || (Flips(s) == r.flips && s.lock.HeldByUpdater? && !InScan2(s) && s.lock.u < |s.updaters|
        && s.updaters[s.lock.u].called <= r.since)
    || (Flips(s) > r.flips && InScan2(s) && |s.done| == r.flips && s.updaters[s.lock.u].called <= r.since)
    || (|s.done| > r.flips && s.done[r.flips].called <= r.since)
    || (WaitsAt(s, t) && |s.done| + 1 == r.flips)
  }

  lemma CoveredAtStore(s: State, t: nat)
    requires Inv(s) && Enabled(s, R(t, StoreWord)) && !Escapes(Next(s, R(t, StoreWord)), t)
    ensures Inv(Next(s, R(t, StoreWord))) && Covered(Next(s, R(t, StoreWord)), t)
  {
    var s' := Next(s, R(t, StoreWord));
    NextInv(s, R(t, StoreWord));
    assert ReaderOk(s, t) && ReaderOk(s', t);
    GpWords(Flips(s'));
    OtherPhaseIsBit(s'.readers[t].word, s'.gp);
    if OtherPhase(s'.readers[t].word, s'.gp) {
      assert UpdaterOk(s, s.lock.u);
      if InScan2(s') { OldScanWaits(s', t); }
    }
  }

  lemma CoveredStep(s: State, a: Step, t: nat)
    requires Inv(s) && Enabled(s, a) && InSection(s, t) && InSection(Next(s, a), t) && Covered(s, t)
    ensures Covered(Next(s, a), t)
  {
    var s' := Next(s, a);
    assert ReaderOk(s, t);
    SectionStep(s, a, t);
    if WaitsAt(s, t) {
      WaitsAtStep(s, a, t);
    } else if s.lock.HeldByUpdater? {
      HolderStepInv(s, a, s.lock.u);
    }
  }

  /** No completed grace period that was called during a covered section has missed it. */
  lemma CoveredIsWaitedFor(s: State, t: nat, k: nat)
    requires Inv(s) && InSection(s, t) && Covered(s, t) && k < |s.done|
    ensures s.done[k].called <= s.readers[t].since
  {
    assert ReaderOk(s, t);
    if s.done[k].called > s.readers[t].since {
      Waited(s, t, k);
    }
  }

  // ---------------------------------------------------------------- the escaping ones are missed

  ghost predicate OnlyReader(steps: seq<Step>, x: nat) {
    forall j :: 0 <= j < |steps| ==> steps[j].R? && steps[j].t == x
  }

  ghost predicate NoStepOf(steps: seq<Step>, t: nat) {
    forall j :: 0 <= j < |steps| ==> !(steps[j].R? && steps[j].t == t)
  }

  function Rank(r: Reader): nat {
    2 * Depth(r.word) + (if r.pc.Unlocking? then 0 else if r.pc.LockNested? then 4 else 1)
  }

  /** A reader in a section can always take a step towards its end. */
  lemma DrainStep(s: State, x: nat) returns (a: Step)
    requires Inv(s) && InSection(s, x)
    ensures a.R? && a.t == x && Enabled(s, a) && Inv(Next(s, a))
    ensures var s' := Next(s, a);
            && |s'.readers| == |s.readers| && Rank(s'.readers[x]) < Rank(s.readers[x])
            && s' == s.(now := s'.now, readers := s.readers[x := s'.readers[x]])
  {
    assert ReaderOk(s, x);
    var p := s.readers[x].pc;
    var act := if p.LockNested? then AddNest else if p.Unlocking? then SubNest else ReadUnlock;
    DrainRank(s, x, act);
    NextInv(s, R(x, act));
    a := R(x, act);
  }

  /** It can run on to the end. */
  lemma {:induction false} Drain(s: State, x: nat) returns (steps: seq<Step>)
    requires Inv(s) && x < |s.readers|
    ensures OnlyReader(steps, x) && CanRun(s, steps) && Inv(After(s, steps))
    ensures var s' := After(s, steps);
            && |s'.readers| == |s.readers| && !Active(s'.readers[x].word)
            && s' == s.(now := s'.now, readers := s.readers[x := s'.readers[x]])
    decreases Rank(s.readers[x])
  {
    hide Inv, Enabled, Next, Rank, Active;
    if !InSection(s, x) {
      steps := [];
      assert s.readers[x := s.readers[x]] == s.readers;
    } else {
      var a := DrainStep(s, x);
      var rest := Drain(Next(s, a), x);
      steps := Prepend(s, a, rest);
    }
  }

  lemma DrainRank(s: State, x: nat, act: ReaderAct)
    requires x < |s.readers| && ReaderOk(s, x) && ReaderEnabled(s, x, act) && Active(s.readers[x].word)
    requires act in {AddNest, SubNest, ReadUnlock}
    ensures Rank(ReaderAfter(s, x, act)) < Rank(s.readers[x])
    ensures ReaderNext(s, x, act) == s.(now := s.now + 1, readers := s.readers[x := ReaderAfter(s, x, act)])
  {
    if act == AddNest {
      IncWord(s.readers[x].word);
    } else if act == SubNest {
      DecWord(s.readers[x].word);
    }
  }

  /** All but `t` of the first `n` readers run on to the end of their sections. */
  lemma {:induction false} DrainOthers(s: State, t: nat, n: nat) returns (steps: seq<Step>)
    requires Inv(s) && t < |s.readers| && n <= |s.readers|
    ensures NoStepOf(steps, t) && CanRun(s, steps) && Inv(After(s, steps))
    ensures var s' := After(s, steps);
            && |s'.readers| == |s.readers| && s'.readers[t] == s.readers[t]
            && (forall x :: 0 <= x < n && x != t ==> !Active(s'.readers[x].word))
            && s' == s.(now := s'.now, readers := s'.readers)
  {
    if n == 0 {
      steps := [];
    } else {
      steps := DrainOthers(s, t, n - 1);
      if n - 1 != t {
        var s1 := After(s, steps);
        var more := Drain(s1, n - 1);
        CanRunConcat(s, steps, more);
        steps := steps + more;
      }
    }
  }

  /** A thread inside registration completes it. */
  lemma FinishRegistration(s: State, x: nat) returns (steps: seq<Step>)
    requires Inv(s) && s.lock == HeldByReader(x)
    ensures OnlyReader(steps, x) && CanRun(s, steps) && Inv(After(s, steps))
    ensures var s' := After(s, steps);
            && x < |s.readers| == |s'.readers| && !Active(s'.readers[x].word) && s'.lock.Free?
            && s' == s.(now := s'.now, lock := Free, registry := s'.registry, readers := s.readers[x := s'.readers[x]])
  {
    assert ReaderOk(s, x);
    var p := s.readers[x].pc;
    if p.AddHolding? {
      steps := FinishTwo(s, x, AddLink, AddUnlock);
    } else if p.DelHolding? {
      steps := FinishTwo(s, x, DelUnlink, DelUnlock);
    } else {
      var act := if p.AddLinked? then AddUnlock else DelUnlock;
      NextInv(s, R(x, act));
      steps := Single(s, R(x, act));
    }
  }

  lemma FinishTwo(s: State, x: nat, act1: ReaderAct, act2: ReaderAct) returns (steps: seq<Step>)
    requires Inv(s) && s.lock == HeldByReader(x) && ReaderEnabled(s, x, act1) && !Active(s.readers[x].word)
    requires (act1, act2) in {(AddLink, AddUnlock), (DelUnlink, DelUnlock)}
    ensures OnlyReader(steps, x) && CanRun(s, steps) && Inv(After(s, steps))
    ensures var s' := After(s, steps);
            && |s.readers| == |s'.readers| && !Active(s'.readers[x].word) && s'.lock.Free?
            && s' == s.(now := s'.now, lock := Free, registry := s'.registry, readers := s.readers[x := s'.readers[x]])
  {
    var s1 := Next(s, R(x, act1));
    NextInv(s, R(x, act1));
    NextInv(s1, R(x, act2));
    steps := Single(s1, R(x, act2));
    steps := Prepend(s, R(x, act1), steps);
  }

  /** Whoever holds the lock gives it up without a step of `t`, unless it waits for `t`. */
  lemma FreeLock(s: State, t: nat) returns (steps: seq<Step>)
    requires Inv(s) && InSection(s, t) && Escapes(s, t)
    requires forall x :: 0 <= x < |s.readers| && x != t ==> !Active(s.readers[x].word)
    ensures NoStepOf(steps, t) && CanRun(s, steps)
    ensures var s' := After(s, steps);
            && s'.lock.Free? && s'.gp == s.gp
            && |s'.readers| == |s.readers| && s'.readers[t] == s.readers[t]
            && (forall x :: 0 <= x < |s.readers| && x != t ==> !Active(s'.readers[x].word))
            && |s'.updaters| == |s.updaters|
            && (forall w :: 0 <= w < |s.updaters| && s.updaters[w].pc.Idle? ==> s'.updaters[w].pc.Idle?)
            && RegistryOk(s')
  {
    if s.lock.Free? {
      steps := [];
    } else if s.lock.HeldByReader? {
      assert ReaderOk(s, t);
      assert ReaderOk(s, s.lock.t);
      steps := FinishRegistration(s, s.lock.t);
    } else {
      var u := s.lock.u;
      assert UpdaterOk(s, u);
      steps := SoloFinish(s, u);
    }
  }

  /** Conversely, from every reachable state in which a section escapes, and whatever the other
      threads were doing, a grace period can be called and return during that section: the
      condition of `NonEscapingIsWaitedFor` cannot be weakened. */
  lemma EscapingIsMissed(s: State, t: nat, w: nat) returns (x: seq<Step>, y: seq<Step>)
    requires Inv(s) && InSection(s, t) && Escapes(s, t)
    requires w < |s.updaters| && s.updaters[w].pc.Idle?
    ensures NoStepOf(x, t) && Solo(y, w)
    ensures |y| > 1 && y[0] == U(w, Synchronize) && y[|y| - 1] == U(w, Return)
    ensures CanRun(s, x + y) && InSection(After(s, x + y), t) && After(s, x + y).readers[t] == s.readers[t]
  {
    hide CanRun, After, Inv, Enabled, Next;
    var d := DrainOthers(s, t, |s.readers|);
    var s1 := After(s, d);
    var f := FreeLock(s1, t);
    var s2 := After(s1, f);
    CanRunConcat(s, d, f);
    x := d + f;
    forall i | 0 <= i < |s2.registry| ensures Passes(s2, s2.registry[i], s2.gp) {
      assert s2.registry[i] < |s2.readers|;
    }
    y := SoloGracePeriod(s2, w);
    CanRunConcat(s, x, y);
  }

  lemma RegisterOne(s: State) returns (steps: seq<Step>)
    requires s == State([Reader(Absent, 0, 0, 0, 0)], [Updater(Idle, 0)], [], GP_COUNT, Free, 0, [])
    ensures CanRun(s, steps)
    ensures After(s, steps) == State([Reader(Ready, 0, 0, 0, 0)], [Updater(Idle, 0)], [0], GP_COUNT, Free, 3, [])
  {
    hide CanRun, After;
    var s1 := Next(s, R(0, AddLock));
    var s2 := Next(s1, R(0, AddLink));
    steps := Single(s2, R(0, AddUnlock));
    steps := Prepend(s1, R(0, AddLink), steps);
    steps := Prepend(s, R(0, AddLock), steps);
  }

  /** A registered thread that has loaded `data->gp_seq` and not yet stored it. */
  lemma SleepyReader() returns (s: State, steps: seq<Step>)
    ensures Init(s) && CanRun(s, steps)
    ensures After(s, steps) == State([Reader(LockLoaded(GP_COUNT), 0, 0, 0, 0)], [Updater(Idle, 0)], [0], GP_COUNT, Free, 5, [])
  {
    hide CanRun, After;
    s := State([Reader(Absent, 0, 0, 0, 0)], [Updater(Idle, 0)], [], GP_COUNT, Free, 0, []);
    var register := RegisterOne(s);
    var s3 := After(s, register);
    assert Depth(s3.readers[0].word) == 0;
    var s4 := Next(s3, R(0, ReadLock));
    steps := Single(s4, R(0, LoadGp));
    steps := Prepend(s3, R(0, ReadLock), steps);
    CanRunConcat(s, register, steps);
    steps := register + steps;
  }

  lemma SameThreads(s: State, a: Step)
    requires Enabled(s, a)
    ensures |Next(s, a).readers| == |s.readers| && |Next(s, a).updaters| == |s.updaters|
    ensures if a.R? then a.t < |s.readers| else a.u < |s.updaters|
  {
  }

  lemma {:induction false} SameThreadsAfter(s: State, steps: seq<Step>)
    requires CanRun(s, steps)
    ensures |After(s, steps).readers| == |s.readers| && |After(s, steps).updaters| == |s.updaters|
    decreases |steps|
  {
    if steps != [] {
      SameThreads(s, steps[0]);
      SameThreadsAfter(Next(s, steps[0]), steps[1..]);
    }
  }

  lemma {:induction false} ReturnsLast(s: State, steps: seq<Step>, w: nat)
    requires CanRun(s, steps) && steps != [] && steps[|steps| - 1] == U(w, Return)
    ensures w < |After(s, steps).updaters| && After(s, steps).updaters[w].pc.Idle?
    decreases |steps|
  {
    if |steps| == 1 {
      assert steps[1..] == [];
    } else {
      ReturnsLast(Next(s, steps[0]), steps[1..], w);
    }
  }

  /** Escaping sections exist: a thread that loads `data->gp_seq`, sleeps through a whole grace
      period and only then stores its sample is in one. */
  lemma EscapingSectionWitness() returns (s: State, steps: seq<Step>)
    ensures Init(s) && CanRun(s, steps) && |steps| > 0 && steps[|steps| - 1] == R(0, StoreWord)
    ensures InSection(After(s, steps), 0) && Escapes(After(s, steps), 0)
    ensures var s' := After(s, steps); s'.readers[0].pc.Ready? && |s'.updaters| == 1 && s'.updaters[0].pc.Idle?
  {
    hide CanRun, After;
    var pre;
    s, pre := SleepyReader();
    var s5 := After(s, pre);
    var grace := SoloGracePeriod(s5, 0);
    SameThreadsAfter(s5, grace);
    ReturnsLast(s5, grace, 0);
    CanRunConcat(s, pre, grace);
    var s6 := After(s5, grace);
    steps := Single(s6, R(0, StoreWord));
    CanRunConcat(s, pre + grace, steps);
    steps := pre + grace + steps;
  }
}
