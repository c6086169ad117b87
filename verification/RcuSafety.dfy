/** What grace periods guarantee, for every run of the protocol: which sections have ended when they
    return, the words that scans compare, and that an updater that nothing blocks gets through. */
module RcuSafety {
  import opened RcuWord
  import opened RcuGrace

  predicate InSection(s: State, t: nat) {
    t < |s.readers| && Active(s.readers[t].word)
  }

  /** The outermost store of thread `t` at step `a` opens a section that lasts through `ss[c]`. */
  ghost predicate Section(ss: seq<State>, steps: seq<Step>, t: nat, a: nat, c: nat) {
    && a < |steps| == |ss| - 1 && a < c < |ss|
    && steps[a] == R(t, StoreWord)
    && forall j :: a < j <= c ==> InSection(ss[j], t)
  }

  /** Updater `u` calls synchronize at step `b` and that call returns at step `e`. */
  ghost predicate GracePeriod(steps: seq<Step>, u: nat, b: nat, e: nat) {
    && b < e < |steps|
    && steps[b] == U(u, Synchronize) && steps[e] == U(u, Return)
    && forall j :: b < j < e ==> steps[j] != U(u, Return)
  }

  // ---------------------------------------------------------------- runs

  lemma {:induction false} RunInv(ss: seq<State>, steps: seq<Step>, i: nat)
    requires |ss| > 0 && Init(ss[0]) && Run(ss, steps) && i < |ss|
    ensures Inv(ss[i])
  {
    if i == 0 {
      InitInv(ss[0]);
    } else {
      RunInv(ss, steps, i - 1);
      NextInv(ss[i - 1], steps[i - 1]);
    }
  }

  /** Time passes, and the list of completed grace periods only grows. */
  lemma {:induction false} RunGrows(ss: seq<State>, steps: seq<Step>, i: nat, j: nat)
    requires Run(ss, steps) && i <= j < |ss|
    ensures ss[i].now + (j - i) == ss[j].now
    ensures |ss[i].done| <= |ss[j].done| && ss[j].done[..|ss[i].done|] == ss[i].done
    ensures |ss[i].readers| == |ss[j].readers| && |ss[i].updaters| == |ss[j].updaters|
    decreases j - i
  {
    if i < j {
      RunGrows(ss, steps, i, j - 1);
      var s := ss[j - 1];
      assert ss[j] == Next(s, steps[j - 1]);
      assert ss[j].done[..|s.done|] == s.done;
    }
  }

  lemma ReadersOk(s: State, t: nat)
    requires Inv(s) && t < |s.readers|
    ensures ReaderOk(s, t)
  {
  }

  lemma StoreOpens(s: State, t: nat)
    requires Enabled(s, R(t, StoreWord))
    ensures t < |s.readers|
    ensures var r := Next(s, R(t, StoreWord)).readers[t]; r.since == s.now && r.flips == Flips(s)
  {
  }

  /** While a section lasts, its history fields and its phase stay as its store made them. */
  lemma {:induction false} SectionKeeps(ss: seq<State>, steps: seq<Step>, t: nat, a: nat, c: nat)
    requires |ss| > 0 && Init(ss[0]) && Run(ss, steps) && Section(ss, steps, t, a, c)
    ensures ss[c].readers[t].since == ss[a].now
    ensures ss[c].readers[t].flips == Flips(ss[a])
    ensures Bit(ss[c].readers[t].word) == Bit(ss[a + 1].readers[t].word)
    decreases c
  {
    hide Inv, Enabled, Next, Flips, Init;
    if a + 1 == c {
      StoreOpens(ss[a], t);
    } else {
      SectionKeeps(ss, steps, t, a, c - 1);
      RunInv(ss, steps, c - 1);
      assert InSection(ss[c - 1], t) && InSection(ss[c], t);
      ReadersOk(ss[c - 1], t);
      SectionStep(ss[c - 1], steps[c - 1], t);
    }
  }

  /** A step from inside a section to inside a section does not open another one. */
  lemma SectionStep(s: State, a: Step, t: nat)
    requires t < |s.readers| && ReaderOk(s, t) && Enabled(s, a)
    requires InSection(s, t) && InSection(Next(s, a), t)
    ensures var r, r' := s.readers[t], Next(s, a).readers[t];
            r'.since == r.since && r'.flips == r.flips && Bit(r'.word) == Bit(r.word)
  {
    if a == R(t, AddNest) {
      IncWord(s.readers[t].word);
    } else if a == R(t, SubNest) {
      DecWord(s.readers[t].word);
    }
  }

  /** The record that a returning call leaves carries the time of that call. */
  lemma {:induction false} CallKeeps(ss: seq<State>, steps: seq<Step>, u: nat, b: nat, j: nat)
    requires Run(ss, steps) && b < j < |ss| && steps[b] == U(u, Synchronize)
    requires forall i :: b < i < j ==> steps[i] != U(u, Return)
    ensures u < |ss[j].updaters|
    ensures ss[j].updaters[u].called == ss[b].now && !ss[j].updaters[u].pc.Idle?
    decreases j
  {
    if b + 1 < j {
      CallKeeps(ss, steps, u, b, j - 1);
      assert ss[j] == Next(ss[j - 1], steps[j - 1]);
    }
  }

  lemma GraceRecorded(ss: seq<State>, steps: seq<Step>, u: nat, b: nat, e: nat, c: nat)
    requires Run(ss, steps) && GracePeriod(steps, u, b, e) && e < c < |ss|
    ensures |ss[e].done| < |ss[c].done| && ss[c].done[|ss[e].done|].called == ss[b].now
  {
    CallKeeps(ss, steps, u, b, e);
    assert ss[e + 1] == Next(ss[e], steps[e]);
    RunGrows(ss, steps, e + 1, c);
    var k := |ss[e].done|;
    assert ss[c].done[..k + 1][k] == ss[c].done[k];
  }

  // ---------------------------------------------------------------- safety

  /** A section that a completed, later-called grace period did not wait for: it stored the
      phase opposite to that of `data->gp_seq`, and it is the only such grace period. */
  lemma Waited(s: State, t: nat, k: nat)
    requires Inv(s) && InSection(s, t)
    requires k < |s.done| && s.done[k].called > s.readers[t].since
    ensures k == s.readers[t].flips && Due(s.readers[t]) == k + 1
  {
    assert ReaderOk(s, t);
    if InScan2(s) {
      assert UpdaterOk(s, s.lock.u);
    }
  }

  /** Two grace periods, of the same or of different updaters and possibly overlapping in
      their waiting for the lock, that are both called after the outermost store of a section:
      when the second of them returns the section has ended. */
  lemma TwoGracePeriodsSuffice(ss: seq<State>, steps: seq<Step>, t: nat, a: nat, c: nat,
                               u1: nat, b1: nat, e1: nat, u2: nat, b2: nat, e2: nat)
    requires |ss| > 0 && Init(ss[0]) && Run(ss, steps)
    requires Section(ss, steps, t, a, c)
    requires GracePeriod(steps, u1, b1, e1) && GracePeriod(steps, u2, b2, e2) && e1 < e2
    requires a < b1 && a < b2
    ensures c <= e2
  {
    if e2 < c {
      var s := ss[c];
      RunInv(ss, steps, c);
      SectionKeeps(ss, steps, t, a, c);
      GraceRecorded(ss, steps, u1, b1, e1, c);
      GraceRecorded(ss, steps, u2, b2, e2, c);
      GraceRecorded(ss, steps, u1, b1, e1, e2);
      RunGrows(ss, steps, a, b1);
      RunGrows(ss, steps, a, b2);
      Waited(s, t, |ss[e1].done|);
      Waited(s, t, |ss[e2].done|);
    }
  }

  /** A section whose store found its own sample current (same phase as `data->gp_seq` at that
      moment) has ended when any one grace period called after the store returns. */
  lemma OneGracePeriodSuffices(ss: seq<State>, steps: seq<Step>, t: nat, a: nat, c: nat,
                               u: nat, b: nat, e: nat)
    requires |ss| > 0 && Init(ss[0]) && Run(ss, steps)
    requires Section(ss, steps, t, a, c) && GracePeriod(steps, u, b, e) && a < b
    requires !OtherPhase(ss[a + 1].readers[t].word, ss[a].gp)
    ensures c <= e
  {
    if e < c {
      RunInv(ss, steps, a);
      RunInv(ss, steps, c);
      SectionKeeps(ss, steps, t, a, c);
      GraceRecorded(ss, steps, u, b, e, c);
      RunGrows(ss, steps, a, b);
      Waited(ss[c], t, |ss[e].done|);
      OtherPhaseIsBit(ss[a + 1].readers[t].word, ss[a].gp);
      GpWords(Flips(ss[a]));
    }
  }

  /** The sample that a thread stores is the global word at its last load. */
  lemma {:induction false} SampleKeeps(ss: seq<State>, steps: seq<Step>, t: nat, l: nat, j: nat)
    requires Run(ss, steps) && l < j < |ss| && steps[l] == R(t, LoadGp)
    requires forall i :: l < i < j ==> steps[i] != R(t, StoreWord) && !(steps[i].U? && steps[i].op == FlipGp)
    ensures t < |ss[j].readers| && ss[j].readers[t].pc == LockLoaded(ss[l].gp) && ss[j].gp == ss[l].gp
    decreases j
  {
    if l + 1 < j {
      SampleKeeps(ss, steps, t, l, j - 1);
      assert ss[j] == Next(ss[j - 1], steps[j - 1]);
    }
  }

  /** In particular: if no flip falls between a section's own load and its own store, every
      grace period that starts while it is active ends only after it ends. */
  lemma NoFlipBetweenLoadAndStore(ss: seq<State>, steps: seq<Step>, t: nat, l: nat, a: nat, c: nat,
                                  u: nat, b: nat, e: nat)
    requires |ss| > 0 && Init(ss[0]) && Run(ss, steps)
    requires Section(ss, steps, t, a, c) && GracePeriod(steps, u, b, e) && a < b
    requires l < a && steps[l] == R(t, LoadGp)
    requires forall i :: l < i < a ==> steps[i] != R(t, StoreWord) && !(steps[i].U? && steps[i].op == FlipGp)
    ensures c <= e
  {
    SampleKeeps(ss, steps, t, l, a);
    assert ss[a + 1] == Next(ss[a], steps[a]);
    OtherPhaseIsBit(ss[a + 1].readers[t].word, ss[a].gp);
    OneGracePeriodSuffices(ss, steps, t, a, c, u, b, e);
  }

  /** Consecutive grace periods wait for opposite phases. */
  lemma ConsecutivePhasesDiffer(ss: seq<State>, steps: seq<Step>, i: nat, k: nat)
    requires |ss| > 0 && Init(ss[0]) && Run(ss, steps) && i < |ss|
    requires k + 1 < |ss[i].done|
    ensures OtherPhase(ss[i].done[k].gp, ss[i].done[k + 1].gp)
  {
    RunInv(ss, steps, i);
    GpWords(k);
    GpWords(k + 1);
    OtherPhaseIsBit(GpWord(k), GpWord(k + 1));
  }

  // ---------------------------------------------------------------- words

  /** `data->gp_seq` is always one, with or without the phase bit, and the phase bit is the
      parity of the number of flips. */
  lemma GlobalWord(ss: seq<State>, steps: seq<Step>, i: nat)
    requires |ss| > 0 && Init(ss[0]) && Run(ss, steps) && i < |ss|
    ensures ss[i].gp in {GP_COUNT, GP_COUNT | PHASE}
    ensures Bit(ss[i].gp) <==> Flips(ss[i]) % 2 == 1
  {
    RunInv(ss, steps, i);
    GpWords(Flips(ss[i]));
  }

  /** Nested locks minus nested unlocks completed by `t`. */
  function Nesting(steps: seq<Step>, t: nat): int {
    if steps == [] then 0
    else
      var a := steps[|steps| - 1];
      Nesting(steps[..|steps| - 1], t) + if a == R(t, AddNest) then 1 else if a == R(t, SubNest) then -1 else 0
  }

  /** Throughout a section the low half of the word is the nesting depth, and the phase bit is
      the one of the outermost store. */
  lemma {:induction false} SectionDepth(ss: seq<State>, steps: seq<Step>, t: nat, a: nat, c: nat)
    requires |ss| > 0 && Init(ss[0]) && Run(ss, steps) && Section(ss, steps, t, a, c)
    ensures Depth(ss[c].readers[t].word) == 1 + Nesting(steps[a + 1..c], t)
    ensures Bit(ss[c].readers[t].word) == Bit(ss[a + 1].readers[t].word)
    decreases c
  {
    hide Inv, Enabled, Next, Init;
    SectionKeeps(ss, steps, t, a, c);
    RunInv(ss, steps, c - 1);
    if a + 1 == c {
      StoredDepth(ss[a], t);
    } else {
      SectionDepth(ss, steps, t, a, c - 1);
      assert steps[a + 1..c][..c - 1 - (a + 1)] == steps[a + 1..c - 1];
      assert InSection(ss[c - 1], t) && InSection(ss[c], t);
      DepthStep(ss[c - 1], steps[c - 1], t);
    }
  }

  lemma StoredDepth(s: State, t: nat)
    requires Inv(s) && Enabled(s, R(t, StoreWord))
    ensures Depth(Next(s, R(t, StoreWord)).readers[t].word) == 1
  {
    assert ReaderOk(s, t);
  }

  lemma DepthStep(s: State, a: Step, t: nat)
    requires Inv(s) && Enabled(s, a) && InSection(s, t) && InSection(Next(s, a), t)
    ensures Depth(Next(s, a).readers[t].word) - Depth(s.readers[t].word)
              == if a == R(t, AddNest) then 1 else if a == R(t, SubNest) then -1 else 0
  {
    ReadersOk(s, t);
    hide Inv, SectionOk, Depth;
    if a == R(t, AddNest) {
      IncWord(s.readers[t].word);
    } else if a == R(t, SubNest) {
      DecWord(s.readers[t].word);
    }
  }

  // ---------------------------------------------------------------- limits

  /** The steps `steps` can be taken one after the other from `s`. */
  predicate CanRun(s: State, steps: seq<Step>)
    decreases |steps|
  {
    steps == [] || (Enabled(s, steps[0]) && CanRun(Next(s, steps[0]), steps[1..]))
  }

  function After(s: State, steps: seq<Step>): State
    requires CanRun(s, steps)
    decreases |steps|
  {
    if steps == [] then s else After(Next(s, steps[0]), steps[1..])
  }

  lemma {:induction false} CanRunConcat(s: State, x: seq<Step>, y: seq<Step>)
    requires CanRun(s, x) && CanRun(After(s, x), y)
    ensures CanRun(s, x + y) && After(s, x + y) == After(After(s, x), y)
    decreases |x|
  {
    hide Enabled, Next;
    if x == [] {
      assert x + y == y;
    } else {
      var z := x + y;
      assert z[0] == x[0] && z[1..] == x[1..] + y;
      CanRunConcat(Next(s, x[0]), x[1..], y);
    }
  }

  ghost predicate Solo(steps: seq<Step>, u: nat) {
    forall j :: 0 <= j < |steps| ==> steps[j].U? && steps[j].u == u
  }

  /** No reader from the `from`-th registered one on makes a scan for the phase of `gp` wait. */
  predicate Unblocked(s: State, from: nat, gp: bv64) {
    forall i :: from <= i < |s.registry| ==> s.registry[i] < |s.readers| && Passes(s, s.registry[i], gp)
  }

  /** The rest of a scan, run alone, when nothing blocks it. */
  lemma {:induction false} SoloScan(s: State, u: nat) returns (steps: seq<Step>)
    requires u < |s.updaters|
    requires var p := s.updaters[u].pc; (p.Scan1? || p.Scan2?) && p.i <= |s.registry| && Unblocked(s, p.i, p.gp)
    ensures Solo(steps, u) && CanRun(s, steps)
    ensures var x := s.updaters[u];
            After(s, steps) == s.(now := s.now + |steps|, updaters := s.updaters[u := x.(pc := x.pc.(i := |s.registry|))])
    decreases |s.registry| - s.updaters[u].pc.i
  {
    if s.updaters[u].pc.i == |s.registry| {
      steps := [];
      assert s.updaters[u := s.updaters[u]] == s.updaters;
    } else {
      var a := U(u, Scan);
      var s1 := Next(s, a);
      var rest := SoloScan(s1, u);
      steps := [a] + rest;
      assert steps[1..] == rest;
    }
  }

  lemma Prepend(s: State, a: Step, rest: seq<Step>) returns (steps: seq<Step>)
    requires Enabled(s, a) && CanRun(Next(s, a), rest)
    ensures steps == [a] + rest && CanRun(s, steps) && After(s, steps) == After(Next(s, a), rest)
  {
    steps := [a] + rest;
    assert steps[1..] == rest;
  }

  lemma Single(s: State, a: Step) returns (steps: seq<Step>)
    requires Enabled(s, a)
    ensures steps == [a] && CanRun(s, steps) && After(s, steps) == Next(s, a)
  {
    steps := Prepend(s, a, []);
  }

  /** From the second scan on. */
  lemma SoloFinish(s: State, u: nat) returns (steps: seq<Step>)
    requires u < |s.updaters|
    requires var p := s.updaters[u].pc; p.Scan2? && p.i <= |s.registry| && Unblocked(s, p.i, p.gp)
    ensures Solo(steps, u) && CanRun(s, steps) && |steps| > 0 && steps[|steps| - 1] == U(u, Return)
    ensures var s' := After(s, steps);
            s'.done == s.done + [Grace(s.updaters[u].called, s.updaters[u].pc.gp)]
            && s'.readers == s.readers && s'.registry == s.registry && s'.lock.Free?
            && s'.gp == s.gp && s'.updaters == s.updaters[u := s.updaters[u].(pc := Idle)]
  {
    hide CanRun, After;
    var scan := SoloScan(s, u);
    var s1 := After(s, scan);
    var last := Single(s1, U(u, Return));
    CanRunConcat(s, scan, last);
    steps := scan + last;
  }

  /** From the first scan on. */
  lemma SoloFlip(s: State, u: nat) returns (steps: seq<Step>)
    requires u < |s.updaters|
    requires var p := s.updaters[u].pc; p.Scan1? && p.i <= |s.registry| && Unblocked(s, 0, p.gp)
    ensures Solo(steps, u) && CanRun(s, steps) && |steps| > 0 && steps[|steps| - 1] == U(u, Return)
    ensures var s' := After(s, steps);
            s'.done == s.done + [Grace(s.updaters[u].called, s.updaters[u].pc.gp)]
            && s'.readers == s.readers && s'.registry == s.registry && s'.lock.Free? && s'.gp == Flip(s.gp)
  {
    hide CanRun, After;
    var scan := SoloScan(s, u);
    var s1 := After(s, scan);
    var a := U(u, FlipGp);
    var rest := SoloFinish(Next(s1, a), u);
    rest := Prepend(s1, a, rest);
    CanRunConcat(s, scan, rest);
    steps := scan + rest;
  }

  /** A call of synchronize made by `u` alone runs to its return if no reader blocks it. */
  lemma SoloGracePeriod(s: State, u: nat) returns (steps: seq<Step>)
    requires s.lock.Free? && u < |s.updaters| && s.updaters[u].pc.Idle? && Unblocked(s, 0, s.gp)
    ensures Solo(steps, u) && CanRun(s, steps)
    ensures |steps| > 1 && steps[0] == U(u, Synchronize) && steps[|steps| - 1] == U(u, Return)
    ensures var s' := After(s, steps);
            s'.done == s.done + [Grace(s.now, s.gp)] && s'.readers == s.readers && s'.registry == s.registry && s'.lock.Free? && s'.gp == Flip(s.gp)
  {
    hide CanRun, After;
    var s1 := Next(s, U(u, Synchronize));
    var s2 := Next(s1, U(u, TakeLock));
    var s3 := Next(s2, U(u, LoadCurr));
    steps := SoloFlip(s3, u);
    steps := Prepend(s2, U(u, LoadCurr), steps);
    steps := Prepend(s1, U(u, TakeLock), steps);
    steps := Prepend(s, U(u, Synchronize), steps);
  }
}
