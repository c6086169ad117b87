/** Termination of a grace period: whom its scans wait for, and for how long. */
module RcuProgress {
  import opened RcuWord
  import opened RcuGrace
  import opened RcuSafety
  import opened Seqs

  /** A section of the phase of `gp` is running in thread `t`, or is bound to start there. */
  predicate OldReader(s: State, t: nat, gp: bv64) {
    t < |s.readers| &&
    var r := s.readers[t];
    || (Active(r.word) && !OtherPhase(r.word, gp))
    || (r.pc.LockLoaded? && !OtherPhase(r.pc.sample, gp))
  }

  predicate SecondScan(s: State, u: nat) {
    u < |s.updaters| && s.updaters[u].pc.Scan2?
  }

  /** While a second scan runs no step of any thread, the scanning updater included, makes a
      reader old; so a reader has at most one old section left, the one that makes it old. */
  lemma OldReadersShrink(s: State, a: Step, u: nat, t: nat)
    requires Inv(s) && Enabled(s, a) && SecondScan(s, u) && SecondScan(Next(s, a), u)
    requires OldReader(Next(s, a), t, s.updaters[u].pc.gp)
    ensures OldReader(s, t, s.updaters[u].pc.gp)
    ensures Next(s, a).updaters[u].pc.gp == s.updaters[u].pc.gp
  {
    var gp := s.updaters[u].pc.gp;
    assert UpdaterOk(s, u);
    GpWords(|s.done|);
    OtherPhaseIsBit(s.gp, gp);
    if a.R? && a.t == t {
      OldReaderStep(s, t, a.act, gp);
    }
  }

  lemma OldReaderStep(s: State, t: nat, act: ReaderAct, gp: bv64)
    requires t < |s.readers| && ReaderOk(s, t) && ReaderEnabled(s, t, act)
    requires OtherPhase(s.gp, gp)
    requires OldReader(ReaderNext(s, t, act), t, gp)
    ensures OldReader(s, t, gp)
  {
    var r := s.readers[t];
    OtherPhaseIsBit(r.word, gp);
    OtherPhaseIsBit(ReaderAfter(s, t, act).word, gp);
    if act == AddNest {
      IncWord(r.word);
    } else if act == SubNest {
      DecWord(r.word);
    }
  }

  function ScanSteps(steps: seq<Step>, u: nat): nat {
    if steps == [] then 0
    else ScanSteps(steps[..|steps| - 1], u) + if steps[|steps| - 1] == U(u, Scan) then 1 else 0
  }

  /** Over a stretch `p..q` of a run during which `u` is in one second scan: a reader that is
      not old at `p` is not old at `q`, however often it re-enters in between; and once no
      reader is old, every scan step advances, so that the scan ends after as many steps as
      there are nodes left. */
  lemma {:induction false} SecondScanEnds(ss: seq<State>, steps: seq<Step>, u: nat, p: nat, q: nat)
    requires |ss| > 0 && Init(ss[0]) && Run(ss, steps) && p <= q < |ss|
    requires forall j :: p <= j <= q ==> SecondScan(ss[j], u)
    ensures SecondScan(ss[p], u) && SecondScan(ss[q], u)
    ensures ss[q].updaters[u].pc.gp == ss[p].updaters[u].pc.gp && ss[q].registry == ss[p].registry
    ensures forall t :: OldReader(ss[q], t, ss[p].updaters[u].pc.gp) ==> OldReader(ss[p], t, ss[p].updaters[u].pc.gp)
    ensures (forall t :: !OldReader(ss[p], t, ss[p].updaters[u].pc.gp)) ==>
              ss[q].updaters[u].pc.i == ss[p].updaters[u].pc.i + ScanSteps(steps[p..q], u) <= |ss[p].registry|
    decreases q
  {
    hide Inv, Enabled, Next, Init, OldReader;
    RunInv(ss, steps, p);
    if p < q {
      SecondScanEnds(ss, steps, u, p, q - 1);
      RunInv(ss, steps, q - 1);
      var gp := ss[p].updaters[u].pc.gp;
      forall t | OldReader(ss[q], t, gp) ensures OldReader(ss[q - 1], t, gp) {
        OldReadersShrink(ss[q - 1], steps[q - 1], u, t);
      }
      SecondScanStep(ss[q - 1], steps[q - 1], u);
      assert steps[p..q][..q - 1 - p] == steps[p..q - 1];
    } else {
      SecondScanIndex(ss[p], u);
      assert steps[p..q] == [];
    }
  }

  lemma SecondScanIndex(s: State, u: nat)
    requires Inv(s) && SecondScan(s, u)
    ensures s.updaters[u].pc.i <= |s.registry|
  {
    assert UpdaterOk(s, u);
  }

  /** A scan step either advances or stands at an old reader. */
  lemma SecondScanStep(s: State, a: Step, u: nat)
    requires Inv(s) && Enabled(s, a) && SecondScan(s, u) && SecondScan(Next(s, a), u)
    ensures var p, p' := s.updaters[u].pc, Next(s, a).updaters[u].pc;
            && p'.gp == p.gp && Next(s, a).registry == s.registry && p'.i <= |s.registry|
            && (a != U(u, Scan) ==> p' == p)
            && (a == U(u, Scan) ==> p'.i == p.i + 1 || (p.i < |s.registry| && OldReader(s, s.registry[p.i], p.gp)))
  {
    assert UpdaterOk(s, u);
    if a.R? {
      assert ReaderOk(s, a.t);
    }
  }

  /** Threads cannot register or leave while an updater holds the lock: both scans of a grace
      period walk the same list. */
  lemma {:induction false} RegistryIsFixed(ss: seq<State>, steps: seq<Step>, u: nat, p: nat, q: nat)
    requires |ss| > 0 && Init(ss[0]) && Run(ss, steps) && p <= q < |ss|
    requires forall j :: p <= j <= q ==> u < |ss[j].updaters| && ss[j].updaters[u].pc.Holding()
    ensures ss[q].registry == ss[p].registry
    decreases q
  {
    hide Inv, Enabled, Next, Init;
    if p < q {
      RegistryIsFixed(ss, steps, u, p, q - 1);
      RunInv(ss, steps, q - 1);
      HolderKeepsRegistry(ss[q - 1], steps[q - 1], u);
    }
  }

  lemma HolderKeepsRegistry(s: State, a: Step, u: nat)
    requires Inv(s) && Enabled(s, a) && u < |s.updaters| && s.updaters[u].pc.Holding()
    ensures Next(s, a).registry == s.registry
  {
    assert UpdaterOk(s, u);
    if a.R? {
      assert ReaderOk(s, a.t);
    }
  }

  // ---------------------------------------------------------------- who has to move

  ghost predicate UpdatersOnly(steps: seq<Step>) {
    forall j :: 0 <= j < |steps| ==> steps[j].U?
  }

  /** No scan for the current phase has got past `t`. */
  predicate HeldBack(s: State, t: nat) {
    && t in s.registry && t < |s.readers| && !Passes(s, t, s.gp) && !InScan2(s)
    && forall u :: 0 <= u < |s.updaters| && s.updaters[u].pc.Scan1? && s.updaters[u].pc.i <= |s.registry|
         ==> t !in s.registry[..s.updaters[u].pc.i]
  }

  lemma HeldBackStep(s: State, a: Step, t: nat)
    requires Inv(s) && a.U? && Enabled(s, a) && HeldBack(s, t)
    ensures HeldBack(Next(s, a), t) && Next(s, a).done == s.done
  {
    assert UpdaterOk(s, a.u);
    var s' := Next(s, a);
    forall u | 0 <= u < |s'.updaters| && s'.updaters[u].pc.Scan1? && s'.updaters[u].pc.i <= |s'.registry|
      ensures t !in s'.registry[..s'.updaters[u].pc.i]
    {
      if u == a.u && a.op == Scan && s'.updaters[u].pc != s.updaters[u].pc {
        var i := s.updaters[u].pc.i;
        assert s.registry[..i + 1] == s.registry[..i] + [s.registry[i]];
      }
    }
  }

  /** As long as a registered reader of the current phase does not move, no grace period ends,
      whatever all updaters do. */
  lemma {:induction false} NoGracePeriodWithoutReader(s: State, steps: seq<Step>, t: nat)
    requires Inv(s) && HeldBack(s, t) && CanRun(s, steps) && UpdatersOnly(steps)
    ensures After(s, steps).done == s.done
    decreases |steps|
  {
    if steps != [] {
      HeldBackStep(s, steps[0], t);
      NextInv(s, steps[0]);
      NoGracePeriodWithoutReader(Next(s, steps[0]), steps[1..], t);
    }
  }

  /** With the lock free, an updater can complete a grace period on its own exactly if no
      registered reader is in a section of the current phase. */
  lemma SoloGracePeriodIff(s: State, u: nat)
    requires Inv(s) && s.lock.Free? && u < |s.updaters| && s.updaters[u].pc.Idle?
    ensures (exists steps :: UpdatersOnly(steps) && CanRun(s, steps) && |After(s, steps).done| > |s.done|)
       <==> (forall t :: t in s.registry ==> t < |s.readers| && Passes(s, t, s.gp))
  {
    if forall t :: t in s.registry ==> t < |s.readers| && Passes(s, t, s.gp) {
      var steps := SoloGracePeriod(s, u);
      assert UpdatersOnly(steps);
    } else {
      var t :| t in s.registry && !(t < |s.readers| && Passes(s, t, s.gp));
      forall x | 0 <= x < |s.updaters| ensures !s.updaters[x].pc.Scan1? {
        assert UpdaterOk(s, x);
      }
      assert HeldBack(s, t);
      forall steps | UpdatersOnly(steps) && CanRun(s, steps) ensures After(s, steps).done == s.done {
        NoGracePeriodWithoutReader(s, steps, t);
      }
    }
  }

  // ---------------------------------------------------------------- the order of the registry

  ghost predicate Before(q: seq<nat>, x: nat, y: nat) {
    exists i, j :: 0 <= i < j < |q| && q[i] == x && q[j] == y
  }

  lemma {:induction false} OthersStayIn(q: seq<nat>, z: nat, x: nat)
    requires x in q && x != z
    ensures x in Without(q, z)
  {
    assert q == [q[0]] + q[1..];
    if q[0] != z && q[0] != x {
      OthersStayIn(q[1..], z, x);
    }
  }

  lemma {:induction false} OthersStayBefore(q: seq<nat>, z: nat, x: nat, y: nat)
    requires Before(q, x, y) && x != z && y != z
    ensures Before(Without(q, z), x, y)
  {
    var i, j :| 0 <= i < j < |q| && q[i] == x && q[j] == y;
    if q[0] != z {
      var r := Without(q[1..], z);
      if i == 0 {
        assert y == q[1..][j - 1];
        OthersStayIn(q[1..], z, y);
        var k :| 0 <= k < |r| && r[k] == y;
        assert ([q[0]] + r)[0] == x && ([q[0]] + r)[k + 1] == y;
      } else {
        assert q[1..][i - 1] == x && q[1..][j - 1] == y;
        OthersStayBefore(q[1..], z, x, y);
        var k, l :| 0 <= k < l < |r| && r[k] == x && r[l] == y;
        assert ([q[0]] + r)[k + 1] == x && ([q[0]] + r)[l + 1] == y;
      }
    } else {
      assert q[1..][i - 1] == x && q[1..][j - 1] == y;
    }
  }

  /** Registering puts a thread behind all others, and leaving takes out nobody else. */
  lemma RegistryStep(s: State, a: Step, x: nat)
    requires Enabled(s, a) && a != R(x, DelUnlink)
    ensures x in s.registry || a == R(x, AddLink) ==> x in Next(s, a).registry
    ensures forall y :: Before(s.registry, x, y) && a != R(y, DelUnlink) ==> Before(Next(s, a).registry, x, y)
    ensures forall y :: x in s.registry && a == R(y, AddLink) ==> Before(Next(s, a).registry, x, y)
  {
    hide Without;
    var q, r := s.registry, Next(s, a).registry;
    if a.R? && a.act == AddLink {
      assert r == q + [a.t] && r[|q|] == a.t;
      forall y | Before(q, x, y) ensures Before(r, x, y) {
        var i, j :| 0 <= i < j < |q| && q[i] == x && q[j] == y;
        assert r[i] == x && r[j] == y;
      }
      if x in q {
        var i :| 0 <= i < |q| && q[i] == x;
        assert r[i] == x;
      }
    } else if a.R? && a.act == DelUnlink {
      if x in q { OthersStayIn(q, a.t, x); }
      forall y | Before(q, x, y) && y != a.t ensures Before(r, x, y) { OthersStayBefore(q, a.t, x, y); }
    }
  }

  lemma {:induction false} StaysRegistered(ss: seq<State>, steps: seq<Step>, x: nat, i: nat, k: nat)
    requires Run(ss, steps) && i < k < |ss| && steps[i] == R(x, AddLink)
    requires forall m :: i < m < k ==> steps[m] != R(x, DelUnlink)
    ensures x in ss[k].registry
    decreases k
  {
    hide Enabled, Next;
    RegistryStep(ss[k - 1], steps[k - 1], x);
    if i + 1 < k {
      StaysRegistered(ss, steps, x, i, k - 1);
    }
  }

  /** The list is in the order of registration, so that is the order in which the scans meet the
      threads: whoever registered first and has stayed comes first. */
  lemma {:induction false} RegistrationOrder(ss: seq<State>, steps: seq<Step>, x: nat, y: nat, i: nat, j: nat, k: nat)
    requires Run(ss, steps) && i < j < k < |ss| && steps[i] == R(x, AddLink) && steps[j] == R(y, AddLink)
    requires forall m :: i < m < k ==> steps[m] != R(x, DelUnlink)
    requires forall m :: j < m < k ==> steps[m] != R(y, DelUnlink)
    ensures Before(ss[k].registry, x, y)
    decreases k
  {
    hide Enabled, Next, Before;
    RegistryStep(ss[k - 1], steps[k - 1], x);
    if j + 1 < k {
      RegistrationOrder(ss, steps, x, y, i, j, k - 1);
    } else {
      StaysRegistered(ss, steps, x, i, j);
    }
  }

  /** With the lock free, a thread outside a critical section leaves the registry in three steps of its
      own, and nothing else changes. */
  lemma LeavesAlone(s: State, t: nat)
    requires Inv(s) && s.lock.Free? && t < |s.readers| && s.readers[t].pc.Ready? && !Active(s.readers[t].word)
    ensures var steps := [R(t, DelLock), R(t, DelUnlink), R(t, DelUnlock)];
            && CanRun(s, steps)
            && var s' := After(s, steps);
               && s'.lock.Free? && s'.gp == s.gp && s'.updaters == s.updaters && |s'.readers| == |s.readers|
               && |s'.registry| == |s.registry| - 1 && (forall x :: x in s'.registry <==> x in s.registry && x != t)
               && s'.readers == s.readers[t := s.readers[t].(pc := Absent)]
  {
    assert ReaderOk(s, t);
    WithoutIs(s.registry, t);
    var s1 := Next(s, R(t, DelLock));
    var s2 := Next(s1, R(t, DelUnlink));
    var s3 := Next(s2, R(t, DelUnlock));
    hide Inv, ReaderEnabled, ReaderNext, Without;
    ThreeSteps(s, R(t, DelLock), R(t, DelUnlink), R(t, DelUnlock));
  }

  /** And one that is not registered joins it in three, at the end and outside a section. */
  lemma JoinsAlone(s: State, t: nat)
    requires s.lock.Free? && t < |s.readers| && s.readers[t].pc.Absent?
    ensures var steps := [R(t, AddLock), R(t, AddLink), R(t, AddUnlock)];
            && CanRun(s, steps)
            && var s' := After(s, steps);
               && s'.lock.Free? && s'.gp == s.gp && s'.updaters == s.updaters && s'.registry == s.registry + [t]
               && s'.readers == s.readers[t := s.readers[t].(pc := Ready, word := 0)]
  {
    var s1 := Next(s, R(t, AddLock));
    var s2 := Next(s1, R(t, AddLink));
    var s3 := Next(s2, R(t, AddUnlock));
    hide ReaderEnabled, ReaderNext;
    ThreeSteps(s, R(t, AddLock), R(t, AddLink), R(t, AddUnlock));
  }

  lemma ThreeSteps(s: State, a: Step, b: Step, c: Step)
    requires Enabled(s, a) && Enabled(Next(s, a), b) && Enabled(Next(Next(s, a), b), c)
    ensures CanRun(s, [a, b, c]) && After(s, [a, b, c]) == Next(Next(Next(s, a), b), c)
  {
    hide Enabled, Next;
    var s1 := Next(s, a);
    var s2 := Next(s1, b);
    assert [a, b, c][1..] == [b, c] && [b, c][1..] == [c] && [c][1..] == [];
    assert CanRun(Next(s2, c), []) && CanRun(s2, [c]) && CanRun(s1, [b, c]);
    assert After(s2, [c]) == Next(s2, c) && After(s1, [b, c]) == Next(s2, c);
  }
}
