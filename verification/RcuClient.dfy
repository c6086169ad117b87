/** The client pattern of `src/rcu/test.c`: replace the shared pointer, wait, free the old object.
    Readers dereference the pointer inside critical sections, any number of updaters replace it. */
module RcuClient {
  import opened RcuWord
  import opened RcuGrace
  import opened RcuSafety
  import opened RcuLimits

  /** What an updater thread has still to free: the object that it took out of the shared
      pointer, and (history) the grace periods that it has waited for since. */
  datatype Debt = Quiet | Owing(obj: nat, waited: seq<nat>)

  /** Objects are numbered by allocation. History: `unlinked` is the time at which an object was
      replaced, `freed` the grace periods waited for before it was freed; `stale` says of each
      reader whether its running section escapes, judged right after its outermost store. */
  datatype CState = CState(
    rcu: State,
    ptr: nat,
    nextObj: nat,                 // next allocation
    held: seq<set<nat>>,         // by reader: objects reached in the running section
    stale: seq<bool>,            // by reader
    debts: seq<Debt>,            // by updater
    unlinked: map<nat, nat>,
    freed: map<nat, seq<nat>>)

  datatype CStep =
    | Rcu(a: Step)
    | Dereference(t: nat)
    | Replace(u: nat)
    | Free(u: nat)

  predicate CInit(c: CState) {
    && Init(c.rcu) && c.ptr < c.nextObj
    && |c.held| == |c.stale| == |c.rcu.readers| && (forall t :: 0 <= t < |c.held| ==> c.held[t] == {})
    && |c.debts| == |c.rcu.updaters| && (forall u :: 0 <= u < |c.debts| ==> c.debts[u] == Quiet)
    && c.unlinked == map[] && c.freed == map[]
  }

  predicate CEnabled(c: CState, a: CStep) {
    match a
    case Rcu(a) => Enabled(c.rcu, a) && (if a.R? then a.t < |c.held| && a.t < |c.stale| else a.u < |c.debts|)
    case Dereference(t) => t < |c.held| && InSection(c.rcu, t) && c.rcu.readers[t].pc.Ready?
    case Replace(u) => u < |c.debts| && u < |c.rcu.updaters| && c.rcu.updaters[u].pc.Idle? && c.debts[u].Quiet?
    // An updater frees only after at least one synchronize of its own.
    case Free(u) => u < |c.debts| && u < |c.rcu.updaters| && c.rcu.updaters[u].pc.Idle?
                    && c.debts[u].Owing? && c.debts[u].waited != []
  }

  function CNext(c: CState, a: CStep): CState
    requires CEnabled(c, a)
  {
    match a
    case Rcu(a) =>
      var s' := Next(c.rcu, a);
      // Leaving a section gives up the objects reached in it.
      var held := if a.R? && a.act == SubNest && !InSection(s', a.t) then c.held[a.t := {}] else c.held;
      var debts := if a.U? && a.op == Return && c.debts[a.u].Owing?
                   then c.debts[a.u := c.debts[a.u].(waited := c.debts[a.u].waited + [|c.rcu.done|])]
                   else c.debts;
      var stale := if a.R? && a.act == StoreWord then c.stale[a.t := Escapes(s', a.t)] else c.stale;
      c.(rcu := s', held := held, stale := stale, debts := debts)
    case Dereference(t) => c.(held := c.held[t := c.held[t] + {c.ptr}])
    case Replace(u) =>
      c.(ptr := c.nextObj, nextObj := c.nextObj + 1, debts := c.debts[u := Owing(c.ptr, [])],
         unlinked := c.unlinked[c.ptr := c.rcu.now])
    case Free(u) =>
      c.(debts := c.debts[u := Quiet], freed := c.freed[c.debts[u].obj := c.debts[u].waited])
  }

  predicate CRun(cs: seq<CState>, steps: seq<CStep>) {
    && |cs| == |steps| + 1
    && forall i :: 0 <= i < |steps| ==> CEnabled(cs[i], steps[i]) && cs[i + 1] == CNext(cs[i], steps[i])
  }

  // ---------------------------------------------------------------- invariant

  /** `ks` are distinct completed grace periods, all called no earlier than time `from`. */
  predicate WaitedFor(s: State, ks: seq<nat>, from: nat) {
    && (forall i :: 0 <= i < |ks| ==> ks[i] < |s.done| && s.done[ks[i]].called >= from)
    && (forall i, j :: 0 <= i < j < |ks| ==> ks[i] < ks[j])
  }

  predicate HeldOk(c: CState, t: nat)
    requires t < |c.held|
  {
    forall o :: o in c.held[t] ==>
      && InSection(c.rcu, t) && (o == c.ptr || o in c.unlinked)
      && (o in c.unlinked ==> c.rcu.readers[t].since < c.unlinked[o])
  }

  predicate DebtOk(c: CState, u: nat)
    requires u < |c.debts| && u < |c.rcu.updaters|
  {
    c.debts[u].Owing? ==>
      var o := c.debts[u].obj;
      && o in c.unlinked && WaitedFor(c.rcu, c.debts[u].waited, c.unlinked[o])
      && c.unlinked[o] <= c.rcu.now
      && (!c.rcu.updaters[u].pc.Idle? ==> c.rcu.updaters[u].called >= c.unlinked[o])
  }

  predicate SectionCovered(c: CState, t: nat)
    requires t < |c.stale| == |c.rcu.readers|
  {
    InSection(c.rcu, t) && !c.stale[t] ==> Covered(c.rcu, t)
  }

  predicate CInv(c: CState) {
    && Inv(c.rcu)
    && |c.held| == |c.stale| == |c.rcu.readers| && |c.debts| == |c.rcu.updaters|
    && (forall t :: 0 <= t < |c.stale| ==> SectionCovered(c, t))
    && c.ptr < c.nextObj && c.ptr !in c.unlinked
    && (forall o :: o in c.unlinked ==> o < c.nextObj)
    && (forall t :: 0 <= t < |c.held| ==> HeldOk(c, t))
    && (forall u :: 0 <= u < |c.debts| ==> DebtOk(c, u))
    && (forall o :: o in c.freed ==>
          o in c.unlinked && c.freed[o] != [] && WaitedFor(c.rcu, c.freed[o], c.unlinked[o]))
  }

  lemma CInitInv(c: CState)
    requires CInit(c)
    ensures CInv(c)
  {
    InitInv(c.rcu);
  }

  /** What the client relies on in a step of the grace-period protocol. */
  lemma RcuStepFacts(s: State, a: Step)
    requires Inv(s) && Enabled(s, a)
    ensures var s' := Next(s, a);
            && Inv(s') && s'.now == s.now + 1
            && |s'.readers| == |s.readers| && |s'.updaters| == |s.updaters|
            && |s.done| <= |s'.done| && s'.done[..|s.done|] == s.done
            && (forall t :: 0 <= t < |s.readers| && InSection(s, t) && InSection(s', t) ==> s'.readers[t].since == s.readers[t].since)
            && (forall t :: 0 <= t < |s.readers| && InSection(s, t) && !InSection(s', t) ==> a == R(t, SubNest))
            && (forall u :: 0 <= u < |s.updaters| && !s'.updaters[u].pc.Idle? ==>
                  if s.updaters[u].pc.Idle? then s'.updaters[u].called == s.now
                  else s'.updaters[u].called == s.updaters[u].called)
            && (a.U? && a.op == Return ==>
                  |s'.done| == |s.done| + 1 && s'.done[|s.done|].called == s.updaters[a.u].called
                  && !s.updaters[a.u].pc.Idle?)
  {
    NextInv(s, a);
    var s' := Next(s, a);
    forall t | 0 <= t < |s.readers| && InSection(s, t) && InSection(s', t) ensures s'.readers[t].since == s.readers[t].since {
      ReadersOk(s, t);
      SectionStep(s, a, t);
    }
    forall t | 0 <= t < |s.readers| && InSection(s, t) && !InSection(s', t) ensures a == R(t, SubNest) {
      ReadersOk(s, t);
      if a.R? && a.t == t && a.act == AddNest {
        IncWord(s.readers[t].word);
      }
    }
  }

  lemma CoveredInv(c: CState, a: Step, t: nat)
    requires CInv(c) && CEnabled(c, Rcu(a)) && t < |c.stale|
    ensures |Next(c.rcu, a).readers| == |c.stale| && SectionCovered(CNext(c, Rcu(a)), t)
  {
    assert SectionCovered(c, t) && ReaderOk(c.rcu, t);
    var s' := Next(c.rcu, a);
    if InSection(s', t) {
      if a == R(t, StoreWord) {
        if !Escapes(s', t) { CoveredAtStore(c.rcu, t); }
      } else if InSection(c.rcu, t) && !c.stale[t] {
        CoveredStep(c.rcu, a, t);
      } else if !InSection(c.rcu, t) {
        StaysOutside(c.rcu, a, t);
      }
    }
  }

  lemma StaysOutside(s: State, a: Step, t: nat)
    requires Inv(s) && Enabled(s, a) && t < |s.readers| && !InSection(s, t) && a != R(t, StoreWord)
    ensures !InSection(Next(s, a), t)
  {
    assert ReaderOk(s, t);
    ActiveIsDepth(0);
  }

  lemma RcuInv(c: CState, a: CStep)
    requires CInv(c) && a.Rcu? && CEnabled(c, a)
    ensures CInv(CNext(c, a))
  {
    hide Inv, Enabled, Next, InSection, SectionCovered;
    RcuStepFacts(c.rcu, a.a);
    var c' := CNext(c, a);
    forall t | 0 <= t < |c'.stale| ensures SectionCovered(c', t) { CoveredInv(c, a.a, t); }
    var s, s' := c.rcu, c'.rcu;
    assert forall k :: 0 <= k < |s.done| ==> s'.done[..|s.done|][k] == s'.done[k];
    forall t | 0 <= t < |c'.held| ensures HeldOk(c', t) {
      assert HeldOk(c, t);
    }
    forall u | 0 <= u < |c'.debts| ensures DebtOk(c', u) {
      assert DebtOk(c, u);
    }
  }

  lemma DereferenceInv(c: CState, a: CStep)
    requires CInv(c) && a.Dereference? && CEnabled(c, a)
    ensures CInv(CNext(c, a))
  {
    hide Inv;
    var c' := CNext(c, a);
    forall t | 0 <= t < |c'.stale| ensures SectionCovered(c', t) { assert SectionCovered(c, t); }
    forall t | 0 <= t < |c'.held| ensures HeldOk(c', t) {
      assert HeldOk(c, t);
    }
    forall u | 0 <= u < |c'.debts| ensures DebtOk(c', u) {
      assert DebtOk(c, u);
    }
  }

  lemma SectionsStarted(s: State)
    requires Inv(s)
    ensures forall t :: 0 <= t < |s.readers| && InSection(s, t) ==> s.readers[t].since < s.now
  {
    forall t | 0 <= t < |s.readers| && InSection(s, t) ensures s.readers[t].since < s.now {
      ReadersOk(s, t);
    }
  }

  lemma ReplaceInv(c: CState, a: CStep)
    requires CInv(c) && a.Replace? && CEnabled(c, a)
    ensures CInv(CNext(c, a))
  {
    hide Inv, InSection;
    SectionsStarted(c.rcu);
    var c' := CNext(c, a);
    forall t | 0 <= t < |c'.stale| ensures SectionCovered(c', t) { assert SectionCovered(c, t); }
    forall t | 0 <= t < |c'.held| ensures HeldOk(c', t) {
      assert HeldOk(c, t);
    }
    forall u | 0 <= u < |c'.debts| ensures DebtOk(c', u) {
      assert DebtOk(c, u);
    }
  }

  lemma FreeInv(c: CState, a: CStep)
    requires CInv(c) && a.Free? && CEnabled(c, a)
    ensures CInv(CNext(c, a))
  {
    hide Inv;
    var c' := CNext(c, a);
    forall t | 0 <= t < |c'.stale| ensures SectionCovered(c', t) { assert SectionCovered(c, t); }
    assert DebtOk(c, a.u);
    forall t | 0 <= t < |c'.held| ensures HeldOk(c', t) {
      assert HeldOk(c, t);
    }
    forall u | 0 <= u < |c'.debts| ensures DebtOk(c', u) {
      assert DebtOk(c, u);
    }
  }

  lemma CStepInv(c: CState, a: CStep)
    requires CInv(c) && CEnabled(c, a)
    ensures CInv(CNext(c, a))
  {
    hide CInv, CNext, CEnabled;
    match a
    case Rcu(_) => RcuInv(c, a);
    case Dereference(_) => DereferenceInv(c, a);
    case Replace(_) => ReplaceInv(c, a);
    case Free(_) => FreeInv(c, a);
  }

  lemma {:induction false} CRunInv(cs: seq<CState>, steps: seq<CStep>, i: nat)
    requires |cs| > 0 && CInit(cs[0]) && CRun(cs, steps) && i < |cs|
    ensures CInv(cs[i])
  {
    hide CInv, CInit, CEnabled, CNext;
    if i == 0 {
      CInitInv(cs[0]);
    } else {
      CRunInv(cs, steps, i - 1);
      CStepInv(cs[i - 1], steps[i - 1]);
    }
  }

  // ---------------------------------------------------------------- no use after free

  /** In every reachable state: a freed object that a reader still holds was freed after a
      single synchronize, by a section that escapes and so had stored an out-of-date sample. */
  lemma FreedObjectHeld(cs: seq<CState>, steps: seq<CStep>, i: nat, t: nat, o: nat)
    requires |cs| > 0 && CInit(cs[0]) && CRun(cs, steps) && i < |cs|
    requires t < |cs[i].held| && o in cs[i].held[t] && o in cs[i].freed
    ensures |cs[i].freed[o]| == 1
    ensures t < |cs[i].rcu.readers| && t < |cs[i].stale| && cs[i].stale[t]
    ensures var r := cs[i].rcu.readers[t]; OtherPhase(r.word, GpWord(r.flips))
  {
    CRunInv(cs, steps, i);
    var c := cs[i];
    assert HeldOk(c, t) && SectionCovered(c, t);
    var ks := c.freed[o];
    Waited(c.rcu, t, ks[0]);
    if |ks| > 1 {
      Waited(c.rcu, t, ks[1]);
    }
    if !c.stale[t] {
      CoveredIsWaitedFor(c.rcu, t, ks[0]);
    }
    var r := c.rcu.readers[t];
    GpWords(r.flips);
    OtherPhaseIsBit(r.word, GpWord(r.flips));
  }

  /** With two synchronize calls before the free no reader holds a freed object. */
  lemma TwoSynchronizesAreSafe(cs: seq<CState>, steps: seq<CStep>, i: nat)
    requires |cs| > 0 && CInit(cs[0]) && CRun(cs, steps) && i < |cs|
    ensures forall t, o :: 0 <= t < |cs[i].held| && o in cs[i].freed && |cs[i].freed[o]| >= 2 ==> o !in cs[i].held[t]
  {
    forall t, o | 0 <= t < |cs[i].held| && o in cs[i].freed && |cs[i].freed[o]| >= 2
      ensures o !in cs[i].held[t]
    {
      if o in cs[i].held[t] {
        FreedObjectHeld(cs, steps, i, t, o);
      }
    }
  }

  /** With a single one, no reader whose section does not escape holds one. */
  lemma OneSynchronizeIsSafe(cs: seq<CState>, steps: seq<CStep>, i: nat)
    requires |cs| > 0 && CInit(cs[0]) && CRun(cs, steps) && i < |cs|
    ensures forall t, o :: 0 <= t < |cs[i].held| && t < |cs[i].stale| && o in cs[i].freed && !cs[i].stale[t] ==>
              o !in cs[i].held[t]
  {
    forall t, o | 0 <= t < |cs[i].held| && t < |cs[i].stale| && o in cs[i].freed && !cs[i].stale[t]
      ensures o !in cs[i].held[t]
    {
      if o in cs[i].held[t] {
        FreedObjectHeld(cs, steps, i, t, o);
      }
    }
  }

  /** In particular, none whose section stored the current phase. */
  lemma OneSynchronizeIsSafeForCurrent(cs: seq<CState>, steps: seq<CStep>, i: nat)
    requires |cs| > 0 && CInit(cs[0]) && CRun(cs, steps) && i < |cs|
    ensures forall t, o :: 0 <= t < |cs[i].held| && t < |cs[i].rcu.readers| && o in cs[i].freed
              && !OtherPhase(cs[i].rcu.readers[t].word, GpWord(cs[i].rcu.readers[t].flips))
              ==> o !in cs[i].held[t]
  {
    forall t, o | 0 <= t < |cs[i].held| && t < |cs[i].rcu.readers| && o in cs[i].freed
      && !OtherPhase(cs[i].rcu.readers[t].word, GpWord(cs[i].rcu.readers[t].flips))
      ensures o !in cs[i].held[t]
    {
      if o in cs[i].held[t] {
        FreedObjectHeld(cs, steps, i, t, o);
      }
    }
  }

  // ---------------------------------------------------------------- the others can hold a freed object

  predicate CCanRun(c: CState, steps: seq<CStep>)
    decreases |steps|
  {
    steps == [] || (CEnabled(c, steps[0]) && CCanRun(CNext(c, steps[0]), steps[1..]))
  }

  function CAfter(c: CState, steps: seq<CStep>): CState
    requires CCanRun(c, steps)
    decreases |steps|
  {
    if steps == [] then c else CAfter(CNext(c, steps[0]), steps[1..])
  }

  lemma {:induction false} CConcat(c: CState, x: seq<CStep>, y: seq<CStep>)
    requires CCanRun(c, x) && CCanRun(CAfter(c, x), y)
    ensures CCanRun(c, x + y) && CAfter(c, x + y) == CAfter(CAfter(c, x), y)
    decreases |x|
  {
    hide CEnabled, CNext;
    if x == [] {
      assert x + y == y;
    } else {
      var z := x + y;
      assert z[0] == x[0] && z[1..] == x[1..] + y;
      CConcat(CNext(c, x[0]), x[1..], y);
    }
  }

  lemma COne(c: CState, a: CStep)
    requires CEnabled(c, a)
    ensures CCanRun(c, [a]) && CAfter(c, [a]) == CNext(c, a)
  {
    assert [a][1..] == [];
  }

  function Lift(steps: seq<Step>): (r: seq<CStep>)
    ensures |r| == |steps| && forall i :: 0 <= i < |steps| ==> r[i] == Rcu(steps[i])
  {
    seq(|steps|, i requires 0 <= i < |steps| => Rcu(steps[i]))
  }

  lemma {:induction false} CInvAfter(c: CState, steps: seq<CStep>)
    requires CInv(c) && CCanRun(c, steps)
    ensures CInv(CAfter(c, steps))
    decreases |steps|
  {
    hide CInv, CEnabled, CNext;
    if steps != [] {
      CStepInv(c, steps[0]);
      CInvAfter(CNext(c, steps[0]), steps[1..]);
    }
  }

  /** What an updater owes after steps of the protocol: the same object, waited for once more with
      every return of its own. */
  predicate OwesStill(d: Debt, d': Debt) {
    d'.Owing? == d.Owing? && (d.Owing? ==> d'.obj == d.obj && |d'.waited| >= |d.waited|)
  }

  /** Steps of the protocol without one of reader `t`: the client's own state stays as it is. */
  lemma {:induction false} LiftRun(c: CState, steps: seq<Step>, t: nat, w: nat)
    requires CanRun(c.rcu, steps) && NoStepOf(steps, t)
    requires |c.held| == |c.stale| == |c.rcu.readers| && |c.debts| == |c.rcu.updaters| && t < |c.held| && w < |c.debts|
    ensures CCanRun(c, Lift(steps))
    ensures var c' := CAfter(c, Lift(steps));
            && c'.rcu == After(c.rcu, steps) && c'.ptr == c.ptr && c'.freed == c.freed
            && |c'.held| == |c.held| && |c'.debts| == |c.debts| && c'.held[t] == c.held[t]
            && OwesStill(c.debts[w], c'.debts[w])
            && (c.debts[w].Owing? && U(w, Return) in steps ==> c'.debts[w].waited != [])
    decreases |steps|
  {
    if steps != [] {
      var a := steps[0];
      SameThreads(c.rcu, a);
      var c1 := CNext(c, Rcu(a));
      assert Lift(steps)[0] == Rcu(a) && Lift(steps)[1..] == Lift(steps[1..]);
      assert steps == [a] + steps[1..];
      LiftRun(c1, steps[1..], t, w);
    }
  }

  /** The converse of `OneSynchronizeIsSafe`: whenever a section of `t` escapes, a reader that
      dereferences the pointer now can be left with a freed object by any idle updater that
      replaces it, synchronizes once and frees. */
  lemma EscapingReaderHoldsFreed(c: CState, t: nat, w: nat) returns (steps: seq<CStep>, o: nat)
    requires CInv(c) && t < |c.held| && InSection(c.rcu, t) && Escapes(c.rcu, t) && c.rcu.readers[t].pc.Ready?
    requires w < |c.debts| && c.rcu.updaters[w].pc.Idle? && c.debts[w].Quiet?
    ensures CCanRun(c, steps)
    ensures var c' := CAfter(c, steps); t < |c'.held| && o in c'.held[t] && o in c'.freed
  {
    o := c.ptr;
    var c1 := CNext(c, Dereference(t));
    var c2 := CNext(c1, Replace(w));
    COne(c, Dereference(t));
    COne(c1, Replace(w));
    CConcat(c, [Dereference(t)], [Replace(w)]);
    var x, y := EscapingIsMissed(c.rcu, t, w);
    assert (x + y)[|x + y| - 1] == U(w, Return);
    LiftRun(c2, x + y, t, w);
    ReturnsLast(c.rcu, x + y, w);
    var c3 := CAfter(c2, Lift(x + y));
    COne(c3, CStep.Free(w));
    CConcat(c2, Lift(x + y), [CStep.Free(w)]);
    CConcat(c, [Dereference(t)] + [Replace(w)], Lift(x + y) + [CStep.Free(w)]);
    steps := [Dereference(t)] + [Replace(w)] + (Lift(x + y) + [CStep.Free(w)]);
  }

  /** Such states are reachable: a run of the client pattern in which a reader holds a freed object. */
  lemma FreedObjectHeldWitness() returns (c: CState, steps: seq<CStep>, o: nat)
    ensures CInit(c) && CCanRun(c, steps)
    ensures var c' := CAfter(c, steps); |c'.held| > 0 && o in c'.held[0] && o in c'.freed
  {
    var s, pre := EscapingSectionWitness();
    c := CState(s, 0, 1, seq(|s.readers|, _ => {}), seq(|s.readers|, _ => false), seq(|s.updaters|, _ => Quiet), map[], map[]);
    CInitInv(c);
    LiftAll(c, pre);
    CInvAfter(c, Lift(pre));
    var c1 := CAfter(c, Lift(pre));
    var rest;
    rest, o := EscapingReaderHoldsFreed(c1, 0, 0);
    CConcat(c, Lift(pre), rest);
    steps := Lift(pre) + rest;
  }

  lemma {:induction false} LiftAll(c: CState, steps: seq<Step>)
    requires CanRun(c.rcu, steps) && |c.held| == |c.stale| == |c.rcu.readers| && |c.debts| == |c.rcu.updaters|
    requires forall u :: 0 <= u < |c.debts| ==> c.debts[u].Quiet?
    ensures CCanRun(c, Lift(steps))
    ensures var c' := CAfter(c, Lift(steps));
            && c'.rcu == After(c.rcu, steps) && |c'.held| == |c.held| && c'.debts == c.debts
    decreases |steps|
  {
    if steps != [] {
      SameThreads(c.rcu, steps[0]);
      assert Lift(steps)[0] == Rcu(steps[0]) && Lift(steps)[1..] == Lift(steps[1..]);
      LiftAll(CNext(c, Rcu(steps[0])), steps[1..]);
    }
  }
}
