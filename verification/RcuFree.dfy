/** What becomes of the replaced objects in the client pattern of `src/rcu/test.c`: each is freed at
    most once, and by the updater that replaced it, after as many synchronize calls as that updater
    has made in between. */
module RcuFree {
  import opened RcuWord
  import opened RcuGrace
  import opened RcuLimits
  import opened RcuSafety
  import opened RcuClient

  ghost predicate Owes(c: CState, u: nat, o: nat) {
    u < |c.debts| && c.debts[u].Owing? && c.debts[u].obj == o
  }

  /** Every replaced object is owed by one updater, or freed, and not both. */
  ghost predicate OneOwner(c: CState) {
    && (forall o :: o in c.unlinked ==> o in c.freed || exists u :: Owes(c, u, o))
    && (forall u, o :: Owes(c, u, o) ==> o !in c.freed)
    && (forall u, v, o :: Owes(c, u, o) && Owes(c, v, o) ==> u == v)
  }

  lemma OwnerStep(c: CState, a: CStep)
    requires CInv(c) && OneOwner(c) && CEnabled(c, a)
    ensures OneOwner(CNext(c, a))
  {
    hide Inv, Enabled, Next, HeldOk, SectionCovered, Escapes, InSection, WaitedFor;
    var c' := CNext(c, a);
    if a.Replace? {
      assert Owes(c', a.u, c.ptr);
      forall v, o | Owes(c, v, o) ensures o in c.unlinked {
        assert DebtOk(c, v);
      }
    }
    if a.Free? {
      assert Owes(c, a.u, c.debts[a.u].obj);
    }
    forall o | o in c'.unlinked ensures o in c'.freed || exists u :: Owes(c', u, o) {
      if o in c.unlinked && o !in c.freed {
        var u :| Owes(c, u, o);
        assert Owes(c', u, o) || o in c'.freed;
      }
    }
    assert forall v, o :: Owes(c', v, o) ==> Owes(c, v, o) || (a == Replace(v) && o == c.ptr);
  }

  lemma {:induction false} RunOwner(cs: seq<CState>, steps: seq<CStep>, i: nat)
    requires |cs| > 0 && CInit(cs[0]) && CRun(cs, steps) && i < |cs|
    ensures OneOwner(cs[i])
  {
    hide CInv, CInit, CEnabled, CNext, OneOwner;
    if i == 0 {
      InitOwner(cs[0]);
    } else {
      RunOwner(cs, steps, i - 1);
      CRunInv(cs, steps, i - 1);
      OwnerStep(cs[i - 1], steps[i - 1]);
    }
  }

  lemma InitOwner(c: CState)
    requires CInit(c)
    ensures OneOwner(c)
  {
  }

  /** The synchronize calls of `u` that return in the course of `steps`. */
  function Returns(steps: seq<CStep>, u: nat): nat {
    if steps == [] then 0
    else Returns(steps[..|steps| - 1], u) + if steps[|steps| - 1] == Rcu(U(u, Return)) then 1 else 0
  }

  lemma OweStep(c: CState, a: CStep, u: nat, o: nat)
    requires CEnabled(c, a) && Owes(c, u, o) && a != CStep.Free(u)
    ensures var c' := CNext(c, a);
            Owes(c', u, o) && |c'.debts[u].waited| == |c.debts[u].waited| + if a == Rcu(U(u, Return)) then 1 else 0
  {
    hide Enabled, Next, Escapes, InSection;
  }

  lemma {:induction false} OwesSince(cs: seq<CState>, steps: seq<CStep>, u: nat, i: nat, k: nat)
    requires CRun(cs, steps) && i < k < |cs| && steps[i] == Replace(u)
    requires forall m :: i < m < k ==> steps[m] != CStep.Free(u)
    ensures Owes(cs[k], u, cs[i].ptr) && |cs[k].debts[u].waited| == Returns(steps[i + 1..k], u)
    decreases k
  {
    hide CEnabled, CNext, Owes;
    if k == i + 1 {
      Replaces(cs[i], u);
    } else {
      OwesSince(cs, steps, u, i, k - 1);
      OweStep(cs[k - 1], steps[k - 1], u, cs[i].ptr);
      assert steps[i + 1..k][..k - i - 2] == steps[i + 1..k - 1];
      HasDebt(cs[k], u, cs[i].ptr);
    }
  }

  lemma Replaces(c: CState, u: nat)
    requires CEnabled(c, Replace(u))
    ensures var c' := CNext(c, Replace(u)); Owes(c', u, c.ptr) && |c'.debts[u].waited| == 0
  {
  }

  lemma HasDebt(c: CState, u: nat, o: nat)
    requires Owes(c, u, o)
    ensures u < |c.debts| && c.debts[u].Owing?
  {
  }

  /** What was freed stays freed, with what had been waited for. */
  lemma {:induction false} FreedStays(cs: seq<CState>, steps: seq<CStep>, o: nat, j: nat, k: nat)
    requires |cs| > 0 && CInit(cs[0]) && CRun(cs, steps) && j <= k < |cs| && o in cs[j].freed
    ensures o in cs[k].freed && cs[k].freed[o] == cs[j].freed[o]
    decreases k
  {
    hide CInit, CEnabled, CNext, OneOwner;
    if j < k {
      FreedStays(cs, steps, o, j, k - 1);
      RunOwner(cs, steps, k - 1);
      FreedStep(cs[k - 1], steps[k - 1], o);
    }
  }

  lemma FreedStep(c: CState, a: CStep, o: nat)
    requires CEnabled(c, a) && OneOwner(c) && o in c.freed
    ensures o in CNext(c, a).freed && CNext(c, a).freed[o] == c.freed[o]
  {
    hide Enabled, Next, Escapes, InSection;
    if a.Free? {
      assert Owes(c, a.u, c.debts[a.u].obj);
    }
  }

  lemma Frees(c: CState, u: nat, o: nat)
    requires CEnabled(c, CStep.Free(u)) && Owes(c, u, o)
    ensures var c' := CNext(c, CStep.Free(u)); o in c'.freed && |c'.freed[o]| == |c.debts[u].waited|
  {
  }

  /** What an updater frees is the object that it replaced last, after all the synchronize calls that
      it has made since; and it has not been freed before. */
  lemma FreedAfterCalls(cs: seq<CState>, steps: seq<CStep>, u: nat, i: nat, j: nat, k: nat)
    requires |cs| > 0 && CInit(cs[0]) && CRun(cs, steps) && i < j < k < |cs|
    requires steps[i] == Replace(u) && steps[j] == CStep.Free(u) && forall m :: i < m < j ==> steps[m] != CStep.Free(u)
    ensures cs[i].ptr !in cs[j].freed && cs[i].ptr in cs[k].freed
    ensures |cs[k].freed[cs[i].ptr]| == Returns(steps[i + 1..j], u) > 0
  {
    hide CInit, CEnabled, CNext, Owes, CInv;
    OwesSince(cs, steps, u, i, j);
    RunOwner(cs, steps, j);
    Frees(cs[j], u, cs[i].ptr);
    FreedStays(cs, steps, cs[i].ptr, j + 1, k);
    CRunInv(cs, steps, k);
    Counted(cs[k], cs[i].ptr);
  }

  lemma Counted(c: CState, o: nat)
    requires CInv(c) && o in c.freed
    ensures |c.freed[o]| > 0
  {
  }

  /** No two free calls of a run free the same object. */
  lemma FreedOnce(cs: seq<CState>, steps: seq<CStep>, u: nat, v: nat, i: nat, j: nat)
    requires |cs| > 0 && CInit(cs[0]) && CRun(cs, steps) && i < j < |steps| && steps[i] == CStep.Free(u) && steps[j] == CStep.Free(v)
    ensures u < |cs[i].debts| && cs[i].debts[u].Owing? && v < |cs[j].debts| && cs[j].debts[v].Owing?
    ensures cs[i].debts[u].obj != cs[j].debts[v].obj
  {
    assert CEnabled(cs[i], steps[i]) && CEnabled(cs[j], steps[j]);
    hide CInit, CEnabled, CNext;
    var o := cs[i].debts[u].obj;
    Frees(cs[i], u, o);
    FreedStays(cs, steps, o, i + 1, j);
    RunOwner(cs, steps, j);
    assert Owes(cs[j], v, cs[j].debts[v].obj);
  }

  /** Two synchronize calls between replacing an object and freeing it are enough: from the free on no
      reader holds it, ever. */
  lemma TwoCallsAreSafe(cs: seq<CState>, steps: seq<CStep>, u: nat, i: nat, j: nat, k: nat, t: nat)
    requires |cs| > 0 && CInit(cs[0]) && CRun(cs, steps) && i < j < k < |cs| && t < |cs[k].held|
    requires steps[i] == Replace(u) && steps[j] == CStep.Free(u) && forall m :: i < m < j ==> steps[m] != CStep.Free(u)
    requires Returns(steps[i + 1..j], u) >= 2
    ensures cs[i].ptr !in cs[k].held[t]
  {
    hide CInit, CEnabled, CNext;
    FreedAfterCalls(cs, steps, u, i, j, k);
    TwoSynchronizesAreSafe(cs, steps, k);
  }
}
