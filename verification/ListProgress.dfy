/** That readers and the writer of an RCU-protected list (`include/mthpc/rculist.h`) get on: neither
    waits for the other, and what has been removed can be reclaimed. */
module ListProgress {
  import opened Seqs
  import opened RcuList

  /** One step before a run. */
  lemma OneMore(s: State, a: Step, ts: seq<State>, more: seq<Step>)
    requires Enabled(s, a) && Run(ts, more) && ts[0] == Next(s, a)
    ensures Run([s] + ts, [a] + more)
  {
    hide Enabled, Next;
    forall i | 0 <= i < |more| + 1
      ensures Enabled(([s] + ts)[i], ([a] + more)[i]) && ([s] + ts)[i + 1] == Next(([s] + ts)[i], ([a] + more)[i])
    {
      if i > 0 { assert ([a] + more)[i] == more[i - 1] && ([s] + ts)[i] == ts[i - 1]; }
    }
  }

  /** And one after it. */
  lemma OneAfter(ts: seq<State>, more: seq<Step>, a: Step)
    requires Run(ts, more) && Enabled(ts[|more|], a)
    ensures Run(ts + [Next(ts[|more|], a)], more + [a])
  {
    hide Enabled, Next;
    var us, all := ts + [Next(ts[|more|], a)], more + [a];
    forall i | 0 <= i < |all| ensures Enabled(us[i], all[i]) && us[i + 1] == Next(us[i], all[i]) {
      if i < |more| { assert all[i] == more[i] && us[i] == ts[i] && us[i + 1] == ts[i + 1]; }
    }
  }

  // ---------------------------------------------------------------- a reader alone

  /** A walk that has met listed nodes only, in a section that began after the last addition. */
  ghost predicate Fresh(s: State, t: nat) {
    t < |s.walkers| && !s.walkers[t].Outside?
    && (forall y :: y in s.list.born ==> s.list.born[y] < s.walkers[t].since)
    && (s.walkers[t].Walking? ==> s.list.OnRing(s.walkers[t].at))
    && (forall y :: y in s.walkers[t].seen ==> s.list.Listed(y))
  }

  lemma HopsOn(s: State, t: nat)
    requires Inv(s) && Fresh(s, t) && s.walkers[t].Walking?
    ensures Enabled(s, Hop(t)) && Fresh(Next(s, Hop(t)), t) && Next(s, Hop(t)).list == s.list
    ensures var w := Next(s, Hop(t)).walkers[t]; w.Walking? ==> |Later(s.list, w.at)| < |Later(s.list, s.walkers[t].at)|
  {
    hide WriterOk, Stale, Walkers, Places, Past, Later;
    assert RingLink(s.list, s.walkers[t].at);
    if s.list.next[s.walkers[t].at] != HEAD { FewerLater(s.list, s.walkers[t].at); }
  }

  lemma FewerLater(l: List, x: nat)
    requires RingLink(l, x) && l.next[x] != HEAD
    ensures l.OnRing(l.next[x]) ==> |Later(l, l.next[x])| < |Later(l, x)|
  {
    var z := l.next[x];
    if l.OnRing(z) {
      assert z in Later(l, x) && Later(l, z) <= Later(l, x) - {z};
      SubsetSize(Later(l, z), Later(l, x) - {z});
    }
  }

  /** The steps of one thread after its first. */
  predicate OnlyHops(steps: seq<Step>, t: nat) {
    forall k :: 0 <= k < |steps| ==> steps[k] == Hop(t)
  }

  lemma {:induction false} WalksOn(s: State, t: nat) returns (ss: seq<State>, steps: seq<Step>)
    requires Inv(s) && Fresh(s, t)
    ensures |ss| > 0 && Run(ss, steps) && ss[0] == s && OnlyHops(steps, t)
    ensures var s' := ss[|ss| - 1];
            s'.list == s.list && t < |s'.walkers| && s'.walkers[t].Finished? && forall y :: y in s'.walkers[t].seen <==> s.list.Listed(y)
    decreases if s.walkers[t].Walking? then 1 + |Later(s.list, s.walkers[t].at)| else 0
  {
    hide Inv, Enabled, Next;
    if s.walkers[t].Finished? {
      ss, steps := [s], [];
      SawAll(s, t);
    } else {
      HopsOn(s, t);
      NextInv(s, Hop(t));
      var ts, more := WalksOn(Next(s, Hop(t)), t);
      OneMore(s, Hop(t), ts, more);
      ss, steps := [s] + ts, [Hop(t)] + more;
    }
  }

  lemma SawAll(s: State, t: nat)
    requires Inv(s) && Fresh(s, t) && s.walkers[t].Finished?
    ensures forall y :: s.list.Listed(y) ==> y in s.walkers[t].seen
  {
    assert WalkerOk(s.list, s.walkers[t]);
  }

  lemma Enters(s: State, t: nat)
    requires Inv(s) && t < |s.walkers| && s.walkers[t].Outside?
    ensures Enabled(s, Enter(t)) && Fresh(Next(s, Enter(t)), t) && Next(s, Enter(t)).list == s.list
  {
  }

  /** A reader can walk the list at any moment, in the middle of an addition or a removal too, and while
      the writer stands still its walk shows it exactly the listed nodes. */
  lemma WalksAlone(s: State, t: nat) returns (ss: seq<State>, steps: seq<Step>)
    requires Inv(s) && t < |s.walkers| && s.walkers[t].Outside?
    ensures |steps| >= 2 && Run(ss, steps) && ss[0] == s
    ensures steps[0] == Enter(t) && OnlyHops(steps[1..|steps| - 1], t) && steps[|steps| - 1] == Exit(t)
    ensures var s' := ss[|steps| - 1];
            t < |s'.walkers| && s'.walkers[t].Finished? && forall y :: y in s'.walkers[t].seen <==> s.list.Listed(y)
    ensures ss[|steps|].list == s.list && t < |ss[|steps|].walkers| && ss[|steps|].walkers[t].Outside?
  {
    hide Inv, Fresh, Enabled, Next;
    Enters(s, t);
    NextInv(s, Enter(t));
    var ts, more := WalksOn(Next(s, Enter(t)), t);
    OneMore(s, Enter(t), ts, more);
    var us, all := [s] + ts, [Enter(t)] + more;
    assert us[|all|] == ts[|more|];
    Leaves(us[|all|], t);
    OneAfter(us, all, Exit(t));
    ss, steps := us + [Next(us[|all|], Exit(t))], all + [Exit(t)];
    assert steps[1..|steps| - 1] == more;
  }

  lemma Leaves(s: State, t: nat)
    requires t < |s.walkers| && !s.walkers[t].Outside?
    ensures Enabled(s, Exit(t))
    ensures var s' := Next(s, Exit(t)); s'.list == s.list && t < |s'.walkers| && s'.walkers[t].Outside?
  {
  }

  // ---------------------------------------------------------------- the writer alone

  function WriterLeft(w: Writer): int {
    match w
    case Rest => 0
    case Add(_, _, _, k) => 4 - k
    case Del(_, _, _, k) => 3 - k
  }

  lemma WriteOn(s: State)
    requires Inv(s) && !s.writer.Rest?
    ensures Enabled(s, Write) && WriterLeft(s.writer) > 0
    ensures var s' := Next(s, Write); WriterLeft(s'.writer) == WriterLeft(s.writer) - 1 && s'.walkers == s.walkers
    ensures Next(s, Write).writer.Rest? <==> WriterLeft(s.writer) == 1
  {
    hide Walkers, Ring, Stale, Places, Inverse;
  }

  predicate WritesOnly(steps: seq<Step>) {
    forall k :: 0 <= k < |steps| ==> steps[k] == Write
  }

  lemma {:induction false} WritesOn(s: State) returns (ss: seq<State>, steps: seq<Step>)
    requires Inv(s)
    ensures |ss| > 0 && Run(ss, steps) && ss[0] == s && WritesOnly(steps) && |steps| == WriterLeft(s.writer)
    ensures ss[|ss| - 1].writer.Rest? && ss[|ss| - 1].walkers == s.walkers
    decreases if WriterLeft(s.writer) > 0 then WriterLeft(s.writer) else 0
  {
    hide Inv, Enabled, Next;
    if s.writer.Rest? {
      ss, steps := [s], [];
    } else {
      WriteOn(s);
      NextInv(s, Write);
      var ts, more := WritesOn(Next(s, Write));
      OneMore(s, Write, ts, more);
      ss, steps := [s] + ts, [Write] + more;
    }
  }

  lemma CanBegin(s: State, a: Step)
    requires Inv(s) && s.writer.Rest?
    requires match a case BeginAdd(h) => s.list.OnRing(h) case BeginAddTail(h) => s.list.OnRing(h) case BeginDel(x) => s.list.Listed(x) case _ => false
    ensures Enabled(s, a) && Next(s, a).walkers == s.walkers
    ensures WriterLeft(Next(s, a).writer) == if a.BeginDel? then 3 else 4
  {
    hide Walkers, Stale, Places;
    var x := if a.BeginDel? then a.x else a.h;
    assert Back(s.list, s.prev, x) && RingLink(s.list, x);
  }

  /** No reader keeps the writer from adding or removing: before or after whatever node is on the ring, or
      whatever listed node, in four or three stores of its own. */
  lemma WritesAlone(s: State, a: Step) returns (ss: seq<State>, steps: seq<Step>)
    requires Inv(s) && s.writer.Rest?
    requires match a case BeginAdd(h) => s.list.OnRing(h) case BeginAddTail(h) => s.list.OnRing(h) case BeginDel(x) => s.list.Listed(x) case _ => false
    ensures |steps| == (if a.BeginDel? then 4 else 5) && Run(ss, steps) && ss[0] == s
    ensures steps[0] == a && WritesOnly(steps[1..]) && ss[|steps|].writer.Rest? && ss[|steps|].walkers == s.walkers
  {
    hide Inv, Enabled, Next;
    CanBegin(s, a);
    NextInv(s, a);
    var ts, more := WritesOn(Next(s, a));
    OneMore(s, a, ts, more);
    ss, steps := [s] + ts, [a] + more;
  }

  // ---------------------------------------------------------------- reclaiming

  /** The removed nodes that still have their memory. */
  function Removed(s: State): set<nat> {
    s.list.gone.Keys * s.list.next.Keys
  }

  function Inside(ws: seq<Walker>): nat {
    if ws == [] then 0 else (if ws[0].Outside? then 0 else 1) + Inside(ws[1..])
  }

  lemma {:induction false} InsideAfter(ws: seq<Walker>, t: nat)
    requires t < |ws| && !ws[t].Outside?
    ensures Inside(ws[t := Outside]) == Inside(ws) - 1
  {
    if t == 0 {
      assert ws[t := Outside][1..] == ws[1..];
    } else {
      assert ws[t := Outside][1..] == ws[1..][t - 1 := Outside];
      InsideAfter(ws[1..], t - 1);
    }
  }

  lemma {:induction false} SomeInside(ws: seq<Walker>) returns (t: nat)
    requires Inside(ws) > 0
    ensures t < |ws| && !ws[t].Outside?
  {
    if !ws[0].Outside? {
      t := 0;
    } else {
      t := SomeInside(ws[1..]);
      t := t + 1;
    }
  }

  lemma {:induction false} NoneInside(ws: seq<Walker>, t: nat)
    requires Inside(ws) == 0 && t < |ws|
    ensures ws[t].Outside?
  {
    if t > 0 {
      NoneInside(ws[1..], t - 1);
    }
  }

  lemma Exits(s: State, t: nat)
    requires Enabled(s, Exit(t))
    ensures var s' := Next(s, Exit(t)); s'.writer == s.writer && Inside(s'.walkers) == Inside(s.walkers) - 1
  {
    InsideAfter(s.walkers, t);
  }

  lemma Reclaims(s: State, x: nat)
    requires s.writer.Rest? && Inside(s.walkers) == 0 && x in Removed(s)
    ensures Enabled(s, Reclaim(x))
    ensures var s' := Next(s, Reclaim(x));
            s'.writer == s.writer && Inside(s'.walkers) == 0 && Removed(s') == Removed(s) - {x}
  {
    forall t | 0 <= t < |s.walkers| ensures s.walkers[t].Outside? {
      NoneInside(s.walkers, t);
    }
  }

  /** No memory is lost: from every state some run ends with the writer at rest and every node that was
      ever removed reclaimed. */
  lemma {:induction false} CanReclaimAll(s: State) returns (ss: seq<State>, steps: seq<Step>)
    requires Inv(s)
    ensures |ss| > 0 && Run(ss, steps) && ss[0] == s
    ensures var s' := ss[|ss| - 1]; s'.writer.Rest? && forall x :: x in s'.list.gone ==> x !in s'.list.next
    decreases if WriterLeft(s.writer) > 0 then WriterLeft(s.writer) else 0, Inside(s.walkers), |Removed(s)|
  {
    hide Inv, Next;
    var a := Write;
    if !s.writer.Rest? {
      WriteOn(s);
    } else if Inside(s.walkers) > 0 {
      var t := SomeInside(s.walkers);
      a := Exit(t);
      Exits(s, t);
    } else if x :| x in Removed(s) {
      a := Reclaim(x);
      Reclaims(s, x);
    } else {
      assert forall x :: x in s.list.gone ==> x !in Removed(s);
      return [s], [];
    }
    NextInv(s, a);
    var ts, more := CanReclaimAll(Next(s, a));
    OneMore(s, a, ts, more);
    ss, steps := [s] + ts, [a] + more;
  }
}
