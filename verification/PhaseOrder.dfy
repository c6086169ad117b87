/** In which order `precede` and `succeed` put the tasks that they move (`src/taskflow/taskflow.c`). */
module PhaseOrder {
  import opened Seqs
  import opened Phases

  ghost predicate Before<T>(s: seq<T>, x: T, y: T) {
    exists a, b :: 0 <= a < b < |s| && s[a] == x && s[b] == y
  }

  /** All other tasks of its phase are moved before `news[j]`, if there are any. */
  ghost predicate LastOfPhase<T>(ph: seq<seq<T>>, news: seq<T>, j: nat)
    requires j < |news| && In(ph, news[j])
  {
    forall y :: y in ph[PhaseOf(ph, news[j])] && y != news[j] ==> y in news[..j]
  }

  ghost predicate Movings<T>(g: Gathered<T>, news: seq<T>) {
    Ok(g.phases) && Apart(g.phases, g.adding) && Distinct(news) && forall x :: x in news ==> In(g.phases, x)
  }

  lemma InPhase<T>(ph: seq<seq<T>>, x: T, y: T)
    requires Ok(ph) && In(ph, x)
    ensures y in ph[PhaseOf(ph, x)] <==> In(ph, y) && PhaseOf(ph, y) == PhaseOf(ph, x)
  {
    var p := PhaseOf(ph, x);
    if y in ph[p] {
      var i :| 0 <= i < |ph[p]| && ph[p][i] == y;
      PhaseIs(ph, p, i);
    }
  }

  lemma MovingsNext<T>(g: Gathered<T>, news: seq<T>)
    requires Movings(g, news) && news != []
    ensures In(g.phases, news[0]) && CanGather(g, news) && Movings(Put(g, news[0]), news[1..])
  {
    GatherOk(g, news);
    PutOk(g, news[0]);
    forall x | x in news[1..] ensures In(Put(g, news[0]).phases, x) {
      PutIn(g, news[0], x);
    }
    hide Ok, Apart, Put, In;
    assert Distinct(news[1..]);
  }

  /** Whether it is the last one of its phase does not depend on a task moved before. */
  lemma LastNext<T>(g: Gathered<T>, news: seq<T>, j: nat)
    requires Movings(g, news) && 0 < j < |news|
    ensures In(g.phases, news[j]) && In(Put(g, news[0]).phases, news[j])
    ensures LastOfPhase(Put(g, news[0]).phases, news[1..], j - 1) <==> LastOfPhase(g.phases, news, j)
  {
    hide Ok, Apart, In, PhaseOf, Put;
    var x, z := news[j], news[0];
    PutOk(g, z);
    PutIn(g, z, x);
    var s: seq<T>, s': seq<T> := g.phases[PhaseOf(g.phases, x)], Put(g, z).phases[PhaseOf(Put(g, z).phases, x)];
    forall y: T ensures y in s' <==> y in s && y != z {
      SamePhase(g, z, x, y);
    }
    AllMoved(s, s', news, j);
  }

  lemma AllMoved<T>(s: seq<T>, s': seq<T>, news: seq<T>, j: nat)
    requires 0 < j < |news| && forall y: T :: y in s' <==> y in s && y != news[0]
    ensures (forall y: T :: y in s' && y != news[1..][j - 1] ==> y in news[1..][..j - 1]) <==>
            (forall y: T :: y in s && y != news[j] ==> y in news[..j])
  {
    assert news[..j] == [news[0]] + news[1..][..j - 1];
    if forall y: T :: y in s' && y != news[j] ==> y in news[1..][..j - 1] {
      forall y: T | y in s && y != news[j] ensures y in news[..j] {
        if y != news[0] { assert y in s'; }
      }
    }
    if forall y: T :: y in s && y != news[j] ==> y in news[..j] {
      forall y: T | y in s' && y != news[j] ensures y in news[1..][..j - 1] {
        assert y in s && y in news[..j];
      }
    }
  }

  lemma SamePhase<T>(g: Gathered<T>, z: T, x: T, y: T)
    requires Ok(g.phases) && Apart(g.phases, g.adding) && In(g.phases, z) && In(g.phases, x) && x != z
    ensures In(Put(g, z).phases, x)
    ensures y in Put(g, z).phases[PhaseOf(Put(g, z).phases, x)] <==> y in g.phases[PhaseOf(g.phases, x)] && y != z
  {
    hide Apart, Put;
    PutOk(g, z);
    PutIn(g, z, x);
    PutIn(g, z, y);
    PutPhase(g, z, x);
    InPhase(g.phases, x, y);
    InPhase(Put(g, z).phases, x, y);
    if In(g.phases, y) && y != z {
      PutPhase(g, z, y);
      if |g.phases[PhaseOf(g.phases, z)]| == 1 {
        OnlyTask(g.phases, z, x);
        OnlyTask(g.phases, z, y);
      }
    }
  }

  lemma BeforePut<T>(g: Gathered<T>, z: T, x: T, y: T)
    requires In(g.phases, z) && Before(g.adding, x, y)
    ensures Before(Put(g, z).adding, x, y)
  {
    var a, b :| 0 <= a < b < |g.adding| && g.adding[a] == x && g.adding[b] == y;
    var r := Put(g, z).adding;
    var d := if |g.phases[PhaseOf(g.phases, z)]| == 1 then 0 else 1;
    assert r[a + d] == x && r[b + d] == y;
  }

  /** What has been collected stays in its order. */
  lemma {:induction false} BeforeStays<T>(g: Gathered<T>, news: seq<T>, x: T, y: T)
    requires CanGather(g, news) && Before(g.adding, x, y)
    ensures Before(Gather(g, news).adding, x, y)
    decreases |news|
  {
    if news != [] {
      hide Put, Before;
      BeforePut(g, news[0], x, y);
      BeforeStays(Put(g, news[0]), news[1..], x, y);
    }
  }

  /** A round puts its task after those collected so far if it is the last one of its phase, and
      before them if it is not. */
  lemma RoundOrder<T>(g: Gathered<T>, news: seq<T>, z: T)
    requires Movings(g, news) && news != [] && z in g.adding
    ensures if LastOfPhase(g.phases, news, 0) then Before(Put(g, news[0]).adding, z, news[0]) else Before(Put(g, news[0]).adding, news[0], z)
  {
    var x := news[0];
    var s, r := g.phases[PhaseOf(g.phases, x)], Put(g, x).adding;
    var i :| 0 <= i < |g.adding| && g.adding[i] == z;
    assert news[..0] == [];
    if |s| == 1 {
      assert r[i] == z && r[|g.adding|] == x;
    } else {
      assert r[0] == x && r[i + 1] == z;
      OtherInPhase(g.phases, x);
    }
  }

  lemma OtherInPhase<T>(ph: seq<seq<T>>, x: T)
    requires Ok(ph) && In(ph, x) && |ph[PhaseOf(ph, x)]| != 1
    ensures exists y :: y in ph[PhaseOf(ph, x)] && y != x
  {
    var s := ph[PhaseOf(ph, x)];
    assert s[0] in s && s[1] in s && s[0] != s[1];
  }

  /** A task that has been collected, and one that is collected later. */
  lemma {:induction false} OrderWith<T>(g: Gathered<T>, news: seq<T>, z: T, j: nat)
    requires Movings(g, news) && j < |news| && z in g.adding
    ensures CanGather(g, news)
    ensures if LastOfPhase(g.phases, news, j) then Before(Gather(g, news).adding, z, news[j]) else Before(Gather(g, news).adding, news[j], z)
    decreases |news|
  {
    hide Movings, LastOfPhase, Before, Put;
    MovingsNext(g, news);
    if j == 0 {
      RoundOrder(g, news, z);
      if LastOfPhase(g.phases, news, 0) {
        BeforeStays(Put(g, news[0]), news[1..], z, news[0]);
      } else {
        BeforeStays(Put(g, news[0]), news[1..], news[0], z);
      }
    } else {
      LastNext(g, news, j);
      PutAdds(g, news[0]);
      OrderWith(Put(g, news[0]), news[1..], z, j - 1);
    }
  }

  lemma PutAdds<T>(g: Gathered<T>, x: T)
    requires In(g.phases, x)
    ensures x in Put(g, x).adding && forall z :: z in g.adding ==> z in Put(g, x).adding
  {
  }

  /** Of two collected tasks the one moved later comes later exactly if all other tasks of its phase
      have been moved before it. */
  lemma {:induction false} CollectedOrder<T>(g: Gathered<T>, news: seq<T>, i: nat, j: nat)
    requires Movings(g, news) && i < j < |news|
    ensures CanGather(g, news)
    ensures if LastOfPhase(g.phases, news, j) then Before(Gather(g, news).adding, news[i], news[j])
            else Before(Gather(g, news).adding, news[j], news[i])
    decreases |news|
  {
    hide Movings, Before, LastOfPhase, Put;
    MovingsNext(g, news);
    LastNext(g, news, j);
    if i == 0 {
      PutAdds(g, news[0]);
      OrderWith(Put(g, news[0]), news[1..], news[0], j - 1);
    } else {
      CollectedOrder(Put(g, news[0]), news[1..], i - 1, j - 1);
    }
  }

  // ---------------------------------------------------------------- where they come to lie

  /** After `succeed` on a task with a later one that stays: the moved tasks follow the main task of
      the next phase, before its other tasks, in the order in which they were collected. */
  lemma SucceedOrder<T>(ph: seq<seq<T>>, task: T, news: seq<T>)
    requires Movable(ph, task, news) && news != [] && StaysLater(ph, task, news)
    ensures var r := Succeed(ph, task, news);
            && In(r, task) && PhaseOf(r, task) + 1 < |r|
            && var s := r[PhaseOf(r, task) + 1];
               && |s| > |news| && s[0] !in news && (forall c :: |news| < c < |s| ==> s[c] !in news)
               && (forall i, j :: 0 <= i < j < |news| ==>
                     if LastOfPhase(ph, news, j) then Before(s, news[i], news[j]) else Before(s, news[j], news[i]))
  {
    hide Ok, Apart, Movable, Collect, In, Succeed, LastOfPhase, Before, StaysLater, MainOf, PhaseOf, Gather, CanGather, Movings;
    Next(ph, task, news);
    var g := Collect(ph, task, news);
    var k := PhaseOf(g.phases, task) + 1;
    var s := Extend(g.phases, k, 1, g.adding)[k];
    assert s == g.phases[k][..1] + g.adding + g.phases[k][1..];
    forall i: nat, j: nat | i < j < |news|
      ensures if LastOfPhase(ph, news, j) then Before(s, news[i], news[j]) else Before(s, news[j], news[i])
    {
      OrderInside(ph, task, news, g.phases[k][..1], g.phases[k][1..], i, j);
    }
  }

  /** What is needed of the collection. */
  lemma Next<T>(ph: seq<seq<T>>, task: T, news: seq<T>)
    requires Movable(ph, task, news) && news != []
    ensures var g := Collect(ph, task, news);
            && In(ph, task) && (forall j :: 0 <= j < |news| ==> In(ph, news[j])) && In(g.phases, task) && |g.adding| == |news|
            && (forall p, a :: 0 <= p < |g.phases| && 0 <= a < |g.phases[p]| ==> g.phases[p][a] !in news)
            && (forall p :: 0 <= p < |g.phases| ==> |g.phases[p]| > 0)
            && var k := PhaseOf(g.phases, task);
               && (k + 1 < |g.phases| <==> StaysLater(ph, task, news)) && (k > 0 <==> StaysEarlier(ph, task, news))
               && (k + 1 < |g.phases| ==>
                     var r := Succeed(ph, task, news);
                     r == Extend(g.phases, k + 1, 1, g.adding) && In(r, task) && PhaseOf(r, task) == k)
               && (k > 0 ==>
                     var r := Precede(ph, task, news);
                     r == Extend(g.phases, k - 1, |g.phases[k - 1]|, g.adding) && In(r, task) && PhaseOf(r, task) == k)
  {
    hide Ok, Apart, Movable, Collect, In, Succeed, Precede, Extend, Spread, StaysLater, StaysEarlier, MainOf, PhaseOf;
    CollectedWell(ph, task, news);
    CollectedAt(ph, task, news);
    Collected(ph, task, news);
    Branches(ph, task, news);
    var g := Collect(ph, task, news);
    var k := PhaseOf(g.phases, task);
    if k + 1 < |g.phases| {
      ExtendAll(g.phases, k + 1, 1, g.adding, task);
    }
    if k > 0 {
      ExtendAll(g.phases, k - 1, |g.phases[k - 1]|, g.adding, task);
    }
    forall p, a | 0 <= p < |g.phases| && 0 <= a < |g.phases[p]| ensures g.phases[p][a] !in news {
      PhaseIs(g.phases, p, a);
    }
  }

  lemma CollectedWell<T>(ph: seq<seq<T>>, task: T, news: seq<T>)
    requires Movable(ph, task, news)
    ensures var g := Collect(ph, task, news);
            In(ph, task) && Ok(g.phases) && Apart(g.phases, g.adding) && |g.adding| == |news|
  {
    GatherOk(Gathered(ph, []), news);
    hide Gather, CanGather;
  }

  lemma OrderInside<T>(ph: seq<seq<T>>, task: T, news: seq<T>, a: seq<T>, b: seq<T>, i: nat, j: nat)
    requires Movable(ph, task, news) && i < j < |news| && In(ph, news[j])
    ensures var s := a + Collect(ph, task, news).adding + b;
            if LastOfPhase(ph, news, j) then Before(s, news[i], news[j]) else Before(s, news[j], news[i])
  {
    CollectedOrder(Gathered(ph, []), news, i, j);
    hide Movable, Gather, CanGather, LastOfPhase;
    var m := Collect(ph, task, news).adding;
    if LastOfPhase(ph, news, j) {
      Shifted(a, m, b, news[i], news[j]);
    } else {
      Shifted(a, m, b, news[j], news[i]);
    }
  }

  lemma Shifted<T>(a: seq<T>, m: seq<T>, b: seq<T>, x: T, y: T)
    requires Before(m, x, y)
    ensures Before(a + m + b, x, y)
  {
    var i, j :| 0 <= i < j < |m| && m[i] == x && m[j] == y;
    var s := a + m + b;
    assert s[|a| + i] == x && s[|a| + j] == y;
  }

  /** After `precede` on a task with an earlier one that stays: the moved tasks follow all others of
      the previous phase, in the order in which they were collected. */
  lemma PrecedeOrder<T>(ph: seq<seq<T>>, task: T, news: seq<T>)
    requires Movable(ph, task, news) && news != [] && StaysEarlier(ph, task, news)
    ensures var r := Precede(ph, task, news);
            && In(r, task) && 0 < PhaseOf(r, task)
            && var s := r[PhaseOf(r, task) - 1];
               && |s| > |news| && (forall c :: 0 <= c < |s| - |news| ==> s[c] !in news)
               && (forall i, j :: 0 <= i < j < |news| ==>
                     if LastOfPhase(ph, news, j) then Before(s, news[i], news[j]) else Before(s, news[j], news[i]))
  {
    hide Ok, Apart, Movable, Collect, In, Precede, LastOfPhase, Before, StaysEarlier, MainOf, PhaseOf, Gather, CanGather, Movings;
    Next(ph, task, news);
    var g := Collect(ph, task, news);
    var k := PhaseOf(g.phases, task) - 1;
    var s := Extend(g.phases, k, |g.phases[k]|, g.adding)[k];
    assert s == g.phases[k] + g.adding + [];
    forall i: nat, j: nat | i < j < |news|
      ensures if LastOfPhase(ph, news, j) then Before(s, news[i], news[j]) else Before(s, news[j], news[i])
    {
      OrderInside(ph, task, news, g.phases[k], [], i, j);
    }
  }

  /** When the moved tasks become phases, these are in the order in which they were collected. */
  lemma PhasesOrder<T>(ph: seq<seq<T>>, task: T, news: seq<T>, i: nat, j: nat)
    requires Movable(ph, task, news) && i < j < |news|
    ensures In(ph, news[j])
    ensures var r := Succeed(ph, task, news);
            !StaysLater(ph, task, news) ==>
              In(r, news[i]) && In(r, news[j]) && (PhaseOf(r, news[i]) < PhaseOf(r, news[j]) <==> LastOfPhase(ph, news, j))
    ensures var r := Precede(ph, task, news);
            !StaysEarlier(ph, task, news) ==>
              In(r, news[i]) && In(r, news[j]) && (PhaseOf(r, news[i]) < PhaseOf(r, news[j]) <==> LastOfPhase(ph, news, j))
  {
    hide Ok, Apart, Movable, Collect, In, Succeed, Precede, LastOfPhase, StaysLater, StaysEarlier, MainOf, PhaseOf, Gather,
         CanGather, Movings, Spread;
    NextPhases(ph, task, news);
    var g := Collect(ph, task, news);
    OrderInside(ph, task, news, [], [], i, j);
    assert [] + g.adding + [] == g.adding;
    if !StaysLater(ph, task, news) {
      InNewPhases(g, |g.phases|, news[i], news[j]);
      InNewPhases(g, |g.phases|, news[j], news[i]);
    }
    if !StaysEarlier(ph, task, news) {
      InNewPhases(g, 0, news[i], news[j]);
      InNewPhases(g, 0, news[j], news[i]);
    }
  }

  lemma InNewPhases<T>(g: Gathered<T>, k: nat, x: T, y: T)
    requires Ok(g.phases) && Apart(g.phases, g.adding) && k <= |g.phases|
    ensures var r := Spread(g.phases, k, g.adding);
            Before(g.adding, x, y) ==> In(r, x) && In(r, y) && PhaseOf(r, x) < PhaseOf(r, y)
  {
    hide Spread, Ok, Apart;
    if Before(g.adding, x, y) {
      var a, b :| 0 <= a < b < |g.adding| && g.adding[a] == x && g.adding[b] == y;
      SpreadNew(g.phases, k, g.adding, a);
      SpreadNew(g.phases, k, g.adding, b);
    }
  }

  lemma NextPhases<T>(ph: seq<seq<T>>, task: T, news: seq<T>)
    requires Movable(ph, task, news) && news != []
    ensures var g := Collect(ph, task, news);
            && In(ph, task) && (forall j :: 0 <= j < |news| ==> In(ph, news[j])) && Ok(g.phases) && Apart(g.phases, g.adding)
            && (!StaysLater(ph, task, news) ==> Succeed(ph, task, news) == Spread(g.phases, |g.phases|, g.adding))
            && (!StaysEarlier(ph, task, news) ==> Precede(ph, task, news) == Spread(g.phases, 0, g.adding))
  {
    CollectedAt(ph, task, news);
    Collected(ph, task, news);
    Branches(ph, task, news);
    hide Gather, Spread, Succeed, Precede, StaysLater, StaysEarlier;
  }
}
