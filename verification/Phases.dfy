/** What `precede` and `succeed` (`src/taskflow/taskflow.c`) make of the phases of a taskflow: one
    sequence of tasks a phase, its main task first. Module Taskflow has the same operations on
    the heap. */
module Phases {
  import opened Seqs

  /** The phases left in the taskflow and the tasks collected in `adding_list`. */
  datatype Gathered<T> = Gathered(phases: seq<seq<T>>, adding: seq<T>)

  predicate In<T(==)>(ph: seq<seq<T>>, x: T) {
    exists p :: 0 <= p < |ph| && x in ph[p]
  }

  /** No empty phase, and every task at one place only. */
  ghost predicate Ok<T>(ph: seq<seq<T>>) {
    && (forall p :: 0 <= p < |ph| ==> |ph[p]| > 0)
    && (forall p, i, q, j :: 0 <= p < |ph| && 0 <= i < |ph[p]| && 0 <= q < |ph| && 0 <= j < |ph[q]|
          ==> (ph[p][i] == ph[q][j] ==> p == q && i == j))
  }

  ghost predicate Apart<T>(ph: seq<seq<T>>, s: seq<T>) {
    && Distinct(s)
    && forall p, i, j :: 0 <= p < |ph| && 0 <= i < |ph[p]| && 0 <= j < |s| ==> ph[p][i] != s[j]
  }

  function Total<T>(ph: seq<seq<T>>): nat {
    if ph == [] then 0 else |ph[0]| + Total(ph[1..])
  }

  function IndexOf<T(==)>(s: seq<T>, x: T): (i: nat)
    requires x in s
    ensures i < |s| && s[i] == x
  {
    if s[0] == x then 0 else 1 + IndexOf(s[1..], x)
  }

  function PhaseOf<T(==)>(ph: seq<seq<T>>, x: T): (p: nat)
    requires In(ph, x)
    ensures p < |ph| && x in ph[p]
  {
    if x in ph[0] then 0
    else
      assert forall p :: 1 <= p < |ph| ==> ph[p] == ph[1..][p - 1];
      1 + PhaseOf(ph[1..], x)
  }

  predicate IsMain<T(==)>(ph: seq<seq<T>>, x: T) {
    exists p :: 0 <= p < |ph| && |ph[p]| > 0 && ph[p][0] == x
  }

  function MainOf<T(==)>(ph: seq<seq<T>>, x: T): T
    requires In(ph, x)
  {
    ph[PhaseOf(ph, x)][0]
  }

  /** A phase that loses its only task goes; one that loses its main task is led by the next. */
  function RemoveAt<T>(ph: seq<seq<T>>, p: nat, i: nat): seq<seq<T>>
    requires p < |ph| && i < |ph[p]|
  {
    if |ph[p]| == 1 then Drop(ph, p) else ph[p := Drop(ph[p], i)]
  }

  function Remove<T(==)>(ph: seq<seq<T>>, x: T): seq<seq<T>>
    requires In(ph, x)
  {
    RemoveAt(ph, PhaseOf(ph, x), IndexOf(ph[PhaseOf(ph, x)], x))
  }

  /** One round of the loop in `mthpc_taskflow_rlist_del`: a task that was alone in its phase goes
      to the tail of the list, any other to its front. */
  function Put<T(==)>(g: Gathered<T>, x: T): Gathered<T>
    requires In(g.phases, x)
  {
    Gathered(Remove(g.phases, x), if |g.phases[PhaseOf(g.phases, x)]| == 1 then g.adding + [x] else [x] + g.adding)
  }

  /** Every new task is still in the taskflow when it is its turn. */
  predicate CanGather<T(==)>(g: Gathered<T>, news: seq<T>)
    decreases |news|
  {
    news == [] || (In(g.phases, news[0]) && CanGather(Put(g, news[0]), news[1..]))
  }

  function Gather<T(==)>(g: Gathered<T>, news: seq<T>): Gathered<T>
    requires CanGather(g, news)
    decreases |news|
  {
    if news == [] then g else Gather(Put(g, news[0]), news[1..])
  }

  function Singles<T>(s: seq<T>): (r: seq<seq<T>>)
    ensures |r| == |s| && forall i :: 0 <= i < |s| ==> r[i] == [s[i]]
  {
    seq(|s|, i requires 0 <= i < |s| => [s[i]])
  }

  /** Every task of `adding` as a phase of its own, before phase `k`. */
  function Spread<T>(ph: seq<seq<T>>, k: nat, adding: seq<T>): seq<seq<T>>
    requires k <= |ph|
  {
    ph[..k] + Singles(adding) + ph[k..]
  }

  /** `adding` inside phase `k`, before its `i`-th task. */
  function Extend<T>(ph: seq<seq<T>>, k: nat, i: nat, adding: seq<T>): seq<seq<T>>
    requires k < |ph| && i <= |ph[k]|
  {
    ph[k := ph[k][..i] + adding + ph[k][i..]]
  }

  /** After `main`: new phases at the end, or the front of the next phase's sub-tasks. */
  function After<T(==)>(ph: seq<seq<T>>, main: T, adding: seq<T>): seq<seq<T>>
    requires In(ph, main) && forall p :: 0 <= p < |ph| ==> ph[p] != []
  {
    var k := PhaseOf(ph, main) + 1;
    if k == |ph| then Spread(ph, k, adding) else Extend(ph, k, 1, adding)
  }

  /** Before `main`: new phases at the front, or the tail of the previous phase's sub-tasks. */
  function Before<T(==)>(ph: seq<seq<T>>, main: T, adding: seq<T>): seq<seq<T>>
    requires In(ph, main)
  {
    var k := PhaseOf(ph, main);
    if k == 0 then Spread(ph, 0, adding) else Extend(ph, k - 1, |ph[k - 1]|, adding)
  }

  /** Tasks of the taskflow, each named once, and neither `task` nor the main task of its phase. */
  ghost predicate Movable<T>(ph: seq<seq<T>>, task: T, news: seq<T>) {
    && Ok(ph) && In(ph, task) && Distinct(news)
    && forall x :: x in news ==> In(ph, x) && x != task && x != MainOf(ph, task)
  }

  lemma PhaseIs<T>(ph: seq<seq<T>>, p: nat, i: nat)
    requires Ok(ph) && p < |ph| && i < |ph[p]|
    ensures In(ph, ph[p][i]) && PhaseOf(ph, ph[p][i]) == p && IndexOf(ph[p], ph[p][i]) == i
  {
    var x := ph[p][i];
    assert x in ph[p];
    var q := PhaseOf(ph, x);
    var j :| 0 <= j < |ph[q]| && ph[q][j] == x;
    var k := IndexOf(ph[p], x);
    assert ph[p][k] == ph[p][i];
  }

  /** The place in `ph` from which a place of `RemoveAt(ph, p, i)` comes. */
  lemma RemovedFrom<T>(ph: seq<seq<T>>, p: nat, i: nat, q: nat, j: nat) returns (a: nat, b: nat)
    requires Ok(ph) && p < |ph| && i < |ph[p]|
    requires q < |RemoveAt(ph, p, i)| && j < |RemoveAt(ph, p, i)[q]|
    ensures a == (if |ph[p]| == 1 && q >= p then q + 1 else q)
    ensures b == (if |ph[p]| > 1 && q == p && j >= i then j + 1 else j)
    ensures a < |ph| && b < |ph[a]| && RemoveAt(ph, p, i)[q][j] == ph[a][b] && (a != p || b != i)
  {
    a := if |ph[p]| == 1 && q >= p then q + 1 else q;
    b := if |ph[p]| > 1 && q == p && j >= i then j + 1 else j;
  }

  lemma RemovedOk<T>(ph: seq<seq<T>>, p: nat, i: nat)
    requires Ok(ph) && p < |ph| && i < |ph[p]|
    ensures Ok(RemoveAt(ph, p, i))
  {
    var r := RemoveAt(ph, p, i);
    forall q, j, u, v | 0 <= q < |r| && 0 <= j < |r[q]| && 0 <= u < |r| && 0 <= v < |r[u]| && r[q][j] == r[u][v]
      ensures q == u && j == v
    {
      var a, b := RemovedFrom(ph, p, i, q, j);
      var c, d := RemovedFrom(ph, p, i, u, v);
    }
  }

  lemma RemovedIn<T>(ph: seq<seq<T>>, p: nat, i: nat, x: T)
    requires Ok(ph) && p < |ph| && i < |ph[p]|
    ensures In(RemoveAt(ph, p, i), x) <==> In(ph, x) && x != ph[p][i]
  {
    var r := RemoveAt(ph, p, i);
    if In(r, x) {
      var q := PhaseOf(r, x);
      var a, b := RemovedFrom(ph, p, i, q, IndexOf(r[q], x));
      assert x in ph[a];
    }
    if In(ph, x) && x != ph[p][i] {
      RemovedKeeps(ph, p, i, PhaseOf(ph, x), IndexOf(ph[PhaseOf(ph, x)], x));
    }
  }

  lemma RemovedKeeps<T>(ph: seq<seq<T>>, p: nat, i: nat, a: nat, b: nat)
    requires p < |ph| && i < |ph[p]| && a < |ph| && b < |ph[a]| && (a != p || b != i)
    ensures In(RemoveAt(ph, p, i), ph[a][b])
  {
    var r := RemoveAt(ph, p, i);
    var q := if |ph[p]| == 1 && a > p then a - 1 else a;
    var j := if |ph[p]| > 1 && a == p && b > i then b - 1 else b;
    assert r[q][j] == ph[a][b];
  }

  lemma {:induction false} TotalConcat<T>(a: seq<seq<T>>, b: seq<seq<T>>)
    ensures Total(a + b) == Total(a) + Total(b)
  {
    if a == [] {
      assert a + b == b;
    } else {
      assert (a + b)[1..] == a[1..] + b;
      TotalConcat(a[1..], b);
    }
  }

  lemma TotalSplit<T>(ph: seq<seq<T>>, p: nat)
    requires p < |ph|
    ensures Total(ph) == Total(ph[..p]) + |ph[p]| + Total(ph[p + 1..])
  {
    assert ph == ph[..p] + ([ph[p]] + ph[p + 1..]);
    TotalConcat(ph[..p], [ph[p]] + ph[p + 1..]);
    assert ([ph[p]] + ph[p + 1..])[1..] == ph[p + 1..];
  }

  lemma TotalUpdate<T>(ph: seq<seq<T>>, p: nat, s: seq<T>)
    requires p < |ph|
    ensures Total(ph[p := s]) == Total(ph) - |ph[p]| + |s|
  {
    TotalSplit(ph, p);
    TotalSplit(ph[p := s], p);
    assert ph[p := s][..p] == ph[..p] && ph[p := s][p + 1..] == ph[p + 1..];
  }

  lemma RemovedTotal<T>(ph: seq<seq<T>>, p: nat, i: nat)
    requires p < |ph| && i < |ph[p]|
    ensures Total(RemoveAt(ph, p, i)) == Total(ph) - 1
  {
    if |ph[p]| == 1 {
      TotalSplit(ph, p);
      TotalConcat(ph[..p], ph[p + 1..]);
    } else {
      TotalUpdate(ph, p, Drop(ph[p], i));
    }
  }

  // ---------------------------------------------------------------- collecting the new tasks

  lemma RemovedApart<T>(ph: seq<seq<T>>, p: nat, i: nat, adding: seq<T>)
    requires Ok(ph) && Apart(ph, adding) && p < |ph| && i < |ph[p]|
    ensures Apart(RemoveAt(ph, p, i), adding + [ph[p][i]]) && Apart(RemoveAt(ph, p, i), [ph[p][i]] + adding)
  {
    var r, x := RemoveAt(ph, p, i), ph[p][i];
    assert forall j :: 0 <= j < |adding| ==> x != adding[j];
    forall q, j | 0 <= q < |r| && 0 <= j < |r[q]| ensures r[q][j] != x && forall k :: 0 <= k < |adding| ==> r[q][j] != adding[k] {
      var a, b := RemovedFrom(ph, p, i, q, j);
    }
  }

  lemma PutOk<T>(g: Gathered<T>, x: T)
    requires Ok(g.phases) && Apart(g.phases, g.adding) && In(g.phases, x)
    ensures Ok(Put(g, x).phases) && Apart(Put(g, x).phases, Put(g, x).adding)
    ensures Total(Put(g, x).phases) == Total(g.phases) - 1
    ensures forall y :: y in Put(g, x).adding <==> y in g.adding || y == x
  {
    hide Ok, Apart, In, Total, RemoveAt;
    var ph, p := g.phases, PhaseOf(g.phases, x);
    var i := IndexOf(ph[p], x);
    RemovedOk(ph, p, i);
    RemovedTotal(ph, p, i);
    RemovedApart(ph, p, i, g.adding);
  }

  lemma PutSize<T>(g: Gathered<T>, x: T)
    requires In(g.phases, x)
    ensures |Put(g, x).adding| == |g.adding| + 1
  {
  }

  lemma PutIn<T>(g: Gathered<T>, x: T, y: T)
    requires Ok(g.phases) && In(g.phases, x)
    ensures In(Put(g, x).phases, y) <==> In(g.phases, y) && y != x
  {
    RemovedIn(g.phases, PhaseOf(g.phases, x), IndexOf(g.phases[PhaseOf(g.phases, x)], x), y);
  }

  /** The phase of a task that stays, after the removal of another one. */
  lemma PutPhase<T>(g: Gathered<T>, x: T, y: T)
    requires Ok(g.phases) && In(g.phases, x) && In(g.phases, y) && y != x
    ensures In(Put(g, x).phases, y)
    ensures PhaseOf(Put(g, x).phases, y) ==
              PhaseOf(g.phases, y) - if |g.phases[PhaseOf(g.phases, x)]| == 1 && PhaseOf(g.phases, y) > PhaseOf(g.phases, x) then 1 else 0
    ensures IsMain(g.phases, y) ==> IsMain(Put(g, x).phases, y)
  {
    hide Ok;
    var ph, r := g.phases, Put(g, x).phases;
    var p, a := PhaseOf(ph, x), PhaseOf(ph, y);
    var i, b := IndexOf(ph[p], x), IndexOf(ph[a], y);
    RemovedOk(ph, p, i);
    var q := if |ph[p]| == 1 && a > p then a - 1 else a;
    var j := if |ph[p]| > 1 && a == p && b > i then b - 1 else b;
    assert r[q][j] == y;
    PhaseIs(r, q, j);
    if IsMain(ph, y) {
      var c :| 0 <= c < |ph| && |ph[c]| > 0 && ph[c][0] == y;
      PhaseIs(ph, c, 0);
      assert b == 0 && j == 0;
    }
  }

  lemma {:induction false} GatherOk<T>(g: Gathered<T>, news: seq<T>)
    requires Ok(g.phases) && Apart(g.phases, g.adding) && Distinct(news)
    requires forall x :: x in news ==> In(g.phases, x)
    ensures CanGather(g, news)
    ensures Ok(Gather(g, news).phases) && Apart(Gather(g, news).phases, Gather(g, news).adding)
    ensures Total(Gather(g, news).phases) == Total(g.phases) - |news|
    ensures |Gather(g, news).adding| == |g.adding| + |news|
    ensures forall y :: y in Gather(g, news).adding <==> y in g.adding || y in news
    decreases |news|
  {
    hide Ok, Apart, Put, In, Total;
    if news != [] {
      PutOk(g, news[0]);
      PutSize(g, news[0]);
      forall x | x in news[1..] ensures In(Put(g, news[0]).phases, x) {
        PutIn(g, news[0], x);
      }
      GatherOk(Put(g, news[0]), news[1..]);
      assert news == [news[0]] + news[1..];
    }
  }

  lemma {:induction false} GatherIn<T>(g: Gathered<T>, news: seq<T>, y: T)
    requires Ok(g.phases) && Apart(g.phases, g.adding) && CanGather(g, news)
    ensures In(Gather(g, news).phases, y) <==> In(g.phases, y) && y !in news
    decreases |news|
  {
    hide Ok, Apart, Put, In;
    if news != [] {
      PutOk(g, news[0]);
      PutIn(g, news[0], y);
      GatherIn(Put(g, news[0]), news[1..], y);
      assert news == [news[0]] + news[1..];
    }
  }

  /** The tasks that are not collected stay in the order of their phases, and a main task stays one. */
  lemma {:induction false} GatherOrder<T>(g: Gathered<T>, news: seq<T>, x: T, y: T)
    requires Ok(g.phases) && Apart(g.phases, g.adding) && CanGather(g, news)
    requires In(g.phases, x) && In(g.phases, y) && x !in news && y !in news
    ensures In(Gather(g, news).phases, x) && In(Gather(g, news).phases, y)
    ensures PhaseOf(Gather(g, news).phases, x) < PhaseOf(Gather(g, news).phases, y) <==> PhaseOf(g.phases, x) < PhaseOf(g.phases, y)
    ensures IsMain(g.phases, x) ==> IsMain(Gather(g, news).phases, x)
    decreases |news|
  {
    hide Ok, Apart, In;
    if news != [] {
      PutOk(g, news[0]);
      PutPhase(g, news[0], x);
      PutPhase(g, news[0], y);
      if PhaseOf(g.phases, x) != PhaseOf(g.phases, y) && |g.phases[PhaseOf(g.phases, news[0])]| == 1 {
        OnlyTask(g.phases, news[0], x);
        OnlyTask(g.phases, news[0], y);
      }
      GatherOrder(Put(g, news[0]), news[1..], x, y);
    }
  }

  lemma OnlyTask<T>(ph: seq<seq<T>>, x: T, y: T)
    requires In(ph, x) && In(ph, y) && x != y && |ph[PhaseOf(ph, x)]| == 1
    ensures PhaseOf(ph, x) != PhaseOf(ph, y)
  {
  }

  // ---------------------------------------------------------------- adding them to a phase

  lemma ExtendOk<T>(ph: seq<seq<T>>, k: nat, i: nat, adding: seq<T>)
    requires Ok(ph) && Apart(ph, adding) && k < |ph| && i <= |ph[k]|
    ensures Ok(Extend(ph, k, i, adding))
  {
    var r, n := Extend(ph, k, i, adding), |adding|;
    forall p, a, q, b | 0 <= p < |r| && 0 <= a < |r[p]| && 0 <= q < |r| && 0 <= b < |r[q]| && r[p][a] == r[q][b]
      ensures p == q && a == b
    {
      if p == k && i <= a < i + n {
        assert r[p][a] == adding[a - i];
      } else {
        assert r[p][a] == ph[p][if p == k && a >= i + n then a - n else a];
      }
      if q == k && i <= b < i + n {
        assert r[q][b] == adding[b - i];
      } else {
        assert r[q][b] == ph[q][if q == k && b >= i + n then b - n else b];
      }
    }
  }

  lemma SpreadAt<T>(ph: seq<seq<T>>, k: nat, adding: seq<T>, p: nat)
    requires k <= |ph|
    ensures |Spread(ph, k, adding)| == |ph| + |adding|
    ensures p < |ph| + |adding| ==>
              Spread(ph, k, adding)[p] == if p < k then ph[p] else if p < k + |adding| then [adding[p - k]] else ph[p - |adding|]
  {
  }

  lemma SpreadOk<T>(ph: seq<seq<T>>, k: nat, adding: seq<T>)
    requires Ok(ph) && Apart(ph, adding) && k <= |ph|
    ensures Ok(Spread(ph, k, adding))
  {
    hide Spread;
    var r, n := Spread(ph, k, adding), |adding|;
    SpreadAt(ph, k, adding, 0);
    forall p | 0 <= p < |r| ensures |r[p]| > 0 { SpreadAt(ph, k, adding, p); }
    forall p, a, q, b | 0 <= p < |r| && 0 <= a < |r[p]| && 0 <= q < |r| && 0 <= b < |r[q]| && r[p][a] == r[q][b]
      ensures p == q && a == b
    {
      SpreadAt(ph, k, adding, p);
      SpreadAt(ph, k, adding, q);
    }
  }

  /** Where everything is afterwards. */
  lemma ExtendOld<T>(ph: seq<seq<T>>, k: nat, i: nat, adding: seq<T>, x: T)
    requires Ok(ph) && Apart(ph, adding) && k < |ph| && i <= |ph[k]| && In(ph, x)
    ensures In(Extend(ph, k, i, adding), x) && PhaseOf(Extend(ph, k, i, adding), x) == PhaseOf(ph, x)
  {
    hide Ok, Apart;
    ExtendOk(ph, k, i, adding);
    var r, p := Extend(ph, k, i, adding), PhaseOf(ph, x);
    var a := IndexOf(ph[p], x);
    var b := if p == k && a >= i then a + |adding| else a;
    assert r[p][b] == x;
    PhaseIs(r, p, b);
  }

  lemma ExtendNew<T>(ph: seq<seq<T>>, k: nat, i: nat, adding: seq<T>, c: nat)
    requires Ok(ph) && Apart(ph, adding) && k < |ph| && i <= |ph[k]| && c < |adding|
    ensures In(Extend(ph, k, i, adding), adding[c]) && PhaseOf(Extend(ph, k, i, adding), adding[c]) == k
  {
    hide Ok, Apart, In, PhaseOf, IndexOf;
    ExtendOk(ph, k, i, adding);
    assert Extend(ph, k, i, adding)[k][i + c] == adding[c];
    PhaseIs(Extend(ph, k, i, adding), k, i + c);
  }

  lemma ExtendIn<T>(ph: seq<seq<T>>, k: nat, i: nat, adding: seq<T>, x: T)
    requires Ok(ph) && Apart(ph, adding) && k < |ph| && i <= |ph[k]|
    ensures In(Extend(ph, k, i, adding), x) <==> In(ph, x) || x in adding
  {
    hide Ok, Apart;
    var r, n := Extend(ph, k, i, adding), |adding|;
    if In(r, x) {
      var p := PhaseOf(r, x);
      var a := IndexOf(r[p], x);
      if p == k && i <= a < i + n {
        assert x == adding[a - i];
      } else {
        assert x == ph[p][if p == k && a >= i + n then a - n else a];
        assert x in ph[p];
      }
    }
    if In(ph, x) { ExtendOld(ph, k, i, adding, x); }
    if x in adding { ExtendNew(ph, k, i, adding, IndexOf(adding, x)); }
  }

  lemma SpreadOld<T>(ph: seq<seq<T>>, k: nat, adding: seq<T>, x: T)
    requires Ok(ph) && Apart(ph, adding) && k <= |ph| && In(ph, x)
    ensures In(Spread(ph, k, adding), x)
    ensures PhaseOf(Spread(ph, k, adding), x) == PhaseOf(ph, x) + if PhaseOf(ph, x) < k then 0 else |adding|
  {
    hide Ok, Apart, Spread, Singles;
    SpreadOk(ph, k, adding);
    var p := PhaseOf(ph, x);
    var q := if p < k then p else p + |adding|;
    SpreadAt(ph, k, adding, q);
    PhaseIs(Spread(ph, k, adding), q, IndexOf(ph[p], x));
  }

  lemma SpreadNew<T>(ph: seq<seq<T>>, k: nat, adding: seq<T>, c: nat)
    requires Ok(ph) && Apart(ph, adding) && k <= |ph| && c < |adding|
    ensures In(Spread(ph, k, adding), adding[c])
    ensures PhaseOf(Spread(ph, k, adding), adding[c]) == k + c
  {
    hide *;
    SpreadOk(ph, k, adding);
    SpreadAt(ph, k, adding, k + c);
    PhaseIs(Spread(ph, k, adding), k + c, 0);
  }

  lemma SpreadIn<T>(ph: seq<seq<T>>, k: nat, adding: seq<T>, x: T)
    requires Ok(ph) && Apart(ph, adding) && k <= |ph|
    ensures In(Spread(ph, k, adding), x) <==> In(ph, x) || x in adding
  {
    hide Ok, Apart, Spread, Singles;
    SpreadAt(ph, k, adding, 0);
    if In(Spread(ph, k, adding), x) {
      var p := PhaseOf(Spread(ph, k, adding), x);
      SpreadAt(ph, k, adding, p);
    }
    if In(ph, x) { SpreadOld(ph, k, adding, x); }
    if x in adding { SpreadNew(ph, k, adding, IndexOf(adding, x)); }
  }

  lemma {:induction false} SinglesTotal<T>(s: seq<T>)
    ensures Total(Singles(s)) == |s|
  {
    if s != [] {
      assert Singles(s)[1..] == Singles(s[1..]);
      SinglesTotal(s[1..]);
    }
  }

  lemma AddedTotal<T>(ph: seq<seq<T>>, k: nat, i: nat, adding: seq<T>)
    requires k <= |ph|
    ensures Total(Spread(ph, k, adding)) == Total(ph) + |adding|
    ensures k < |ph| && i <= |ph[k]| ==> Total(Extend(ph, k, i, adding)) == Total(ph) + |adding|
  {
    SinglesTotal(adding);
    TotalConcat(ph[..k] + Singles(adding), ph[k..]);
    TotalConcat(ph[..k], Singles(adding));
    TotalConcat(ph[..k], ph[k..]);
    assert ph[..k] + ph[k..] == ph;
    if k < |ph| && i <= |ph[k]| {
      TotalUpdate(ph, k, ph[k][..i] + adding + ph[k][i..]);
    }
  }

  // ---------------------------------------------------------------- what stays as it was

  function Filter<T(==)>(s: seq<T>, some: set<T>): seq<T> {
    if s == [] then [] else (if s[0] in some then [s[0]] else []) + Filter(s[1..], some)
  }

  /** The phases as the tasks of `some` see them: the other tasks, and phases without any of them,
      left out. */
  function Keep<T(==)>(ph: seq<seq<T>>, some: set<T>): seq<seq<T>> {
    if ph == [] then []
    else (if Filter(ph[0], some) == [] then [] else [Filter(ph[0], some)]) + Keep(ph[1..], some)
  }

  lemma {:induction false} FilterConcat<T>(a: seq<T>, b: seq<T>, some: set<T>)
    ensures Filter(a + b, some) == Filter(a, some) + Filter(b, some)
  {
    if a == [] {
      assert a + b == b;
    } else {
      var first := if a[0] in some then [a[0]] else [];
      FilterConcat(a[1..], b, some);
      assert (a + b)[0] == a[0] && (a + b)[1..] == a[1..] + b;
      assert first + (Filter(a[1..], some) + Filter(b, some)) == first + Filter(a[1..], some) + Filter(b, some);
    }
  }

  lemma {:induction false} FilterNone<T>(s: seq<T>, some: set<T>)
    requires forall x :: x in s ==> x !in some
    ensures Filter(s, some) == []
  {
    if s != [] { FilterNone(s[1..], some); }
  }

  lemma {:induction false} KeepConcat<T>(a: seq<seq<T>>, b: seq<seq<T>>, some: set<T>)
    ensures Keep(a + b, some) == Keep(a, some) + Keep(b, some)
  {
    if a == [] {
      assert a + b == b;
    } else {
      assert (a + b)[1..] == a[1..] + b;
      KeepConcat(a[1..], b, some);
    }
  }

  lemma KeepAround<T>(a: seq<seq<T>>, s: seq<T>, b: seq<seq<T>>, some: set<T>)
    ensures Keep(a + [s] + b, some) == Keep(a, some) + (if Filter(s, some) == [] then [] else [Filter(s, some)]) + Keep(b, some)
  {
    KeepConcat(a + [s], b, some);
    KeepConcat(a, [s], some);
    assert [s][1..] == [];
  }

  /** Replacing one phase by another that looks the same to `some`. */
  lemma KeepUpdate<T>(ph: seq<seq<T>>, p: nat, s: seq<T>, some: set<T>)
    requires p < |ph| && Filter(s, some) == Filter(ph[p], some)
    ensures Keep(ph[p := s], some) == Keep(ph, some)
  {
    hide Filter, Keep;
    var r := ph[p := s];
    assert ph[..p] + [ph[p]] + ph[p + 1..] == ph;
    assert ph[..p] + [s] + ph[p + 1..] == r;
    KeepAround(ph[..p], ph[p], ph[p + 1..], some);
    KeepAround(ph[..p], s, ph[p + 1..], some);
  }

  lemma KeepRemoved<T>(ph: seq<seq<T>>, p: nat, i: nat, some: set<T>)
    requires p < |ph| && i < |ph[p]| && ph[p][i] !in some
    ensures Keep(RemoveAt(ph, p, i), some) == Keep(ph, some)
  {
    if |ph[p]| == 1 {
      FilterNone(ph[p], some);
      assert ph == ph[..p] + [ph[p]] + ph[p + 1..];
      KeepAround(ph[..p], ph[p], ph[p + 1..], some);
      KeepConcat(ph[..p], ph[p + 1..], some);
    } else {
      var s := ph[p];
      assert s == s[..i] + ([s[i]] + s[i + 1..]);
      FilterConcat(s[..i], [s[i]] + s[i + 1..], some);
      FilterConcat(s[..i], s[i + 1..], some);
      assert ([s[i]] + s[i + 1..])[1..] == s[i + 1..];
      KeepUpdate(ph, p, Drop(s, i), some);
    }
  }

  lemma KeepExtended<T>(ph: seq<seq<T>>, k: nat, i: nat, adding: seq<T>, some: set<T>)
    requires k < |ph| && i <= |ph[k]| && forall x :: x in adding ==> x !in some
    ensures Keep(Extend(ph, k, i, adding), some) == Keep(ph, some)
  {
    var s := ph[k];
    FilterNone(adding, some);
    FilterConcat(s[..i] + adding, s[i..], some);
    FilterConcat(s[..i], adding, some);
    FilterConcat(s[..i], s[i..], some);
    assert s[..i] + s[i..] == s;
    KeepUpdate(ph, k, s[..i] + adding + s[i..], some);
  }

  lemma {:induction false} KeepSingles<T>(adding: seq<T>, some: set<T>)
    requires forall x :: x in adding ==> x !in some
    ensures Keep(Singles(adding), some) == []
  {
    if adding != [] {
      assert Singles(adding)[1..] == Singles(adding[1..]);
      FilterNone([adding[0]], some);
      KeepSingles(adding[1..], some);
    }
  }

  lemma KeepSpread<T>(ph: seq<seq<T>>, k: nat, adding: seq<T>, some: set<T>)
    requires k <= |ph| && forall x :: x in adding ==> x !in some
    ensures Keep(Spread(ph, k, adding), some) == Keep(ph, some)
  {
    KeepSingles(adding, some);
    KeepConcat(ph[..k] + Singles(adding), ph[k..], some);
    KeepConcat(ph[..k], Singles(adding), some);
    KeepConcat(ph[..k], ph[k..], some);
    assert ph[..k] + ph[k..] == ph;
  }

  lemma KeepAfter<T>(ph: seq<seq<T>>, main: T, adding: seq<T>, some: set<T>)
    requires In(ph, main) && (forall p :: 0 <= p < |ph| ==> ph[p] != []) && forall x :: x in adding ==> x !in some
    ensures Keep(After(ph, main, adding), some) == Keep(ph, some)
  {
    hide Keep, Spread, Extend;
    var k := PhaseOf(ph, main) + 1;
    if k == |ph| { KeepSpread(ph, k, adding, some); } else { KeepExtended(ph, k, 1, adding, some); }
  }

  lemma KeepBefore<T>(ph: seq<seq<T>>, main: T, adding: seq<T>, some: set<T>)
    requires In(ph, main) && forall x :: x in adding ==> x !in some
    ensures Keep(Before(ph, main, adding), some) == Keep(ph, some)
  {
    hide Keep, Spread, Extend;
    var k := PhaseOf(ph, main);
    if k == 0 { KeepSpread(ph, 0, adding, some); } else { KeepExtended(ph, k - 1, |ph[k - 1]|, adding, some); }
  }

  lemma {:induction false} KeepGathered<T>(g: Gathered<T>, news: seq<T>, some: set<T>)
    requires CanGather(g, news) && forall x :: x in news ==> x !in some
    ensures Keep(Gather(g, news).phases, some) == Keep(g.phases, some)
    decreases |news|
  {
    if news != [] {
      var p := PhaseOf(g.phases, news[0]);
      KeepRemoved(g.phases, p, IndexOf(g.phases[p], news[0]), some);
      KeepGathered(Put(g, news[0]), news[1..], some);
    }
  }

  // ---------------------------------------------------------------- succeed and precede

  function Collect<T(==)>(ph: seq<seq<T>>, task: T, news: seq<T>): (g: Gathered<T>)
    requires Movable(ph, task, news)
    ensures Ok(g.phases) && Apart(g.phases, g.adding) && In(g.phases, MainOf(ph, task)) && |g.adding| == |news|
  {
    GatherOk(Gathered(ph, []), news);
    PhaseIs(ph, PhaseOf(ph, task), 0);
    GatherIn(Gathered(ph, []), news, MainOf(ph, task));
    Gather(Gathered(ph, []), news)
  }

  /** `__mthpc_taskflow_succeed` */
  function Succeed<T(==)>(ph: seq<seq<T>>, task: T, news: seq<T>): seq<seq<T>>
    requires Movable(ph, task, news)
  {
    if news == [] then ph
    else After(Collect(ph, task, news).phases, MainOf(ph, task), Collect(ph, task, news).adding)
  }

  /** `__mthpc_taskflow_precede` */
  function Precede<T(==)>(ph: seq<seq<T>>, task: T, news: seq<T>): seq<seq<T>>
    requires Movable(ph, task, news)
  {
    if news == [] then ph
    else Before(Collect(ph, task, news).phases, MainOf(ph, task), Collect(ph, task, news).adding)
  }

  /** The other tasks keep their order and their grouping into phases. */
  lemma OthersStay<T>(ph: seq<seq<T>>, task: T, news: seq<T>, others: set<T>)
    requires Movable(ph, task, news) && forall x :: x in news ==> x !in others
    ensures Keep(Succeed(ph, task, news), others) == Keep(ph, others)
    ensures Keep(Precede(ph, task, news), others) == Keep(ph, others)
  {
    hide Ok, Keep, Gather, After, Before, In;
    if news != [] {
      var g, m := Collect(ph, task, news), MainOf(ph, task);
      GatherOk(Gathered(ph, []), news);
      KeepGathered(Gathered(ph, []), news, others);
      PhaseIs(ph, PhaseOf(ph, task), 0);
      OkFull(g.phases);
      KeepAfter(g.phases, m, g.adding, others);
      KeepBefore(g.phases, m, g.adding, others);
    }
  }

  lemma OkFull<T>(ph: seq<seq<T>>)
    requires Ok(ph)
    ensures forall p :: 0 <= p < |ph| ==> ph[p] != []
  {
  }

  /** Some task of a later phase stays where it is. */
  ghost predicate StaysLater<T>(ph: seq<seq<T>>, task: T, news: seq<T>)
    requires In(ph, task)
  {
    exists p, i :: PhaseOf(ph, task) < p < |ph| && 0 <= i < |ph[p]| && ph[p][i] !in news
  }

  ghost predicate StaysEarlier<T>(ph: seq<seq<T>>, task: T, news: seq<T>)
    requires In(ph, task)
  {
    exists p, i :: 0 <= p < PhaseOf(ph, task) && 0 <= i < |ph[p]| && ph[p][i] !in news
  }

  /** The branch in which `task`'s phase has become the last (or first) one. */
  lemma CollectedAt<T>(ph: seq<seq<T>>, task: T, news: seq<T>)
    requires Movable(ph, task, news)
    ensures In(Collect(ph, task, news).phases, task)
    ensures PhaseOf(Collect(ph, task, news).phases, task) == PhaseOf(Collect(ph, task, news).phases, MainOf(ph, task))
    ensures forall x :: In(Collect(ph, task, news).phases, x) <==> In(ph, x) && x !in news
    ensures PhaseOf(Collect(ph, task, news).phases, task) + 1 < |Collect(ph, task, news).phases| <==> StaysLater(ph, task, news)
    ensures PhaseOf(Collect(ph, task, news).phases, task) > 0 <==> StaysEarlier(ph, task, news)
  {
    var g0 := Gathered(ph, []);
    var g, m := Collect(ph, task, news), MainOf(ph, task);
    GatherOk(g0, news);
    forall x ensures In(g.phases, x) <==> In(ph, x) && x !in news { GatherIn(g0, news, x); }
    PhaseIs(ph, PhaseOf(ph, task), 0);
    hide Ok, Apart, Gather, CanGather, Collect, MainOf, In;
    GatherOrder(g0, news, m, task);
    GatherOrder(g0, news, task, m);
    var k := PhaseOf(g.phases, task);
    forall x | In(g.phases, x)
      ensures (PhaseOf(ph, task) < PhaseOf(ph, x) <==> k < PhaseOf(g.phases, x))
           && (PhaseOf(ph, x) < PhaseOf(ph, task) <==> PhaseOf(g.phases, x) < k)
    {
      GatherOrder(g0, news, task, x);
      GatherOrder(g0, news, x, task);
    }
    LaterIff(ph, g.phases, task, news);
  }

  lemma Stays<T>(ph: seq<seq<T>>, task: T, news: seq<T>, x: T)
    requires In(ph, task) && In(ph, x) && x !in news
    ensures PhaseOf(ph, task) < PhaseOf(ph, x) ==> StaysLater(ph, task, news)
    ensures PhaseOf(ph, x) < PhaseOf(ph, task) ==> StaysEarlier(ph, task, news)
  {
    assert ph[PhaseOf(ph, x)][IndexOf(ph[PhaseOf(ph, x)], x)] !in news;
  }

  lemma LaterIff<T>(ph: seq<seq<T>>, r: seq<seq<T>>, task: T, news: seq<T>)
    requires Ok(ph) && Ok(r) && In(ph, task) && In(r, task)
    requires forall x :: In(r, x) <==> In(ph, x) && x !in news
    requires forall x :: In(r, x) ==>
               && (PhaseOf(ph, task) < PhaseOf(ph, x) <==> PhaseOf(r, task) < PhaseOf(r, x))
               && (PhaseOf(ph, x) < PhaseOf(ph, task) <==> PhaseOf(r, x) < PhaseOf(r, task))
    ensures PhaseOf(r, task) + 1 < |r| <==> StaysLater(ph, task, news)
    ensures PhaseOf(r, task) > 0 <==> StaysEarlier(ph, task, news)
  {
    hide Ok, In;
    var k := PhaseOf(r, task);
    OkFull(r);
    if k + 1 < |r| {
      PhaseIs(r, k + 1, 0);
      Stays(ph, task, news, r[k + 1][0]);
    }
    if k > 0 {
      PhaseIs(r, k - 1, 0);
      Stays(ph, task, news, r[k - 1][0]);
    }
    if StaysLater(ph, task, news) {
      var p, i :| PhaseOf(ph, task) < p < |ph| && 0 <= i < |ph[p]| && ph[p][i] !in news;
      PhaseIs(ph, p, i);
      assert In(r, ph[p][i]);
    }
    if StaysEarlier(ph, task, news) {
      var p, i :| 0 <= p < PhaseOf(ph, task) && 0 <= i < |ph[p]| && ph[p][i] !in news;
      PhaseIs(ph, p, i);
      assert In(r, ph[p][i]);
    }
  }

  /** New phases at `k`, or one phase extended: where the added tasks and the old ones are. */
  lemma SpreadAll<T>(ph: seq<seq<T>>, k: nat, adding: seq<T>, task: T)
    requires Ok(ph) && Apart(ph, adding) && k <= |ph| && In(ph, task)
    ensures var r := Spread(ph, k, adding);
            && Ok(r) && Total(r) == Total(ph) + |adding|
            && (forall x :: In(r, x) <==> In(ph, x) || x in adding)
            && PhaseOf(r, task) == PhaseOf(ph, task) + (if PhaseOf(ph, task) < k then 0 else |adding|)
            && (forall c :: 0 <= c < |adding| ==> PhaseOf(r, adding[c]) == k + c)
  {
    hide *;
    var r := Spread(ph, k, adding);
    AddedTotal(ph, k, 0, adding);
    SpreadOk(ph, k, adding);
    SpreadOld(ph, k, adding, task);
    forall x ensures In(r, x) <==> In(ph, x) || x in adding { SpreadIn(ph, k, adding, x); }
    forall c: nat | c < |adding| ensures PhaseOf(r, adding[c]) == k + c { SpreadNew(ph, k, adding, c); }
  }

  lemma ExtendAll<T>(ph: seq<seq<T>>, k: nat, i: nat, adding: seq<T>, task: T)
    requires Ok(ph) && Apart(ph, adding) && k < |ph| && i <= |ph[k]| && In(ph, task)
    ensures var r := Extend(ph, k, i, adding);
            && Ok(r) && Total(r) == Total(ph) + |adding|
            && (forall x :: In(r, x) <==> In(ph, x) || x in adding)
            && PhaseOf(r, task) == PhaseOf(ph, task)
            && (forall c :: 0 <= c < |adding| ==> PhaseOf(r, adding[c]) == k)
  {
    hide *;
    var r := Extend(ph, k, i, adding);
    AddedTotal(ph, k, i, adding);
    ExtendOk(ph, k, i, adding);
    ExtendOld(ph, k, i, adding, task);
    forall x ensures In(r, x) <==> In(ph, x) || x in adding { ExtendIn(ph, k, i, adding, x); }
    forall c: nat | c < |adding| ensures PhaseOf(r, adding[c]) == k { ExtendNew(ph, k, i, adding, c); }
  }

  /** Two collected tasks, one phase after another, cannot both be in the wanted phase. */
  lemma AllAtOnce<T>(r: seq<seq<T>>, adding: seq<T>, news: seq<T>, at: int)
    requires |adding| == |news| > 0 && (forall x :: x in adding <==> x in news) && (forall x :: x in news ==> In(r, x))
    requires forall c :: 0 <= c < |adding| ==> PhaseOf(r, adding[c]) == at + c
    ensures (forall x :: x in news ==> PhaseOf(r, x) == at) <==> |news| == 1
    ensures (forall x :: x in news ==> PhaseOf(r, x) == at + |news| - 1) <==> |news| == 1
  {
    if |news| > 1 {
      assert adding[0] in news && adding[1] in news;
    }
  }

  lemma Collected<T>(ph: seq<seq<T>>, task: T, news: seq<T>)
    requires Movable(ph, task, news)
    ensures var g := Collect(ph, task, news);
            && Total(g.phases) + |news| == Total(ph)
            && (forall x :: x in g.adding <==> x in news)
            && (forall x :: x in news ==> In(ph, x))
            && (forall p :: 0 <= p < |g.phases| ==> |g.phases[p]| > 0)
  {
    GatherOk(Gathered(ph, []), news);
    hide Gather, CanGather;
  }

  /** The branches of the two operations, on what has been collected. */
  lemma Branches<T>(ph: seq<seq<T>>, task: T, news: seq<T>)
    requires Movable(ph, task, news) && news != [] && In(Collect(ph, task, news).phases, task)
    requires PhaseOf(Collect(ph, task, news).phases, task) == PhaseOf(Collect(ph, task, news).phases, MainOf(ph, task))
    requires forall p :: 0 <= p < |Collect(ph, task, news).phases| ==> |Collect(ph, task, news).phases[p]| > 0
    ensures var g := Collect(ph, task, news);
            var k := PhaseOf(g.phases, task);
            && Succeed(ph, task, news) == (if k + 1 == |g.phases| then Spread(g.phases, k + 1, g.adding) else Extend(g.phases, k + 1, 1, g.adding))
            && Precede(ph, task, news) == (if k == 0 then Spread(g.phases, 0, g.adding) else Extend(g.phases, k - 1, |g.phases[k - 1]|, g.adding))
  {
    hide Movable, Ok, Apart, In, Collect, MainOf, PhaseOf, Spread, Extend;
  }

  /** Where the tasks are after `succeed`. Each new one is exactly one phase after `task` just
      when one task was moved, or some later task stays so that no main task had to be created. */
  lemma SucceedPlaces<T>(ph: seq<seq<T>>, task: T, news: seq<T>)
    requires Movable(ph, task, news) && news != []
    ensures var r := Succeed(ph, task, news);
            && Ok(r) && Total(r) == Total(ph) && In(r, task)
            && (forall x :: In(r, x) <==> In(ph, x))
            && ((forall x :: x in news ==> PhaseOf(r, x) == PhaseOf(r, task) + 1) <==>
                |news| == 1 || StaysLater(ph, task, news))
  {
    hide *;
    CollectedAt(ph, task, news);
    Collected(ph, task, news);
    Branches(ph, task, news);
    var r, g := Succeed(ph, task, news), Collect(ph, task, news);
    var k := PhaseOf(g.phases, task) + 1;
    if k == |g.phases| {
      SpreadAll(g.phases, k, g.adding, task);
      AllAtOnce(r, g.adding, news, k);
    } else {
      ExtendAll(g.phases, k, 1, g.adding, task);
    }
  }

  /** The same for `precede`: exactly one phase before `task`. */
  lemma PrecedePlaces<T>(ph: seq<seq<T>>, task: T, news: seq<T>)
    requires Movable(ph, task, news) && news != []
    ensures var r := Precede(ph, task, news);
            && Ok(r) && Total(r) == Total(ph) && In(r, task)
            && (forall x :: In(r, x) <==> In(ph, x))
            && ((forall x :: x in news ==> PhaseOf(r, x) + 1 == PhaseOf(r, task)) <==>
                |news| == 1 || StaysEarlier(ph, task, news))
  {
    hide *;
    CollectedAt(ph, task, news);
    Collected(ph, task, news);
    Branches(ph, task, news);
    var r, g := Precede(ph, task, news), Collect(ph, task, news);
    var k := PhaseOf(g.phases, task);
    if k == 0 {
      SpreadAll(g.phases, 0, g.adding, task);
      AllAtOnce(r, g.adding, news, 0);
    } else {
      ExtendAll(g.phases, k - 1, |g.phases[k - 1]|, g.adding, task);
    }
  }
}
