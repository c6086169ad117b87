/** The sense-reversing barrier of `src/centralized_barrier/centralized_barrier.c`: any number of
    episodes, one shared access a step; the releasing thread stores `flag` after its unlock. */
module Barrier {
  import opened Seqs

  datatype Pc =
    | Out                 // not in a call
    | Entered             // local sense flipped, waits for b->lock
    | Locked              // next: b->count++
    | Counted             // next: compare b->count with n
    | Releasing           // count reset, next: unlock
    | Joining             // count below n, next: unlock
    | Over                // count above n, next: unlock and warn
    | Storing             // next: b->flag = local sense
    | Spinning            // next: load b->flag and compare
  {
    predicate Holding() { Locked? || Counted? || Releasing? || Joining? || Over? }
  }

  /** `n` is the argument of the running call. History: how many calls the thread has `entered`
      and `left`, and how often it has `counted`. */
  datatype Thread = Thread(pc: Pc, sense: bool, n: nat, entered: nat, counted: nat, left: nat)

  datatype Lock = Free | By(t: nat)

  /** `lock` is `b->lock`. History: `resets` counts the times that `count`
      came back to zero, `stores` the stores to `flag`, `storer` is the thread that made the last reset, `warned`
      counts the warnings printed. */
  datatype State = State(
    threads: seq<Thread>,
    flag: bool,
    count: nat,
    lock: Lock,
    resets: nat,
    stores: nat,
    storer: nat,
    warned: nat)

  datatype Step =
    | Enter(t: nat, n: nat) | Acquire(t: nat) | Count(t: nat) | Compare(t: nat)
    | Unlock(t: nat) | Store(t: nat) | Spin(t: nat)

  predicate Init(s: State) {
    && |s.threads| > 0
    && (forall t :: 0 <= t < |s.threads| ==> s.threads[t] == Thread(Out, s.flag, 0, 0, 0, 0))
    && !s.flag && s.count == 0 && s.lock.Free? && s.resets == 0 && s.stores == 0 && s.warned == 0
  }

  predicate Enabled(s: State, a: Step) {
    a.t < |s.threads| &&
    var p := s.threads[a.t].pc;
    match a
    case Enter(t, n) => p.Out?
    case Acquire(t) => p.Entered? && s.lock.Free?
    case Count(t) => p.Locked?
    case Compare(t) => p.Counted?
    case Unlock(t) => p.Releasing? || p.Joining? || p.Over?
    case Store(t) => p.Storing?
    case Spin(t) => p.Spinning?
  }

  function Next(s: State, a: Step): State
    requires Enabled(s, a)
  {
    var x := s.threads[a.t];
    match a
    case Enter(t, n) =>
      s.(threads := s.threads[t := x.(pc := Entered, sense := !x.sense, n := n, entered := x.entered + 1)])
    case Acquire(t) => s.(threads := s.threads[t := x.(pc := Locked)], lock := By(t))
    case Count(t) =>
      s.(threads := s.threads[t := x.(pc := Counted, counted := x.counted + 1)], count := s.count + 1)
    case Compare(t) =>
      if s.count == x.n then
        s.(threads := s.threads[t := x.(pc := Releasing)], count := 0, resets := s.resets + 1, storer := t)
      else
        s.(threads := s.threads[t := x.(pc := if s.count < x.n then Joining else Over)])
    case Unlock(t) =>
      if x.pc.Over? then
        s.(threads := s.threads[t := x.(pc := Out, left := x.left + 1)], lock := Free, warned := s.warned + 1)
      else
        s.(threads := s.threads[t := x.(pc := if x.pc.Releasing? then Storing else Spinning)], lock := Free)
    case Store(t) =>
      s.(threads := s.threads[t := x.(pc := Out, left := x.left + 1)], flag := x.sense, stores := s.stores + 1)
    case Spin(t) =>
      if s.flag == x.sense then s.(threads := s.threads[t := x.(pc := Out, left := x.left + 1)]) else s
  }

  /** Every caller passes the number of participants. */
  predicate Disciplined(s: State, a: Step) {
    a.Enter? ==> a.n == |s.threads|
  }

  predicate Run(ss: seq<State>, steps: seq<Step>) {
    && |ss| == |steps| + 1
    && forall i :: 0 <= i < |steps| ==>
         Enabled(ss[i], steps[i]) && Disciplined(ss[i], steps[i]) && ss[i + 1] == Next(ss[i], steps[i])
  }

  // ---------------------------------------------------------------- invariant

  /** The threads that have counted in the running episode. */
  function Ahead(s: State): set<nat> {
    set t | 0 <= t < |s.threads| && s.threads[t].counted == s.resets + 1
  }

  predicate Odd(k: nat) { k % 2 == 1 }

  predicate ThreadOk(s: State, t: nat)
    requires t < |s.threads|
  {
    var x := s.threads[t];
    && (x.pc.Holding() <==> s.lock == By(t))
    && x.entered == x.left + (if x.pc.Out? then 0 else 1)
    && x.counted == (if x.pc.Entered? || x.pc.Locked? then x.left else x.entered)
    && x.sense == Odd(x.entered)
    && (!x.pc.Out? ==> x.n == |s.threads|)
    && !x.pc.Over?
    && x.left <= s.stores
    && s.resets <= x.counted <= s.resets + 1
    && (x.pc.Releasing? || x.pc.Storing? <==> s.stores + 1 == s.resets && s.storer == t)
    && (x.pc.Counted? ==> x.counted == s.resets + 1)
  }

  predicate Inv(s: State) {
    && |s.threads| > 0
    && s.flag == Odd(s.stores)
    && s.stores <= s.resets <= s.stores + 1
    && s.warned == 0
    && s.count == |Ahead(s)|
    && (s.lock.By? ==> s.lock.t < |s.threads|)
    && (s.count == |s.threads| ==> s.lock.By? && s.lock.t < |s.threads| && s.threads[s.lock.t].pc.Counted?)
    && (forall t :: 0 <= t < |s.threads| ==> ThreadOk(s, t))
    && (s.resets == s.stores + 1 ==> s.storer < |s.threads|)
  }

  lemma InitInv(s: State)
    requires Init(s)
    ensures Inv(s)
  {
    assert Ahead(s) == {};
  }

  function Range(n: nat): (r: set<nat>)
    ensures |r| == n && forall t: nat :: t in r <==> t < n
  {
    if n == 0 then {} else var r := Range(n - 1); assert n - 1 !in r; r + {n - 1}
  }

  /** At most all participants have counted; if their number has, each of them has. */
  lemma AheadBound(s: State)
    ensures |Ahead(s)| <= |s.threads|
    ensures |Ahead(s)| == |s.threads| ==> forall t :: 0 <= t < |s.threads| ==> s.threads[t].counted == s.resets + 1
  {
    SubsetSize(Ahead(s), Range(|s.threads|));
    if |Ahead(s)| == |s.threads| {
      forall t | 0 <= t < |s.threads| ensures s.threads[t].counted == s.resets + 1 {
        assert t in Range(|s.threads|);
      }
    }
  }

  /** The part of the invariant that is about the other threads. */
  lemma Others(s: State, s': State, t: nat)
    requires Inv(s) && t < |s.threads| == |s'.threads|
    requires forall u :: 0 <= u < |s.threads| && u != t ==> s'.threads[u] == s.threads[u]
    requires s'.resets == s.resets
    requires s'.stores == s.stores || (s'.stores == s.stores + 1 == s.resets && s.storer == t)
    requires s'.storer == s.storer
    requires s'.lock == s.lock || (s.lock in {Free, By(t)} && s'.lock in {Free, By(t)})
    requires ThreadOk(s', t)
    ensures forall u :: 0 <= u < |s'.threads| ==> ThreadOk(s', u)
  {
    forall u | 0 <= u < |s'.threads| ensures ThreadOk(s', u) {
      assert ThreadOk(s, u);
    }
  }

  lemma SimpleInv(s: State, a: Step)
    requires Inv(s) && Enabled(s, a) && Disciplined(s, a)
    requires a.Enter? || a.Acquire? || a.Unlock? || a.Spin?
    ensures Inv(Next(s, a))
  {
    var s' := Next(s, a);
    assert ThreadOk(s, a.t);
    assert Ahead(s') == Ahead(s);
    Others(s, s', a.t);
  }

  lemma CountInv(s: State, a: Step)
    requires Inv(s) && Enabled(s, a) && a.Count?
    ensures Inv(Next(s, a))
  {
    var s' := Next(s, a);
    assert ThreadOk(s, a.t);
    assert Ahead(s') == Ahead(s) + {a.t};
    AheadBound(s);
    Others(s, s', a.t);
  }

  lemma CompareInv(s: State, a: Step)
    requires Inv(s) && Enabled(s, a) && a.Compare?
    ensures Inv(Next(s, a))
  {
    var s' := Next(s, a);
    assert ThreadOk(s, a.t);
    AheadBound(s);
    if s.count == |s.threads| {
      forall u | 0 <= u < |s'.threads| ensures ThreadOk(s', u) {
        assert ThreadOk(s, u);
      }
      assert Ahead(s') == {};
    } else {
      assert Ahead(s') == Ahead(s);
      Others(s, s', a.t);
    }
  }

  lemma StoreInv(s: State, a: Step)
    requires Inv(s) && Enabled(s, a) && a.Store?
    ensures Inv(Next(s, a))
  {
    var s' := Next(s, a);
    assert ThreadOk(s, a.t);
    assert Ahead(s') == Ahead(s);
    Others(s, s', a.t);
  }

  lemma NextInv(s: State, a: Step)
    requires Inv(s) && Enabled(s, a) && Disciplined(s, a)
    ensures Inv(Next(s, a)) && |Next(s, a).threads| == |s.threads|
  {
    match a
    case Count(_) => CountInv(s, a);
    case Compare(_) => CompareInv(s, a);
    case Store(_) => StoreInv(s, a);
    case _ => SimpleInv(s, a);
  }

  lemma {:induction false} RunInv(ss: seq<State>, steps: seq<Step>, i: nat)
    requires |ss| > 0 && Init(ss[0]) && Run(ss, steps) && i < |ss|
    ensures Inv(ss[i]) && |ss[i].threads| == |ss[0].threads|
  {
    hide Init, Inv, Enabled;
    if i == 0 {
      InitInv(ss[0]);
    } else {
      RunInv(ss, steps, i - 1);
      NextInv(ss[i - 1], steps[i - 1]);
    }
  }

  // ---------------------------------------------------------------- what the barrier guarantees

  /** No thread has left its k-th call before all have entered theirs, in every episode. */
  lemma NoEarlyReturn(ss: seq<State>, steps: seq<Step>, i: nat, t: nat, u: nat)
    requires |ss| > 0 && Init(ss[0]) && Run(ss, steps) && i < |ss|
    requires t < |ss[i].threads| && u < |ss[i].threads|
    ensures ss[i].threads[t].left <= ss[i].threads[u].entered
  {
    RunInv(ss, steps, i);
    assert ThreadOk(ss[i], t) && ThreadOk(ss[i], u);
  }

  /** The numbers of completed calls never differ by more than one. */
  lemma CallsInStep(ss: seq<State>, steps: seq<Step>, i: nat, t: nat, u: nat)
    requires |ss| > 0 && Init(ss[0]) && Run(ss, steps) && i < |ss|
    requires t < |ss[i].threads| && u < |ss[i].threads|
    ensures ss[i].threads[t].left <= ss[i].threads[u].left + 1
  {
    RunInv(ss, steps, i);
    assert ThreadOk(ss[i], t) && ThreadOk(ss[i], u);
  }

  /** The counter never exceeds the number of participants and the warning is never printed. */
  lemma CountBounded(ss: seq<State>, steps: seq<Step>, i: nat)
    requires |ss| > 0 && Init(ss[0]) && Run(ss, steps) && i < |ss|
    ensures ss[i].count <= |ss[i].threads| && ss[i].warned == 0
    ensures forall t :: 0 <= t < |ss[i].threads| ==> !ss[i].threads[t].pc.Over?
  {
    RunInv(ss, steps, i);
    AheadBound(ss[i]);
    forall t | 0 <= t < |ss[i].threads| ensures !ss[i].threads[t].pc.Over? {
      assert ThreadOk(ss[i], t);
    }
  }

  // ---------------------------------------------------------------- progress

  /** A step that gets its thread further; only an unsuccessful look at the flag does not. */
  predicate Advances(s: State, a: Step) {
    Enabled(s, a) && (a.Spin? ==> s.flag == s.threads[a.t].sense)
  }

  /** What is left to do for a thread that makes `calls` calls in all. */
  function Rest(x: Thread, calls: nat): int {
    9 * (calls - x.left) - match x.pc
      case Out => 0
      case Entered => 1
      case Locked => 2
      case Counted => 3
      case Releasing => 4
      case Joining => 4
      case Over => 4
      case Storing => 5
      case Spinning => 5
  }

  lemma AdvanceCounts(s: State, a: Step, calls: nat)
    requires Advances(s, a)
    ensures Rest(Next(s, a).threads[a.t], calls) < Rest(s.threads[a.t], calls)
    ensures forall u :: 0 <= u < |s.threads| && u != a.t ==> Next(s, a).threads[u] == s.threads[u]
  {
  }

  lemma {:induction false} SomeOutside(x: set<nat>, n: nat) returns (u: nat)
    requires |x| < n
    ensures u < n && u !in x
  {
    if n - 1 in x {
      u := SomeOutside(x - {n - 1}, n - 1);
    } else {
      u := n - 1;
    }
  }

  /** With the lock free some thread has not counted in the running episode. */
  lemma NotAllAhead(s: State) returns (u: nat)
    requires Inv(s) && s.lock.Free?
    ensures u < |s.threads| && s.threads[u].counted == s.resets
  {
    AheadBound(s);
    u := SomeOutside(Ahead(s), |s.threads|);
    assert ThreadOk(s, u);
  }

  /** As long as not all threads have returned from their `calls`-th call, some thread can
      advance, and without beginning a further call: there is no deadlock in any reachable state. */
  lemma SomeThreadAdvances(s: State, calls: nat) returns (a: Step)
    requires Inv(s) && forall t :: 0 <= t < |s.threads| ==> s.threads[t].entered <= calls
    requires exists t :: 0 <= t < |s.threads| && s.threads[t].left < calls
    ensures Advances(s, a) && Disciplined(s, a)
    ensures a.Enter? ==> s.threads[a.t].entered < calls
  {
    if s.lock.By? {
      var h := s.lock.t;
      assert ThreadOk(s, h);
      var p := s.threads[h].pc;
      a := if p.Locked? then Count(h) else if p.Counted? then Compare(h) else Unlock(h);
    } else if s.resets == s.stores + 1 {
      assert ThreadOk(s, s.storer);
      a := Store(s.storer);
    } else {
      var u := NotAllAhead(s);
      var t: nat :| t < |s.threads| && s.threads[t].left < calls;
      assert ThreadOk(s, u) && ThreadOk(s, t);
      a := if s.threads[u].pc.Entered? then Acquire(u)
           else if s.threads[u].pc.Spinning? then Spin(u)
           else if s.threads[u].left < calls then Enter(u, |s.threads|)
           else Spin(t);
    }
  }

  // ---------------------------------------------------------------- calls with another number

  /** A caller that finds more participants counted than it has named does not wait for anybody: its
      next two steps give up the lock, print the warning and end the call. */
  lemma TooMany(s: State, t: nat)
    requires t < |s.threads| && s.threads[t].pc.Counted? && s.count > s.threads[t].n
    ensures exists ss: seq<State>, steps: seq<Step> :: TwoOf(ss, steps, s, t)
    ensures forall ss: seq<State>, steps: seq<Step> :: TwoOf(ss, steps, s, t) ==>
              && |ss[2].threads| == |s.threads| && ss[2].threads[t].pc.Out? && ss[2].threads[t].left == s.threads[t].left + 1
              && ss[2].lock.Free? && ss[2].warned == s.warned + 1 && ss[2].count == s.count && ss[2].flag == s.flag
  {
    var s1 := Next(s, Compare(t));
    var s2 := Next(s1, Unlock(t));
    assert TwoOf([s, s1, s2], [Compare(t), Unlock(t)], s, t);
    forall ss: seq<State>, steps: seq<Step> | TwoOf(ss, steps, s, t) ensures ss[2] == s2 {
      assert Enabled(ss[0], steps[0]) && ss[1] == Next(ss[0], steps[0]);
      assert steps[0] == Compare(t);
      assert Enabled(ss[1], steps[1]) && ss[2] == Next(ss[1], steps[1]);
      assert steps[1] == Unlock(t);
    }
  }

  /** Two steps in a row, both of thread `t`. */
  predicate TwoOf(ss: seq<State>, steps: seq<Step>, s: State, t: nat) {
    && |ss| == 3 && |steps| == 2 && ss[0] == s
    && forall i :: 0 <= i < 2 ==> steps[i].t == t && Enabled(ss[i], steps[i]) && ss[i + 1] == Next(ss[i], steps[i])
  }
}
