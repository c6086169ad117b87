/** A run of the pool together with the grace-period protocol at whose end a work is in a queue
    that the joiner has taken out: a submitter sleeps between the load and the store of its
    `rcu_read_lock` while another thread synchronizes, and the joiner's call then misses it. */
module WorkMissed {
  import opened RcuWord
  import G = RcuGrace
  import L = RcuLimits
  import P = WorkPool
  import J = WorkJoin
  import opened WorkGrace

  ghost predicate Reach(s: State, t: State) {
    exists ss: seq<State>, steps: seq<Step> :: Leads(ss, steps, s, t)
  }

  predicate Leads(ss: seq<State>, steps: seq<Step>, s: State, t: State) {
    |ss| > 0 && Run(ss, steps) && ss[0] == s && ss[|ss| - 1] == t
  }

  lemma Stay(s: State)
    ensures Reach(s, s)
  {
    assert Leads([s], [], s, s);
  }

  lemma Go(s0: State, s: State, x: Step)
    requires Reach(s0, s) && Enabled(s, x)
    ensures Reach(s0, Next(s, x))
  {
    hide Enabled, Next;
    var ss, steps :| Leads(ss, steps, s0, s);
    assert Leads(ss + [Next(s, x)], steps + [x], s0, Next(s, x));
  }

  /** A run of the pool that neither begins nor ends a section or a grace period. */
  lemma {:induction false} Lift(s0: State, s: State, ps: seq<P.State>, bs: seq<P.Step>)
    requires Reach(s0, s) && P.Run(ps, bs) && ps[0] == s.pool && forall i :: 0 <= i < |bs| ==> J.Plain(bs[i])
    ensures Reach(s0, s.(pool := ps[|ps| - 1]))
    decreases |bs|
  {
    hide P.Enabled, P.Next, Reach;
    var n := |bs|;
    if n == 0 {
      assert s.(pool := ps[0]) == s;
    } else {
      Lift(s0, s, ps[..n], bs[..n - 1]);
      var t := s.(pool := ps[n - 1]);
      assert J.Plain(bs[n - 1]) && ps[..n][|ps[..n]| - 1] == ps[n - 1];
      LiftOne(t, bs[n - 1]);
      Go(s0, t, Pool(bs[n - 1]));
    }
  }

  lemma LiftOne(t: State, b: P.Step)
    requires P.Enabled(t.pool, b) && J.Plain(b)
    ensures Enabled(t, Pool(b)) && Next(t, Pool(b)) == t.(pool := P.Next(t.pool, b))
  {
    hide P.Enabled, P.Next;
  }

  /** The protocol between calls of synchronize: one reader, and two updaters, the first of which is
      the joiner. */
  predicate At(s: State, pc: G.ReaderPc, word: bv64, gp: bv64) {
    && |s.rcu.readers| == 1 && s.rcu.readers[0].pc == pc && s.rcu.readers[0].word == word
    && |s.rcu.updaters| == 2 && s.rcu.updaters[0].pc.Idle? && s.rcu.updaters[1].pc.Idle?
    && s.rcu.registry == [0] && s.rcu.lock == G.Free && s.rcu.gp == gp && s.j == 0 && |s.pool.submitters| == 1
  }

  function Start(): State {
    var idle := G.Updater(G.Idle, 0);
    State(J.Begin(), G.State([G.Reader(G.Absent, 0, 0, 0, 0)], [idle, idle], [], GP_COUNT, G.Free, 0, []), 0)
  }

  lemma StartInit()
    ensures Init(Start())
  {
    J.BeginInit();
  }

  /** The submitter's thread enters the registry. */
  lemma Registers() returns (t: State)
    ensures Reach(Start(), t) && At(t, G.Ready, 0, GP_COUNT) && t.pool == J.Begin()
  {
    var s := Start();
    Stay(s);
    Go(s, s, Rcu(G.R(0, G.AddLock)));
    var s1 := Next(s, Rcu(G.R(0, G.AddLock)));
    Go(s, s1, Rcu(G.R(0, G.AddLink)));
    var s2 := Next(s1, Rcu(G.R(0, G.AddLink)));
    Go(s, s2, Rcu(G.R(0, G.AddUnlock)));
    t := Next(s2, Rcu(G.R(0, G.AddUnlock)));
  }

  /** The first half of an outermost `rcu_read_lock`. */
  lemma Loads(s0: State, s: State, gp: bv64) returns (t: State)
    requires Reach(s0, s) && At(s, G.Ready, 0, gp)
    ensures Reach(s0, t) && At(t, G.LockLoaded(gp), 0, gp) && t.pool == s.pool
  {
    hide Reach;
    NotActive();
    Go(s0, s, Rcu(G.R(0, G.ReadLock)));
    var s1 := Next(s, Rcu(G.R(0, G.ReadLock)));
    Go(s0, s1, Rcu(G.R(0, G.LoadGp)));
    t := Next(s1, Rcu(G.R(0, G.LoadGp)));
  }

  lemma NotActive()
    ensures !Active(0) && Depth(0) == 0 && Active(GP_COUNT) && !Active(Dec(GP_COUNT)) && Dec(GP_COUNT) == 0
    ensures OtherPhase(GP_COUNT, Flip(GP_COUNT)) && !OtherPhase(GP_COUNT, GP_COUNT)
  {
    ActiveIsDepth(0);
  }

  /** The first work: its section stores the current sample, and the walk finds no queue. */
  lemma WalksFirst(s0: State, s: State) returns (t: State)
    requires Reach(s0, s) && At(s, G.LockLoaded(GP_COUNT), 0, GP_COUNT) && s.pool == J.Begin()
    ensures Reach(s0, t) && At(t, G.Ready, 0, GP_COUNT) && t.pool == J.Walked()
  {
    hide Reach, P.Mask, P.FastMatch;
    NotActive();
    Go(s0, s, Open(0, 0));
    var s1 := Next(s, Open(0, 0));
    assert s1.pool.submitters == [P.Submitter(P.Walking, 0, 0, false)];
    Go(s0, s1, Rcu(G.R(0, G.ReadUnlock)));
    var s2 := Next(s1, Rcu(G.R(0, G.ReadUnlock)));
    Go(s0, s2, Close(0, P.Miss));
    t := Next(s2, Close(0, P.Miss));
    assert t.pool == J.Walked();
  }

  /** A queue is made for it, and its worker does it. */
  lemma Builds(s0: State, s: State) returns (t: State)
    requires Reach(s0, s) && s.pool == J.Walked()
    ensures Reach(s0, t) && t == s.(pool := J.Spawned().(queues := [J.Served()]))
  {
    hide Reach, P.Run, J.Walked, J.Allocated, J.Listing, J.Spawned, J.InWork, J.Served;
    var a, x := J.Allocates();
    Lift(s0, s, a, x);
    a, x := J.Publishes();
    Lift(s0, s.(pool := J.Allocated()), a, x);
    a, x := J.Spawns();
    Lift(s0, s.(pool := J.Listing()), a, x);
    a, x := J.Takes();
    Lift(s0, s.(pool := J.Spawned()), a, x);
    a, x := J.Serves();
    Lift(s0, s.(pool := J.Spawned().(queues := [J.InWork()])), a, x);
    t := s.(pool := J.Spawned().(queues := [J.Served()]));
  }

  /** In a call of updater `w`. */
  predicate During(s: State, w: nat, call: G.UpdaterPc, lock: G.Holder, pc: G.ReaderPc, word: bv64, gp: bv64) {
    && |s.rcu.readers| == 1 && s.rcu.readers[0].pc == pc && s.rcu.readers[0].word == word
    && |s.rcu.updaters| == 2 && w < 2 && s.rcu.updaters[w].pc == call && s.rcu.updaters[1 - w].pc.Idle?
    && s.rcu.registry == [0] && s.rcu.lock == lock && s.rcu.gp == gp && s.j == 0 && |s.pool.submitters| == 1
  }

  /** A step of the updater inside its call. */
  lemma InCall(s0: State, s: State, w: nat, op: G.UpdaterAct) returns (t: State)
    requires Reach(s0, s) && G.Enabled(s.rcu, G.U(w, op)) && !op.Synchronize? && !op.Return?
    ensures t == Next(s, Rcu(G.U(w, op))) && Enabled(s, Rcu(G.U(w, op))) && Reach(s0, t)
    ensures t == s.(rcu := G.UpdaterNext(s.rcu, w, op))
  {
    Go(s0, s, Rcu(G.U(w, op)));
    t := Next(s, Rcu(G.U(w, op)));
  }

  /** A call whose scans do not wait for the reader. */
  lemma Scans(s0: State, s: State, w: nat, pc: G.ReaderPc, word: bv64, gp: bv64) returns (t: State)
    requires Reach(s0, s) && During(s, w, G.Called, G.Free, pc, word, gp) && (!Active(word) || OtherPhase(word, gp))
    ensures Reach(s0, t) && During(t, w, G.Scan2(gp, 1), G.HeldByUpdater(w), pc, word, Flip(gp)) && t.pool == s.pool
    ensures t.rcu.updaters[w].called == s.rcu.updaters[w].called
  {
    hide Reach, Enabled, Next, Active, OtherPhase, Flip;
    t := InCall(s0, s, w, G.TakeLock);
    t := InCall(s0, t, w, G.LoadCurr);
    t := InCall(s0, t, w, G.Scan);
    t := InCall(s0, t, w, G.FlipGp);
    t := InCall(s0, t, w, G.Scan);
  }

  /** Another thread synchronizes. */
  lemma OtherGrace(s0: State, s: State, pc: G.ReaderPc, word: bv64, gp: bv64) returns (t: State)
    requires Reach(s0, s) && At(s, pc, word, gp) && !Active(word)
    ensures Reach(s0, t) && At(t, pc, word, Flip(gp)) && t.pool == s.pool
  {
    hide Reach, Active, Flip;
    Go(s0, s, Rcu(G.U(1, G.Synchronize)));
    var s1 := Next(s, Rcu(G.U(1, G.Synchronize)));
    var s2 := Scans(s0, s1, 1, pc, word, gp);
    Go(s0, s2, Rcu(G.U(1, G.Return)));
    t := Next(s2, Rcu(G.U(1, G.Return)));
  }

  /** The second work: its section stores an old sample. */
  lemma Oversleeps(s0: State, s: State) returns (t: State)
    requires Reach(s0, s) && At(s, G.LockLoaded(GP_COUNT), 0, Flip(GP_COUNT)) && s.pool == J.Spawned().(queues := [J.Served()])
    ensures Reach(s0, t) && At(t, G.Ready, GP_COUNT, Flip(GP_COUNT)) && t.pool == J.Again(true)
  {
    hide Reach, P.Mask, P.FastMatch;
    NotActive();
    Go(s0, s, Open(0, 0));
    t := Next(s, Open(0, 0));
    assert t.pool.submitters == [P.Submitter(P.Walking, 1, 0, true)];
    assert t.pool == J.Again(true);
  }

  /** The joiner unlinks the queue, and its call returns although the section goes on. */
  lemma MissedCall(s0: State, s: State) returns (t: State)
    requires Reach(s0, s) && At(s, G.Ready, GP_COUNT, Flip(GP_COUNT)) && s.pool == J.Examined(true)
    ensures Reach(s0, t) && t.pool == J.Unlinked(true).(joiner := P.Clearing(0, 0))
    ensures |t.rcu.readers| == 1 && Active(t.rcu.readers[0].word)
  {
    hide Reach, Enabled, Next, J.Unlinked, Active, OtherPhase, Flip, J.Examined;
    NotActive();
    CallStep(s, GP_COUNT, Flip(GP_COUNT));
    Go(s0, s, Call);
    t := Scans(s0, Next(s, Call), 0, G.Ready, GP_COUNT, Flip(GP_COUNT));
    ReturnStep(t, GP_COUNT, Flip(GP_COUNT), Flip(Flip(GP_COUNT)));
    Go(s0, t, Return);
    t := Next(t, Return);
  }

  lemma CallStep(s: State, word: bv64, gp: bv64)
    requires At(s, G.Ready, word, gp) && s.pool == J.Examined(true)
    ensures Enabled(s, Call) && Next(s, Call).pool == J.Unlinked(true)
    ensures During(Next(s, Call), 0, G.Called, G.Free, G.Ready, word, gp)
  {
    hide P.Enabled, P.Next, J.Examined;
    Calls(s);
  }

  lemma ReturnStep(s: State, word: bv64, gp: bv64, gp': bv64)
    requires During(s, 0, G.Scan2(gp, 1), G.HeldByUpdater(0), G.Ready, word, gp') && s.pool == J.Unlinked(true)
    ensures Enabled(s, Return) && Next(s, Return).pool == J.Unlinked(true).(joiner := P.Clearing(0, 0))
    ensures |Next(s, Return).rcu.readers| == 1 && Next(s, Return).rcu.readers[0].word == word
  {
  }

  lemma Calls(s: State)
    requires s.pool == J.Examined(true)
    ensures Unlinking(s.pool, P.J(P.Decide)) && P.Next(s.pool, P.J(P.Decide)) == J.Unlinked(true)
  {
    var a, x := J.Unlinks(true);
    assert P.Enabled(a[0], x[0]) && a[1] == P.Next(a[0], x[0]);
  }

  /** The submitter locks the inactive queue and puts its work into it. */
  lemma PutsLate(s0: State, s: State) returns (t: State)
    requires Reach(s0, s) && s.pool == J.Unlinked(true).(joiner := P.Clearing(0, 0))
    ensures Reach(s0, t) && J.TakenOut(t.pool, 0) && !t.pool.queues[0].active && t.pool.queues[0].items == [1]
  {
    hide Reach, P.Mask, P.FastMatch;
    var steps := [P.J(P.Clear), P.J(P.Unlock), P.S(0, P.TakeQueue), P.S(0, P.Link)];
    var s1 := P.Next(s.pool, steps[0]);
    var s2 := P.Next(s1, steps[1]);
    var s3 := P.Next(s2, steps[2]);
    var s4 := P.Next(s3, steps[3]);
    Lift(s0, s, [s.pool, s1, s2, s3, s4], steps);
    t := s.(pool := s4);
  }

  /** With the grace periods of the protocol, from the initial state: a work comes to lie in a queue
      that the joiner has taken out and marked inactive. */
  lemma LateWorkReachable() returns (t: State)
    ensures Init(Start()) && Reach(Start(), t)
    ensures J.TakenOut(t.pool, 0) && !t.pool.queues[0].active && t.pool.queues[0].items == [1]
  {
    hide Reach, At, J.Begin, J.Walked, J.Served, J.Spawned, J.Again, J.Examined, J.Unlinked, P.Run;
    StartInit();
    NotActive();
    t := Registers();
    t := Loads(Start(), t, GP_COUNT);
    t := WalksFirst(Start(), t);
    OneEach();
    t := Builds(Start(), t);
    SameRcu(t.(pool := J.Walked()), t, G.Ready, 0, GP_COUNT);
    t := Loads(Start(), t, GP_COUNT);
    t := OtherGrace(Start(), t, G.LockLoaded(GP_COUNT), 0, GP_COUNT);
    t := Oversleeps(Start(), t);
    var a, x := J.Finds(true);
    Lift(Start(), t, a, x);
    SameRcu(t, t.(pool := J.Examined(true)), G.Ready, GP_COUNT, Flip(GP_COUNT));
    t := MissedCall(Start(), t.(pool := J.Examined(true)));
    t := PutsLate(Start(), t);
  }

  lemma OneEach()
    ensures |J.Spawned().submitters| == 1 && |J.Examined(true).submitters| == 1
  {
  }

  lemma SameRcu(s: State, t: State, pc: G.ReaderPc, word: bv64, gp: bv64)
    requires At(s, pc, word, gp) && t == s.(pool := t.pool) && |t.pool.submitters| == 1
    ensures At(t, pc, word, gp)
  {
  }
}
