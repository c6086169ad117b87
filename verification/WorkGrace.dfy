/** The pool and the grace-period protocol together: submitters are the readers with the same
    number, and the joiner is one of the updaters. The single grace period of the joiner does what
    module WorkPool says of it. */
module WorkGrace {
  import G = RcuGrace
  import V = RcuSafety
  import L = RcuLimits
  import P = WorkPool

  /** `j` is the joiner among the updaters; any other updater may call synchronize at any time. */
  datatype State = State(pool: P.State, rcu: G.State, j: nat)

  datatype Step =
    | Rcu(a: G.Step)               // neither begins nor ends a section of a submitter or a call of the joiner
    | Pool(b: P.Step)              // neither does this
    | Open(c: nat, cpu: int)       // the outermost store of a section of a submitter
    | Close(c: nat, act: P.SubmitterAct)
    | Call                         // the joiner unlinks a queue and calls synchronize
    | Return                       // that call returns

  predicate Init(s: State) {
    P.Init(s.pool) && G.Init(s.rcu) && |s.pool.submitters| <= |s.rcu.readers| && s.j < |s.rcu.updaters|
  }

  predicate SameSections(s: State, rcu: G.State) {
    forall c :: 0 <= c < |s.pool.submitters| ==> (V.InSection(rcu, c) <==> V.InSection(s.rcu, c))
  }

  predicate Unlinking(s: P.State, b: P.Step) {
    b == P.J(P.Decide) && P.Enabled(s, b) && s.queues[s.joiner.q].count == 0
  }

  predicate Enabled(s: State, x: Step) {
    match x
    case Rcu(a) =>
      G.Enabled(s.rcu, a) && SameSections(s, G.Next(s.rcu, a)) && a != G.U(s.j, G.Synchronize) && a != G.U(s.j, G.Return)
    case Pool(b) =>
      P.Enabled(s.pool, b) && !Unlinking(s.pool, b) && b != P.J(P.Synchronized)
      && !(b.S? && (b.act.Submit? || b.act.Miss? || b.act.Leave?))
    case Open(c, cpu) =>
      G.Enabled(s.rcu, G.R(c, G.StoreWord)) && P.Enabled(s.pool, P.S(c, P.Submit(cpu, false)))
    case Close(c, act) =>
      && G.Enabled(s.rcu, G.R(c, G.SubNest)) && !V.InSection(G.Next(s.rcu, G.R(c, G.SubNest)), c)
      && (act.Miss? || act.Leave?) && P.Enabled(s.pool, P.S(c, act))
    case Call => G.Enabled(s.rcu, G.U(s.j, G.Synchronize)) && Unlinking(s.pool, P.J(P.Decide))
    // Nothing but the protocol lets the call return.
    case Return => G.Enabled(s.rcu, G.U(s.j, G.Return)) && s.pool.joiner.Waiting?
  }

  /** The step of the protocol in a step, if any. */
  predicate HasRcu(x: Step) { !x.Pool? }

  function RcuStep(s: State, x: Step): G.Step
    requires HasRcu(x)
  {
    match x
    case Rcu(a) => a
    case Open(c, _) => G.R(c, G.StoreWord)
    case Close(c, _) => G.R(c, G.SubNest)
    case Call => G.U(s.j, G.Synchronize)
    case Return => G.U(s.j, G.Return)
  }

  function RcuNext(s: State, x: Step): G.State
    requires Enabled(s, x)
  {
    if HasRcu(x) then G.Next(s.rcu, RcuStep(s, x)) else s.rcu
  }

  /** The step of the pool in a step: a section is stale if it escapes. */
  function PoolStep(s: State, x: Step): P.Step
    requires Enabled(s, x) && !x.Rcu?
  {
    match x
    case Pool(b) => b
    case Open(c, cpu) => P.S(c, P.Submit(cpu, L.Escapes(RcuNext(s, x), c)))
    case Close(c, act) => P.S(c, act)
    case Call => P.J(P.Decide)
    case Return => P.J(P.Synchronized)
  }

  function Next(s: State, x: Step): State
    requires Enabled(s, x)
  {
    var pool :=
      if x.Rcu? then s.pool
      else if x.Return? then s.pool.(joiner := P.Clearing(s.pool.joiner.i, s.pool.joiner.q))
      else P.Next(s.pool, PoolStep(s, x));
    State(pool, RcuNext(s, x), s.j)
  }

  predicate Run(ss: seq<State>, steps: seq<Step>) {
    && |ss| == |steps| + 1
    && forall i :: 0 <= i < |steps| ==> Enabled(ss[i], steps[i]) && ss[i + 1] == Next(ss[i], steps[i])
  }

  // ---------------------------------------------------------------- invariant

  /** A grace period has missed the section of `c`. */
  ghost predicate Missed(s: G.State, c: nat)
    requires c < |s.readers|
  {
    exists k :: 0 <= k < |s.done| && s.done[k].called > s.readers[c].since
  }

  ghost predicate Kept(s: G.State, c: nat)
    requires c < |s.readers|
  {
    L.Covered(s, c) || Missed(s, c)
  }

  /** The running call of the joiner has been made during the section of `c`. */
  predicate Inside(s: State, c: nat)
    requires c < |s.rcu.readers| && s.j < |s.rcu.updaters|
  {
    s.pool.joiner.Waiting? && s.rcu.updaters[s.j].called > s.rcu.readers[c].since
  }

  ghost predicate SectionIn(s: State, c: nat)
    requires c < |s.pool.submitters| <= |s.rcu.readers| && s.j < |s.rcu.updaters|
  {
    && (s.pool.submitters[c].pc.InSection() <==> V.InSection(s.rcu, c))
    && (V.InSection(s.rcu, c) && !s.pool.submitters[c].stale ==>
          Kept(s.rcu, c) || (Inside(s, c) && c !in s.pool.sections))
    && (c in s.pool.sections ==> V.InSection(s.rcu, c) && Inside(s, c) && Kept(s.rcu, c))
  }

  ghost predicate Inv(s: State) {
    && P.Inv(s.pool) && G.Inv(s.rcu)
    && |s.pool.submitters| <= |s.rcu.readers| && s.j < |s.rcu.updaters|
    && (s.pool.joiner.Waiting? <==> !s.rcu.updaters[s.j].pc.Idle?)
    && (forall c :: 0 <= c < |s.pool.submitters| ==> SectionIn(s, c))
  }

  lemma InitInv(s: State)
    requires Init(s)
    ensures Inv(s)
  {
    P.InitInv(s.pool);
    G.InitInv(s.rcu);
  }

  /** A step of the protocol during a section. */
  lemma KeptStep(s: G.State, a: G.Step, c: nat)
    requires G.Inv(s) && G.Enabled(s, a) && V.InSection(s, c) && V.InSection(G.Next(s, a), c)
    ensures G.Next(s, a).readers[c].since == s.readers[c].since
    ensures Kept(s, c) ==> Kept(G.Next(s, a), c)
  {
    V.ReadersOk(s, c);
    V.SectionStep(s, a, c);
    if L.Covered(s, c) {
      L.CoveredStep(s, a, c);
    } else if k :| 0 <= k < |s.done| && s.done[k].called > s.readers[c].since {
      var s' := G.Next(s, a);
      assert s'.done[k] == s.done[k];
    }
  }

  /** A section that is kept ends before a call made during it returns. */
  lemma KeptEnds(s: G.State, u: nat, c: nat)
    requires G.Inv(s) && G.Enabled(s, G.U(u, G.Return)) && V.InSection(s, c) && Kept(s, c)
    ensures s.updaters[u].called <= s.readers[c].since
  {
    var a := G.U(u, G.Return);
    var s', n := G.Next(s, a), |s.done|;
    G.NextInv(s, a);
    KeptStep(s, a, c);
    if L.Covered(s, c) {
      L.CoveredStep(s, a, c);
      L.CoveredIsWaitedFor(s', c, n);
    } else if s'.done[n].called > s'.readers[c].since {
      var k :| 0 <= k < |s.done| && s.done[k].called > s.readers[c].since;
      V.Waited(s', c, k);
      V.Waited(s', c, n);
    }
  }

  /** When the joiner's call returns, the sections that it waits for have ended. */
  lemma ReturnWaits(s: State)
    requires Inv(s) && Enabled(s, Return)
    ensures s.pool.sections == {} && P.Enabled(s.pool, P.J(P.Synchronized))
  {
    hide P.QueueIn, P.WorksOk, G.Inv, L.Covered, Missed;
    if c :| c in s.pool.sections {
      assert c < |s.pool.submitters| && P.SubmitterIn(s.pool, c) && SectionIn(s, c);
      KeptEnds(s.rcu, s.j, c);
    }
  }

  // ---------------------------------------------------------------- every step

  /** What a step of the protocol does to the sections that it neither opens nor closes. */
  lemma ProtocolStep(s: State, x: Step, c: nat)
    requires Inv(s) && Enabled(s, x) && HasRcu(x) && c < |s.pool.submitters|
    requires V.InSection(s.rcu, c) && V.InSection(RcuNext(s, x), c)
    ensures RcuNext(s, x).readers[c].since == s.rcu.readers[c].since
    ensures Kept(s.rcu, c) ==> Kept(RcuNext(s, x), c)
  {
    hide P.Inv, G.Inv, Kept;
    KeptStep(s.rcu, RcuStep(s, x), c);
  }

  lemma Sizes(s: State, x: Step)
    requires Inv(s) && Enabled(s, x)
    ensures G.Inv(RcuNext(s, x)) && |RcuNext(s, x).readers| == |s.rcu.readers| && |RcuNext(s, x).updaters| == |s.rcu.updaters|
    ensures var u, u' := s.rcu.updaters[s.j], RcuNext(s, x).updaters[s.j];
            !x.Call? && !x.Return? ==> u'.called == u.called && u'.pc.Idle? == u.pc.Idle?
  {
    if HasRcu(x) {
      G.NextInv(s.rcu, RcuStep(s, x));
    }
    hide P.Inv, G.Inv;
  }

  /** A step of the pool alone leaves the sections as they are. */
  lemma PoolKeeps(p: P.State, b: P.Step)
    requires P.Enabled(p, b) && !Unlinking(p, b) && b != P.J(P.Synchronized)
    requires !(b.S? && (b.act.Submit? || b.act.Miss? || b.act.Leave?))
    ensures var p' := P.Next(p, b);
            && |p'.submitters| == |p.submitters| && p'.sections == p.sections && p'.joiner.Waiting? == p.joiner.Waiting?
            && forall c :: 0 <= c < |p.submitters| ==>
                 p'.submitters[c].pc.InSection() == p.submitters[c].pc.InSection() && p'.submitters[c].stale == p.submitters[c].stale
  {
    hide P.SubmitterNext, P.JoinerNext, P.WorkerNext;
    match b
    case W(q, act) =>
    case S(c, act) => SubmitterKeeps(p, c, act);
    case J(act) => JoinerKeeps(p, act);
  }

  lemma SubmitterKeeps(p: P.State, c: nat, act: P.SubmitterAct)
    requires P.SubmitterEnabled(p, c, act) && !act.Submit? && !act.Miss? && !act.Leave?
    ensures var p' := P.SubmitterNext(p, c, act);
            && |p'.submitters| == |p.submitters| && p'.sections == p.sections && p'.joiner == p.joiner
            && (forall d :: 0 <= d < |p.submitters| && d != c ==> p'.submitters[d] == p.submitters[d])
            && p'.submitters[c].pc.InSection() == p.submitters[c].pc.InSection()
            && p'.submitters[c].stale == p.submitters[c].stale
  {
    hide P.Mask, P.CanMeet;
  }

  lemma JoinerKeeps(p: P.State, act: P.JoinerAct)
    requires P.JoinerEnabled(p, act) && !Unlinking(p, P.J(act)) && !act.Synchronized?
    ensures var p' := P.JoinerNext(p, act);
            p'.submitters == p.submitters && p'.sections == p.sections && p'.joiner.Waiting? == p.joiner.Waiting?
  {
  }

  lemma PoolInv(s: State, x: Step)
    requires Inv(s) && Enabled(s, x) && x.Pool?
    ensures Inv(Next(s, x))
  {
    P.NextInv(s.pool, x.b);
    PoolKeeps(s.pool, x.b);
    hide P.Inv, G.Inv, Kept, P.Enabled, P.Next;
    forall c | 0 <= c < |s.pool.submitters| ensures SectionIn(Next(s, x), c) {
      assert SectionIn(s, c);
    }
  }

  lemma RcuInv(s: State, x: Step)
    requires Inv(s) && Enabled(s, x) && x.Rcu?
    ensures Inv(Next(s, x))
  {
    Sizes(s, x);
    hide P.Inv, G.Inv, Kept, G.Enabled, G.Next;
    forall c | 0 <= c < |s.pool.submitters| ensures SectionIn(Next(s, x), c) {
      assert SectionIn(s, c);
      if V.InSection(s.rcu, c) {
        ProtocolStep(s, x, c);
      }
    }
  }

  lemma OpenInv(s: State, x: Step)
    requires Inv(s) && Enabled(s, x) && x.Open?
    ensures Inv(Next(s, x))
  {
    Sizes(s, x);
    OpenPool(s, x);
    P.NextInv(s.pool, PoolStep(s, x));
    assert SectionIn(s, x.c);
    OpenSelf(s, x);
    hide P.Inv, G.Inv, Kept;
    forall c | 0 <= c < |s.pool.submitters| ensures SectionIn(Next(s, x), c) {
      assert SectionIn(s, c);
      if c != x.c && V.InSection(s.rcu, c) {
        ProtocolStep(s, x, c);
      }
    }
  }

  lemma OpenPool(s: State, x: Step)
    requires Enabled(s, x) && x.Open?
    ensures P.Enabled(s.pool, PoolStep(s, x))
    ensures var p, p' := s.pool, P.Next(s.pool, PoolStep(s, x));
            && x.c < |p.submitters| && !p.submitters[x.c].pc.InSection() && |p'.submitters| == |p.submitters|
            && p'.sections == p.sections && p'.joiner == p.joiner && p'.submitters[x.c].pc.InSection()
            && p'.submitters[x.c].stale == L.Escapes(RcuNext(s, x), x.c)
            && forall d :: 0 <= d < |p.submitters| && d != x.c ==> p'.submitters[d] == p.submitters[d]
  {
    hide G.Enabled, G.Next, L.Escapes;
  }

  lemma OpenSelf(s: State, x: Step)
    requires Inv(s) && Enabled(s, x) && x.Open? && x.c < |s.pool.submitters|
    ensures V.InSection(RcuNext(s, x), x.c) && (!L.Escapes(RcuNext(s, x), x.c) ==> Kept(RcuNext(s, x), x.c))
    ensures forall d :: d != x.c ==> V.InSection(RcuNext(s, x), d) == V.InSection(s.rcu, d)
  {
    hide P.Inv;
    V.ReadersOk(s.rcu, x.c);
    if !L.Escapes(RcuNext(s, x), x.c) {
      L.CoveredAtStore(s.rcu, x.c);
    }
  }

  lemma CloseInv(s: State, x: Step)
    requires Inv(s) && Enabled(s, x) && x.Close?
    ensures Inv(Next(s, x))
  {
    Sizes(s, x);
    ClosePool(s, x);
    CloseOthers(s, x);
    P.NextInv(s.pool, PoolStep(s, x));
    hide P.Inv, G.Inv, Kept, P.Next, P.Enabled;
    forall c | 0 <= c < |s.pool.submitters| ensures SectionIn(Next(s, x), c) {
      assert SectionIn(s, c);
      if c != x.c && V.InSection(s.rcu, c) {
        ProtocolStep(s, x, c);
      }
    }
  }

  lemma ClosePool(s: State, x: Step)
    requires Enabled(s, x) && x.Close?
    ensures P.Enabled(s.pool, PoolStep(s, x))
    ensures var p, p' := s.pool, P.Next(s.pool, PoolStep(s, x));
            && x.c < |p.submitters| && |p'.submitters| == |p.submitters|
            && p'.sections == p.sections - {x.c} && p'.joiner == p.joiner && !p'.submitters[x.c].pc.InSection()
            && forall d :: 0 <= d < |p.submitters| && d != x.c ==> p'.submitters[d] == p.submitters[d]
  {
    hide G.Enabled, G.Next;
  }

  lemma CloseOthers(s: State, x: Step)
    requires Enabled(s, x) && x.Close?
    ensures !V.InSection(RcuNext(s, x), x.c)
    ensures forall d :: d != x.c ==> V.InSection(RcuNext(s, x), d) == V.InSection(s.rcu, d)
  {
    hide P.Enabled;
  }

  lemma CallInv(s: State, x: Step)
    requires Inv(s) && Enabled(s, x) && x.Call?
    ensures Inv(Next(s, x))
  {
    Sizes(s, x);
    CallPool(s, x);
    P.NextInv(s.pool, P.J(P.Decide));
    CallTime(s, x);
    hide P.Inv, G.Inv, Kept, P.Next, P.Enabled;
    forall c | 0 <= c < |s.pool.submitters| ensures SectionIn(Next(s, x), c) {
      assert SectionIn(s, c);
      if V.InSection(s.rcu, c) {
        ProtocolStep(s, x, c);
      }
    }
  }

  lemma CallPool(s: State, x: Step)
    requires Enabled(s, x) && x.Call?
    ensures P.Enabled(s.pool, P.J(P.Decide))
    ensures var p, p' := s.pool, P.Next(s.pool, P.J(P.Decide));
            && !p.joiner.Waiting? && p'.joiner.Waiting? && |p'.submitters| == |p.submitters|
            && (forall d :: 0 <= d < |p.submitters| ==> p'.submitters[d] == p.submitters[d].(stale := false))
            && (forall d :: 0 <= d < |p.submitters| ==>
                  (d in p'.sections <==> p.submitters[d].pc.InSection() && !p.submitters[d].stale))
  {
    hide G.Enabled, G.Next;
  }

  /** The call is later than every store so far. */
  lemma CallTime(s: State, x: Step)
    requires Inv(s) && Enabled(s, x) && x.Call?
    ensures RcuNext(s, x).readers == s.rcu.readers && !RcuNext(s, x).updaters[s.j].pc.Idle?
    ensures forall c :: 0 <= c < |s.rcu.readers| && V.InSection(s.rcu, c) ==>
              RcuNext(s, x).updaters[s.j].called > s.rcu.readers[c].since
  {
    hide P.Inv, P.Enabled;
    forall c | 0 <= c < |s.rcu.readers| && V.InSection(s.rcu, c) ensures s.rcu.now > s.rcu.readers[c].since {
      V.ReadersOk(s.rcu, c);
    }
  }

  lemma ReturnInv(s: State, x: Step)
    requires Inv(s) && Enabled(s, x) && x.Return?
    ensures Inv(Next(s, x))
  {
    Sizes(s, x);
    ReturnWaits(s);
    P.NextInv(s.pool, P.J(P.Synchronized));
    ReturnRecord(s, x);
    hide P.Inv, G.Inv, Kept;
    forall c | 0 <= c < |s.pool.submitters| ensures SectionIn(Next(s, x), c) {
      assert SectionIn(s, c);
      if V.InSection(s.rcu, c) {
        ProtocolStep(s, x, c);
      }
    }
  }

  /** A call made during a section has missed it. */
  lemma ReturnRecord(s: State, x: Step)
    requires Inv(s) && Enabled(s, x) && x.Return?
    ensures RcuNext(s, x).readers == s.rcu.readers && RcuNext(s, x).updaters[s.j].pc.Idle?
    ensures forall c :: 0 <= c < |s.rcu.readers| && s.rcu.updaters[s.j].called > s.rcu.readers[c].since ==>
              Kept(RcuNext(s, x), c)
  {
    hide P.Inv, P.Enabled, L.Covered;
    var s' := RcuNext(s, x);
    assert s'.done[|s.rcu.done|].called == s.rcu.updaters[s.j].called;
  }

  lemma NextInv(s: State, x: Step)
    requires Inv(s) && Enabled(s, x)
    ensures Inv(Next(s, x))
  {
    hide Inv, Next;
    match x
    case Rcu(_) => RcuInv(s, x);
    case Pool(_) => PoolInv(s, x);
    case Open(_, _) => OpenInv(s, x);
    case Close(_, _) => CloseInv(s, x);
    case Call => CallInv(s, x);
    case Return => ReturnInv(s, x);
  }

  lemma {:induction false} RunInv(ss: seq<State>, steps: seq<Step>, i: nat)
    requires |ss| > 0 && Init(ss[0]) && Run(ss, steps) && i < |ss|
    ensures Inv(ss[i])
  {
    hide Init, Inv, Enabled, Next;
    if i == 0 {
      InitInv(ss[0]);
    } else {
      RunInv(ss, steps, i - 1);
      NextInv(ss[i - 1], steps[i - 1]);
    }
  }

  // ---------------------------------------------------------------- the pool alone

  /** A step with the real grace period is one of the pool with its own, or none. */
  lemma StepRefines(s: State, x: Step)
    requires Inv(s) && Enabled(s, x)
    ensures if x.Rcu? then Next(s, x).pool == s.pool
            else P.Enabled(s.pool, PoolStep(s, x)) && Next(s, x).pool == P.Next(s.pool, PoolStep(s, x))
  {
    hide P.Inv, G.Inv;
    match x
    case Rcu(_) =>
    case Pool(_) =>
    case Open(_, _) => OpenPool(s, x);
    case Close(_, _) => ClosePool(s, x);
    case Call => CallPool(s, x);
    case Return => ReturnWaits(s);
  }

  /** Every run of the pool with the grace periods of the protocol is a run of the pool as module
      WorkPool has it. */
  lemma {:induction false} RunRefines(ss: seq<State>, steps: seq<Step>) returns (ps: seq<P.State>, bs: seq<P.Step>)
    requires |ss| > 0 && Init(ss[0]) && Run(ss, steps)
    ensures |ps| > 0 && P.Init(ps[0]) && P.Run(ps, bs)
    ensures ps[0] == ss[0].pool && ps[|ps| - 1] == ss[|ss| - 1].pool
  {
    hide Inv, Enabled, Next, P.Enabled, P.Next;
    if steps == [] {
      ps, bs := [ss[0].pool], [];
    } else {
      var n := |steps| - 1;
      ps, bs := RunRefines(ss[..n + 1], steps[..n]);
      RunInv(ss, steps, n);
      StepRefines(ss[n], steps[n]);
      if !steps[n].Rcu? {
        var b := PoolStep(ss[n], steps[n]);
        P.JoinRuns(ps, bs, [ss[n].pool, ss[n + 1].pool], [b]);
        ps, bs := ps + [ss[n].pool, ss[n + 1].pool][1..], bs + [b];
      }
    }
  }
}
