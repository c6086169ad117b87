/** The grace-period protocol of `src/rcu/rcu.c` and `include/mthpc/rcu.h` as a transition
    system: any number of reader threads and updaters, sequentially consistent interleaving,
    one shared access a step.

    `now`, `called`, `since`, `flips` and `done` are history: no step is enabled or disabled by
    them, they only let properties speak about when things happened. */
module RcuGrace {
  import opened RcuWord
  import opened Seqs

  datatype ReaderPc =
    | Absent                     // no node in the registry
    | AddHolding                 // mthpc_rcu_add holds data->lock
    | AddLinked                  // node linked, lock still held
    | Ready                      // between API calls, inside or outside a critical section
    | LockEmpty                  // lock read its own word: no nesting; next loads data->gp_seq
    | LockLoaded(sample: bv64)   // next stores the sample into the word of the node
    | LockNested                 // lock read its own word: nested; next adds one
    | Unlocking                  // unlock read its own word; next subtracts one
    | DelHolding                 // mthpc_rcu_del holds data->lock
    | DelUnlinked                // node unlinked, lock still held
  {
    predicate Listed() { !(Absent? || AddHolding? || DelUnlinked?) }
    predicate Holding() { AddHolding? || AddLinked? || DelHolding? || DelUnlinked? }
    // Points at which the thread cannot be inside a section.
    predicate Outside() { !(Ready? || LockNested? || Unlocking?) }
  }

  /** `word` is `node->gp_seq`. History: `since` is the time of the outermost store, `flips` the
      number of flips of `data->gp_seq` before that store, `sampled` the number before the load. */
  datatype Reader = Reader(pc: ReaderPc, word: bv64, sampled: nat, flips: nat, since: nat)

  datatype UpdaterPc =
    | Idle
    | Called                     // entered synchronize, waits for data->lock
    | Locked                     // next loads curr_gp
    | Scan1(gp: bv64, i: nat)    // first mthpc_wait_for_readers, at the i-th node
    | Scan2(gp: bv64, i: nat)    // second one, after the flip
  {
    predicate Holding() { Locked? || Scan1? || Scan2? }
  }

  /** History: `called` is the time at which the current synchronize was called. */
  datatype Updater = Updater(pc: UpdaterPc, called: nat)

  datatype Holder = Free | HeldByReader(t: nat) | HeldByUpdater(u: nat)

  /** History: a completed grace period, with the time of its call and the phase it waited for. */
  datatype Grace = Grace(called: nat, gp: bv64)

  datatype State = State(
    readers: seq<Reader>,
    updaters: seq<Updater>,
    registry: seq<nat>,          // the list at data->head, by thread
    gp: bv64,                    // data->gp_seq
    lock: Holder,                // data->lock
    now: nat,
    done: seq<Grace>)

  datatype ReaderAct =
    | AddLock | AddLink | AddUnlock
    | DelLock | DelUnlink | DelUnlock
    | ReadLock | LoadGp | StoreWord | AddNest
    | ReadUnlock | SubNest

  datatype UpdaterAct = Synchronize | TakeLock | LoadCurr | Scan | FlipGp | Return

  datatype Step = R(t: nat, act: ReaderAct) | U(u: nat, op: UpdaterAct)

  // ---------------------------------------------------------------- transition system

  predicate Init(s: State) {
    && (forall t :: 0 <= t < |s.readers| ==> s.readers[t].pc == Absent && !Active(s.readers[t].word))
    && (forall u :: 0 <= u < |s.updaters| ==> s.updaters[u].pc == Idle)
    && s.registry == [] && s.gp == GP_COUNT && s.lock == Free && s.done == []
  }

  /** The node test of `mthpc_wait_for_readers`: does the scan leave node `t`? */
  predicate Passes(s: State, t: nat, gp: bv64)
    requires t < |s.readers|
  {
    !Active(s.readers[t].word) || OtherPhase(s.readers[t].word, gp)
  }

  predicate ReaderEnabled(s: State, t: nat, act: ReaderAct) {
    t < |s.readers| &&
    var r := s.readers[t];
    match act
    case AddLock => r.pc.Absent? && s.lock.Free?
    case AddLink => r.pc.AddHolding?
    case AddUnlock => r.pc.AddLinked?
    // A thread leaves the registry only outside a critical section.
    case DelLock => r.pc.Ready? && !Active(r.word) && s.lock.Free?
    case DelUnlink => r.pc.DelHolding?
    case DelUnlock => r.pc.DelUnlinked?
    // Sections nest at most 2^32 - 1 deep.
    case ReadLock => r.pc.Ready? && Depth(r.word) < MAX_DEPTH
    case LoadGp => r.pc.LockEmpty?
    case StoreWord => r.pc.LockLoaded?
    case AddNest => r.pc.LockNested?
    // Every unlock is paired with a lock.
    case ReadUnlock => r.pc.Ready? && Active(r.word)
    case SubNest => r.pc.Unlocking?
  }

  predicate UpdaterEnabled(s: State, u: nat, op: UpdaterAct) {
    u < |s.updaters| &&
    var p := s.updaters[u].pc;
    match op
    case Synchronize => p.Idle?
    case TakeLock => p.Called? && s.lock.Free?
    case LoadCurr => p.Locked?
    case Scan => (p.Scan1? || p.Scan2?) && p.i < |s.registry| && s.registry[p.i] < |s.readers|
    case FlipGp => p.Scan1? && p.i == |s.registry|
    case Return => p.Scan2? && p.i == |s.registry|
  }

  predicate Enabled(s: State, a: Step) {
    match a
    case R(t, act) => ReaderEnabled(s, t, act)
    case U(u, op) => UpdaterEnabled(s, u, op)
  }

  /** Number of flips of `data->gp_seq` so far: one for every completed grace period and one
      for the running one if it is in its second scan. */
  function Flips(s: State): nat {
    |s.done| + if InScan2(s) then 1 else 0
  }

  predicate InScan2(s: State) {
    s.lock.HeldByUpdater? && s.lock.u < |s.updaters| && s.updaters[s.lock.u].pc.Scan2?
  }

  /** The reader that `act` makes of `s.readers[t]`. */
  function ReaderAfter(s: State, t: nat, act: ReaderAct): (r: Reader)
    requires ReaderEnabled(s, t, act)
  {
    var r := s.readers[t];
    match act
    case AddLock => r.(pc := AddHolding)
    case AddLink => r.(pc := AddLinked, word := 0)
    case AddUnlock => r.(pc := Ready)
    case DelLock => r.(pc := DelHolding)
    case DelUnlink => r.(pc := DelUnlinked)
    case DelUnlock => r.(pc := Absent)
    case ReadLock => r.(pc := if Active(r.word) then LockNested else LockEmpty)
    case LoadGp => r.(pc := LockLoaded(s.gp), sampled := Flips(s))
    case StoreWord => r.(pc := Ready, word := r.pc.sample, flips := Flips(s), since := s.now)
    case AddNest => r.(pc := Ready, word := Inc(r.word))
    case ReadUnlock => r.(pc := Unlocking)
    case SubNest => r.(pc := Ready, word := Dec(r.word))
  }

  function ReaderNext(s: State, t: nat, act: ReaderAct): State
    requires ReaderEnabled(s, t, act)
  {
    s.(readers := s.readers[t := ReaderAfter(s, t, act)],
       registry := if act.AddLink? then s.registry + [t]
                   else if act.DelUnlink? then Without(s.registry, t)
                   else s.registry,
       lock := if act.AddLock? || act.DelLock? then HeldByReader(t)
               else if act.AddUnlock? || act.DelUnlock? then Free
               else s.lock,
       now := s.now + 1)
  }

  function UpdaterAfter(s: State, u: nat, op: UpdaterAct): Updater
    requires UpdaterEnabled(s, u, op)
  {
    var x := s.updaters[u];
    match op
    case Synchronize => Updater(Called, s.now)
    case TakeLock => x.(pc := Locked)
    case LoadCurr => x.(pc := Scan1(s.gp, 0))
    case Scan => if Passes(s, s.registry[x.pc.i], x.pc.gp) then x.(pc := x.pc.(i := x.pc.i + 1)) else x
    case FlipGp => x.(pc := Scan2(x.pc.gp, 0))
    case Return => x.(pc := Idle)
  }

  function UpdaterNext(s: State, u: nat, op: UpdaterAct): State
    requires UpdaterEnabled(s, u, op)
  {
    s.(updaters := s.updaters[u := UpdaterAfter(s, u, op)],
       gp := if op.FlipGp? then Flip(s.gp) else s.gp,
       lock := if op.TakeLock? then HeldByUpdater(u) else if op.Return? then Free else s.lock,
       done := if op.Return? then s.done + [Grace(s.updaters[u].called, s.updaters[u].pc.gp)] else s.done,
       now := s.now + 1)
  }

  function Next(s: State, a: Step): State
    requires Enabled(s, a)
  {
    match a
    case R(t, act) => ReaderNext(s, t, act)
    case U(u, op) => UpdaterNext(s, u, op)
  }

  /** `ss` is a run that takes the steps `steps` from `ss[0]`. */
  predicate Run(ss: seq<State>, steps: seq<Step>) {
    && |ss| == |steps| + 1
    && forall i :: 0 <= i < |steps| ==> Enabled(ss[i], steps[i]) && ss[i + 1] == Next(ss[i], steps[i])
  }

  // ---------------------------------------------------------------- invariant

  /** Index of the first grace period that has to wait for the section of `r`: the one running
      at, or first after, the outermost store whose phase is the section's phase. */
  function Due(r: Reader): nat {
    if Bit(r.word) == (r.flips % 2 == 1) then r.flips else r.flips + 1
  }

  predicate SectionOk(s: State, t: nat)
    requires t < |s.readers|
  {
    var r := s.readers[t];
    && r.since < s.now && r.sampled <= r.flips <= Flips(s)
    && Bit(r.word) == (r.sampled % 2 == 1)
    && Flips(s) <= Due(r) + 1
    && (Flips(s) == Due(r) + 1 ==>
          InScan2(s) && s.updaters[s.lock.u].pc.i <= |s.registry|
          && t !in s.registry[..s.updaters[s.lock.u].pc.i])
    && (forall k :: 0 <= k < |s.done| && k < r.flips ==> s.done[k].called <= r.since)
    && (InScan2(s) && |s.done| < r.flips ==> s.updaters[s.lock.u].called <= r.since)
  }

  predicate ReaderOk(s: State, t: nat)
    requires t < |s.readers|
  {
    var r := s.readers[t];
    && (r.pc.Listed() <==> t in s.registry)
    && (r.pc.Holding() <==> s.lock == HeldByReader(t))
    && (r.pc.Outside() ==> !Active(r.word))
    && (r.pc.Unlocking? ==> Active(r.word))
    && (r.pc.LockNested? ==> Active(r.word) && Depth(r.word) < MAX_DEPTH)
    && (r.pc.LockLoaded? ==>
          Active(r.pc.sample) && Depth(r.pc.sample) == 1 && r.sampled <= Flips(s)
          && Bit(r.pc.sample) == (r.sampled % 2 == 1))
    && (Active(r.word) ==> SectionOk(s, t))
  }

  predicate UpdaterOk(s: State, u: nat)
    requires u < |s.updaters|
  {
    var p := s.updaters[u].pc;
    && (p.Holding() <==> s.lock == HeldByUpdater(u))
    && (!p.Idle? ==> s.updaters[u].called < s.now)
    && (p.Scan1? ==> p.gp == s.gp && p.i <= |s.registry|)
    && (p.Scan2? ==> p.gp == GpWord(|s.done|) && p.i <= |s.registry|)
  }

  predicate RegistryOk(s: State) {
    && (forall i :: 0 <= i < |s.registry| ==> s.registry[i] < |s.readers|)
    && (forall i, j :: 0 <= i < j < |s.registry| ==> s.registry[i] != s.registry[j])
    && (s.lock.HeldByReader? ==> s.lock.t < |s.readers|)
    && (s.lock.HeldByUpdater? ==> s.lock.u < |s.updaters|)
  }

  predicate Inv(s: State) {
    && RegistryOk(s)
    && s.gp == GpWord(Flips(s))
    && (forall k :: 0 <= k < |s.done| ==> s.done[k].called < s.now && s.done[k].gp == GpWord(k))
    && (forall t :: 0 <= t < |s.readers| ==> ReaderOk(s, t))
    && (forall u :: 0 <= u < |s.updaters| ==> UpdaterOk(s, u))
  }

  lemma InitInv(s: State)
    requires Init(s)
    ensures Inv(s)
  {
  }

  /** A step of reader `t` that leaves the rest alone keeps the invariant if it keeps it for `t`. */
  lemma ReaderFrame(s: State, s': State, t: nat)
    requires Inv(s) && RegistryOk(s')
    requires t < |s.readers| == |s'.readers|
    requires forall x :: 0 <= x < |s.readers| && x != t ==> s'.readers[x] == s.readers[x]
    requires s'.updaters == s.updaters && s'.gp == s.gp && s'.done == s.done && s'.now == s.now + 1
    requires (s'.registry == s.registry && s'.lock == s.lock) || (s.lock in {Free, HeldByReader(t)} && s'.lock in {Free, HeldByReader(t)})
    requires forall x :: 0 <= x < |s.readers| && x != t ==> (x in s.registry <==> x in s'.registry)
    requires ReaderOk(s', t)
    ensures Inv(s')
  {
    forall x | 0 <= x < |s'.readers| ensures ReaderOk(s', x) {
      assert ReaderOk(s, x);
    }
    forall u | 0 <= u < |s'.updaters| ensures UpdaterOk(s', u) {
      assert UpdaterOk(s, u);
    }
  }

  lemma AddLockInv(s: State, t: nat)
    requires Inv(s) && ReaderEnabled(s, t, AddLock)
    ensures Inv(ReaderNext(s, t, AddLock))
  {
    assert ReaderOk(s, t);
    ReaderFrame(s, ReaderNext(s, t, AddLock), t);
  }

  lemma AddUnlockInv(s: State, t: nat)
    requires Inv(s) && ReaderEnabled(s, t, AddUnlock)
    ensures Inv(ReaderNext(s, t, AddUnlock))
  {
    assert ReaderOk(s, t);
    ReaderFrame(s, ReaderNext(s, t, AddUnlock), t);
  }

  lemma DelLockInv(s: State, t: nat)
    requires Inv(s) && ReaderEnabled(s, t, DelLock)
    ensures Inv(ReaderNext(s, t, DelLock))
  {
    assert ReaderOk(s, t);
    ReaderFrame(s, ReaderNext(s, t, DelLock), t);
  }

  lemma DelUnlockInv(s: State, t: nat)
    requires Inv(s) && ReaderEnabled(s, t, DelUnlock)
    ensures Inv(ReaderNext(s, t, DelUnlock))
  {
    assert ReaderOk(s, t);
    ReaderFrame(s, ReaderNext(s, t, DelUnlock), t);
  }

  lemma AddLinkInv(s: State, t: nat)
    requires Inv(s) && ReaderEnabled(s, t, AddLink)
    ensures Inv(ReaderNext(s, t, AddLink))
  {
    assert ReaderOk(s, t);
    ReaderFrame(s, ReaderNext(s, t, AddLink), t);
  }

  lemma ReadLockInv(s: State, t: nat)
    requires Inv(s) && ReaderEnabled(s, t, ReadLock)
    ensures Inv(ReaderNext(s, t, ReadLock))
  {
    assert ReaderOk(s, t);
    ReaderFrame(s, ReaderNext(s, t, ReadLock), t);
  }

  lemma ReadUnlockInv(s: State, t: nat)
    requires Inv(s) && ReaderEnabled(s, t, ReadUnlock)
    ensures Inv(ReaderNext(s, t, ReadUnlock))
  {
    assert ReaderOk(s, t);
    ReaderFrame(s, ReaderNext(s, t, ReadUnlock), t);
  }

  lemma LoadGpInv(s: State, t: nat)
    requires Inv(s) && ReaderEnabled(s, t, LoadGp)
    ensures Inv(ReaderNext(s, t, LoadGp))
  {
    assert ReaderOk(s, t);
    GpWords(Flips(s));
    ReaderFrame(s, ReaderNext(s, t, LoadGp), t);
  }

  lemma StoreWordInv(s: State, t: nat)
    requires Inv(s) && ReaderEnabled(s, t, StoreWord)
    ensures Inv(ReaderNext(s, t, StoreWord))
  {
    assert ReaderOk(s, t);
    assert InScan2(s) ==> UpdaterOk(s, s.lock.u);
    ReaderFrame(s, ReaderNext(s, t, StoreWord), t);
  }

  lemma AddNestInv(s: State, t: nat)
    requires Inv(s) && ReaderEnabled(s, t, AddNest)
    ensures Inv(ReaderNext(s, t, AddNest))
  {
    assert ReaderOk(s, t);
    IncWord(s.readers[t].word);
    ReaderFrame(s, ReaderNext(s, t, AddNest), t);
  }

  lemma SubNestInv(s: State, t: nat)
    requires Inv(s) && ReaderEnabled(s, t, SubNest)
    ensures Inv(ReaderNext(s, t, SubNest))
  {
    assert ReaderOk(s, t);
    DecWord(s.readers[t].word);
    ReaderFrame(s, ReaderNext(s, t, SubNest), t);
  }

  lemma DelUnlinkInv(s: State, t: nat)
    requires Inv(s) && ReaderEnabled(s, t, DelUnlink)
    ensures Inv(ReaderNext(s, t, DelUnlink))
  {
    assert ReaderOk(s, t);
    var q := Without(s.registry, t);
    WithoutIs(s.registry, t);
    forall i | 0 <= i < |q| ensures q[i] < |s.readers| {
      assert q[i] in s.registry;
    }
    ReaderFrame(s, ReaderNext(s, t, DelUnlink), t);
  }

  /** A step of updater `u` keeps the invariant if it keeps it for `u` and for every section. */
  lemma UpdaterFrame(s: State, s': State, u: nat)
    requires Inv(s) && RegistryOk(s')
    requires u < |s.updaters| == |s'.updaters|
    requires forall x :: 0 <= x < |s.updaters| && x != u ==> s'.updaters[x] == s.updaters[x]
    requires s'.readers == s.readers && s'.registry == s.registry && s'.now == s.now + 1
    requires s'.lock == s.lock || (s.lock in {Free, HeldByUpdater(u)} && s'.lock in {Free, HeldByUpdater(u)})
    requires s'.gp == GpWord(Flips(s')) && Flips(s) <= Flips(s')
    requires forall k :: 0 <= k < |s'.done| ==> s'.done[k].called < s'.now && s'.done[k].gp == GpWord(k)
    requires s.lock == HeldByUpdater(u) || (s'.gp == s.gp && s'.done == s.done)
    requires UpdaterOk(s', u)
    requires forall x :: 0 <= x < |s.readers| && Active(s.readers[x].word) && SectionOk(s, x) ==> SectionOk(s', x)
    ensures Inv(s')
  {
    forall x | 0 <= x < |s'.readers| ensures ReaderOk(s', x) {
      assert ReaderOk(s, x);
    }
    forall x | 0 <= x < |s'.updaters| ensures UpdaterOk(s', x) {
      assert UpdaterOk(s, x);
    }
  }

  lemma SynchronizeInv(s: State, u: nat)
    requires Inv(s) && UpdaterEnabled(s, u, Synchronize)
    ensures Inv(UpdaterNext(s, u, Synchronize))
  {
    assert UpdaterOk(s, u);
    UpdaterFrame(s, UpdaterNext(s, u, Synchronize), u);
  }

  lemma TakeLockInv(s: State, u: nat)
    requires Inv(s) && UpdaterEnabled(s, u, TakeLock)
    ensures Inv(UpdaterNext(s, u, TakeLock))
  {
    assert UpdaterOk(s, u);
    UpdaterFrame(s, UpdaterNext(s, u, TakeLock), u);
  }

  lemma LoadCurrInv(s: State, u: nat)
    requires Inv(s) && UpdaterEnabled(s, u, LoadCurr)
    ensures Inv(UpdaterNext(s, u, LoadCurr))
  {
    assert UpdaterOk(s, u);
    UpdaterFrame(s, UpdaterNext(s, u, LoadCurr), u);
  }

  /** The second scan cannot leave a node whose section the running grace period waits for. */
  lemma ScanKeepsSection(s: State, u: nat, x: nat)
    requires Inv(s) && UpdaterEnabled(s, u, Scan)
    requires s.updaters[u].pc.Scan2? && Passes(s, s.registry[s.updaters[u].pc.i], s.updaters[u].pc.gp)
    requires x < |s.readers| && Active(s.readers[x].word) && SectionOk(s, x)
    ensures SectionOk(UpdaterNext(s, u, Scan), x)
  {
    var p := s.updaters[u].pc;
    assert UpdaterOk(s, u);
    var b := s.registry[p.i];
    OtherPhaseIsBit(s.readers[b].word, p.gp);
    GpWords(|s.done|);
    assert s.registry[..p.i + 1] == s.registry[..p.i] + [b];
  }

  lemma ScanInv(s: State, u: nat)
    requires Inv(s) && UpdaterEnabled(s, u, Scan)
    ensures Inv(UpdaterNext(s, u, Scan))
  {
    var s' := UpdaterNext(s, u, Scan);
    var p := s.updaters[u].pc;
    assert UpdaterOk(s, u);
    forall x | 0 <= x < |s.readers| && Active(s.readers[x].word) && SectionOk(s, x) ensures SectionOk(s', x) {
      if p.Scan2? && Passes(s, s.registry[p.i], p.gp) {
        ScanKeepsSection(s, u, x);
      }
    }
    UpdaterFrame(s, s', u);
  }

  lemma FlipGpInv(s: State, u: nat)
    requires Inv(s) && UpdaterEnabled(s, u, FlipGp)
    ensures Inv(UpdaterNext(s, u, FlipGp))
  {
    assert UpdaterOk(s, u);
    GpWords(|s.done|);
    UpdaterFrame(s, UpdaterNext(s, u, FlipGp), u);
  }

  lemma ReturnInv(s: State, u: nat)
    requires Inv(s) && UpdaterEnabled(s, u, Return)
    ensures Inv(UpdaterNext(s, u, Return))
  {
    var s' := UpdaterNext(s, u, Return);
    assert UpdaterOk(s, u);
    forall x | 0 <= x < |s.readers| && Active(s.readers[x].word) && SectionOk(s, x) ensures SectionOk(s', x) {
      assert ReaderOk(s, x);
    }
    UpdaterFrame(s, s', u);
  }

  lemma NextInv(s: State, a: Step)
    requires Inv(s) && Enabled(s, a)
    ensures Inv(Next(s, a))
  {
    match a
    case R(t, AddLock) => AddLockInv(s, t);
    case R(t, AddUnlock) => AddUnlockInv(s, t);
    case R(t, DelLock) => DelLockInv(s, t);
    case R(t, DelUnlock) => DelUnlockInv(s, t);
    case R(t, AddLink) => AddLinkInv(s, t);
    case R(t, ReadLock) => ReadLockInv(s, t);
    case R(t, ReadUnlock) => ReadUnlockInv(s, t);
    case R(t, LoadGp) => LoadGpInv(s, t);
    case R(t, StoreWord) => StoreWordInv(s, t);
    case R(t, AddNest) => AddNestInv(s, t);
    case R(t, SubNest) => SubNestInv(s, t);
    case R(t, DelUnlink) => DelUnlinkInv(s, t);
    case U(u, Synchronize) => SynchronizeInv(s, u);
    case U(u, TakeLock) => TakeLockInv(s, u);
    case U(u, LoadCurr) => LoadCurrInv(s, u);
    case U(u, Scan) => ScanInv(s, u);
    case U(u, FlipGp) => FlipGpInv(s, u);
    case U(u, Return) => ReturnInv(s, u);
  }
}
