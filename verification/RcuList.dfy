/** RCU-protected lists (`include/mthpc/rculist.h`): writers serialised by a lock write one
    pointer a step, any number of readers follow `next` meanwhile. Nodes are numbered by
    allocation, node 0 is the list head. */
module RcuList {
  import opened Seqs

  const HEAD: nat := 0

  /** The `next` pointers of allocated nodes. History: `born` and `gone` are the times at which a
      node was published and unlinked; `pos` places all nodes ever published in list order,
      between 0 for the head as start and 1 for it as end. */
  datatype List = List(next: map<nat, nat>, born: map<nat, nat>, gone: map<nat, nat>, pos: map<nat, real>) {
    predicate Listed(x: nat) { x in born && x !in gone }
    predicate OnRing(x: nat) { x == HEAD || Listed(x) }
    function Start(x: nat): real { if x == HEAD then 0.0 else if x in pos then pos[x] else 0.0 }
    function End(x: nat): real { if x == HEAD then 1.0 else if x in pos then pos[x] else 0.0 }
  }

  /** The serialised writer. `Add(n, p, q, k)` has done `k` of the four stores that put `n`
      between `p` and `q`; `Del(x, p, q, k)` has done `k` of the three that take `x` out. */
  datatype Writer =
    | Rest
    | Add(n: nat, p: nat, q: nat, k: nat)
    | Del(x: nat, p: nat, q: nat, k: nat)

  /** A reader in its critical section, entered at time `since`, stands at node `at` (at the head
      before its first hop) or has come back to the head. History: the nodes it has `seen`. */
  datatype Walker =
    | Outside
    | Walking(since: nat, at: nat, seen: seq<nat>)
    | Finished(since: nat, seen: seq<nat>)

  /** No entry in `prev` is a null pointer. */
  datatype State = State(
    list: List,
    prev: map<nat, nat>,
    writer: Writer,
    walkers: seq<Walker>,
    nextNode: nat,
    now: nat)

  datatype Step =
    | BeginAdd(h: nat) | BeginAddTail(h: nat) | BeginDel(x: nat) | Write
    | Reclaim(x: nat)
    | Enter(t: nat) | Hop(t: nat) | Exit(t: nat)

  predicate Init(s: State) {
    && s.list == List(map[HEAD := HEAD], map[], map[], map[])
    && s.prev == map[HEAD := HEAD] && s.writer == Rest && s.nextNode == 1
    && (forall t :: 0 <= t < |s.walkers| ==> s.walkers[t] == Outside)
  }

  predicate Enabled(s: State, a: Step) {
    match a
    case BeginAdd(h) => s.writer.Rest? && s.list.OnRing(h) && h in s.list.next
    case BeginAddTail(h) => s.writer.Rest? && s.list.OnRing(h) && h in s.prev
    case BeginDel(x) => s.writer.Rest? && s.list.Listed(x) && x in s.list.next && x in s.prev
    case Write => s.writer.Add? || s.writer.Del?
    // The grace-period guarantee: every section that was running at the unlink has ended.
    case Reclaim(x) =>
      x in s.list.gone && x in s.list.next && !(s.writer.Del? && s.writer.x == x)
      && forall t :: 0 <= t < |s.walkers| ==> s.walkers[t].Outside? || s.list.gone[x] < s.walkers[t].since
    case Enter(t) => t < |s.walkers| && s.walkers[t].Outside?
    case Hop(t) => t < |s.walkers| && s.walkers[t].Walking? && s.walkers[t].at in s.list.next
    case Exit(t) => t < |s.walkers| && !s.walkers[t].Outside?
  }

  /** The list after the store that publishes `n`. */
  function Publish(l: List, n: nat, p: nat, q: nat, now: nat): List {
    List(l.next[p := n], l.born[n := now], l.gone, l.pos[n := (l.Start(p) + l.End(q)) / 2.0])
  }

  /** The list after the store that unlinks `x`. */
  function Unlink(l: List, x: nat, p: nat, q: nat, now: nat): List {
    l.(next := l.next[p := q], gone := l.gone[x := now])
  }

  /** One store of the writer, in the order of `__mthpc_list_add_rcu` and `mthpc_list_del_rcu`. */
  function WriteNext(s: State): State
    requires s.writer.Add? || s.writer.Del?
  {
    match s.writer
    case Add(n, p, q, k) =>
      var w := Add(n, p, q, k + 1);
      if k == 0 then s.(prev := s.prev[q := n], writer := w)
      else if k == 1 then s.(list := s.list.(next := s.list.next[n := q]), writer := w)
      else if k == 2 then s.(prev := s.prev[n := p], writer := w)
      else s.(list := Publish(s.list, n, p, q, s.now), writer := Rest)
    case Del(x, p, q, k) =>
      var w := Del(x, p, q, k + 1);
      if k == 0 then s.(prev := s.prev[q := p], writer := w)
      else if k == 1 then s.(list := Unlink(s.list, x, p, q, s.now), writer := w)
      else s.(prev := s.prev - {x}, writer := Rest)
  }

  function HopNext(s: State, t: nat): Walker
    requires Enabled(s, Hop(t))
  {
    var w := s.walkers[t];
    var z := s.list.next[w.at];
    if z == HEAD then Finished(w.since, w.seen) else Walking(w.since, z, w.seen + [z])
  }

  function Effect(s: State, a: Step): State
    requires Enabled(s, a)
  {
    match a
    case BeginAdd(h) => s.(writer := Add(s.nextNode, h, s.list.next[h], 0), nextNode := s.nextNode + 1)
    case BeginAddTail(h) => s.(writer := Add(s.nextNode, s.prev[h], h, 0), nextNode := s.nextNode + 1)
    case BeginDel(x) => s.(writer := Del(x, s.prev[x], s.list.next[x], 0))
    case Write => WriteNext(s)
    case Reclaim(x) => s.(list := s.list.(next := s.list.next - {x}))
    case Enter(t) => s.(walkers := s.walkers[t := Walking(s.now, HEAD, [])])
    case Hop(t) => s.(walkers := s.walkers[t := HopNext(s, t)])
    case Exit(t) => s.(walkers := s.walkers[t := Outside])
  }

  function Next(s: State, a: Step): State
    requires Enabled(s, a)
  {
    Effect(s, a).(now := s.now + 1)
  }

  predicate Run(ss: seq<State>, steps: seq<Step>) {
    && |ss| == |steps| + 1
    && forall i :: 0 <= i < |steps| ==> Enabled(ss[i], steps[i]) && ss[i + 1] == Next(ss[i], steps[i])
  }

  // ---------------------------------------------------------------- invariant

  ghost predicate Places(l: List) {
    && l.pos.Keys == l.born.Keys && HEAD !in l.born && l.gone.Keys <= l.born.Keys
    && (forall x :: x in l.born ==> 0.0 < l.pos[x] < 1.0)
    && (forall x, y :: l.Listed(x) && l.Listed(y) && x != y ==> l.pos[x] != l.pos[y])
  }

  /** The link out of a listed node or the head skips no listed node. */
  ghost predicate RingLink(l: List, x: nat) {
    && x in l.next && l.OnRing(l.next[x]) && l.Start(x) < l.End(l.next[x])
    && forall y :: y in l.born && y !in l.gone && l.Start(x) < l.Start(y) <= l.End(l.next[x]) ==> y == l.next[x]
  }

  /** The link out of an unlinked node that has not been reclaimed goes on in list order, to a
      node listed at the time of the unlink, past nodes gone by now or published later. */
  ghost predicate StaleLink(l: List, x: nat) {
    x in l.gone && x in l.next &&
    var z := l.next[x];
    && (z == HEAD || z in l.born) && l.Start(x) < l.End(z)
    && (z in l.gone ==> l.gone[x] < l.gone[z])
    && forall y :: y in l.born && y !in l.gone && l.Start(x) < l.Start(y) <= l.End(z) && y != z ==> l.born[y] > l.gone[x]
  }

  ghost predicate Ring(l: List) {
    forall x {:trigger RingLink(l, x)} :: l.OnRing(x) ==> RingLink(l, x)
  }

  ghost predicate Stale(l: List) {
    forall x {:trigger StaleLink(l, x)} :: x in l.gone && x in l.next ==> StaleLink(l, x)
  }

  /** `prev` is right at `x`; `next` of `x` is answered by a `prev`. */
  ghost predicate Back(l: List, prev: map<nat, nat>, x: nat) {
    x in prev && l.OnRing(prev[x]) && prev[x] in l.next && l.next[prev[x]] == x
  }

  ghost predicate Forth(l: List, prev: map<nat, nat>, x: nat) {
    x in l.next && l.next[x] in prev && prev[l.next[x]] == x
  }

  /** `prev` inverts `next`, except at `b` (if `prev` has changed) and `f` (if `next` has not). */
  ghost predicate Inverse(l: List, prev: map<nat, nat>, changed: bool, b: nat, f: nat) {
    && (forall y {:trigger Back(l, prev, y)} :: l.OnRing(y) && !(changed && y == b) ==> Back(l, prev, y))
    && (forall y {:trigger Forth(l, prev, y)} :: l.OnRing(y) && !(changed && y == f) ==> Forth(l, prev, y))
  }

  ghost predicate WriterOk(l: List, prev: map<nat, nat>, w: Writer, nextNode: nat) {
    match w
    case Rest => Inverse(l, prev, false, 0, 0)
    case Add(n, p, q, k) =>
      && k <= 3 && n !in l.born && n != HEAD && n < nextNode && l.OnRing(p) && l.OnRing(q)
      && p in l.next && l.next[p] == q
      && (k >= 1 ==> q in prev && prev[q] == n)
      && (k >= 2 ==> n in l.next && l.next[n] == q)
      && (k >= 3 ==> n in prev && prev[n] == p)
      && Inverse(l, prev, k >= 1, q, p)
    case Del(x, p, q, k) =>
      && k <= 2 && x != HEAD && x in l.born && l.OnRing(p) && l.OnRing(q) && p in l.next && x in l.next
      && p != x && q != x && (x in l.gone <==> k == 2)
      && l.next[x] == q && l.next[p] == (if k == 2 then q else x)
      && (k >= 1 ==> q in prev && prev[q] == p)
      && Inverse(l, prev, k == 1, q, x)
  }

  /** Nothing unlinked since `since` has been reclaimed. */
  ghost predicate Intact(l: List, since: nat) {
    forall z :: z in l.gone && z !in l.next ==> l.gone[z] < since
  }

  /** The nodes at which a reader in a section since `since` can stand. */
  ghost predicate Standing(l: List, since: nat, x: nat) {
    x == HEAD || (x in l.born && (x in l.gone ==> since <= l.gone[x] && x in l.next))
  }

  /** What has been seen is in list order. */
  ghost predicate InOrder(pos: map<nat, real>, seen: seq<nat>) {
    && (forall i :: 0 <= i < |seen| ==> seen[i] in pos)
    && (forall i, j :: 0 <= i < j < |seen| ==> pos[seen[i]] < pos[seen[j]])
  }

  /** What has been seen lies at most this far in the list. */
  ghost predicate UpTo(l: List, seen: seq<nat>, place: real) {
    forall i :: 0 <= i < |seen| ==> l.Start(seen[i]) <= place
  }

  /** All nodes up to this place that were published before `since` and are listed have been seen. */
  ghost predicate NoneMissed(l: List, since: nat, seen: seq<nat>, place: real) {
    forall y :: y in l.born && y !in l.gone && l.born[y] < since && l.Start(y) <= place ==> y in seen
  }

  ghost predicate WalkerOk(l: List, w: Walker) {
    match w
    case Outside => true
    case Walking(since, x, seen) =>
      && Standing(l, since, x) && InOrder(l.pos, seen) && Intact(l, since)
      && UpTo(l, seen, l.Start(x)) && NoneMissed(l, since, seen, l.Start(x))
    case Finished(since, seen) => InOrder(l.pos, seen) && NoneMissed(l, since, seen, 1.0)
  }

  ghost predicate Walkers(l: List, ws: seq<Walker>) {
    forall t :: 0 <= t < |ws| ==> WalkerOk(l, ws[t])
  }

  /** History lies in the past. */
  ghost predicate Past(s: State) {
    && (forall x :: x in s.list.born ==> s.list.born[x] < s.now && x < s.nextNode)
    && (forall x :: x in s.list.gone ==> s.list.gone[x] < s.now)
    && (forall t :: 0 <= t < |s.walkers| && !s.walkers[t].Outside? ==> s.walkers[t].since < s.now)
    && s.nextNode > HEAD
  }

  ghost predicate Inv(s: State) {
    && Past(s) && Places(s.list) && Ring(s.list) && Stale(s.list)
    && WriterOk(s.list, s.prev, s.writer, s.nextNode)
    && Walkers(s.list, s.walkers)
  }

  lemma InitInv(s: State)
    requires Init(s)
    ensures Inv(s)
  {
  }

  lemma BeginAddInv(s: State, a: Step)
    requires Inv(s) && (a.BeginAdd? || a.BeginAddTail?) && Enabled(s, a)
    ensures Inv(Next(s, a))
  {
    hide Walkers, Places, Stale;
    assert Back(s.list, s.prev, a.h) && RingLink(s.list, a.h);
  }

  lemma BeginDelInv(s: State, a: Step)
    requires Inv(s) && a.BeginDel? && Enabled(s, a)
    ensures Inv(Next(s, a))
  {
    hide Walkers, Stale;
    assert Back(s.list, s.prev, a.x) && RingLink(s.list, a.x) && RingLink(s.list, s.prev[a.x]);
  }

  lemma EnterExitInv(s: State, a: Step)
    requires Inv(s) && (a.Enter? || a.Exit?) && Enabled(s, a)
    ensures Inv(Next(s, a))
  {
    hide Ring, Stale, WriterOk;
  }

  /** The node that a reader steps to is one at which it can stand, further on in the list. */
  lemma HopForward(l: List, since: nat, x: nat)
    requires Ring(l) && Stale(l) && Standing(l, since, x) && Intact(l, since)
    ensures x in l.next && l.Start(x) < l.End(l.next[x]) && Standing(l, since, l.next[x])
  {
    assert l.OnRing(x) ==> RingLink(l, x);
    assert x in l.gone ==> StaleLink(l, x);
  }

  /** It passes no node that has been listed since before the reader's section. */
  lemma HopSkipsNone(l: List, since: nat, x: nat, y: nat)
    requires Ring(l) && Stale(l) && Standing(l, since, x) && x in l.next
    requires y in l.born && y !in l.gone && l.born[y] < since && l.Start(x) < l.Start(y) <= l.End(l.next[x])
    ensures y == l.next[x]
  {
    assert l.OnRing(x) ==> RingLink(l, x);
    assert x in l.gone ==> StaleLink(l, x);
  }

  /** So it has seen all those up to the node that it steps to. */
  lemma HopSees(l: List, since: nat, x: nat, seen: seq<nat>)
    requires Ring(l) && Stale(l) && WalkerOk(l, Walking(since, x, seen)) && x in l.next
    ensures var z := l.next[x]; NoneMissed(l, since, seen + [z], l.End(z))
  {
    hide Ring, Stale, Standing, Intact, InOrder, List.Start, List.End;
    var z := l.next[x];
    forall y | y in l.born && y !in l.gone && l.born[y] < since && l.Start(y) <= l.End(z) ensures y in seen + [z] {
      if l.Start(y) > l.Start(x) {
        HopSkipsNone(l, since, x, y);
      }
    }
  }

  /** A node further on than all those seen continues their order. */
  lemma SeenGrows(l: List, seen: seq<nat>, z: nat, place: real)
    requires Places(l) && InOrder(l.pos, seen) && z in l.born && place < l.Start(z) && UpTo(l, seen, place)
    ensures InOrder(l.pos, seen + [z]) && UpTo(l, seen + [z], l.Start(z))
  {
  }

  lemma HopKeeps(l: List, since: nat, x: nat, seen: seq<nat>)
    requires Places(l) && Ring(l) && Stale(l) && WalkerOk(l, Walking(since, x, seen))
    ensures x in l.next
    ensures var z := l.next[x];
            WalkerOk(l, if z == HEAD then Finished(since, seen) else Walking(since, z, seen + [z]))
  {
    hide Ring, Stale, InOrder, Intact;
    HopForward(l, since, x);
    HopSees(l, since, x, seen);
    var z := l.next[x];
    if z != HEAD {
      SeenGrows(l, seen, z, l.Start(x));
    }
  }

  lemma HopInv(s: State, a: Step)
    requires Inv(s) && a.Hop? && Enabled(s, a)
    ensures Inv(Next(s, a))
  {
    hide Ring, Stale, WriterOk, Places, WalkerOk;
    var w := s.walkers[a.t];
    HopKeeps(s.list, w.since, w.at, w.seen);
  }

  /** The places between `p` and its successor are not between another node and its successor. */
  lemma Between(l: List, p: nat, x: nat)
    requires Places(l) && RingLink(l, p) && RingLink(l, x) && l.OnRing(p) && l.OnRing(x) && p != x
    ensures l.End(l.next[p]) <= l.Start(x) || l.End(l.next[x]) <= l.Start(p)
  {
    if x != HEAD && l.Start(p) < l.Start(x) <= l.End(l.next[p]) {
      assert x == l.next[p];
    }
    if p != HEAD && l.Start(x) < l.Start(p) <= l.End(l.next[x]) {
      assert p == l.next[x];
    }
  }

  // ---------------------------------------------------------------- stores of the writer

  /** A store that does not touch the links of published nodes. */
  lemma PrivateStore(l: List, n: nat, q: nat, prev: map<nat, nat>)
    requires n != HEAD && n !in l.born && l.gone.Keys <= l.born.Keys
    ensures var l' := l.(next := l.next[n := q]);
            && (Ring(l) ==> Ring(l')) && (Stale(l) ==> Stale(l'))
            && (forall w :: WalkerOk(l, w) ==> WalkerOk(l', w))
            && (forall y :: l.OnRing(y) ==> (Back(l, prev, y) ==> Back(l', prev, y)) && (Forth(l, prev, y) ==> Forth(l', prev, y)))
  {
    var l' := l.(next := l.next[n := q]);
    forall x | Ring(l) && l'.OnRing(x) ensures RingLink(l', x) {
      assert RingLink(l, x);
    }
    forall x | Stale(l) && x in l'.gone && x in l'.next ensures StaleLink(l', x) {
      assert StaleLink(l, x);
    }
    hide InOrder;
    forall w | WalkerOk(l, w) ensures WalkerOk(l', w) {
    }
  }

  lemma PublishPlaces(l: List, n: nat, p: nat, q: nat, now: nat)
    requires Places(l) && RingLink(l, p) && l.next[p] == q && n != HEAD && n !in l.born
    ensures var l' := Publish(l, n, p, q, now);
            && l'.Start(n) == l'.End(n) && l.Start(p) < l'.Start(n) < l.End(q)
            && l'.next == l.next[p := n] && l'.born == l.born[n := now] && l'.gone == l.gone
            && (forall y :: y != n ==> l'.Start(y) == l.Start(y) && l'.End(y) == l.End(y))
            && (forall y :: l'.OnRing(y) <==> l.OnRing(y) || y == n) && n !in l.pos
  {
  }

  /** The links out of `p` and `n` after publishing `n`. */
  lemma PublishNew(l: List, n: nat, p: nat, q: nat, now: nat, x: nat)
    requires Places(l) && RingLink(l, p) && l.OnRing(p) && l.next[p] == q && n != HEAD && n !in l.born
    requires n in l.next && l.next[n] == q && x in {n, p}
    ensures RingLink(Publish(l, n, p, q, now), x)
  {
    PublishPlaces(l, n, p, q, now);
    hide Publish, List.Start, List.End;
    var l' := Publish(l, n, p, q, now);
    forall y | y in l'.born && y !in l'.gone && l'.Start(x) < l'.Start(y) <= l'.End(l'.next[x]) ensures y == l'.next[x] {
      if y != n {
        assert y in l.born && y !in l.gone && l.Start(p) < l.Start(y) <= l.End(q);
      }
    }
  }

  /** The other links. */
  lemma PublishOld(l: List, n: nat, p: nat, q: nat, now: nat, x: nat)
    requires Places(l) && RingLink(l, p) && l.OnRing(p) && l.next[p] == q && n != HEAD && n !in l.born
    requires l.OnRing(x) && RingLink(l, x) && x != p
    ensures RingLink(Publish(l, n, p, q, now), x)
  {
    PublishPlaces(l, n, p, q, now);
    Between(l, p, x);
    hide Publish, List.Start, List.End;
    var l' := Publish(l, n, p, q, now);
    forall y | y in l'.born && y !in l'.gone && l'.Start(x) < l'.Start(y) <= l'.End(l'.next[x]) ensures y == l'.next[x] {
      assert y != n;
    }
  }

  /** Publishing keeps the ring: `n` comes between `p` and `q`. */
  lemma PublishRing(l: List, n: nat, p: nat, q: nat, now: nat)
    requires Places(l) && Ring(l) && n != HEAD && n !in l.born
    requires l.OnRing(p) && p in l.next && l.next[p] == q && n in l.next && l.next[n] == q
    ensures Ring(Publish(l, n, p, q, now))
  {
    assert RingLink(l, p);
    var l' := Publish(l, n, p, q, now);
    PublishPlaces(l, n, p, q, now);
    hide Places, Publish, RingLink, List.OnRing;
    forall x | l'.OnRing(x) ensures RingLink(l', x) {
      if x == n || x == p {
        PublishNew(l, n, p, q, now, x);
      } else {
        assert RingLink(l, x);
        PublishOld(l, n, p, q, now, x);
      }
    }
  }

  lemma NothingBetween(l: List, p: nat, y: nat)
    requires Places(l) && RingLink(l, p) && l.Listed(y) && l.Start(p) < l.Start(y)
    ensures l.End(l.next[p]) <= l.Start(y)
  {
  }

  lemma PublishKeepsPlaces(l: List, n: nat, p: nat, q: nat, now: nat)
    requires Places(l) && RingLink(l, p) && l.OnRing(p) && l.next[p] == q && n != HEAD && n !in l.born
    ensures Places(Publish(l, n, p, q, now))
  {
    hide RingLink, List.OnRing, List.Start, List.End;
    NewPlace(l, n, p, q, now);
    forall y | l.Listed(y) ensures Publish(l, n, p, q, now).pos[n] != l.pos[y] {
      PlaceApart(l, n, p, q, now, y);
    }
  }

  lemma NewPlace(l: List, n: nat, p: nat, q: nat, now: nat)
    requires Places(l) && RingLink(l, p) && l.OnRing(p) && l.next[p] == q && n != HEAD && n !in l.born
    ensures 0.0 < Publish(l, n, p, q, now).pos[n] < 1.0
  {
    PublishPlaces(l, n, p, q, now);
  }

  lemma PlaceApart(l: List, n: nat, p: nat, q: nat, now: nat, y: nat)
    requires Places(l) && RingLink(l, p) && l.OnRing(p) && l.next[p] == q && n != HEAD && n !in l.born && l.Listed(y)
    ensures Publish(l, n, p, q, now).pos[n] != l.pos[y]
  {
    PublishPlaces(l, n, p, q, now);
    if l.Start(p) < l.Start(y) {
      NothingBetween(l, p, y);
    }
  }

  lemma PublishStale(l: List, n: nat, p: nat, q: nat, now: nat)
    requires Places(l) && RingLink(l, p) && l.OnRing(p) && l.next[p] == q && n != HEAD && n !in l.born
    requires Stale(l) && forall x :: x in l.gone ==> l.gone[x] < now
    ensures Stale(Publish(l, n, p, q, now))
  {
    PublishPlaces(l, n, p, q, now);
    var l' := Publish(l, n, p, q, now);
    hide Publish, List.Start, List.End, RingLink;
    forall x | x in l'.gone && x in l'.next ensures StaleLink(l', x) {
      assert x in l.next && StaleLink(l, x);
    }
  }

  lemma PublishWalker(l: List, n: nat, p: nat, q: nat, now: nat, w: Walker)
    requires Places(l) && RingLink(l, p) && l.OnRing(p) && l.next[p] == q && n != HEAD && n !in l.born
    requires WalkerOk(l, w) && (!w.Outside? ==> w.since < now)
    ensures WalkerOk(Publish(l, n, p, q, now), w)
  {
    hide Publish, RingLink, List.Start, List.End, Places, InOrder, UpTo, NoneMissed, Standing, Intact;
    PublishPlaces(l, n, p, q, now);
    match w
    case Outside =>
    case Walking(since, x, seen) =>
      PublishStands(l, n, p, q, now, since, x);
      PublishOrder(l, n, p, q, now, seen);
      PublishSeen(l, n, p, q, now, since, l.Start(x), seen);
    case Finished(since, seen) =>
      PublishOrder(l, n, p, q, now, seen);
      PublishMissed(l, n, p, q, now, since, 1.0, seen);
  }

  lemma PublishStands(l: List, n: nat, p: nat, q: nat, now: nat, since: nat, x: nat)
    requires Places(l) && RingLink(l, p) && l.OnRing(p) && l.next[p] == q && n != HEAD && n !in l.born
    requires Standing(l, since, x) && Intact(l, since)
    ensures var l' := Publish(l, n, p, q, now); Standing(l', since, x) && Intact(l', since) && l'.Start(x) == l.Start(x)
  {
    hide RingLink, List.Start, List.End, Places;
    PublishPlaces(l, n, p, q, now);
  }

  /** What a reader has seen, and must have, up to a place. */
  lemma PublishSeen(l: List, n: nat, p: nat, q: nat, now: nat, since: nat, place: real, seen: seq<nat>)
    requires Places(l) && RingLink(l, p) && l.next[p] == q && n != HEAD && n !in l.born && since < now
    requires InOrder(l.pos, seen) && UpTo(l, seen, place) && NoneMissed(l, since, seen, place)
    ensures var l' := Publish(l, n, p, q, now); UpTo(l', seen, place) && NoneMissed(l', since, seen, place)
  {
    hide Publish, RingLink, List.Start, List.End;
    PublishPlaces(l, n, p, q, now);
    PublishMissed(l, n, p, q, now, since, place, seen);
  }

  lemma PublishMissed(l: List, n: nat, p: nat, q: nat, now: nat, since: nat, place: real, seen: seq<nat>)
    requires Places(l) && RingLink(l, p) && l.next[p] == q && n != HEAD && n !in l.born && since < now
    requires NoneMissed(l, since, seen, place)
    ensures NoneMissed(Publish(l, n, p, q, now), since, seen, place)
  {
    hide Publish, RingLink, List.Start, List.End, Places;
    PublishPlaces(l, n, p, q, now);
  }

  lemma PublishOrder(l: List, n: nat, p: nat, q: nat, now: nat, seen: seq<nat>)
    requires n !in l.pos && InOrder(l.pos, seen)
    ensures InOrder(Publish(l, n, p, q, now).pos, seen)
  {
  }

  lemma PublishInverse(l: List, n: nat, p: nat, q: nat, now: nat, prev: map<nat, nat>)
    requires Places(l) && RingLink(l, p) && l.OnRing(p) && l.next[p] == q && n != HEAD && n !in l.born
    requires Inverse(l, prev, true, q, p) && n in l.next && l.next[n] == q && n in prev && prev[n] == p
    requires q in prev && prev[q] == n && l.OnRing(q)
    ensures Inverse(Publish(l, n, p, q, now), prev, false, 0, 0)
  {
    PublishPlaces(l, n, p, q, now);
    var l' := Publish(l, n, p, q, now);
    hide Publish, RingLink, Places, List.OnRing;
    forall y | l'.OnRing(y) ensures Back(l', prev, y) {
      if y != n && y != q {
        assert Back(l, prev, y);
      }
    }
    forall y | l'.OnRing(y) ensures Forth(l', prev, y) {
      if y != n && y != p {
        assert Forth(l, prev, y);
      }
    }
  }

  lemma UnlinkRing(l: List, x: nat, p: nat, q: nat, now: nat)
    requires Places(l) && Ring(l) && l.Listed(x) && l.OnRing(p) && p != x
    requires RingLink(l, p) && l.next[p] == x && RingLink(l, x) && l.next[x] == q && q != x
    ensures Ring(Unlink(l, x, p, q, now)) && Places(Unlink(l, x, p, q, now))
  {
    var l' := Unlink(l, x, p, q, now);
    forall y | l'.OnRing(y) ensures RingLink(l', y) {
      UnlinkLink(l, x, p, q, now, y);
    }
  }

  lemma UnlinkLink(l: List, x: nat, p: nat, q: nat, now: nat, y: nat)
    requires Places(l) && Ring(l) && l.Listed(x) && l.OnRing(p) && p != x
    requires RingLink(l, p) && l.next[p] == x && RingLink(l, x) && l.next[x] == q && q != x
    requires l.OnRing(y) && y != x
    ensures RingLink(Unlink(l, x, p, q, now), y)
  {
    hide Places, Ring;
    RingAt(l, y);
    if y != p {
      Between(l, p, y);
    }
  }

  lemma UnlinkStale(l: List, x: nat, p: nat, q: nat, now: nat)
    requires Stale(l) && l.Listed(x) && l.OnRing(p) && p != x && HEAD !in l.gone && x != HEAD
    requires RingLink(l, p) && l.next[p] == x && RingLink(l, x) && l.next[x] == q && q != x
    requires forall x :: x in l.gone ==> l.gone[x] < now
    ensures Stale(Unlink(l, x, p, q, now))
  {
    var l' := Unlink(l, x, p, q, now);
    forall y | y in l'.gone && y in l'.next ensures StaleLink(l', y) {
      if y != x {
        assert StaleLink(l, y);
      }
    }
  }

  lemma UnlinkInverse(l: List, x: nat, p: nat, q: nat, now: nat, prev: map<nat, nat>)
    requires Inverse(l, prev, true, q, x) && l.Listed(x) && x != HEAD && l.OnRing(p) && p != x && q != x
    requires p in l.next && l.next[p] == x && x in l.next && l.next[x] == q && q in prev && prev[q] == p
    ensures Inverse(Unlink(l, x, p, q, now), prev, false, q, x)
  {
    var l' := Unlink(l, x, p, q, now);
    forall y | l'.OnRing(y) ensures Back(l', prev, y) {
      if y != q {
        assert Back(l, prev, y);
      }
    }
    forall y | l'.OnRing(y) ensures Forth(l', prev, y) {
      if y != p {
        assert Forth(l, prev, y);
      }
    }
  }

  // ---------------------------------------------------------------- steps of the writer

  /** A step that leaves `list` and `walkers` alone and keeps the writer's part. */
  lemma WriterFrame(s: State, s': State)
    requires Inv(s) && s'.list == s.list && s'.walkers == s.walkers
    requires s'.now >= s.now && s'.nextNode >= s.nextNode
    requires WriterOk(s'.list, s'.prev, s'.writer, s'.nextNode)
    ensures Inv(s')
  {
    hide Walkers, Places, Ring, Stale, WriterOk;
  }

  /** A `prev` store at the successor of `f` puts only these two out of step. */
  lemma StoreBack(l: List, prev: map<nat, nat>, f: nat, z: nat, v: nat)
    requires Inverse(l, prev, false, 0, 0) && l.OnRing(f) && f in l.next && l.next[f] == z
    ensures Inverse(l, prev[z := v], true, z, f)
  {
    assert Forth(l, prev, f);
    forall y | l.OnRing(y) && y != z ensures Back(l, prev[z := v], y) {
      assert Back(l, prev, y);
    }
    forall y | l.OnRing(y) && y != f ensures Forth(l, prev[z := v], y) {
      assert Forth(l, prev, y);
    }
  }

  /** A `prev` store at a node that is not on the ring puts nothing out of step. */
  lemma StoreOff(l: List, prev: map<nat, nat>, prev': map<nat, nat>, z: nat, changed: bool, b: nat, f: nat)
    requires Ring(l) && Inverse(l, prev, changed, b, f) && !l.OnRing(z)
    requires forall y :: y != z ==> (y in prev' <==> y in prev) && (y in prev ==> prev'[y] == prev[y])
    ensures Inverse(l, prev', changed, b, f)
  {
    forall y | l.OnRing(y) && !(changed && y == b) ensures Back(l, prev', y) {
      assert Back(l, prev, y);
    }
    forall y | l.OnRing(y) && !(changed && y == f) ensures Forth(l, prev', y) {
      assert Forth(l, prev, y) && RingLink(l, y);
    }
  }

  lemma PrevStoreInv(s: State)
    requires Inv(s) && Enabled(s, Write)
    requires (s.writer.Add? && s.writer.k in {0, 2}) || (s.writer.Del? && s.writer.k in {0, 2})
    ensures Inv(Next(s, Write))
  {
    var w := s.writer;
    var l := s.list;
    if w.k == 0 {
      if w.Add? {
        StoreBack(l, s.prev, w.p, w.q, w.n);
      } else {
        StoreBack(l, s.prev, w.x, w.q, w.p);
      }
    } else if w.Add? {
      StoreOff(l, s.prev, s.prev[w.n := w.p], w.n, true, w.q, w.p);
    } else {
      StoreOff(l, s.prev, s.prev - {w.x}, w.x, false, w.q, w.x);
    }
    hide Inverse, Ring, Stale, Walkers;
    WriterFrame(s, Next(s, Write));
  }

  lemma PrivateStoreInv(s: State)
    requires Inv(s) && s.writer.Add? && s.writer.k == 1
    ensures Inv(Next(s, Write))
  {
    var w, l := s.writer, s.list;
    PrivateStore(l, w.n, w.q, s.prev);
    hide Back, Forth, WalkerOk, Ring, Stale;
  }

  lemma PublishInv(s: State)
    requires Inv(s) && s.writer.Add? && s.writer.k == 3
    ensures Inv(Next(s, Write))
  {
    var w, l, now := s.writer, s.list, s.now;
    hide Inverse, Ring, Stale, WalkerOk, Places, RingLink;
    RingAt(l, w.p);
    PublishRing(l, w.n, w.p, w.q, now);
    PublishKeepsPlaces(l, w.n, w.p, w.q, now);
    PublishStale(l, w.n, w.p, w.q, now);
    PublishInverse(l, w.n, w.p, w.q, now, s.prev);
    forall t | 0 <= t < |s.walkers| ensures WalkerOk(Publish(l, w.n, w.p, w.q, now), s.walkers[t]) {
      PublishWalker(l, w.n, w.p, w.q, now, s.walkers[t]);
    }
  }

  lemma UnlinkWalker(l: List, x: nat, p: nat, q: nat, now: nat, w: Walker)
    requires Places(l) && WalkerOk(l, w) && l.Listed(x) && x in l.next && p in l.next
    requires !w.Outside? ==> w.since < now
    ensures WalkerOk(Unlink(l, x, p, q, now), w)
  {
    hide InOrder;
  }

  lemma UnlinkInv(s: State)
    requires Inv(s) && s.writer.Del? && s.writer.k == 1
    ensures Inv(Next(s, Write))
  {
    var w, l, now := s.writer, s.list, s.now;
    hide Inverse, Ring, Stale, WalkerOk, Places, RingLink;
    RingAt(l, w.p);
    RingAt(l, w.x);
    UnlinkRing(l, w.x, w.p, w.q, now);
    UnlinkStale(l, w.x, w.p, w.q, now);
    UnlinkInverse(l, w.x, w.p, w.q, now, s.prev);
    forall t | 0 <= t < |s.walkers| ensures WalkerOk(Unlink(l, w.x, w.p, w.q, now), s.walkers[t]) {
      UnlinkWalker(l, w.x, w.p, w.q, now, s.walkers[t]);
    }
  }

  lemma RingAt(l: List, x: nat)
    requires Ring(l) && Places(l)
    ensures l.OnRing(x) ==> RingLink(l, x)
    ensures HEAD !in l.gone && HEAD !in l.born
  {
  }

  /** Freeing the memory of `x`. */
  lemma ReclaimList(l: List, x: nat, prev: map<nat, nat>, changed: bool, b: nat, f: nat)
    requires x in l.gone && x in l.next && Ring(l) && Stale(l) && Inverse(l, prev, changed, b, f) && HEAD !in l.gone
    ensures var l' := l.(next := l.next - {x}); Ring(l') && Stale(l') && Inverse(l', prev, changed, b, f)
  {
    var l' := l.(next := l.next - {x});
    forall y | l'.OnRing(y) ensures RingLink(l', y) {
      assert RingLink(l, y);
    }
    forall y | y in l'.gone && y in l'.next ensures StaleLink(l', y) {
      assert StaleLink(l, y);
    }
    forall y | l.OnRing(y) && !(changed && y == b) ensures Back(l', prev, y) {
      assert Back(l, prev, y);
    }
    forall y | l.OnRing(y) && !(changed && y == f) ensures Forth(l', prev, y) {
      assert Forth(l, prev, y);
    }
  }

  lemma ReclaimInv(s: State, a: Step)
    requires Inv(s) && a.Reclaim? && Enabled(s, a)
    ensures Inv(Next(s, a))
  {
    var l := s.list;
    hide Inverse, Ring, Stale, Places, WalkerOk;
    RingAt(l, HEAD);
    match s.writer {
      case Rest => ReclaimList(l, a.x, s.prev, false, 0, 0);
      case Add(n, p, q, k) => ReclaimList(l, a.x, s.prev, k >= 1, q, p);
      case Del(x, p, q, k) => ReclaimList(l, a.x, s.prev, k == 1, q, x);
    }
    SmallerPlaces(l, a.x);
    forall t | 0 <= t < |s.walkers| ensures WalkerOk(l.(next := l.next - {a.x}), s.walkers[t]) {
      ReclaimWalker(l, a.x, s.walkers[t]);
    }
  }

  lemma SmallerPlaces(l: List, x: nat)
    ensures Places(l) ==> Places(l.(next := l.next - {x}))
  {
  }

  /** The grace period keeps the memory of `x` from every reader that might stand there. */
  lemma ReclaimWalker(l: List, x: nat, w: Walker)
    requires WalkerOk(l, w) && x in l.gone && (!w.Outside? ==> l.gone[x] < w.since) && HEAD !in l.gone
    ensures WalkerOk(l.(next := l.next - {x}), w)
  {
    hide InOrder;
  }

  lemma NextInv(s: State, a: Step)
    requires Inv(s) && Enabled(s, a)
    ensures Inv(Next(s, a))
  {
    match a
    case BeginAdd(_) => BeginAddInv(s, a);
    case BeginAddTail(_) => BeginAddInv(s, a);
    case BeginDel(_) => BeginDelInv(s, a);
    case Write =>
      assert s.writer.k <= 3 && (s.writer.Del? ==> s.writer.k <= 2);
      if s.writer.k in {0, 2} {
        PrevStoreInv(s);
      } else if s.writer.Del? {
        UnlinkInv(s);
      } else if s.writer.k == 1 {
        PrivateStoreInv(s);
      } else {
        PublishInv(s);
      }
    case Reclaim(_) => ReclaimInv(s, a);
    case Enter(_) => EnterExitInv(s, a);
    case Hop(_) => HopInv(s, a);
    case Exit(_) => EnterExitInv(s, a);
  }

  // ---------------------------------------------------------------- what readers get

  lemma {:induction false} RunInv(ss: seq<State>, steps: seq<Step>, i: nat)
    requires |ss| > 0 && Init(ss[0]) && Run(ss, steps) && i < |ss|
    ensures Inv(ss[i])
  {
    hide Init, Inv, Enabled, Next;
    if i == 0 {
      InitInv(ss[0]);
    } else {
      RunInv(ss, steps, i - 1);
      NextInv(ss[i - 1], steps[i - 1]);
    }
  }

  /** A reader never stands at a reclaimed node, nor does the next hop take it to one: it can
      always go on. */
  lemma NeverReclaimed(ss: seq<State>, steps: seq<Step>, i: nat, t: nat)
    requires |ss| > 0 && Init(ss[0]) && Run(ss, steps) && i < |ss|
    requires t < |ss[i].walkers| && ss[i].walkers[t].Walking?
    ensures var l, x := ss[i].list, ss[i].walkers[t].at; x in l.next && l.next[x] in l.next
    ensures Enabled(ss[i], Hop(t))
  {
    RunInv(ss, steps, i);
    var l, w := ss[i].list, ss[i].walkers[t];
    assert WalkerOk(l, w);
    HopForward(l, w.since, w.at);
    var z := l.next[w.at];
    assert l.OnRing(z) ==> RingLink(l, z);
  }

  /** A reader sees nodes in list order, and so none of them twice. */
  lemma SeenInOrder(ss: seq<State>, steps: seq<Step>, i: nat, t: nat)
    requires |ss| > 0 && Init(ss[0]) && Run(ss, steps) && i < |ss|
    requires t < |ss[i].walkers| && !ss[i].walkers[t].Outside?
    ensures InOrder(ss[i].list.pos, ss[i].walkers[t].seen)
    ensures Distinct(ss[i].walkers[t].seen)
  {
    RunInv(ss, steps, i);
    assert WalkerOk(ss[i].list, ss[i].walkers[t]);
  }

  /** A reader back at the head has seen every node that was listed when it entered its section
      and still is, whatever was added and removed meanwhile. */
  lemma SeesAllListed(ss: seq<State>, steps: seq<Step>, i: nat, t: nat)
    requires |ss| > 0 && Init(ss[0]) && Run(ss, steps) && i < |ss|
    requires t < |ss[i].walkers| && ss[i].walkers[t].Finished?
    ensures var l, w := ss[i].list, ss[i].walkers[t];
            forall y :: l.Listed(y) && l.born[y] < w.since ==> y in w.seen
  {
    RunInv(ss, steps, i);
    assert WalkerOk(ss[i].list, ss[i].walkers[t]);
  }

  /** Following `next` from `x` comes to the head with the `k`-th hop and not before. */
  predicate Leads(next: map<nat, nat>, x: nat, k: nat)
    decreases k
  {
    k > 0 && x in next && (if k == 1 then next[x] == HEAD else next[x] != HEAD && Leads(next, next[x], k - 1))
  }

  /** The nodes further on than `x`. */
  function Later(l: List, x: nat): set<nat> {
    set y | y in l.born && l.Start(y) > l.Start(x)
  }

  lemma {:induction false} LeadsToHead(l: List, since: nat, x: nat) returns (k: nat)
    requires Places(l) && Ring(l) && Stale(l) && Intact(l, since) && Standing(l, since, x)
    ensures Leads(l.next, x, k) && k <= |Later(l, x)| + 1
    decreases |Later(l, x)|
  {
    HopForward(l, since, x);
    var z := l.next[x];
    if z == HEAD {
      k := 1;
    } else {
      assert z in Later(l, x) && Later(l, z) <= Later(l, x) - {z};
      SubsetSize(Later(l, z), Later(l, x) - {z});
      k := LeadsToHead(l, since, z);
      k := k + 1;
    }
  }

  /** At any moment a reader is finitely many hops from the head, over the pointers as they are:
      at most one for every node further on, listed or not. */
  lemma ReachesHead(ss: seq<State>, steps: seq<Step>, i: nat, t: nat) returns (k: nat)
    requires |ss| > 0 && Init(ss[0]) && Run(ss, steps) && i < |ss|
    requires t < |ss[i].walkers| && ss[i].walkers[t].Walking?
    ensures var l, x := ss[i].list, ss[i].walkers[t].at; Leads(l.next, x, k) && k <= |Later(l, x)| + 1
  {
    RunInv(ss, steps, i);
    var l, w := ss[i].list, ss[i].walkers[t];
    assert WalkerOk(l, w);
    k := LeadsToHead(l, w.since, w.at);
  }

  /** The hops of `t` since its last `Enter` or `Exit`: after `n` of them one more step. */
  function HopsAfter(a: Step, t: nat, n: nat): nat {
    if a == Hop(t) then n + 1 else if a == Enter(t) || a == Exit(t) then 0 else n
  }

  function Hops(steps: seq<Step>, t: nat): nat {
    if steps == [] then 0 else HopsAfter(steps[|steps| - 1], t, Hops(steps[..|steps| - 1], t))
  }

  /** The hops that a reader has made in its section, by what it has seen. */
  function HopsOf(w: Walker): nat {
    match w
    case Outside => 0
    case Walking(_, _, seen) => |seen|
    case Finished(_, seen) => |seen| + 1
  }

  lemma HopsStep(s: State, a: Step, t: nat)
    requires Enabled(s, a) && t < |s.walkers|
    ensures |Next(s, a).walkers| == |s.walkers|
    ensures HopsOf(Next(s, a).walkers[t]) == HopsAfter(a, t, HopsOf(s.walkers[t]))
  {
  }

  /** Every hop but the last one of a finished walk shows the reader one more node. */
  lemma {:induction false} HopsSeen(ss: seq<State>, steps: seq<Step>, t: nat)
    requires |ss| > 0 && Init(ss[0]) && Run(ss, steps) && t < |ss[0].walkers|
    ensures var s := ss[|ss| - 1];
            t < |s.walkers| && Hops(steps, t) == HopsOf(s.walkers[t])
  {
    hide Enabled, Next, HopsAfter;
    if steps != [] {
      var n := |steps| - 1;
      HopsSeen(ss[..n + 1], steps[..n], t);
      HopsStep(ss[n], steps[n], t);
    }
  }

  /** Over any run, however the writer goes on meanwhile: the nodes that a reader has seen since it
      entered its section are at most those published so far, and its hops at most one more. */
  lemma HopBound(ss: seq<State>, steps: seq<Step>, t: nat)
    requires |ss| > 0 && Init(ss[0]) && Run(ss, steps) && t < |ss[0].walkers|
    ensures var s := ss[|ss| - 1];
            && t < |s.walkers|
            && (!s.walkers[t].Outside? ==> |s.walkers[t].seen| <= |s.list.born.Keys|)
            && Hops(steps, t) <= |s.list.born.Keys| + 1
  {
    hide Init, Next, Enabled;
    HopsSeen(ss, steps, t);
    var n := |ss| - 1;
    RunInv(ss, steps, n);
    assert WalkerOk(ss[n].list, ss[n].walkers[t]);
    if !ss[n].walkers[t].Outside? {
      SeenInOrder(ss, steps, n, t);
      DistinctSize(ss[n].walkers[t].seen, ss[n].list.born.Keys);
    }
  }

  /** With the writer at rest `next` and `prev` are inverse to each other all round the ring, and
      the ring links the listed nodes in the order in which readers see them. */
  lemma RestingRing(ss: seq<State>, steps: seq<Step>, i: nat, x: nat)
    requires |ss| > 0 && Init(ss[0]) && Run(ss, steps) && i < |ss|
    requires ss[i].writer.Rest? && ss[i].list.OnRing(x)
    ensures var l, prev := ss[i].list, ss[i].prev;
            && x in l.next && l.next[x] in prev && prev[l.next[x]] == x
            && x in prev && prev[x] in l.next && l.next[prev[x]] == x
            && RingLink(l, x)
  {
    RunInv(ss, steps, i);
    assert Back(ss[i].list, ss[i].prev, x) && Forth(ss[i].list, ss[i].prev, x) && RingLink(ss[i].list, x);
  }

  // ---------------------------------------------------------------- where nodes go

  /** The stores of the writer among the steps. */
  function Writes(steps: seq<Step>): nat {
    if steps == [] then 0 else Writes(steps[..|steps| - 1]) + if steps[|steps| - 1] == Write then 1 else 0
  }

  /** What readers and `Reclaim` may do to the links of the ring in between: nothing. */
  ghost predicate SameRing(l: List, l': List, n: nat) {
    && l'.born == l.born && l'.gone == l.gone && l'.pos == l.pos
    && forall y :: y != n && l.OnRing(y) && y in l.next ==> y in l'.next && l'.next[y] == l.next[y]
  }

  lemma AddStep(s: State, a: Step, n: nat, p: nat, q: nat, k: nat)
    requires Inv(s) && Enabled(s, a) && s.writer == Add(n, p, q, k) && (a == Write ==> k < 3)
    ensures SameRing(s.list, Next(s, a).list, n)
    ensures Next(s, a).writer == Add(n, p, q, k + if a == Write then 1 else 0)
  {
    hide Ring, Stale, Walkers, WriterOk;
  }

  /** The first step of an addition. */
  predicate Begins(s: State, a: Step, n: nat, p: nat, q: nat) {
    && n == s.nextNode
    && match a
       case BeginAdd(h) => p == h && h in s.list.next && q == s.list.next[h]
       case BeginAddTail(h) => q == h && h in s.prev && p == s.prev[h]
       case _ => false
  }

  lemma BeginsIs(s: State, a: Step, n: nat, p: nat, q: nat)
    requires Inv(s) && Enabled(s, a) && Begins(s, a, n, p, q)
    ensures Next(s, a).list == s.list && Next(s, a).writer == Add(n, p, q, 0)
    ensures n !in s.list.born && n != HEAD && Ring(s.list) && Places(s.list)
    ensures s.list.OnRing(p) && s.list.OnRing(q) && p in s.list.next && s.list.next[p] == q
  {
    if a.BeginAddTail? {
      assert Back(s.list, s.prev, a.h);
    } else {
      assert RingLink(s.list, a.h);
    }
  }

  /** While fewer than four stores have been made the new node is in nobody's way. */
  lemma {:induction false} AddUnderway(ss: seq<State>, steps: seq<Step>, i: nat, j: nat, n: nat, p: nat, q: nat)
    requires |ss| > 0 && Init(ss[0]) && Run(ss, steps) && i < j < |ss|
    requires Begins(ss[i], steps[i], n, p, q) && Writes(steps[i + 1..j]) <= 3
    ensures ss[j].writer == Add(n, p, q, Writes(steps[i + 1..j])) && SameRing(ss[i].list, ss[j].list, n)
    decreases j
  {
    hide Init, Inv, Next, Enabled, Begins;
    if i + 1 == j {
      RunInv(ss, steps, i);
      BeginsIs(ss[i], steps[i], n, p, q);
      assert steps[i + 1..j] == [];
    } else {
      var x := steps[i + 1..j];
      assert x[..|x| - 1] == steps[i + 1..j - 1] && x[|x| - 1] == steps[j - 1];
      AddUnderway(ss, steps, i, j - 1, n, p, q);
      RunInv(ss, steps, j - 1);
      AddStep(ss[j - 1], steps[j - 1], n, p, q, Writes(x[..|x| - 1]));
    }
  }

  /** `n` is listed between `p` and `q`, which were neighbours, and everything else is as before. */
  ghost predicate Inserted(s: State, s': State, n: nat, p: nat, q: nat) {
    var l, l' := s.list, s'.list;
    && s'.writer.Rest? && !l.OnRing(n) && l.OnRing(p) && l.OnRing(q) && p in l.next && l.next[p] == q
    && (forall y :: l'.OnRing(y) <==> l.OnRing(y) || y == n)
    && p in l'.next && l'.next[p] == n && n in l'.next && l'.next[n] == q
    && q in s'.prev && s'.prev[q] == n && n in s'.prev && s'.prev[n] == p
    && (forall y :: l.OnRing(y) && y != p ==> y in l.next && y in l'.next && l'.next[y] == l.next[y])
    && (forall y :: l.Listed(y) ==> l'.Start(y) == l.Start(y))
  }

  lemma FourthStore(s: State, s': State, n: nat, p: nat, q: nat)
    requires Inv(s') && s'.writer == Add(n, p, q, 3) && SameRing(s.list, s'.list, n) && Ring(s.list)
    requires n !in s.list.born && n != HEAD
    ensures Enabled(s', Write) && Inserted(s, Next(s', Write), n, p, q)
  {
    var l, l' := s.list, s'.list;
    forall y | l.OnRing(y) ensures y in l.next && y in l'.next && l'.next[y] == l.next[y] {
      assert RingLink(l, y);
    }
    hide Stale, Walkers, RingLink, StaleLink, Inverse, Ring;
  }

  /** `n` is the last, or the first, of the listed nodes in the order in which readers see them. */
  ghost predicate LastOf(l: List, n: nat) {
    forall y :: l.Listed(y) && y != n ==> l.Start(y) < l.Start(n)
  }

  ghost predicate FirstOf(l: List, n: nat) {
    forall y :: l.Listed(y) && y != n ==> l.Start(y) > l.Start(n)
  }

  lemma AddPlace(ss: seq<State>, steps: seq<Step>, i: nat, j: nat, n: nat, p: nat, q: nat)
    requires |ss| > 0 && Init(ss[0]) && Run(ss, steps) && i < j < |steps| && Begins(ss[i], steps[i], n, p, q)
    requires steps[j] == Write && Writes(steps[i + 1..j]) == 3
    ensures Inserted(ss[i], ss[j + 1], n, p, q) && Ring(ss[j + 1].list) && Places(ss[j + 1].list)
  {
    hide Init, Inv, Enabled, Next, Begins, SameRing;
    RunInv(ss, steps, i);
    RunInv(ss, steps, j);
    RunInv(ss, steps, j + 1);
    AddUnderway(ss, steps, i, j, n, p, q);
    BeginsIs(ss[i], steps[i], n, p, q);
    FourthStore(ss[i], ss[j], n, p, q);
    InvRing(ss[j + 1]);
  }

  lemma InvRing(s: State)
    requires Inv(s)
    ensures Ring(s.list) && Places(s.list)
  {
  }

  /** The node added before `h`, when its four stores have been made, whatever readers did in
      between: it comes after the node that came last before `h`. At the head that is the end. */
  lemma TailAddPlace(ss: seq<State>, steps: seq<Step>, i: nat, j: nat, h: nat)
    requires |ss| > 0 && Init(ss[0]) && Run(ss, steps) && i < j < |steps| && steps[i] == BeginAddTail(h)
    requires steps[j] == Write && Writes(steps[i + 1..j]) == 3
    ensures h in ss[i].prev && Inserted(ss[i], ss[j + 1], ss[i].nextNode, ss[i].prev[h], h)
    ensures h == HEAD ==> LastOf(ss[j + 1].list, ss[i].nextNode)
  {
    assert Enabled(ss[i], steps[i]);
    AddPlace(ss, steps, i, j, ss[i].nextNode, ss[i].prev[h], h);
    hide Run, Init, Ring, Places;
    if h == HEAD {
      LastPlace(ss[j + 1].list, ss[i].nextNode);
    }
  }

  /** The node added after `h`: at the head that is the beginning. */
  lemma HeadAddPlace(ss: seq<State>, steps: seq<Step>, i: nat, j: nat, h: nat)
    requires |ss| > 0 && Init(ss[0]) && Run(ss, steps) && i < j < |steps| && steps[i] == BeginAdd(h)
    requires steps[j] == Write && Writes(steps[i + 1..j]) == 3
    ensures h in ss[i].list.next && Inserted(ss[i], ss[j + 1], ss[i].nextNode, h, ss[i].list.next[h])
    ensures h == HEAD ==> FirstOf(ss[j + 1].list, ss[i].nextNode)
  {
    assert Enabled(ss[i], steps[i]);
    AddPlace(ss, steps, i, j, ss[i].nextNode, h, ss[i].list.next[h]);
    hide Run, Init, Ring, Places;
    if h == HEAD {
      FirstPlace(ss[j + 1].list, ss[i].nextNode);
    }
  }

  /** Who links to the head is the last one. */
  lemma LastPlace(l: List, n: nat)
    requires Places(l) && Ring(l) && l.OnRing(n) && n != HEAD && n in l.next && l.next[n] == HEAD
    ensures LastOf(l, n)
  {
    assert RingLink(l, n);
  }

  lemma FirstPlace(l: List, n: nat)
    requires Places(l) && Ring(l) && l.OnRing(n) && n != HEAD && HEAD in l.next && l.next[HEAD] == n
    ensures FirstOf(l, n)
  {
    assert RingLink(l, HEAD);
  }

  // ---------------------------------------------------------------- what a removal leaves

  lemma DelStep(s: State, a: Step, x: nat, p: nat, q: nat, k: nat)
    requires Inv(s) && Enabled(s, a) && s.writer == Del(x, p, q, k) && (a == Write ==> k < 2)
    ensures var l, l' := s.list, Next(s, a).list;
            && Next(s, a).writer == Del(x, p, q, k + if a == Write then 1 else 0)
            && l'.born == l.born && l'.pos == l.pos
            && l'.gone.Keys == (if a == Write && k == 1 then l.gone.Keys + {x} else l.gone.Keys)
            && forall y :: y != p && (l.OnRing(y) || y == x) && y in l.next ==> y in l'.next && l'.next[y] == l.next[y]
  {
    hide Ring, Stale, Walkers, Inverse;
  }

  /** `s'` is `s` on the way to a state without `x`. */
  ghost predicate Removing(s: State, s': State, x: nat, p: nat, q: nat, k: nat) {
    && s'.writer == Del(x, p, q, k) && s'.list.born == s.list.born && s'.list.pos == s.list.pos
    && s'.list.gone.Keys == (if k == 2 then s.list.gone.Keys + {x} else s.list.gone.Keys)
    && forall y :: y != p && s.list.OnRing(y) && y in s.list.next ==> y in s'.list.next && s'.list.next[y] == s.list.next[y]
  }

  lemma RemovingStep(s: State, s1: State, a: Step, x: nat, p: nat, q: nat, k: nat)
    requires Removing(s, s1, x, p, q, k) && Inv(s1) && Enabled(s1, a) && (a == Write ==> k < 2)
    ensures Removing(s, Next(s1, a), x, p, q, k + if a == Write then 1 else 0)
  {
    hide Inv, Enabled, Next;
    DelStep(s1, a, x, p, q, k);
  }

  lemma {:induction false} DelUnderway(ss: seq<State>, steps: seq<Step>, i: nat, j: nat, x: nat)
    requires |ss| > 0 && Init(ss[0]) && Run(ss, steps) && i < j < |ss| && steps[i] == BeginDel(x)
    requires Writes(steps[i + 1..j]) <= 2
    ensures x in ss[i].prev && x in ss[i].list.next
    ensures Removing(ss[i], ss[j], x, ss[i].prev[x], ss[i].list.next[x], Writes(steps[i + 1..j]))
    decreases j
  {
    hide Init, Inv, Next, Enabled, Removing;
    BeginDelIs(ss[i], x);
    if i + 1 == j {
      assert steps[i + 1..j] == [];
    } else {
      var b := steps[i + 1..j];
      assert b[..|b| - 1] == steps[i + 1..j - 1] && b[|b| - 1] == steps[j - 1];
      DelUnderway(ss, steps, i, j - 1, x);
      RunInv(ss, steps, j - 1);
      RemovingStep(ss[i], ss[j - 1], steps[j - 1], x, ss[i].prev[x], ss[i].list.next[x], Writes(b[..|b| - 1]));
    }
  }

  lemma BeginDelIs(s: State, x: nat)
    requires Enabled(s, BeginDel(x))
    ensures x in s.prev && x in s.list.next
    ensures Removing(s, Next(s, BeginDel(x)), x, s.prev[x], s.list.next[x], 0)
  {
  }

  /** A removed node, when its three stores have been made, whatever readers did in between: its
      neighbours link to each other, it still leads on, but not back, and everything else is as
      before. */
  lemma DelPlace(ss: seq<State>, steps: seq<Step>, i: nat, j: nat, x: nat)
    requires |ss| > 0 && Init(ss[0]) && Run(ss, steps) && i < j < |steps| && steps[i] == BeginDel(x)
    requires steps[j] == Write && Writes(steps[i + 1..j]) == 2
    ensures x in ss[i].prev && x in ss[i].list.next
    ensures var l, l', p, q := ss[i].list, ss[j + 1].list, ss[i].prev[x], ss[i].list.next[x];
            && ss[j + 1].writer.Rest? && (forall y :: l'.OnRing(y) <==> l.OnRing(y) && y != x)
            && p in l'.next && l'.next[p] == q && q in ss[j + 1].prev && ss[j + 1].prev[q] == p
            && x !in ss[j + 1].prev && x in l'.next && l'.next[x] == q
            && (forall y :: l'.OnRing(y) && y != p ==> y in l.next && y in l'.next && l'.next[y] == l.next[y])
            && (forall y :: l'.Listed(y) ==> l'.Start(y) == l.Start(y))
  {
    hide Init, Inv, Next;
    DelUnderway(ss, steps, i, j, x);
    RunInv(ss, steps, i);
    RunInv(ss, steps, j);
    assert Enabled(ss[i], steps[i]) && Enabled(ss[j], steps[j]) && ss[j + 1] == Next(ss[j], Write);
    InvRing(ss[i]);
    ThirdStore(ss[i], ss[j], x, ss[i].prev[x], ss[i].list.next[x]);
  }

  lemma ThirdStore(s: State, s': State, x: nat, p: nat, q: nat)
    requires Removing(s, s', x, p, q, 2) && Inv(s') && Ring(s.list) && Enabled(s', Write) && x != HEAD
    ensures var l, l' := s.list, Next(s', Write).list;
            && Next(s', Write).writer.Rest? && (forall y :: l'.OnRing(y) <==> l.OnRing(y) && y != x)
            && p in l'.next && l'.next[p] == q && q in Next(s', Write).prev && Next(s', Write).prev[q] == p
            && x !in Next(s', Write).prev && x in l'.next && l'.next[x] == q
            && (forall y :: l'.OnRing(y) && y != p ==> y in l.next && y in l'.next && l'.next[y] == l.next[y])
            && (forall y :: l'.Listed(y) ==> l'.Start(y) == l.Start(y))
  {
    forall y | s.list.OnRing(y) ensures y in s.list.next {
      assert RingLink(s.list, y);
    }
    hide Stale, Walkers, RingLink, StaleLink, Inverse;
  }

  lemma ReclaimedStep(s: State, a: Step, x: nat)
    requires Inv(s) && Enabled(s, a) && (a == Reclaim(x) || (x in s.list.gone && x !in s.list.next))
    ensures x in Next(s, a).list.gone && x !in Next(s, a).list.next
  {
    hide Ring, Stale, Walkers, Inverse;
  }

  /** A reclaimed node stays reclaimed: it has no link any more. */
  lemma {:induction false} ReclaimedStays(ss: seq<State>, steps: seq<Step>, i: nat, j: nat, x: nat)
    requires |ss| > 0 && Init(ss[0]) && Run(ss, steps) && i < j < |ss| && steps[i] == Reclaim(x)
    ensures x in ss[j].list.gone && x !in ss[j].list.next
    decreases j
  {
    hide Init, Inv, Enabled, Next;
    RunInv(ss, steps, j - 1);
    if i < j - 1 {
      ReclaimedStays(ss, steps, i, j - 1, x);
    }
    ReclaimedStep(ss[j - 1], steps[j - 1], x);
  }
}
