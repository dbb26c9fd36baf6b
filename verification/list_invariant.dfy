/**
  The invariant of the lock-free list, and what a step of one thread guarantees to the others.
 */
module ListInvariant {
  import opened ListModel

  ghost predicate Gone(p: Place) {
    p.Pending? || p.Retired?
  }

  ghost predicate Public(p: Place) {
    p.InList? || Gone(p)
  }

  // ---------------------------------------------------------------- the heap

  ghost predicate NodeOK(h: Heap, a: Addr)
    requires a in h
  {
    && (a == HEAD <==> h[a].key.Bot?)
    && (a == HEAD ==> !h[a].next.mark)
    && (a != HEAD ==> h[a].value.Some?)
  }

  /** The next node is published and has a larger key. */
  ghost predicate NextOK(h: Heap, pl: map<Addr, Place>, a: Addr)
    requires a in h
  {
    var n := h[a].next.ptr;
    n != NULL ==> n in h && n in pl && Public(pl[n]) && Less(h[a].key, h[n].key)
  }

  /**
    The physical chain from the head, marked nodes included, is strictly increasing; a published unmarked
    node is in the chain; an unlinked node is marked.
   */
  ghost predicate HeapOK(h: Heap, c: seq<Addr>, pl: map<Addr, Place>) {
    && NULL !in h && pl.Keys == h.Keys && IsChain(h, c)
    && (forall a :: a in h ==> NodeOK(h, a))
    && (forall a {:trigger NextOK(h, pl, a)} :: a in h && Public(pl[a]) ==> NextOK(h, pl, a))
    && (forall a :: a in h ==> (a in c <==> pl[a].InList?))
    && (forall a :: a in h && Gone(pl[a]) ==> h[a].next.mark)
    && (forall a :: a in h && !Public(pl[a]) ==> !h[a].next.mark)
  }

  // ---------------------------------------------------------------- chains

  lemma {:induction false} ChainUnique(h: Heap, c: seq<Addr>, d: seq<Addr>)
    requires IsChain(h, c) && IsChain(h, d)
    ensures c == d
  {
    ChainAgree(h, c, d, |c| - 1);
    ChainAgree(h, d, c, |d| - 1);
  }

  lemma {:induction false} ChainAgree(h: Heap, c: seq<Addr>, d: seq<Addr>, i: nat)
    requires IsChain(h, c) && IsChain(h, d) && i < |c|
    ensures i < |d| && forall j :: 0 <= j <= i ==> c[j] == d[j]
  {
    if i > 0 {
      ChainAgree(h, c, d, i - 1);
      assert c[i - 1] == d[i - 1] && h[c[i - 1]].next.ptr == c[i - 1 + 1];
      assert i - 1 < |d| - 1;
      assert h[d[i - 1]].next.ptr == d[i - 1 + 1];
    }
  }

  lemma {:induction false} ChainIs(h: Heap, c: seq<Addr>)
    requires IsChain(h, c)
    ensures Chain(h) == c
  {
    ChainUnique(h, c, Chain(h));
  }

  ghost predicate Sorted(h: Heap, c: seq<Addr>) {
    forall i, j :: 0 <= i < j < |c| && c[i] in h && c[j] in h ==> Less(h[c[i]].key, h[c[j]].key)
  }

  lemma {:induction false} ChainSorted(h: Heap, c: seq<Addr>, pl: map<Addr, Place>)
    requires HeapOK(h, c, pl)
    ensures Sorted(h, c)
  {
    forall i, j | 0 <= i < j < |c| ensures Less(h[c[i]].key, h[c[j]].key) {
      ChainOrder(h, c, pl, i, j);
    }
  }

  lemma {:induction false} ChainOrder(h: Heap, c: seq<Addr>, pl: map<Addr, Place>, i: nat, j: nat)
    requires HeapOK(h, c, pl) && i < j < |c|
    ensures Less(h[c[i]].key, h[c[j]].key)
    decreases j
  {
    assert c[j - 1] in c && pl[c[j - 1]].InList?;
    assert NextOK(h, pl, c[j - 1]) && h[c[j - 1]].next.ptr == c[j - 1 + 1];
    if i < j - 1 {
      ChainOrder(h, c, pl, i, j - 1);
    }
  }

  // ---------------------------------------------------------------- contents

  /** Node `a` binds `k` in the map. */
  ghost predicate Binds(h: Heap, a: Addr, k: int) {
    a in h && h[a].key == Key(k) && h[a].value.Some? && !h[a].next.mark
  }

  lemma {:induction false} ContentsChar(h: Heap, c: seq<Addr>, k: int)
    requires Sorted(h, c)
    ensures k in Contents(h, c) <==> exists i :: 0 <= i < |c| && Binds(h, c[i], k)
    ensures forall i :: 0 <= i < |c| && Binds(h, c[i], k) ==>
      k in Contents(h, c) && Contents(h, c)[k] == h[c[i]].value.value
    decreases |c|
  {
    if c != [] {
      var n := |c| - 1;
      var d := c[..n];
      assert forall i :: 0 <= i < n ==> d[i] == c[i];
      assert Sorted(h, d) by {
        forall i, j | 0 <= i < j < |d| && d[i] in h && d[j] in h ensures Less(h[d[i]].key, h[d[j]].key) {
          assert c[i] in h && c[j] in h;
        }
      }
      ContentsChar(h, d, k);
      if k in Contents(h, d) {
        var i :| 0 <= i < |d| && Binds(h, d[i], k);
        assert Binds(h, c[i], k);
      }
      if Binds(h, c[n], k) {
        forall i | 0 <= i < n ensures !Binds(h, c[i], k) {
          assert c[i] in h ==> Less(h[c[i]].key, h[c[n]].key);
        }
      }
    }
  }

  /** What the chain says about one key. */
  lemma {:induction false} LookupChar(h: Heap, c: seq<Addr>, pl: map<Addr, Place>, k: int, a: Addr)
    requires HeapOK(h, c, pl) && a in c
    ensures h[a].key == Key(k) ==> Lookup(Contents(h, c), k) == if h[a].next.mark then None else h[a].value
    ensures Gap(h, a, k) ==> Lookup(Contents(h, c), k) == None
  {
    ChainSorted(h, c, pl);
    ContentsChar(h, c, k);
    var i :| 0 <= i < |c| && c[i] == a;
    assert NodeOK(h, a);
    if h[a].key == Key(k) {
      if !h[a].next.mark {
        assert Binds(h, c[i], k);
      } else {
        forall j | 0 <= j < |c| ensures !Binds(h, c[j], k) {
          if j != i {
            assert if j < i then Less(h[c[j]].key, h[a].key) else Less(h[a].key, h[c[j]].key);
          }
        }
      }
    }
    if Gap(h, a, k) {
      forall j | 0 <= j < |c| ensures !Binds(h, c[j], k) {
        if i < j {
          assert h[c[i]].next.ptr == c[i + 1];
          assert i + 1 < j ==> Less(h[c[i + 1]].key, h[c[j]].key);
        } else if j < i {
          assert Less(h[c[j]].key, h[a].key);
        }
      }
    }
  }

  /** The place of `k` in the list is just after `a`, and no node there has key `k`. */
  ghost predicate Gap(h: Heap, a: Addr, k: int)
    requires a in h
  {
    Less(h[a].key, Key(k)) && Past(h, h[a].next.ptr, k)
  }

  /** The cursor has come to the end or to a larger key. */
  ghost predicate Past(h: Heap, a: Addr, k: int) {
    a == NULL || (a in h && Less(Key(k), h[a].key))
  }

  // ---------------------------------------------------------------- what other threads may rely on

  ghost predicate Evolves(n: Node, n': Node) {
    n'.key == n.key && n'.value == n.value && (n.next.mark ==> n'.next == n.next)
  }

  ghost predicate PlaceStep(t: Tid, p: Place, p': Place) {
    || p' == p
    || (p.InList? && (p' == Pending(t) || p'.Retired?))
    || (p == Pending(t) && p'.Retired?)
  }

  ghost predicate Rely(i: Tid, h: Heap, pl: map<Addr, Place>, h': Heap, pl': map<Addr, Place>) {
    && (forall a :: a in h ==> a in h' && a in pl && a in pl')
    && (forall a :: a in h && pl[a] != Private(i) ==> Evolves(h[a], h'[a]) && PlaceStep(i, pl[a], pl'[a]))
    && (forall a :: a in h && pl[a].Private? && pl[a] != Private(i) ==> h'[a] == h[a])
    && (forall a :: a in h && pl[a].InList? && !pl'[a].InList? ==> h'[a] == h[a])
    && (forall a :: a in h' && a !in h ==> a in pl' && pl'[a] == Private(i))
    && (forall a :: a in h && pl[a] == Private(i) ==> !Gone(pl'[a]) && (pl'[a].Private? ==> pl'[a] == pl[a]))
  }

  // ---------------------------------------------------------------- one thread

  /**
    Everything in `seen` was in the chain at some moment of the current traversal; what an unlinked node
    still says about `k` was true of the map at some moment of it.
   */
  ghost predicate SeenOK(h: Heap, c: seq<Addr>, pl: map<Addr, Place>, k: int, seen: set<Addr>, obs: set<Option<V>>) {
    && (forall a :: a in c ==> a in seen)
    && Lookup(Contents(h, c), k) in obs
    && (forall a :: a in seen ==> a in h && a in pl && Public(pl[a]))
    && (forall a :: a in seen && a !in c && h[a].next.ptr != NULL ==> h[a].next.ptr in seen)
    && (forall a :: a in seen && Gap(h, a, k) ==> None in obs)
    && (forall a :: a in seen && h[a].key == Key(k) && h[a].next.mark ==> None in obs)
  }

  /** The nodes of `w` but the last are marked, each leading to the next. */
  ghost predicate IsMarkedRun(h: Heap, w: seq<Addr>) {
    forall i :: 0 <= i < |w| - 1 ==> w[i] in h && h[w[i]].next.mark && h[w[i]].next.ptr == w[i + 1]
  }

  ghost predicate MarkedRun(h: Heap, a: Addr, b: Addr) {
    exists w: seq<Addr> :: |w| > 0 && w[0] == a && w[|w| - 1] == b && IsMarkedRun(h, w)
  }

  /** A cursor in the middle of a traversal. */
  ghost predicate CursorOK(h: Heap, k: int, seen: set<Addr>, obs: set<Option<V>>, prev: Addr, curr: Addr) {
    && prev in seen && prev in h && Less(h[prev].key, Key(k))
    && (curr != NULL ==> curr in seen && curr in h && curr != HEAD)
    && (Past(h, curr, k) ==> None in obs)
  }

  /** What a finished traversal has found out. */
  ghost predicate FoundOK(h: Heap, k: int, seen: set<Addr>, obs: set<Option<V>>, job: Job, found: bool, prev: Addr,
      curr: Addr)
    requires !job.NoJob?
  {
    && CursorOK(h, k, seen, obs, prev, curr)
    && (found ==> curr != NULL && h[curr].key == Key(k) && h[curr].value in obs && h[curr].value.Some?)
    && (!found ==> None in obs && (!job.kind.Shavit? ==> Past(h, curr, k)))
  }

  ghost predicate ReplyOK(obs: set<Option<V>>, job: Job, reply: Reply) {
    match reply
    case Got(res) => job.Get? && res in obs
    case Inserted(ok) => job.Insert? && (!ok ==> exists v :: Some(v) in obs)
    case Removed(None) => job.Remove? && None in obs
    case Removed(Some(_)) => job.Remove?
  }

  ghost predicate PcOK(h: Heap, k: int, seen: set<Addr>, obs: set<Option<V>>, job: Job, pc: Pc)
    requires !job.NoJob?
  {
    match pc
    case Idle => false
    case Fault => false
    case LoadHead => true
    case HLoop(prev, prevNext, curr) => CursorOK(h, k, seen, obs, prev, curr) && MarkedRun(h, prevNext, curr)
    case HUnlink(prev, prevNext, curr, found) =>
      FoundOK(h, k, seen, obs, job, found, prev, curr) && MarkedRun(h, prevNext, curr) && prevNext != curr
    case HRetire(_, prev, curr, found) => FoundOK(h, k, seen, obs, job, found, prev, curr)
    case MLoop(prev, curr) => CursorOK(h, k, seen, obs, prev, curr)
    case MUnlink(prev, curr, next) =>
      CursorOK(h, k, seen, obs, prev, curr) && curr != NULL && h[curr].next == Link(next, true)
    case SLoop(prev, curr) => CursorOK(h, k, seen, obs, prev, curr) && job.kind.Shavit?
    case Found(found, prev, curr) => FoundOK(h, k, seen, obs, job, found, prev, curr)
    case CasInsert(prev, curr) =>
      && CursorOK(h, k, seen, obs, prev, curr) && Past(h, curr, k) && job.Insert?
      && job.node in h && h[job.node].next == Link(curr, false)
    case FetchOr(prev, curr) =>
      CursorOK(h, k, seen, obs, prev, curr) && job.Remove? && curr != NULL && h[curr].key == Key(k)
        && h[curr].value.Some?
    case CasUnlink(prev, curr, next, value) =>
      && CursorOK(h, k, seen, obs, prev, curr) && job.Remove? && curr != NULL && h[curr].next == Link(next, true)
      && h[curr].key == Key(k) && h[curr].value == Some(value)
    case Return(reply) => ReplyOK(obs, job, reply)
  }

  /** `w` leads from `node` to `curr` through the nodes that thread `i` has unlinked and not yet retired. */
  ghost predicate Awaiting(h: Heap, pl: map<Addr, Place>, i: Tid, node: Addr, curr: Addr, w: seq<Addr>) {
    && |w| > 0 && w[0] == node && w[|w| - 1] == curr && IsMarkedRun(h, w)
    && (forall j, l :: 0 <= j < l < |w| ==> w[j] != w[l])
    && (forall a :: a in pl ==> (pl[a] == Pending(i) <==> a in w[..|w| - 1]))
  }

  ghost predicate PendingOK(h: Heap, pl: map<Addr, Place>, i: Tid, pc: Pc) {
    if pc.HRetire? then exists w :: Awaiting(h, pl, i, pc.node, pc.curr, w)
    else forall a :: a in pl ==> pl[a] != Pending(i)
  }

  ghost predicate PrivateOK(h: Heap, pl: map<Addr, Place>, i: Tid, job: Job, pc: Pc) {
    && (job.Insert? && !pc.Return? ==>
          && job.node in h && job.node in pl && pl[job.node] == Private(i)
          && h[job.node].key == Key(job.k) && h[job.node].value == Some(job.v))
    && (forall a :: a in pl && pl[a] == Private(i) ==> job.Insert? && !pc.Return? && a == job.node)
  }

  ghost predicate ThreadOK(h: Heap, c: seq<Addr>, pl: map<Addr, Place>, i: Tid, th: Thread,
                           seen: set<Addr>, obs: set<Option<V>>) {
    && PrivateOK(h, pl, i, th.job, th.pc)
    && PendingOK(h, pl, i, th.pc)
    && if th.job.NoJob? then th.pc.Idle?
       else SeenOK(h, c, pl, th.job.k, seen, obs) && PcOK(h, th.job.k, seen, obs, th.job, th.pc)
            && (th.job.kind.Shavit? ==> th.job.Get?)
  }

  // ---------------------------------------------------------------- the whole system

  ghost predicate RetiredOK(pl: map<Addr, Place>, retired: multiset<Addr>) {
    && (forall a :: a in retired ==> a in pl && pl[a].Retired? && retired[a] == 1)
    && (forall a :: a in pl && pl[a].Retired? ==> a in retired)
  }

  /** The value of a node has been disposed of once if the node is marked or freed, and not at all otherwise. */
  ghost predicate SpentOK(h: Heap, pl: map<Addr, Place>, spent: multiset<Addr>) {
    && (forall a :: a in spent ==> a in h)
    && (forall a :: a in h && a in pl ==> spent[a] == if h[a].next.mark || pl[a].Freed? then 1 else 0)
  }

  ghost predicate PlacesOwned(pl: map<Addr, Place>, threads: map<Tid, Thread>) {
    forall a :: a in pl && (pl[a].Private? || pl[a].Pending?) ==> pl[a].t in threads
  }

  ghost predicate ThreadsOK(s: State, c: seq<Addr>) {
    && s.seen.Keys == s.threads.Keys && s.obs.Keys == s.threads.Keys
    && forall i :: i in s.threads ==> ThreadOK(s.heap, c, s.place, i, s.threads[i], s.seen[i], s.obs[i])
  }

  ghost predicate SystemOK(s: State, c: seq<Addr>) {
    && HeapOK(s.heap, c, s.place)
    && ThreadsOK(s, c)
    && RetiredOK(s.place, s.retired)
    && SpentOK(s.heap, s.place, s.spent)
    && PlacesOwned(s.place, s.threads)
  }

  ghost predicate Inv(s: State) {
    exists c :: SystemOK(s, c)
  }

  // ---------------------------------------------------------------- stability

  lemma {:induction false} SeenStableAt(i: Tid, h: Heap, c: seq<Addr>, pl: map<Addr, Place>, h': Heap, c': seq<Addr>,
      pl': map<Addr, Place>, k: int, seen: set<Addr>, obs: set<Option<V>>, a: Addr)
    requires HeapOK(h, c, pl) && HeapOK(h', c', pl') && Rely(i, h, pl, h', pl')
    requires SeenOK(h, c, pl, k, seen, obs) && a in seen
    ensures a in h' && a in pl' && Public(pl'[a]) && Evolves(h[a], h'[a])
    ensures a !in c' && h'[a].next.ptr != NULL ==> h'[a].next.ptr in seen
    ensures var o := obs + {Lookup(Contents(h', c'), k)};
            && (Gap(h', a, k) ==> None in o)
            && (h'[a].key == Key(k) && h'[a].next.mark ==> None in o)
  {
    assert a in h && Public(pl[a]) && pl[a] != Private(i);
    if a in c' {
      LookupChar(h', c', pl', k, a);
    } else {
      assert h'[a].next == h[a].next;
      NextIn(h, c, pl, seen, a);
      if Gap(h', a, k) {
        PastBack(i, h, pl, h', pl', k, h[a].next.ptr, seen);
      }
    }
  }

  lemma {:induction false} NextIn(h: Heap, c: seq<Addr>, pl: map<Addr, Place>, seen: set<Addr>, a: Addr)
    requires HeapOK(h, c, pl) && a in h && (forall x :: x in c ==> x in seen)
    requires a !in c && h[a].next.ptr != NULL ==> h[a].next.ptr in seen
    ensures h[a].next.ptr != NULL ==> h[a].next.ptr in seen
  {
    if a in c && h[a].next.ptr != NULL {
      var i :| 0 <= i < |c| && c[i] == a;
      assert h[c[i]].next.ptr == c[i + 1];
    }
  }

  lemma {:induction false} PastBack(i: Tid, h: Heap, pl: map<Addr, Place>, h': Heap, pl': map<Addr, Place>, k: int,
      b: Addr, seen: set<Addr>)
    requires Rely(i, h, pl, h', pl') && (b != NULL ==> b in seen)
    requires forall a :: a in seen ==> a in h && a in pl && Public(pl[a])
    ensures Past(h', b, k) <==> Past(h, b, k)
  {
  }

  lemma {:induction false} SeenStable(i: Tid, h: Heap, c: seq<Addr>, pl: map<Addr, Place>, h': Heap, c': seq<Addr>,
      pl': map<Addr, Place>, k: int, seen: set<Addr>, obs: set<Option<V>>)
    requires HeapOK(h, c, pl) && HeapOK(h', c', pl') && Rely(i, h, pl, h', pl') && SeenOK(h, c, pl, k, seen, obs)
    ensures SeenOK(h', c', pl', k, seen + Elems(c'), obs + {Lookup(Contents(h', c'), k)})
  {
    var s, o := seen + Elems(c'), obs + {Lookup(Contents(h', c'), k)};
    forall a | a in s
      ensures a in h' && a in pl' && Public(pl'[a])
      ensures a !in c' && h'[a].next.ptr != NULL ==> h'[a].next.ptr in s
      ensures Gap(h', a, k) ==> None in o
      ensures h'[a].key == Key(k) && h'[a].next.mark ==> None in o
    {
      if a in seen {
        SeenStableAt(i, h, c, pl, h', c', pl', k, seen, obs, a);
      } else {
        LookupChar(h', c', pl', k, a);
      }
    }
  }

  lemma {:induction false} RunStable(i: Tid, h: Heap, c: seq<Addr>, pl: map<Addr, Place>, h': Heap,
      pl': map<Addr, Place>, w: seq<Addr>)
    requires HeapOK(h, c, pl) && Rely(i, h, pl, h', pl') && IsMarkedRun(h, w)
    ensures IsMarkedRun(h', w)
  {
    forall j | 0 <= j < |w| - 1 ensures w[j] in h' && h'[w[j]].next.mark && h'[w[j]].next.ptr == w[j + 1] {
      assert w[j] in h && h[w[j]].next.mark && h[w[j]].next.ptr == w[j + 1];
      assert Public(pl[w[j]]);
    }
  }

  lemma {:induction false} MarkedRunStable(i: Tid, h: Heap, c: seq<Addr>, pl: map<Addr, Place>, h': Heap,
      pl': map<Addr, Place>, a: Addr, b: Addr)
    requires HeapOK(h, c, pl) && Rely(i, h, pl, h', pl') && MarkedRun(h, a, b)
    ensures MarkedRun(h', a, b)
  {
    var w: seq<Addr> :| |w| > 0 && w[0] == a && w[|w| - 1] == b && IsMarkedRun(h, w);
    RunStable(i, h, c, pl, h', pl', w);
  }

  lemma {:induction false} CursorStable(i: Tid, h: Heap, pl: map<Addr, Place>, h': Heap, pl': map<Addr, Place>, k: int,
      seen: set<Addr>, obs: set<Option<V>>, seen': set<Addr>, obs': set<Option<V>>, prev: Addr, curr: Addr)
    requires Rely(i, h, pl, h', pl') && seen <= seen' && obs <= obs' && CursorOK(h, k, seen, obs, prev, curr)
    requires forall a :: a in seen ==> a in h && a in pl && Public(pl[a])
    ensures CursorOK(h', k, seen', obs', prev, curr)
    ensures Past(h, curr, k) <==> Past(h', curr, k)
    ensures curr != NULL ==> curr in h' && Evolves(h[curr], h'[curr])
  {
  }

  ghost predicate HasCursor(pc: Pc) {
    !pc.Idle? && !pc.Fault? && !pc.LoadHead? && !pc.Return?
  }

  lemma {:induction false} PcStable(i: Tid, h: Heap, c: seq<Addr>, pl: map<Addr, Place>, h': Heap,
      pl': map<Addr, Place>, k: int, seen: set<Addr>, obs: set<Option<V>>, seen': set<Addr>, obs': set<Option<V>>,
      u: Tid, job: Job, pc: Pc)
    requires HeapOK(h, c, pl) && Rely(i, h, pl, h', pl') && seen <= seen' && obs <= obs' && !job.NoJob?
    requires forall a :: a in seen ==> a in h && a in pl && Public(pl[a])
    requires u != i && PrivateOK(h, pl, u, job, pc) && PcOK(h, k, seen, obs, job, pc)
    ensures PcOK(h', k, seen', obs', job, pc)
  {
    if HasCursor(pc) {
      CursorStable(i, h, pl, h', pl', k, seen, obs, seen', obs', pc.prev, pc.curr);
      if pc.HLoop? || pc.HUnlink? {
        MarkedRunStable(i, h, c, pl, h', pl', pc.prevNext, pc.curr);
      }
    }
  }

  lemma {:induction false} PendingSame(i: Tid, h: Heap, pl: map<Addr, Place>, h': Heap, pl': map<Addr, Place>, u: Tid,
      a: Addr)
    requires u != i && Rely(i, h, pl, h', pl') && pl'.Keys == h'.Keys && pl.Keys == h.Keys && a in pl'
    ensures pl'[a] == Pending(u) <==> a in pl && pl[a] == Pending(u)
  {
    if a in h && pl[a] != Private(i) {
      assert PlaceStep(i, pl[a], pl'[a]);
    }
  }

  lemma {:induction false} PendingStable(i: Tid, h: Heap, c: seq<Addr>, pl: map<Addr, Place>, h': Heap,
      pl': map<Addr, Place>, u: Tid, pc: Pc)
    requires u != i && HeapOK(h, c, pl) && Rely(i, h, pl, h', pl') && pl'.Keys == h'.Keys && PendingOK(h, pl, u, pc)
    ensures PendingOK(h', pl', u, pc)
  {
    forall a | a in pl' ensures pl'[a] == Pending(u) <==> a in pl && pl[a] == Pending(u) {
      PendingSame(i, h, pl, h', pl', u, a);
    }
    hide Rely;
    if pc.HRetire? {
      var w :| Awaiting(h, pl, u, pc.node, pc.curr, w);
      RunStable(i, h, c, pl, h', pl', w);
      RunIn(h, w);
      assert pl.Keys == h.Keys;
      hide IsMarkedRun, HeapOK;
      assert Awaiting(h', pl', u, pc.node, pc.curr, w);
    }
  }

  lemma {:induction false} RunIn(h: Heap, w: seq<Addr>)
    requires |w| > 0 && IsMarkedRun(h, w)
    ensures forall a :: a in w[..|w| - 1] ==> a in h && h[a].next.mark
  {
    forall a | a in w[..|w| - 1] ensures a in h && h[a].next.mark {
      var j :| 0 <= j < |w| - 1 && w[j] == a;
    }
  }

  lemma {:induction false} PrivateStable(i: Tid, h: Heap, pl: map<Addr, Place>, h': Heap, pl': map<Addr, Place>, u: Tid,
      job: Job, pc: Pc)
    requires u != i && Rely(i, h, pl, h', pl') && pl.Keys == h.Keys && pl'.Keys == h'.Keys
      && PrivateOK(h, pl, u, job, pc)
    ensures PrivateOK(h', pl', u, job, pc)
  {
    forall a | a in pl' && pl'[a] == Private(u) ensures a in pl && pl[a] == Private(u) {
      if a in h {
        assert pl[a] != Private(i);
      }
    }
  }

  /** Rely-guarantee: a step of `i` leaves another thread's invariant intact. */
  lemma {:induction false} ThreadStable(i: Tid, h: Heap, c: seq<Addr>, pl: map<Addr, Place>, h': Heap, c': seq<Addr>,
      pl': map<Addr, Place>, u: Tid, th: Thread, seen: set<Addr>, obs: set<Option<V>>)
    requires HeapOK(h, c, pl) && HeapOK(h', c', pl') && Rely(i, h, pl, h', pl') && u != i
    requires ThreadOK(h, c, pl, u, th, seen, obs)
    ensures ThreadOK(h', c', pl', u, th, WatchNodes(seen, th, false, h'), WatchKey(obs, th, false, h'))
  {
    hide Rely, IsChain, NodeOK, NextOK, Contents, PcOK;
    PrivateStable(i, h, pl, h', pl', u, th.job, th.pc);
    PendingStable(i, h, c, pl, h', pl', u, th.pc);
    if !th.job.NoJob? {
      ChainIs(h', c');
      SeenStable(i, h, c, pl, h', c', pl', th.job.k, seen, obs);
      PcStable(i, h, c, pl, h', pl', th.job.k, seen, obs, seen + Elems(c'), obs + {Lookup(Contents(h', c'), th.job.k)},
               u, th.job, th.pc);
    }
  }
}
