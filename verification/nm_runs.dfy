/**
  Main results about whole runs of the Natarajan-Mittal tree.
 */
module NMRuns {
  import opened NMShape
  import opened NMProtocol
  import opened NMInvariant
  import opened NMActions
  import opened NMTheorems

  // ---------------------------------------------------------------- the invariant

  ghost function InitTree(): Tree {
    T(ROOT, T(SENT, LeafTree(INF0), LeafTree(INF1)), LeafTree(INF2))
  }

  /** An empty map is in order. */
  lemma {:induction false} InitOrdered(h: Heap, t: Tree)
    requires t.T? && t.l.T? && Ordered(h, t.l) && Ordered(h, t.r) && Contents(h, t.l) == map[]
      && Contents(h, t.r) == map[]
    ensures Ordered(h, t) && Contents(h, t) == map[]
  {
  }

  lemma {:induction false} InitShape(h: Heap)
    requires h == InitHeap()
    ensures ShapeOK(h, InitTree()) && NodesOK(h) && Contents(h, InitTree()) == map[] && Rep(h, ROOT, InitTree())
    ensures Addrs(InitTree()) == {ROOT, SENT, INF0, INF1, INF2} && forall l :: !Flagged(h, InitTree(), l)
  {
    var n := T(SENT, LeafTree(INF0), LeafTree(INF1));
    assert Rep(h, INF0, LeafTree(INF0)) && Rep(h, INF1, LeafTree(INF1)) && Rep(h, INF2, LeafTree(INF2))
      && Rep(h, SENT, n);
    assert Contents(h, LeafTree(INF0)) == map[] && Contents(h, LeafTree(INF1)) == map[]
      && Contents(h, LeafTree(INF2)) == map[];
    assert Contents(h, n) == map[];
    assert Ordered(h, LeafTree(INF0)) && Ordered(h, LeafTree(INF1)) && Ordered(h, LeafTree(INF2));
    InitOrdered(h, n);
    InitOrdered(h, InitTree());
    assert Addrs(n) == {SENT, INF0, INF1} && Addrs(LeafTree(INF2)) == {INF2};
    assert Distinct(n) && Full(n);
  }

  lemma {:induction false} InitOK(s: State)
    requires Init(s)
    ensures Inv(s) && Abs(s) == map[]
  {
    hide ShapeOK, NodesOK, Flagged, InitTree, Contents, Addrs, Rep;
    var t := InitTree();
    InitShape(s.heap);
    ShapeIs(s.heap, t);
    assert PlacesOK(s.heap, t, s.place);
    assert ThreadsOK(s, t);
    assert SystemOK(s, t);
  }

  /** The invariant is inductive. */
  lemma {:induction false} InvNext(s: State, s': State)
    requires Inv(s) && Next(s, s')
    ensures Inv(s')
  {
    var t :| SystemOK(s, t);
    var i, o :| StepOf(s, s', i, o);
    var t' := SystemStep(s, s', t, i, o);
  }

  /** The invariant holds in every state of every run. */
  lemma {:induction false} RunInv(r: seq<State>, j: nat)
    requires IsRun(r) && j < |r|
    ensures Inv(r[j])
  {
    if j == 0 {
      InitOK(r[0]);
    } else {
      RunInv(r, j - 1);
      assert Next(r[j - 1], r[j - 1 + 1]);
      InvNext(r[j - 1], r[j]);
    }
  }

  ghost function Live(s: State): Tree {
    Shape(s.heap)
  }

  lemma {:induction false} TreeOf(s: State)
    requires Inv(s)
    ensures SystemOK(s, Live(s))
  {
    var t :| SystemOK(s, t);
    ShapeIs(s.heap, t);
  }

  /** One step between reachable states, with everything it guarantees. */
  lemma {:induction false} StepFacts(s: State, s': State, i: Tid, o: Out)
    requires Inv(s) && StepOf(s, s', i, o)
    ensures SystemOK(s, Live(s)) && SystemOK(s', Live(s'))
    ensures Effect(s.heap, Live(s), s.threads[i], o, Live(s'))
    ensures FlagEffect(s.heap, Live(s), s.claimed, s.place, s.threads[i], o, Live(s'))
    ensures Rely(i, s.heap, Live(s), s.place, s'.heap, Live(s'), s'.place)
  {
    hide SystemOK, Effect, FlagEffect, Rely;
    TreeOf(s);
    var t' := SystemStep(s, s', Live(s), i, o);
    SystemTree(s', t');
  }

  lemma {:induction false} SystemTree(s: State, t: Tree)
    requires SystemOK(s, t)
    ensures t == Live(s)
  {
    ShapeIs(s.heap, t);
  }

  // ---------------------------------------------------------------- the protocol invariant, in terms of the heap

  /** In every reachable state, read off the heap and the program counters. */
  ghost predicate Protocol(s: State) {
    && (forall a :: a in s.heap ==> EdgesOK(s.heap, a))
    && (forall t :: t in s.threads ==> !s.threads[t].pc.Fault?)
  }

  /**
    The edge discipline of every reachable state, and the nodes that have left the tree: both their edges are
    marked.
   */
  lemma {:induction false} ProtocolHolds(r: seq<State>, j: nat)
    requires IsRun(r) && j < |r|
    ensures Protocol(r[j])
    ensures forall i, a :: 0 <= i <= j && a in Addrs(Live(r[i])) && a !in Addrs(Live(r[j])) ==>
              a in r[j].heap && (r[j].heap[a].Internal() ==> r[j].heap[a].Frozen())
  {
    hide Inv, Init, Next, Addrs, Protocol;
    RunInv(r, j);
    ProtocolNow(r[j]);
    forall i, a | 0 <= i <= j && a in Addrs(Live(r[i])) && a !in Addrs(Live(r[j]))
      ensures a in r[j].heap && (r[j].heap[a].Internal() ==> r[j].heap[a].Frozen())
    {
      RunInv(r, i);
      InTreePublic(r[i], a);
      LeafForever(r, i, j, a);
      UnlinkedFrozen(r[j], a);
    }
  }

  lemma {:induction false} ProtocolNow(s: State)
    requires Inv(s)
    ensures Protocol(s)
  {
    hide ThreadOK, ClaimsOK, OwnersOK, RetiredOK, PlacesOwned, PlacesOK, ShapeOK;
    TreeOf(s);
    forall a | a in s.heap ensures EdgesOK(s.heap, a) {
      assert NodeOK(s.heap, a);
    }
    forall t | t in s.threads ensures !s.threads[t].pc.Fault? {
      PointersValid(t, s.heap, Live(s), s.place, s.claimed, s.threads[t], s.seen[t]);
    }
  }

  lemma {:induction false} InTreePublic(s: State, a: Addr)
    requires Inv(s) && a in Addrs(Live(s))
    ensures a in s.heap && a in s.place && Public(s.place[a])
  {
    hide ThreadsOK, ClaimsOK, OwnersOK, RetiredOK, PlacesOwned, NodesOK, Sentinels;
    TreeOf(s);
  }

  lemma {:induction false} UnlinkedFrozen(s: State, a: Addr)
    requires Inv(s) && a in s.heap && a in s.place && Public(s.place[a]) && a !in Addrs(Live(s))
    ensures s.heap[a].Internal() ==> s.heap[a].Frozen()
  {
    hide ThreadsOK, ClaimsOK, OwnersOK, RetiredOK, PlacesOwned, NodesOK, ShapeOK, Addrs;
    TreeOf(s);
  }

  /** Node `a` is the one that the compare-and-set of a thread would write. */
  ghost predicate CasTarget(pc: Pc, a: Addr) {
    || ((pc.CasInsert? || pc.CasFlag?) && a == pc.rec.parent)
    || (pc.CasSplice? && a == pc.rec.anc)
  }

  /** The compare-and-set of a thread finds the edge that it expects. */
  ghost predicate CasFinds(h: Heap, pc: Pc) {
    || ((pc.CasInsert? || pc.CasFlag?) && pc.rec.parent in h && h[pc.rec.parent].At(pc.rec.ldir) == Plain(pc.rec.leaf))
    || (pc.CasSplice? && pc.rec.anc in h && h[pc.rec.anc].At(pc.rec.sdir) == Plain(pc.rec.succ))
  }

  /**
    Every compare-and-set that succeeds, of an insert, a flag or a splice, acts on a node that is still in the
    tree.
   */
  lemma {:induction false} CasInTree(r: seq<State>, j: nat, t: Tid, a: Addr)
    requires IsRun(r) && j < |r| && t in r[j].threads && CasTarget(r[j].threads[t].pc, a)
      && CasFinds(r[j].heap, r[j].threads[t].pc)
    ensures a in Addrs(Live(r[j]))
  {
    hide Inv, Init, Next, Addrs;
    RunInv(r, j);
    TargetSeen(r[j], t, a);
    if a !in Addrs(Live(r[j])) {
      UnlinkedFrozen(r[j], a);
    }
  }

  lemma {:induction false} TargetSeen(s: State, t: Tid, a: Addr)
    requires Inv(s) && t in s.threads && CasTarget(s.threads[t].pc, a)
    ensures a in s.heap && a in s.place && Public(s.place[a]) && s.heap[a].Internal()
  {
    hide HeapOK, ClaimsOK, OwnersOK, RetiredOK, PlacesOwned, PurgeSeek, PurgeOK, PrivateOK, WalkOK, Path, Addrs,
      Chained;
    TreeOf(s);
    assert ThreadOK(s.heap, Live(s), s.place, s.claimed, t, s.threads[t], s.seen[t]);
  }

  /** A marked edge keeps its pointer and its marks for ever. */
  lemma {:induction false} MarkedForever(r: seq<State>, i: nat, j: nat, a: Addr, d: Dir)
    requires IsRun(r) && i <= j < |r| && a in r[i].heap && r[i].heap[a].At(d).Marked()
    ensures a in r[j].heap && EdgeEvolves(r[i].heap[a].At(d), r[j].heap[a].At(d))
    decreases j
  {
    hide Inv, Init, Next;
    if i < j {
      MarkedForever(r, i, j - 1, a, d);
      RunInv(r, j - 1);
      assert Next(r[j - 1], r[j - 1 + 1]);
      MarkedStays(r[j - 1], r[j], a, d);
    }
  }

  lemma {:induction false} MarkedStays(s: State, s': State, a: Addr, d: Dir)
    requires Inv(s) && Next(s, s') && a in s.heap && s.heap[a].At(d).Marked()
    ensures a in s'.heap && EdgeEvolves(s.heap[a].At(d), s'.heap[a].At(d))
  {
    hide ThreadsOK, ClaimsOK, OwnersOK, RetiredOK, PlacesOwned, ShapeOK, NodesOK, PathsKept, FlagsKept, Effect,
      FlagEffect;
    var i, o :| StepOf(s, s', i, o);
    StepFacts(s, s', i, o);
    assert Public(s.place[a]);
  }

  /**
    `r.left` is always the plain pointer to `s`; `s.left` is never marked and leads to `inf0` or to an infinite
    node above it.
   */
  lemma {:induction false} SentinelsHold(r: seq<State>, j: nat)
    requires IsRun(r) && j < |r|
    ensures var h := r[j].heap;
            && ROOT in h && SENT in h && h[ROOT].left == Plain(SENT) && !h[SENT].left.Marked()
            && (h[SENT].left.ptr == INF0
                || (InfKey(h, h[SENT].left.ptr) && h[h[SENT].left.ptr].Internal()
                  && h[h[SENT].left.ptr].right.ptr == INF0))
  {
    RunInv(r, j);
    TreeOf(r[j]);
    SentinelNodes(r[j].heap, Live(r[j]));
    SentinelsUnmarked(r[j].heap, Live(r[j]));
  }

  // ---------------------------------------------------------------- step refinement

  /** Thread `t`'s insert of `(k, v)` takes effect between `s` and `s'`. */
  ghost predicate InsertEffect(s: State, s': State, t: Tid, k: int, v: V) {
    && t in s.threads && s.threads[t].job.Insert? && s.threads[t].job.k == k && s.threads[t].job.v == v
    && !s.threads[t].pc.Return? && t in s'.threads && s'.threads[t].pc == Return(Inserted)
    && k !in Abs(s) && Abs(s') == Abs(s)[k := v]
  }

  /** Thread `t`'s remove of `(k, v)` takes effect between `s` and `s'`: the leaf it flagged leaves the tree. */
  ghost predicate RemoveEffect(s: State, s': State, t: Tid, k: int, v: V) {
    && t in s.threads && s.threads[t].job.Purge? && s.threads[t].job.k == k && s.threads[t].job.v == v
    && !s.threads[t].pc.Return?
    && s.threads[t].job.leaf in Addrs(Live(s)) && s.threads[t].job.leaf !in Addrs(Live(s'))
    && k in Abs(s) && Abs(s)[k] == v && k !in Abs(s')
  }

  /**
    Every step leaves the map alone, or is one insert's effect, or removes a set of bindings each of which
    is the effect of exactly one pending remove.
   */
  ghost predicate Refines(s: State, s': State) {
    || Abs(s') == Abs(s)
    || (exists t, k, v :: InsertEffect(s, s', t, k, v))
    || (&& Abs(s').Keys <= Abs(s).Keys
        && (forall k :: k in Abs(s') ==> Abs(s')[k] == Abs(s)[k])
        && (forall k :: k in Abs(s) && k !in Abs(s') ==>
              exists t :: && RemoveEffect(s, s', t, k, Abs(s)[k])
                          && forall u :: RemoveEffect(s, s', u, k, Abs(s)[k]) ==> u == t))
  }

  /** A removed key was held by a flagged leaf, whose one owner is still running. */
  lemma {:induction false} RemovedKey(s: State, s': State, k: int) returns (t: Tid)
    requires SystemOK(s, Live(s)) && SystemOK(s', Live(s')) && k in Abs(s) && k !in Abs(s')
    requires k in KeysOf(s.heap, Addrs(Live(s)) - Addrs(Live(s')))
    requires forall a :: a in Addrs(Live(s)) - Addrs(Live(s')) ==>
               a in s.heap && (s.heap[a].Internal() || (FiniteLeaf(s.heap, a) && Flagged(s.heap, Live(s), a)))
    ensures RemoveEffect(s, s', t, k, Abs(s)[k])
  {
    var a :| a in Addrs(Live(s)) - Addrs(Live(s')) && FiniteLeaf(s.heap, a) && s.heap[a].key.k == k;
    assert NodeOK(s.heap, a);
    LeafOnPath(s.heap, ROOT, Live(s), a);
    assert Flagged(s.heap, Live(s), a);
    t :| t in s.threads && s.threads[t].job.Purge? && s.threads[t].job.leaf == a && !s.threads[t].pc.Return?;
    assert ThreadOK(s.heap, Live(s), s.place, s.claimed, t, s.threads[t], s.seen[t]);
    assert PurgeOK(s.heap, s.threads[t].job, s.claimed);
  }

  lemma {:induction false} OneRemover(s: State, s': State, k: int, v: V, t: Tid, u: Tid)
    requires SystemOK(s, Live(s)) && RemoveEffect(s, s', t, k, v) && RemoveEffect(s, s', u, k, v)
    ensures t == u
  {
    var a, b := s.threads[t].job.leaf, s.threads[u].job.leaf;
    assert ThreadOK(s.heap, Live(s), s.place, s.claimed, t, s.threads[t], s.seen[t]);
    assert ThreadOK(s.heap, Live(s), s.place, s.claimed, u, s.threads[u], s.seen[u]);
    LeafOnPath(s.heap, ROOT, Live(s), a);
    OnlyLeafStable(s.heap, Live(s), k, b, a);
  }

  lemma {:induction false} StepRefines(s: State, s': State, i: Tid, o: Out)
    requires Inv(s) && StepOf(s, s', i, o)
    ensures Refines(s, s')
  {
    hide SystemOK, Rely, FlagEffect, KeysOf, Flagged, Contents, Addrs, RemoveEffect, Watch, Moved, Local;
    StepFacts(s, s', i, o);
    if Links(s.threads[i], o) {
      assert InsertEffect(s, s', i, s.threads[i].job.k, s.threads[i].job.v);
    } else if Splices(s.threads[i], o) {
      forall k | k in Abs(s) && k !in Abs(s')
        ensures exists t :: && RemoveEffect(s, s', t, k, Abs(s)[k])
                            && forall u :: RemoveEffect(s, s', u, k, Abs(s)[k]) ==> u == t
      {
        var t := RemovedKey(s, s', k);
        forall u | RemoveEffect(s, s', u, k, Abs(s)[k]) ensures u == t {
          OneRemover(s, s', k, Abs(s)[k], t, u);
        }
      }
    }
  }

  /** Step refinement, for every step of every run. */
  lemma {:induction false} RunRefines(r: seq<State>, j: nat)
    requires IsRun(r) && j + 1 < |r|
    ensures Refines(r[j], r[j + 1])
  {
    RunInv(r, j);
    assert Next(r[j], r[j + 1]);
    var i, o :| StepOf(r[j], r[j + 1], i, o);
    StepRefines(r[j], r[j + 1], i, o);
  }

  // ---------------------------------------------------------------- hindsight

  /** A seek of thread `t` begins with the step from `r[i]` to `r[i + 1]`. */
  ghost predicate SeekBegins(r: seq<State>, i: nat, t: Tid) {
    && i + 1 < |r| && t in r[i].threads && t in r[i + 1].threads
    && r[i].threads[t] != r[i + 1].threads[t] && r[i + 1].threads[t].pc.SeekRoot?
  }

  /** Thread `t` is inside one call in all states after `r[i]` up to `r[j]`. */
  ghost predicate Busy(r: seq<State>, i: nat, j: nat, t: Tid) {
    && i < j < |r|
    && forall m :: i < m <= j ==> t in r[m].threads && !r[m].threads[t].job.NoJob?
  }

  lemma {:induction false} BusyStep(s: State, s': State, t: Tid)
    requires Inv(s) && Next(s, s') && t in s.threads && !s.threads[t].job.NoJob? && t in s'.threads
      && !s'.threads[t].job.NoJob?
    ensures s'.threads[t].job.k == s.threads[t].job.k
    ensures s.threads[t].job.Purge? ==> s'.threads[t].job == s.threads[t].job
    ensures s.threads[t].job.Insert? <==> s'.threads[t].job.Insert?
    ensures s.threads[t].job.Insert? ==> s'.threads[t].job == s.threads[t].job
    ensures s.threads[t].job.Get? <==> s'.threads[t].job.Get?
    ensures t in s.seen && t in s'.seen && s'.seen[t] <= s.seen[t] + Path(s'.heap, Live(s'), s'.threads[t].job.k)
  {
    hide ThreadOK, ClaimsOK, OwnersOK, RetiredOK, PlacesOwned, HeapOK, Moved, Path, Local;
    var i, o :| StepOf(s, s', i, o);
    TreeOf(s);
    if i == t {
      PointersValid(t, s.heap, Live(s), s.place, s.claimed, s.threads[t], s.seen[t]);
      SameJob(s.heap, s.threads[t], o);
    }
  }

  /** Inside a call only a remove changes its job, when it has flagged its leaf. */
  lemma {:induction false} SameJob(h: Heap, th: Thread, o: Out)
    requires Local(h, th, o) && !th.pc.Idle? && !th.job.NoJob? && !o.th.job.NoJob?
    ensures o.th.job.k == th.job.k && (th.job.Purge? ==> o.th.job == th.job)
    ensures (th.job.Insert? <==> o.th.job.Insert?) && (th.job.Insert? ==> o.th.job == th.job)
    ensures th.job.Get? <==> o.th.job.Get?
  {
  }

  lemma {:induction false} SeekFresh(s: State, s': State, t: Tid)
    requires Next(s, s') && t in s.threads && t in s'.threads && s.threads[t] != s'.threads[t]
    requires s'.threads[t].pc.SeekRoot? && !s'.threads[t].job.NoJob?
    ensures t in s'.seen && s'.seen[t] == Path(s'.heap, Live(s'), s'.threads[t].job.k)
  {
    hide Moved, Path, Local;
    var i, o :| StepOf(s, s', i, o);
  }

  /**
    Hindsight: whatever a seek has come to was, at some state since that seek began, reachable and on the
    search path of its key.
   */
  lemma {:induction false} SeenWasOnPath(r: seq<State>, i: nat, j: nat, t: Tid, a: Addr) returns (m: nat)
    requires IsRun(r) && SeekBegins(r, i, t) && Busy(r, i, j, t) && t in r[j].seen && a in r[j].seen[t]
    ensures i < m <= j && a in Path(r[m].heap, Live(r[m]), r[j].threads[t].job.k)
    decreases j
  {
    hide Inv, Init, Next, Path;
    assert Next(r[j - 1], r[j - 1 + 1]);
    if j == i + 1 {
      SeekFresh(r[i], r[j], t);
      m := j;
    } else {
      RunInv(r, j - 1);
      BusyStep(r[j - 1], r[j], t);
      if a in Path(r[j].heap, Live(r[j]), r[j].threads[t].job.k) {
        m := j;
      } else {
        m := SeenWasOnPath(r, i, j - 1, t, a);
      }
    }
  }

  /** The leaf at which a seek stands was on the key's search path since the seek began. */
  lemma {:induction false} SeekHindsight(r: seq<State>, i: nat, j: nat, t: Tid) returns (m: nat)
    requires IsRun(r) && SeekBegins(r, i, t) && Busy(r, i, j, t)
    requires r[j].threads[t].pc.SeekNext? || r[j].threads[t].pc.Decide?
    ensures i < m <= j && r[j].threads[t].pc.rec.leaf in Path(r[m].heap, Live(r[m]), r[j].threads[t].job.k)
    ensures t in r[j].seen && r[j].threads[t].pc.rec.parent in r[j].seen[t]
  {
    RunInv(r, j);
    TreeOf(r[j]);
    RecSeen(r[j], t);
    hide SystemOK, Inv, Init, Next, Path;
    m := SeenWasOnPath(r, i, j, t, r[j].threads[t].pc.rec.leaf);
  }

  lemma {:induction false} RecSeen(s: State, t: Tid)
    requires SystemOK(s, Live(s)) && t in s.threads && (s.threads[t].pc.SeekNext? || s.threads[t].pc.Decide?)
    ensures t in s.seen && s.threads[t].pc.rec.leaf in s.seen[t] && s.threads[t].pc.rec.parent in s.seen[t]
  {
    hide HeapOK, SeenOK, ClaimsOK, OwnersOK, Chained;
    assert ThreadOK(s.heap, Live(s), s.place, s.claimed, t, s.threads[t], s.seen[t]);
  }

  // ---------------------------------------------------------------- linearizability

  /** A call of thread `t` that begins with the step from `r[i]` and has not replied before `r[j]`. */
  ghost predicate CallOf(r: seq<State>, i: nat, j: nat, t: Tid) {
    Busy(r, i, j, t) && t in r[i].threads && r[i].threads[t].job.NoJob?
  }

  ghost function Lookup(m: map<int, V>, k: int): Option<V> {
    if k in m then Some(m[k]) else None
  }

  /** State `m` (for an update, the step from state `m`) accounts for the reply that `t` gives in state `j`. */
  ghost predicate Explains(r: seq<State>, m: nat, j: nat, t: Tid)
    requires m <= j < |r| && t in r[j].threads && r[j].threads[t].pc.Return? && !r[j].threads[t].job.NoJob?
  {
    var job := r[j].threads[t].job;
    match r[j].threads[t].pc.reply
    case Got(res) => job.Get? && res == Lookup(Abs(r[m]), job.k)
    case Refused(k, v) => job.Insert? && k == job.k && v == job.v && k in Abs(r[m])
    case Inserted => job.Insert? && m < j && InsertEffect(r[m], r[m + 1], t, job.k, job.v)
    case Removed(None) => job.Inject? && job.k !in Abs(r[m])
    case Removed(Some(v)) => job.Purge? && m < j && RemoveEffect(r[m], r[m + 1], t, job.k, v)
  }

  lemma {:induction false} CallBegins(r: seq<State>, i: nat, j: nat, t: Tid)
    requires IsRun(r) && CallOf(r, i, j, t)
    ensures SeekBegins(r, i, t)
  {
    hide Moved, Watch, ThreadOK, HeapOK, ClaimsOK, OwnersOK, RetiredOK, PlacesOwned, Exec;
    RunInv(r, i);
    assert Next(r[i], r[i + 1]);
    TreeOf(r[i]);
    PointersValid(t, r[i].heap, Live(r[i]), r[i].place, r[i].claimed, r[i].threads[t], r[i].seen[t]);
    var u, o :| StepOf(r[i], r[i + 1], u, o);
    assert u == t;
  }

  /** A leaf on the search path tells what the map holds, now or in any later state. */
  lemma {:induction false} LeafTells(s: State, k: int, a: Addr, key: Key, value: Option<V>)
    requires Inv(s) && a in Path(s.heap, Live(s), k) && a in s.heap && s.heap[a].Leaf()
    requires s.heap[a].key == key && s.heap[a].value == value
    ensures Lookup(Abs(s), k) == if key == Fin(k) then value else None
  {
    hide ThreadsOK, ClaimsOK, OwnersOK, RetiredOK, PlacesOwned, PlacesOK, Sentinels;
    TreeOf(s);
    assert NodeOK(s.heap, a);
    LeafAnswers(s.heap, ROOT, Live(s), k, a);
  }

  /** Keys, values and leafhood of reachable nodes never change. */
  lemma {:induction false} LeafForever(r: seq<State>, m: nat, j: nat, a: Addr)
    requires IsRun(r) && m <= j < |r| && a in r[m].place && Public(r[m].place[a]) && a in r[m].heap
    ensures a in r[j].heap && a in r[j].place && Public(r[j].place[a])
    ensures r[j].heap[a].key == r[m].heap[a].key && r[j].heap[a].value == r[m].heap[a].value
    ensures r[j].heap[a].Leaf() <==> r[m].heap[a].Leaf()
    decreases j
  {
    hide Inv, Init, Next;
    if m < j {
      LeafForever(r, m, j - 1, a);
      RunInv(r, j - 1);
      assert Next(r[j - 1], r[j - 1 + 1]);
      PublicStays(r[j - 1], r[j], a);
    }
  }

  lemma {:induction false} PublicStays(s: State, s': State, a: Addr)
    requires Inv(s) && Next(s, s') && a in s.place && a in s.heap && Public(s.place[a])
    ensures a in s'.place && a in s'.heap && Public(s'.place[a]) && Evolves(s.heap[a], s'.heap[a])
    ensures Gone(s.place[a]) ==> Gone(s'.place[a])
  {
    hide ThreadsOK, ClaimsOK, OwnersOK, RetiredOK, PlacesOwned, ShapeOK, NodesOK, PathsKept, FlagsKept, Effect,
      FlagEffect;
    var i, o :| StepOf(s, s', i, o);
    StepFacts(s, s', i, o);
  }

  /** A leaf seen during the call answers for the map at some moment of the call. */
  lemma {:induction false} SeenAnswers(r: seq<State>, i: nat, j: nat, t: Tid, a: Addr) returns (m: nat)
    requires IsRun(r) && CallOf(r, i, j, t) && t in r[j].seen && a in r[j].seen[t] && a in r[j].heap
      && r[j].heap[a].Leaf()
    ensures i < m <= j
    ensures var k := r[j].threads[t].job.k;
            Lookup(Abs(r[m]), k) == if r[j].heap[a].key == Fin(k) then r[j].heap[a].value else None
  {
    hide Inv, Init, Next, Path, Abs;
    CallBegins(r, i, j, t);
    m := SeenWasOnPath(r, i, j, t, a);
    RunInv(r, m);
    OnPathPublic(r[m], r[j].threads[t].job.k, a);
    LeafForever(r, m, j, a);
    LeafTells(r[m], r[j].threads[t].job.k, a, r[j].heap[a].key, r[j].heap[a].value);
  }

  lemma {:induction false} OnPathPublic(s: State, k: int, a: Addr)
    requires Inv(s) && a in Path(s.heap, Live(s), k)
    ensures a in s.heap && a in s.place && Public(s.place[a])
  {
    hide ThreadsOK, ClaimsOK, OwnersOK, RetiredOK, PlacesOwned, Sentinels, NodesOK;
    TreeOf(s);
    PathIn(s.heap, Live(s), k);
  }

  /** The step in which an insert succeeds. */
  lemma {:induction false} InsertHappens(s: State, s': State, t: Tid)
    requires Inv(s) && Next(s, s') && t in s.threads && t in s'.threads && !s.threads[t].job.NoJob?
    requires s.threads[t].pc != Return(Inserted) && s'.threads[t].pc == Return(Inserted) && s'.threads[t].job.Insert?
    ensures InsertEffect(s, s', t, s'.threads[t].job.k, s'.threads[t].job.v) && s'.threads[t].job == s.threads[t].job
  {
    hide SystemOK, Rely, FlagEffect, KeysOf, Flagged, Contents, Addrs, Watch, Moved, Local;
    var i, o :| StepOf(s, s', i, o);
    StepFacts(s, s', i, o);
    assert i == t;
    OnlyLinks(s.heap, s.threads[t], o);
  }

  lemma {:induction false} OnlyLinks(h: Heap, th: Thread, o: Out)
    requires Local(h, th, o) && o.th.pc == Return(Inserted) && !th.job.NoJob?
    ensures Links(th, o) && o.th.job == th.job && !th.pc.Return?
  {
  }

  lemma {:induction false} FindInsert(r: seq<State>, i: nat, j: nat, t: Tid) returns (m: nat)
    requires IsRun(r) && CallOf(r, i, j, t) && r[j].threads[t].pc == Return(Inserted) && r[j].threads[t].job.Insert?
    ensures i < m < j && InsertEffect(r[m], r[m + 1], t, r[j].threads[t].job.k, r[j].threads[t].job.v)
    decreases j
  {
    hide Inv, Init, Next, InsertEffect;
    CallBegins(r, i, j, t);
    assert Next(r[j - 1], r[j - 1 + 1]);
    RunInv(r, j - 1);
    if r[j - 1].threads[t].pc == Return(Inserted) {
      BusyStep(r[j - 1], r[j], t);
      m := FindInsert(r, i, j - 1, t);
    } else {
      InsertHappens(r[j - 1], r[j], t);
      m := j - 1;
    }
  }

  /** The step in which a flagged leaf leaves the tree is the effect of the remove that flagged it. */
  lemma {:induction false} UnlinkHappens(s: State, s': State, t: Tid)
    requires Inv(s) && Next(s, s') && t in s.threads && s.threads[t].job.Purge?
    requires s.threads[t].job.leaf in Addrs(Live(s)) && s.threads[t].job.leaf !in Addrs(Live(s'))
    ensures RemoveEffect(s, s', t, s.threads[t].job.k, s.threads[t].job.v)
  {
    hide Rely, FlagEffect, KeysOf, Flagged, Contents, Watch, Moved, Local, SystemOK;
    var i, o :| StepOf(s, s', i, o);
    StepFacts(s, s', i, o);
    assert Splices(s.threads[i], o);
    PurgedKey(s, t, Addrs(Live(s)) - Addrs(Live(s')));
  }

  lemma {:induction false} PurgedKey(s: State, t: Tid, gone: set<Addr>)
    requires SystemOK(s, Live(s)) && t in s.threads && s.threads[t].job.Purge?
    requires s.threads[t].job.leaf in Addrs(Live(s)) && s.threads[t].job.leaf in gone
    ensures !s.threads[t].pc.Return? && s.threads[t].job.k in Abs(s) && Abs(s)[s.threads[t].job.k] == s.threads[t].job.v
    ensures s.threads[t].job.k in KeysOf(s.heap, gone)
  {
    hide SeenOK, PurgeSeek, WalkOK, PrivateOK, ClaimsOK, OwnersOK, RetiredOK, PlacesOwned, PlacesOK, NodesOK;
    assert ThreadOK(s.heap, Live(s), s.place, s.claimed, t, s.threads[t], s.seen[t]);
    var l := s.threads[t].job.leaf;
    OwnerStays(s.heap, Live(s), s.place, s.claimed, t, s.threads[t], s.seen[t], l);
    LeafOnPath(s.heap, ROOT, Live(s), l);
    assert FiniteLeaf(s.heap, l);
  }

  /** When a remove injects its flag, the leaf is in the tree. */
  lemma {:induction false} FlaggedInTree(s: State, s': State, t: Tid)
    requires Inv(s) && Next(s, s') && t in s.threads && t in s'.threads && !s.threads[t].job.Purge?
      && s'.threads[t].job.Purge?
    ensures s'.threads[t].job.leaf in Addrs(Live(s'))
  {
    hide ThreadsOK, ClaimsOK, OwnersOK, RetiredOK, PlacesOwned, PlacesOK, Rely, Effect, KeysOf, Watch, Moved, Flagged,
      Addrs, Sentinels;
    var i, o :| StepOf(s, s', i, o);
    StepFacts(s, s', i, o);
    assert i == t;
    FlaggedIn(s'.heap, Live(s'), s'.threads[t].job.leaf);
  }

  lemma {:induction false} FindRemove(r: seq<State>, i: nat, j: nat, t: Tid) returns (m: nat)
    requires IsRun(r) && CallOf(r, i, j, t) && r[j].threads[t].job.Purge?
      && r[j].threads[t].job.leaf !in Addrs(Live(r[j]))
    ensures i < m < j && RemoveEffect(r[m], r[m + 1], t, r[j].threads[t].job.k, r[j].threads[t].job.v)
    decreases j
  {
    hide Inv, Init, Next, RemoveEffect, Addrs;
    CallBegins(r, i, j, t);
    assert Next(r[j - 1], r[j - 1 + 1]);
    RunInv(r, j - 1);
    if !r[j - 1].threads[t].job.Purge? {
      FlaggedInTree(r[j - 1], r[j], t);
    }
    assert r[j - 1].threads[t].job.Purge?;
    BusyStep(r[j - 1], r[j], t);
    if r[j].threads[t].job.leaf in Addrs(Live(r[j - 1])) {
      UnlinkHappens(r[j - 1], r[j], t);
      m := j - 1;
    } else {
      m := FindRemove(r, i, j - 1, t);
    }
  }

  lemma {:induction false} RepliesOK(s: State, t: Tid)
    requires Inv(s) && t in s.threads && s.threads[t].pc.Return?
    ensures t in s.seen && ReplyOK(s.heap, Live(s), s.seen[t], s.threads[t].job, s.threads[t].pc.reply)
  {
    hide SeenOK, PurgeSeek, PurgeOK, WalkOK, PrivateOK, ClaimsOK, OwnersOK, RetiredOK, PlacesOwned, HeapOK;
    TreeOf(s);
    assert ThreadOK(s.heap, Live(s), s.place, s.claimed, t, s.threads[t], s.seen[t]);
  }

  /**
    Linearizability: in every interleaving, the reply of every call is accounted for by a moment of that
    call. A get, a refused insert and an unsuccessful remove agree with the map in some state; a successful
    insert or remove is the effect of one step (possibly another thread's).
   */
  lemma {:induction false} Linearizable(r: seq<State>, i: nat, j: nat, t: Tid) returns (m: nat)
    requires IsRun(r) && CallOf(r, i, j, t) && r[j].threads[t].pc.Return?
    ensures i < m <= j && Explains(r, m, j, t)
  {
    hide Inv, Init, Next, RemoveEffect, InsertEffect, Addrs, Abs;
    RunInv(r, j);
    RepliesOK(r[j], t);
    var s, job := r[j], r[j].threads[t].job;
    match r[j].threads[t].pc.reply
    case Got(res) =>
      var a :| a in s.seen[t] && a in s.heap && s.heap[a].Leaf()
        && res == (if s.heap[a].key == Fin(job.k) then s.heap[a].value else None);
      m := SeenAnswers(r, i, j, t, a);
    case Inserted =>
      m := FindInsert(r, i, j, t);
    case Refused(k, v) =>
      var a :| a in s.seen[t] && a in s.heap && s.heap[a].Leaf() && s.heap[a].key == Fin(k);
      m := SeenAnswers(r, i, j, t, a);
      LeafValue(s, a);
    case Removed(None) =>
      var a :| a in s.seen[t] && a in s.heap && s.heap[a].Leaf() && s.heap[a].key != Fin(job.k);
      m := SeenAnswers(r, i, j, t, a);
    case Removed(Some(v)) =>
      m := FindRemove(r, i, j, t);
  }

  lemma {:induction false} LeafValue(s: State, a: Addr)
    requires Inv(s) && a in s.heap && s.heap[a].Leaf() && s.heap[a].key.Fin?
    ensures s.heap[a].value.Some?
  {
    hide ThreadsOK, ClaimsOK, OwnersOK, RetiredOK, PlacesOwned, PlacesOK, ShapeOK;
    TreeOf(s);
    assert NodeOK(s.heap, a);
  }
}
