/**
  A call on the list that nobody disturbs completes: a thread that alone takes steps replies after a number of them
  that is linear in the number of nodes, from every reachable state, whatever the other threads have left undone.
 */
module ListSolo {
  import opened ListModel
  import opened ListInvariant
  import opened ListRuns
  import opened ListRetry

  // ---------------------------------------------------------------- why a traversal starts again

  /** The compare-and-set or the mark that the thread is about to make fails. */
  ghost predicate Refused(h: Heap, pc: Pc) {
    || (pc.HUnlink? && !Holds(h, pc.prev, pc.prevNext))
    || ((pc.MUnlink? || pc.CasInsert?) && !Holds(h, pc.prev, pc.curr))
    || (pc.FetchOr? && pc.curr in h && h[pc.curr].next.mark)
  }

  lemma {:induction false} RestartLocal(i: Tid, h: Heap, c: seq<Addr>, pl: map<Addr, Place>, th: Thread,
      seen: set<Addr>, obs: set<Option<V>>, o: Out)
    requires ThreadOK(h, c, pl, i, th, seen, obs) && !th.job.NoJob? && Local(h, th, o)
    ensures o.th.pc.LoadHead? ==> Refused(h, th.pc)
  {
    hide ThreadOK;
    PointersValid(i, h, c, pl, th, seen, obs);
  }

  /** Inside a call, a traversal starts again only after a compare-and-set or a mark has failed. */
  lemma {:induction false} RestartReason(r: seq<State>, j: nat, t: Tid)
    requires IsRun(r) && j + 1 < |r| && StepBy(r[j], r[j + 1], t) && t in r[j].threads && !r[j].threads[t].job.NoJob?
    requires r[j + 1].threads[t].pc.LoadHead?
    ensures Refused(r[j].heap, r[j].threads[t].pc)
  {
    hide Inv, Init, Next, ThreadOK, Local, Refused, Moved, WatchNodes, WatchKey;
    RunInv(r, j);
    var s, s' := r[j], r[j + 1];
    var o :| StepOf(s, s', t, o);
    ThreadIs(s, t);
    RestartLocal(t, s.heap, Live(s), s.place, s.threads[t], s.seen[t], s.obs[t], o);
  }

  // ---------------------------------------------------------------- how far a call has to go

  ghost function Above(h: Heap, key: Key): set<Addr> {
    set b | b in h && Less(key, h[b].key)
  }

  /** One more than the number of nodes with a larger key; nothing is left behind the end of the list. */
  ghost function Rank(h: Heap, a: Addr): nat {
    if a in h then |Above(h, h[a].key)| + 1 else 0
  }

  lemma {:induction false} Subset<T>(x: set<T>, y: set<T>)
    requires x <= y
    ensures |x| <= |y| && (x != y ==> |x| < |y|)
  {
    var z := y - x;
    assert y == x + z;
  }

  lemma {:induction false} RankMost(h: Heap, a: Addr)
    ensures Rank(h, a) <= |h|
  {
    if a in h {
      var x := Above(h, h[a].key);
      assert a !in x;
      Subset(x, h.Keys - {a});
      assert |h.Keys| == |h|;
    }
  }

  lemma {:induction false} RankLess(h: Heap, a: Addr, b: Addr)
    requires a in h && (b in h ==> Less(h[a].key, h[b].key))
    ensures Rank(h, b) < Rank(h, a)
  {
    if b in h {
      var x, y := Above(h, h[b].key), Above(h, h[a].key);
      assert b in y && b !in x;
      Subset(x, y);
    }
  }

  ghost predicate SameKeys(h: Heap, h': Heap) {
    h'.Keys == h.Keys && forall a :: a in h ==> h'[a].key == h[a].key
  }

  lemma {:induction false} RankSame(h: Heap, h': Heap, a: Addr)
    requires SameKeys(h, h')
    ensures Rank(h', a) == Rank(h, a) && |h'| == |h|
  {
    if a in h {
      assert Above(h', h'[a].key) == Above(h, h[a].key);
    }
    assert |h'.Keys| == |h'| && |h.Keys| == |h|;
  }

  /** How many steps a thread needs at most, if its compare-and-sets and its mark succeed. */
  ghost function Cost(h: Heap, pc: Pc): nat {
    match pc
    case LoadHead => 8 + 3 * |h|
    case HLoop(_, _, curr) => 7 + |h| + Rank(h, curr)
    case HUnlink(_, _, _, _) => 6 + |h|
    case HRetire(node, _, _, _) => 5 + Rank(h, node)
    case MLoop(_, curr) => 5 + 2 * Rank(h, curr)
    case MUnlink(_, curr, _) => 4 + 2 * Rank(h, curr)
    case SLoop(_, curr) => 5 + Rank(h, curr)
    case Found(_, _, _) => 4
    case FetchOr(_, _) => 2
    case CasInsert(_, _) => 1
    case CasUnlink(_, _, _, _) => 1
    case _ => 0
  }

  /** The node that a thread reads next leads to the end or to a larger key. */
  lemma {:induction false} NextLarger(i: Tid, h: Heap, c: seq<Addr>, pl: map<Addr, Place>, th: Thread, seen: set<Addr>,
      obs: set<Option<V>>)
    requires HeapOK(h, c, pl) && ThreadOK(h, c, pl, i, th, seen, obs)
    ensures HasCursor(th.pc) && th.pc.curr != NULL ==>
              th.pc.curr in h && Rank(h, h[th.pc.curr].next.ptr) < Rank(h, th.pc.curr)
    ensures th.pc.HRetire? && th.pc.node != th.pc.curr ==>
              th.pc.node in h && Rank(h, h[th.pc.node].next.ptr) < Rank(h, th.pc.node)
    ensures th.pc.MUnlink? ==> th.pc.curr != NULL && h[th.pc.curr].next.ptr == th.pc.next
  {
    hide IsChain, NodeOK, Contents, Lookup, Rank, MarkedRun, Gap;
    if HasCursor(th.pc) && th.pc.curr != NULL {
      assert th.pc.curr in seen;
      Onwards(h, c, pl, th.pc.curr);
    }
    if th.pc.HRetire? && th.pc.node != th.pc.curr {
      var w :| Awaiting(h, pl, i, th.pc.node, th.pc.curr, w);
      assert |w| > 1 && w[0] in w[..|w| - 1];
      assert w[0] in h;
      Onwards(h, c, pl, th.pc.node);
    }
  }

  lemma {:induction false} Onwards(h: Heap, c: seq<Addr>, pl: map<Addr, Place>, a: Addr)
    requires HeapOK(h, c, pl) && a in h && Public(pl[a])
    ensures Rank(h, h[a].next.ptr) < Rank(h, a)
  {
    hide IsChain, NodeOK, Rank;
    assert NextOK(h, pl, a);
    RankLess(h, a, h[a].next.ptr);
  }

  /** Keys stay, and no node comes or goes. */
  lemma {:induction false} StepKeys(i: Tid, h: Heap, c: seq<Addr>, pl: map<Addr, Place>, th: Thread, seen: set<Addr>,
      obs: set<Option<V>>, o: Out)
    requires ThreadOK(h, c, pl, i, th, seen, obs) && !th.job.NoJob? && Local(h, th, o)
    ensures SameKeys(h, o.heap)
  {
    hide ThreadOK;
    PointersValid(i, h, c, pl, th, seen, obs);
  }

  /** Every step brings the reply nearer, unless the traversal starts again. */
  lemma {:induction false} StepCost(i: Tid, h: Heap, c: seq<Addr>, pl: map<Addr, Place>, th: Thread, seen: set<Addr>,
      obs: set<Option<V>>, o: Out)
    requires HeapOK(h, c, pl) && ThreadOK(h, c, pl, i, th, seen, obs) && !th.job.NoJob? && !th.pc.Return?
    requires Local(h, th, o) && !o.th.pc.LoadHead?
    ensures !o.th.job.NoJob? && Cost(h, o.th.pc) < Cost(h, th.pc)
  {
    hide ThreadOK, HeapOK, Rank;
    PointersValid(i, h, c, pl, th, seen, obs);
    NextLarger(i, h, c, pl, th, seen, obs);
    RankNull(h, c, pl);
    if HEAD in h {
      RankMost(h, h[HEAD].next.ptr);
    }
    if th.pc.HUnlink? {
      RankMost(h, th.pc.prevNext);
    }
    if HasCursor(th.pc) && th.pc.curr in h {
      RankMost(h, h[th.pc.curr].next.ptr);
    }
  }

  lemma {:induction false} RankNull(h: Heap, c: seq<Addr>, pl: map<Addr, Place>)
    requires HeapOK(h, c, pl)
    ensures Rank(h, NULL) == 0
  {
  }

  // ---------------------------------------------------------------- alone

  /** What the thread expects of the heap is so. */
  ghost predicate Fresh(h: Heap, th: Thread) {
    && (forall a, x :: Relies(th, a, x) ==> Holds(h, a, x))
    && (forall a :: Targets(th, a) ==> a in h && !h[a].next.mark)
  }

  /** How many steps a thread needs at most if it alone takes steps: at most one traversal is in vain. */
  ghost function ToGo(s: State, t: Tid): nat
    requires t in s.threads
  {
    Cost(s.heap, s.threads[t].pc) + if Fresh(s.heap, s.threads[t]) then 0 else 9 + 3 * |s.heap|
  }

  ghost function Bound(s: State): nat {
    17 + 6 * |s.heap|
  }

  lemma {:induction false} WithinBound(s: State, t: Tid)
    requires t in s.threads
    ensures ToGo(s, t) <= Bound(s)
  {
    hide Rank, Fresh;
    var pc := s.threads[t].pc;
    if HasCursor(pc) {
      RankMost(s.heap, pc.curr);
    }
    if pc.HRetire? {
      RankMost(s.heap, pc.node);
    }
  }

  lemma {:induction false} FreshStep(i: Tid, h: Heap, c: seq<Addr>, pl: map<Addr, Place>, th: Thread, seen: set<Addr>,
      obs: set<Option<V>>, o: Out)
    requires ThreadOK(h, c, pl, i, th, seen, obs) && Local(h, th, o) && Fresh(h, th)
    ensures Fresh(o.heap, o.th)
  {
    hide ThreadOK, Local, Relies, Targets;
    forall a, x | Relies(o.th, a, x) ensures Holds(o.heap, a, x) {
      OwnStep(i, h, c, pl, th, seen, obs, o, a, x);
    }
    forall a | Targets(o.th, a) ensures a in o.heap && !o.heap[a].next.mark {
      OwnTarget(i, h, c, pl, th, seen, obs, o, a);
    }
  }

  lemma {:induction false} FreshSucceeds(h: Heap, th: Thread)
    requires Fresh(h, th)
    ensures !Refused(h, th.pc)
  {
    var pc := th.pc;
    if pc.HUnlink? {
      assert Relies(th, pc.prev, pc.prevNext);
    } else if pc.MUnlink? || pc.CasInsert? {
      assert Relies(th, pc.prev, pc.curr);
    } else if pc.FetchOr? {
      assert Targets(th, pc.curr);
    }
  }

  lemma {:induction false} AtHeadFresh(h: Heap, th: Thread)
    requires th.pc.LoadHead?
    ensures Fresh(h, th)
  {
  }

  /** A step of the thread itself brings the reply nearer. */
  lemma {:induction false} SoloStep(s: State, s': State, t: Tid)
    requires Inv(s) && StepBy(s, s', t) && t in s.threads && !s.threads[t].job.NoJob? && !s.threads[t].pc.Return?
    ensures t in s'.threads && !s'.threads[t].job.NoJob? && |s'.heap| == |s.heap| && ToGo(s', t) < ToGo(s, t)
  {
    hide Inv, ThreadOK, HeapOK, Local, Fresh, Refused, Cost, Moved, WatchNodes, WatchKey;
    var o :| StepOf(s, s', t, o);
    var th := s.threads[t];
    ThreadIs(s, t);
    HeapIs(s);
    StepKeys(t, s.heap, Live(s), s.place, th, s.seen[t], s.obs[t], o);
    CostSame(s.heap, s'.heap, o.th.pc);
    if o.th.pc.LoadHead? {
      RestartLocal(t, s.heap, Live(s), s.place, th, s.seen[t], s.obs[t], o);
      AtHeadFresh(s'.heap, o.th);
      HeadJob(s.heap, th, o);
      HeadCost(s'.heap, o.th.pc);
      if Fresh(s.heap, th) {
        FreshSucceeds(s.heap, th);
      }
    } else {
      StepCost(t, s.heap, Live(s), s.place, th, s.seen[t], s.obs[t], o);
      if Fresh(s.heap, th) {
        FreshStep(t, s.heap, Live(s), s.place, th, s.seen[t], s.obs[t], o);
      }
    }
  }

  lemma {:induction false} HeapIs(s: State)
    requires Inv(s)
    ensures HeapOK(s.heap, Live(s), s.place)
  {
    hide ThreadsOK, HeapOK, RetiredOK, SpentOK, PlacesOwned;
    ChainOf(s);
  }

  lemma {:induction false} CostSame(h: Heap, h': Heap, pc: Pc)
    requires SameKeys(h, h')
    ensures Cost(h', pc) == Cost(h, pc) && |h'| == |h|
  {
    hide Rank, SameKeys;
    RankSame(h, h', NULL);
    if HasCursor(pc) {
      RankSame(h, h', pc.curr);
    }
    if pc.HRetire? {
      RankSame(h, h', pc.node);
    }
  }

  lemma {:induction false} HeadJob(h: Heap, th: Thread, o: Out)
    requires Local(h, th, o) && o.th.pc.LoadHead?
    ensures !o.th.job.NoJob?
  {
  }

  lemma {:induction false} HeadCost(h: Heap, pc: Pc)
    requires pc.LoadHead?
    ensures Cost(h, pc) == 8 + 3 * |h|
  {
  }

  // ---------------------------------------------------------------- completion

  ghost predicate OwnMove(r: seq<State>, n: int, t: Tid) {
    0 <= n < |r| - 1 && StepBy(r[n], r[n + 1], t)
  }

  /** From state `i` on, only thread `t` takes steps. */
  ghost predicate Alone(r: seq<State>, i: nat, t: Tid) {
    forall n :: i <= n < |r| - 1 ==> OwnMove(r, n, t)
  }

  ghost predicate InCall(s: State, t: Tid) {
    t in s.threads && !s.threads[t].job.NoJob?
  }

  /** In any run, a thread inside a call that has been alone for as many steps as the bound has replied. */
  lemma {:induction false} SoloReturns(r: seq<State>, i: nat, t: Tid) returns (n: nat)
    requires IsRun(r) && i < |r| && InCall(r[i], t) && Alone(r, i, t) && |r| - 1 - i >= ToGo(r[i], t)
    ensures i <= n < |r| && InCall(r[n], t) && r[n].threads[t].pc.Return?
    decreases |r| - i
  {
    hide Init, Next, Inv, StepBy, ToGo;
    RunInv(r, i);
    if r[i].threads[t].pc.Return? {
      n := i;
    } else {
      Positive(r[i], t);
      assert OwnMove(r, i, t);
      SoloStep(r[i], r[i + 1], t);
      n := SoloReturns(r, i + 1, t);
    }
  }

  lemma {:induction false} Positive(s: State, t: Tid)
    requires Inv(s) && InCall(s, t) && !s.threads[t].pc.Return?
    ensures ToGo(s, t) > 0
  {
    hide Inv, ThreadOK, Rank, Fresh;
    ThreadIs(s, t);
    PointersValid(t, s.heap, Live(s), s.place, s.threads[t], s.seen[t], s.obs[t]);
  }

  /** A thread inside a call that has not replied can always take a step. */
  lemma {:induction false} CanMove(s: State, t: Tid) returns (s': State)
    requires Inv(s) && InCall(s, t) && !s.threads[t].pc.Return?
    ensures StepBy(s, s', t)
  {
    hide Inv, ThreadOK, Exec;
    ThreadIs(s, t);
    var th := s.threads[t];
    PointersValid(t, s.heap, Live(s), s.place, th, s.seen[t], s.obs[t]);
    var o := Exec(s.heap, th);
    var threads := s.threads[t := o.th];
    s' := State(o.heap, threads, s.retired + multiset(o.retired), s.spent + multiset(o.spent),
      map u | u in s.threads ::
        WatchNodes(if u in s.seen then s.seen[u] else {}, threads[u], u == t && o.th.pc.LoadHead?, o.heap),
      map u | u in s.threads ::
        WatchKey(if u in s.obs then s.obs[u] else {}, threads[u], u == t && o.th.pc.LoadHead?, o.heap),
      Moved(t, s.heap, s.place, o));
    assert StepOf(s, s', t, o);
  }

  /**
    An undisturbed call completes: from every reachable state, a thread inside a call that alone takes steps replies
    within the bound, for `get`, `insert` and `remove` and all three traversals.
   */
  lemma {:induction false} SoloCompletes(r: seq<State>, t: Tid) returns (r': seq<State>)
    requires IsRun(r) && InCall(r[|r| - 1], t)
    ensures |r| <= |r'| && r'[..|r|] == r && IsRun(r') && Alone(r', |r| - 1, t)
    ensures |r'| - |r| <= ToGo(r[|r| - 1], t) <= Bound(r[|r| - 1])
    ensures InCall(r'[|r'| - 1], t) && r'[|r'| - 1].threads[t].pc.Return?
    decreases ToGo(r[|r| - 1], t)
  {
    hide Init, Next, Inv, StepBy, ToGo, Bound;
    var s := r[|r| - 1];
    RunInv(r, |r| - 1);
    WithinBound(s, t);
    if s.threads[t].pc.Return? {
      r' := r;
    } else {
      var s' := CanMove(s, t);
      SoloStep(s, s', t);
      MoveIs(s, s', t);
      var q := r + [s'];
      RunMore(r, s');
      r' := SoloCompletes(q, t);
      assert r'[..|r|] == r'[..|q|][..|r|] == r;
      assert r'[|r| - 1] == r'[..|q|][|r| - 1] && r'[|r|] == r'[..|q|][|r|];
      assert OwnMove(r', |r| - 1, t);
    }
  }

  lemma {:induction false} MoveIs(s: State, s': State, t: Tid)
    requires StepBy(s, s', t)
    ensures Next(s, s')
  {
    hide StepOf;
  }

  lemma {:induction false} RunMore(r: seq<State>, s': State)
    requires IsRun(r) && Next(r[|r| - 1], s')
    ensures IsRun(r + [s'])
  {
    hide Init, Next;
    var q := r + [s'];
    forall i | 0 <= i < |q| - 1 ensures Next(q[i], q[i + 1]) {
      if i < |r| - 1 {
        assert Next(r[i], r[i + 1]);
      }
    }
  }

  /** A remove of thread `u` takes the key out of the map. */
  ghost predicate MarkedAway(s: State, s': State, u: Tid, k: int) {
    exists v: V :: RemoveEffect(s, s', u, k, v)
  }

  /**
    The reason behind every restart: a traversal starts again only if another thread has written the field that the
    call expects since the call loaded it, or if another remove of the same key has taken effect on its node.
   */
  lemma {:induction false} RestartCause(r: seq<State>, j: nat, t: Tid) returns (l: nat, m: nat, u: Tid)
    requires IsRun(r) && j + 1 < |r| && StepBy(r[j], r[j + 1], t) && InCall(r[j], t)
    requires r[j + 1].threads[t].pc.LoadHead?
    ensures l <= m < j && u != t
    ensures (exists a, x :: ReliesSince(r, l, j, t, a, x) && Overwrites(r[m], r[m + 1], u, a, x))
         || exists a :: TargetsSince(r, l, j, t, a) && MarkedAway(r[m], r[m + 1], u, r[j].threads[t].job.k)
  {
    hide Init, Next, StepBy, ReliesSince, Overwrites, TargetsSince, RemoveEffect, Holds;
    RestartReason(r, j, t);
    var pc := r[j].threads[t].pc;
    if pc.FetchOr? {
      var v: V;
      l, m, u, v := MarkFailsAfterRemove(r, j, t, pc.curr);
      assert MarkedAway(r[m], r[m + 1], u, r[j].threads[t].job.k);
    } else {
      l, m, u := FailsAfterWrite(r, j, t, pc.prev, if pc.HUnlink? then pc.prevNext else pc.curr);
    }
  }
}
