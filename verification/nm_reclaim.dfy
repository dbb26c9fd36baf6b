/**
  Further results about runs of the Natarajan-Mittal tree: search-path monotonicity, one winner per leaf,
  and exact accounting of every node from allocation to the collector.
 */
module NMReclaim {
  import opened NMShape
  import opened NMProtocol
  import opened NMInvariant
  import opened NMActions
  import opened NMTheorems
  import opened NMRuns

  // ---------------------------------------------------------------- search-path monotonicity

  /** An unlinked node never comes back. */
  lemma {:induction false} ReachableBefore(r: seq<State>, i: nat, j: nat, a: Addr)
    requires IsRun(r) && i <= j < |r| && a in r[i].place && a in r[i].heap && Public(r[i].place[a])
      && a in Addrs(Live(r[j]))
    ensures a in Addrs(Live(r[i]))
    decreases j - i
  {
    hide Inv, Init, Next, Addrs;
    RunInv(r, i);
    InTreeIs(r[i], a);
    if i < j {
      assert Next(r[i], r[i + 1]);
      PublicStays(r[i], r[i + 1], a);
      ReachableBefore(r, i + 1, j, a);
      RunInv(r, i + 1);
      InTreeIs(r[i + 1], a);
    }
  }

  lemma {:induction false} InTreeIs(s: State, a: Addr)
    requires Inv(s) && a in s.heap
    ensures a in s.place && (a in Addrs(Live(s)) <==> s.place[a].InTree?)
  {
    hide ThreadsOK, ClaimsOK, OwnersOK, RetiredOK, PlacesOwned, ShapeOK, NodesOK;
    TreeOf(s);
  }

  lemma {:induction false} InternalPathStays(s: State, s': State, k: int, a: Addr)
    requires Inv(s) && Next(s, s') && a in s.heap && s.heap[a].Internal()
    requires a in Path(s.heap, Live(s), k) && a in Addrs(Live(s'))
    ensures a in Path(s'.heap, Live(s'), k)
  {
    hide ThreadsOK, ClaimsOK, OwnersOK, RetiredOK, PlacesOwned, HeapOK, NodesEvolve, FlagsKept, Effect, FlagEffect,
      Path, Addrs;
    var i, o :| StepOf(s, s', i, o);
    StepFacts(s, s', i, o);
  }

  /**
    Once the search path of `k` goes through an internal node, it does so for as long as the node is
    reachable, whatever inserts and splices the other threads perform.
   */
  lemma {:induction false} PathMonotone(r: seq<State>, i: nat, j: nat, k: int, a: Addr)
    requires IsRun(r) && i <= j < |r| && a in r[i].heap && r[i].heap[a].Internal()
    requires a in Path(r[i].heap, Live(r[i]), k) && a in Addrs(Live(r[j]))
    ensures a in r[j].heap && r[j].heap[a].Internal() && a in Path(r[j].heap, Live(r[j]), k)
    decreases j - i
  {
    hide Inv, Init, Next, Addrs, Path;
    if i < j {
      RunInv(r, i);
      assert Next(r[i], r[i + 1]);
      OnPathPublic(r[i], k, a);
      PublicStays(r[i], r[i + 1], a);
      ReachableBefore(r, i + 1, j, a);
      InternalPathStays(r[i], r[i + 1], k, a);
      PathMonotone(r, i + 1, j, k, a);
    }
  }

  /** The compare-and-set of an insert is about to succeed: the edge it expects, unmarked, is there. */
  ghost predicate WillLink(h: Heap, th: Thread) {
    && th.pc.CasInsert? && th.pc.rec.parent in h
    && h[th.pc.rec.parent].At(th.pc.rec.ldir) == Plain(th.pc.rec.leaf)
  }

  lemma {:induction false} GuardLinks(h: Heap, th: Thread, o: Out)
    requires Local(h, th, o) && !th.pc.Fault?
    ensures WillLink(h, th) <==> Links(th, o)
  {
  }

  /**
    For leaves this fails, and exactly so: a step takes a leaf that stays in the tree off the search path of
    `k` if and only if it is taken by an insert beside that leaf, about to succeed, whose key attracts `k`.
   */
  lemma {:induction false} LeafPathExact(s: State, s': State, i: Tid, o: Out, k: int, a: Addr)
    requires Inv(s) && StepOf(s, s', i, o) && a in s.heap
    requires a in Path(s.heap, Live(s), k) && a in Addrs(Live(s'))
    ensures a !in Path(s'.heap, Live(s'), k) <==>
              && WillLink(s.heap, s.threads[i]) && s.threads[i].pc.rec.leaf == a
              && s.threads[i].job.Insert? && !Stays(s.heap[a].key, s.threads[i].job.k, k)
  {
    hide SystemOK, Rely, FlagEffect, Path, Addrs, Stays, Contents, KeysOf, Local, Moved, Watch, WillLink;
    StepFacts(s, s', i, o);
    NoFault(s, i);
    GuardLinks(s.heap, s.threads[i], o);
  }

  lemma {:induction false} NoFault(s: State, i: Tid)
    requires SystemOK(s, Live(s)) && i in s.threads
    ensures !s.threads[i].pc.Fault?
  {
    hide HeapOK, ThreadOK, ClaimsOK, OwnersOK, RetiredOK, PlacesOwned;
    PointersValid(i, s.heap, Live(s), s.place, s.claimed, s.threads[i], s.seen[i]);
  }

  /** The empty map with the two nodes that an insert of 7 has prepared. */
  function ReadyHeap(v: V): Heap {
    InitHeap()[100 := Node(Fin(7), Some(v), Plain(NULL), Plain(NULL))][101 := Node(Inf, None, Plain(100), Plain(INF0))]
  }

  ghost function GrownTree(): Tree {
    T(ROOT, T(SENT, T(101, LeafTree(100), LeafTree(INF0)), LeafTree(INF1)), LeafTree(INF2))
  }

  lemma {:induction false} ReadyShape(h: Heap, k: int)
    requires ROOT in h && h[ROOT] == InitHeap()[ROOT] && INF2 in h && h[INF2] == InitHeap()[INF2]
    requires SENT in h && h[SENT] == InitHeap()[SENT] && INF0 in h && h[INF0] == InitHeap()[INF0] && INF1 in h
      && h[INF1] == InitHeap()[INF1]
    ensures Rep(h, ROOT, InitTree()) && INF0 in Path(h, InitTree(), k)
  {
    var n := T(SENT, LeafTree(INF0), LeafTree(INF1));
    assert Rep(h, INF0, LeafTree(INF0)) && Rep(h, INF1, LeafTree(INF1)) && Rep(h, INF2, LeafTree(INF2))
      && Rep(h, SENT, n);
    assert Path(h, LeafTree(INF0), k) == {INF0} && Path(h, n, k) == {SENT, INF0};
  }

  lemma {:induction false} GrownShape(v: V, h: Heap, k: int)
    requires h == ReadyHeap(v)[SENT := Node(Inf, None, Plain(101), Plain(INF1))]
    ensures Rep(h, ROOT, GrownTree()) && INF0 in Addrs(GrownTree()) && INF0 !in Path(h, GrownTree(), k)
  {
    var m := T(101, LeafTree(100), LeafTree(INF0));
    var n := T(SENT, m, LeafTree(INF1));
    assert Rep(h, INF0, LeafTree(INF0)) && Rep(h, INF1, LeafTree(INF1)) && Rep(h, INF2, LeafTree(INF2))
      && Rep(h, 100, LeafTree(100));
    assert Rep(h, 101, m);
    assert Rep(h, SENT, n);
    assert Path(h, LeafTree(100), k) == {100};
    assert Path(h, m, k) == {101, 100};
    assert Path(h, n, k) == {SENT, 101, 100};
    assert INF0 in Addrs(m) && INF0 in Addrs(n);
  }

  /** A thread takes a step that is open to it. */
  lemma {:induction false} Take(s: State, t: Tid, o: Out) returns (s': State)
    requires t in s.threads && Local(s.heap, s.threads[t], o)
    ensures Next(s, s') && s'.heap == o.heap && s'.threads == s.threads[t := o.th]
  {
    var threads := s.threads[t := o.th];
    s' := State(o.heap, threads, s.retired + multiset(o.retired),
                map u | u in s.threads ::
                  Watch(if u in s.seen then s.seen[u] else {}, threads[u], u == t && o.th.pc.SeekRoot?, o.heap),
                Moved(t, s.heap, s.place, o),
                s.claimed + (if s.threads[t].pc.CasFlag? && o.th.job.Purge? then {s.threads[t].pc.rec.leaf} else {}));
    assert StepOf(s, s', t, o);
  }

  lemma {:induction false} TakeExec(s: State, t: Tid) returns (s': State)
    requires t in s.threads && Running(s.threads[t]) && Matches(s.threads[t])
    ensures var o := Exec(s.heap, s.threads[t]); Next(s, s') && s'.heap == o.heap && s'.threads == s.threads[t := o.th]
  {
    hide Exec;
    s' := Take(s, t, Exec(s.heap, s.threads[t]));
  }

  /** A seek in a tree whose leftmost node below `s` is the leaf `inf0`. */
  lemma {:induction false} SeekEmpty(h: Heap, job: Job)
    requires !job.NoJob? && ROOT in h && SENT in h && INF0 in h && h[ROOT].left == Plain(SENT)
    requires h[SENT].left == Plain(INF0) && h[INF0].left == Plain(NULL)
    ensures var rec := Rec(ROOT, SENT, L, SENT, INF0, L);
            && Exec(h, Thread(job, SeekRoot)) == Goto(h, Thread(job, SeekRoot), SeekSent(SENT))
            && Exec(h, Thread(job, SeekSent(SENT))) == Goto(h, Thread(job, SeekSent(SENT)), SeekNext(rec, false, L))
            && Exec(h, Thread(job, SeekNext(rec, false, L)))
              == Goto(h, Thread(job, SeekNext(rec, false, L)), Decide(rec))
  {
  }

  lemma {:induction false} SeekSteps(s: State, job: Job) returns (s1: State, s2: State, s3: State)
    requires 0 in s.threads && s.threads[0] == Thread(job, SeekRoot) && !job.NoJob?
    requires ROOT in s.heap && SENT in s.heap && INF0 in s.heap && s.heap[ROOT].left == Plain(SENT)
    requires s.heap[SENT].left == Plain(INF0) && s.heap[INF0].left == Plain(NULL)
    ensures Next(s, s1) && Next(s1, s2) && Next(s2, s3) && s3.heap == s.heap
    ensures 0 in s3.threads && s3.threads[0] == Thread(job, Decide(Rec(ROOT, SENT, L, SENT, INF0, L)))
  {
    hide Next, Exec;
    SeekEmpty(s.heap, job);
    s1 := TakeExec(s, 0);
    s2 := TakeExec(s1, 0);
    s3 := TakeExec(s2, 0);
  }

  /** The first half of the insert of 7 into the empty map: the call begins and its seek comes to `inf0`. */
  lemma {:induction false} SeekSeven(s: State, v: V) returns (r: seq<State>)
    requires Init(s) && 0 in s.threads
    ensures |r| == 5 && r[0] == s && forall i :: 0 <= i < 4 ==> Next(r[i], r[i + 1])
    ensures r[4].heap == InitHeap()[100 := Node(Fin(7), Some(v), Plain(NULL), Plain(NULL))]
                                   [101 := Node(Inf, None, Plain(NULL), Plain(NULL))]
    ensures 0 in r[4].threads
    ensures r[4].threads[0] == Thread(Insert(7, v, 100, 101), Decide(Rec(ROOT, SENT, L, SENT, INF0, L)))
  {
    hide Next, Watch, Moved, Exec;
    var job := Insert(7, v, 100, 101);
    var h := InitHeap()[100 := Node(Fin(7), Some(v), Plain(NULL), Plain(NULL))]
                       [101 := Node(Inf, None, Plain(NULL), Plain(NULL))];
    assert Begins(s.heap, s.threads[0], Out(h, Thread(job, SeekRoot), {}, {}));
    var s1 := Take(s, 0, Out(h, Thread(job, SeekRoot), {}, {}));
    var s2, s3, s4 := SeekSteps(s1, job);
    r := [s, s1, s2, s3, s4];
  }

  /** The second half: the internal node is filled in and the compare-and-set succeeds. */
  lemma {:induction false} LinkSeven(s: State, v: V) returns (s': State, s'': State)
    requires s.heap == InitHeap()[100 := Node(Fin(7), Some(v), Plain(NULL), Plain(NULL))]
                                 [101 := Node(Inf, None, Plain(NULL), Plain(NULL))]
    requires 0 in s.threads && s.threads[0] == Thread(Insert(7, v, 100, 101), Decide(Rec(ROOT, SENT, L, SENT, INF0, L)))
    ensures Next(s, s') && Next(s', s'') && s'.heap == ReadyHeap(v)
    ensures s''.heap == ReadyHeap(v)[SENT := Node(Inf, None, Plain(101), Plain(INF1))]
  {
    hide Next, Watch, Moved;
    s' := TakeExec(s, 0);
    assert s'.heap == ReadyHeap(v);
    assert s'.threads[0] == Thread(Insert(7, v, 100, 101), CasInsert(Rec(ROOT, SENT, L, SENT, INF0, L)));
    s'' := TakeExec(s', 0);
  }

  /**
    The failing case, in a run: the insert of 7 into the empty map diverts every key from `inf0`, which stays
    in the tree.
   */
  lemma {:induction false} LeafPathExample(v: V, k: int) returns (r: seq<State>)
    ensures IsRun(r) && |r| == 7
    ensures INF0 in Path(r[5].heap, Live(r[5]), k) && INF0 in Addrs(Live(r[6]))
      && INF0 !in Path(r[6].heap, Live(r[6]), k)
  {
    hide Next, Watch, Moved, Rep, Path, Addrs;
    var s := State(InitHeap(), map[0 := Thread(NoJob, Idle)], multiset{}, map[0 := {}], map a | a in InitHeap() ::
      InTree, {});
    assert Init(s);
    var q := SeekSeven(s, v);
    var s5, s6 := LinkSeven(q[4], v);
    r := q + [s5, s6];
    ReadyShape(s5.heap, k);
    ShapeIs(s5.heap, InitTree());
    GrownShape(v, s6.heap, k);
    ShapeIs(s6.heap, GrownTree());
  }

  // ---------------------------------------------------------------- one winner per leaf

  /** Thread `t` flags the leaf `a` in the step from `r[i]`. */
  ghost predicate FlagsAt(r: seq<State>, i: nat, t: Tid, a: Addr) {
    && i + 1 < |r| && t in r[i].threads && t in r[i + 1].threads
    && r[i].threads[t].job.Inject? && r[i + 1].threads[t].job.Purge? && r[i + 1].threads[t].job.leaf == a
  }

  lemma {:induction false} FlagClaims(s: State, s': State, t: Tid)
    requires Inv(s) && Next(s, s') && t in s.threads && t in s'.threads && s.threads[t].job.Inject?
      && s'.threads[t].job.Purge?
    ensures s'.threads[t].job.leaf !in s.claimed && s'.threads[t].job.leaf in s'.claimed
    ensures forall u :: u in s.threads && u != t && u in s'.threads ==> s'.threads[u] == s.threads[u]
  {
    hide SystemOK, Rely, Effect, Watch, Moved, Flagged;
    var i, o :| StepOf(s, s', i, o);
    StepFacts(s, s', i, o);
    assert i == t;
  }

  lemma {:induction false} ClaimsGrow(r: seq<State>, i: nat, j: nat)
    requires IsRun(r) && i <= j < |r|
    ensures r[i].claimed <= r[j].claimed
    decreases j
  {
    hide Init, Local, Watch, Moved;
    if i < j {
      ClaimsGrow(r, i, j - 1);
      assert Next(r[j - 1], r[j - 1 + 1]);
    }
  }

  /** A leaf is flagged at most once in a run. */
  lemma {:induction false} FlaggedOnce(r: seq<State>, i: nat, t: Tid, j: nat, u: Tid, a: Addr)
    requires IsRun(r) && FlagsAt(r, i, t, a) && FlagsAt(r, j, u, a)
    ensures i == j && t == u
  {
    hide Inv, Init, Next;
    assert Next(r[i], r[i + 1]) && Next(r[j], r[j + 1]);
    RunInv(r, i);
    RunInv(r, j);
    FlagClaims(r[i], r[i + 1], t);
    FlagClaims(r[j], r[j + 1], u);
    if i < j {
      ClaimsGrow(r, i + 1, j);
    } else if j < i {
      ClaimsGrow(r, j + 1, i);
    }
  }

  /**
    The flag follows its leaf: a flagged leaf is flagged for as long as it is in the tree, wherever splices
    move it.
   */
  lemma {:induction false} FlagFollows(r: seq<State>, i: nat, j: nat, l: Addr)
    requires IsRun(r) && i <= j < |r| && Flagged(r[i].heap, Live(r[i]), l) && l in Addrs(Live(r[j]))
    ensures Flagged(r[j].heap, Live(r[j]), l)
    decreases j - i
  {
    hide Inv, Init, Next, Addrs, Flagged;
    if i < j {
      RunInv(r, i);
      assert Next(r[i], r[i + 1]);
      FlaggedPublic(r[i], l);
      PublicStays(r[i], r[i + 1], l);
      ReachableBefore(r, i + 1, j, l);
      FlagStays(r[i], r[i + 1], l);
      FlagFollows(r, i + 1, j, l);
    }
  }

  lemma {:induction false} FlaggedPublic(s: State, l: Addr)
    requires Inv(s) && Flagged(s.heap, Live(s), l)
    ensures l in s.heap && l in s.place && Public(s.place[l])
  {
    hide ThreadsOK, ClaimsOK, OwnersOK, RetiredOK, PlacesOwned, Sentinels, Addrs;
    TreeOf(s);
    FlaggedIn(s.heap, Live(s), l);
    InTreeIs(s, l);
  }

  lemma {:induction false} FlagStays(s: State, s': State, l: Addr)
    requires Inv(s) && Next(s, s') && Flagged(s.heap, Live(s), l) && l in Addrs(Live(s'))
    ensures Flagged(s'.heap, Live(s'), l)
  {
    hide ThreadsOK, ClaimsOK, OwnersOK, RetiredOK, PlacesOwned, HeapOK, NodesEvolve, PathsKept, Effect, FlagEffect,
      Flagged, Addrs;
    var i, o :| StepOf(s, s', i, o);
    StepFacts(s, s', i, o);
  }

  /** A remove replies with a value only when the leaf it flagged, which holds that value, is unlinked. */
  lemma {:induction false} WinnerUnlinked(r: seq<State>, j: nat, t: Tid, v: V)
    requires IsRun(r) && j < |r| && t in r[j].threads && r[j].threads[t].pc == Return(Removed(Some(v)))
    ensures var s, job := r[j], r[j].threads[t].job;
            && job.Purge? && job.leaf in s.heap && job.leaf !in Addrs(Live(s))
            && s.heap[job.leaf].key == Fin(job.k) && s.heap[job.leaf].value == Some(v)
    ensures forall u :: u in r[j].threads && u != t && r[j].threads[u].job.Purge? ==>
              r[j].threads[u].job.leaf != r[j].threads[t].job.leaf
  {
    hide Init, Next, Inv, SystemOK;
    RunInv(r, j);
    TreeOf(r[j]);
    WinnerState(r[j], t, v);
  }

  lemma {:induction false} WinnerState(s: State, t: Tid, v: V)
    requires SystemOK(s, Live(s)) && t in s.threads && s.threads[t].pc == Return(Removed(Some(v)))
    ensures var job := s.threads[t].job;
            && job.Purge? && job.leaf in s.heap && job.leaf !in Addrs(Live(s))
            && s.heap[job.leaf].key == Fin(job.k) && s.heap[job.leaf].value == Some(v)
    ensures forall u :: u in s.threads && u != t && s.threads[u].job.Purge? ==>
              s.threads[u].job.leaf != s.threads[t].job.leaf
  {
    hide HeapOK, SeenOK, WalkOK, PrivateOK, PurgeSeek, ClaimsOK, RetiredOK, PlacesOwned, Flagged;
    assert ThreadOK(s.heap, Live(s), s.place, s.claimed, t, s.threads[t], s.seen[t]);
  }

  // ---------------------------------------------------------------- reclamation

  ghost predicate Walking(pc: Pc) {
    pc.WalkPop? || pc.WalkRight?
  }

  /** The five places partition the allocated nodes, and each place means what it says. */
  ghost predicate Accounted(s: State) {
    && s.place.Keys == s.heap.Keys
    && (forall a :: a in s.heap ==> (s.place[a].InTree? <==> a in Addrs(Live(s))))
    && (forall a :: a in s.heap ==> s.retired[a] == if s.place[a].Retired? then 1 else 0)
    && (forall a :: a in s.retired ==> a in s.heap)
    && (forall a :: a in s.heap && s.place[a].Pending? ==>
          s.place[a].t in s.threads && Walking(s.threads[s.place[a].t].pc))
    && (forall a :: a in s.heap && s.place[a].Private? ==>
          && s.place[a].t in s.threads
          && var th := s.threads[s.place[a].t]; th.job.Insert? && !th.pc.Return? && (a == th.job.nl || a == th.job.ni))
  }

  lemma {:induction false} PendingWalks(h: Heap, t: Tree, pl: map<Addr, Place>, claimed: set<Addr>, i: Tid, th: Thread,
      seen: set<Addr>, a: Addr)
    requires ThreadOK(h, t, pl, claimed, i, th, seen) && a in pl
    ensures pl[a] == Pending(i) ==> Walking(th.pc)
    ensures pl[a] == Private(i) ==> th.job.Insert? && !th.pc.Return? && (a == th.job.nl || a == th.job.ni)
  {
  }

  /**
    In every reachable state each allocated node is in exactly one of five places: in the tree, private to a
    running insert, waiting in the walk of the thread that unlinked it, handed to the collector exactly once,
    or freed by a refused insert. In particular no retired node is reachable and none is retired twice.
   */
  lemma {:induction false} NodesAccounted(r: seq<State>, j: nat)
    requires IsRun(r) && j < |r|
    ensures Accounted(r[j])
  {
    hide Init, Next, Inv, ThreadOK, ShapeOK, NodesOK, ClaimsOK, OwnersOK, Addrs, Walking;
    RunInv(r, j);
    var s := r[j];
    TreeOf(s);
    forall a | a in s.heap && s.place[a].Pending? ensures s.place[a].t in s.threads
      && Walking(s.threads[s.place[a].t].pc) {
      var i := s.place[a].t;
      PendingWalks(s.heap, Live(s), s.place, s.claimed, i, s.threads[i], s.seen[i], a);
    }
    forall a | a in s.heap && s.place[a].Private?
      ensures s.place[a].t in s.threads
      ensures var th := s.threads[s.place[a].t]; th.job.Insert? && !th.pc.Return? && (a == th.job.nl || a == th.job.ni)
    {
      var i := s.place[a].t;
      PendingWalks(s.heap, Live(s), s.place, s.claimed, i, s.threads[i], s.seen[i], a);
    }
  }

  /** The splice hands the nodes that become unreachable to the thread that made it, and to no other. */
  lemma {:induction false} SpliceHandsOver(s: State, s': State, t: Tid, a: Addr)
    requires Inv(s) && Next(s, s') && t in s.threads && t in s'.threads
    requires s.threads[t].pc.CasSplice? && s'.threads[t].pc.WalkPop? && a in Addrs(Live(s)) && a !in Addrs(Live(s'))
    ensures a in s'.heap && a in s'.place && s'.place[a] == Pending(t)
  {
    hide ThreadsOK, ClaimsOK, OwnersOK, RetiredOK, PlacesOwned, NodesOK, PathsKept, FlagsKept, Effect, FlagEffect,
      Moved, Watch, Addrs;
    var i, o :| StepOf(s, s', i, o);
    StepFacts(s, s', i, o);
    assert i == t;
    assert PlacesOK(s'.heap, Live(s'), s'.place);
    NodeLeaves(s, s', t, a);
  }

  lemma {:induction false} NodeLeaves(s: State, s': State, i: Tid, a: Addr)
    requires PlacesOK(s.heap, Live(s), s.place) && PlacesOK(s'.heap, Live(s'), s'.place) && Rep(s.heap, ROOT, Live(s))
    requires NodesEvolve(i, s.heap, s.place, s'.heap, s'.place)
    requires a in Addrs(Live(s)) && a !in Addrs(Live(s'))
    ensures a in s'.heap && a in s'.place && s'.place[a] == Pending(i)
  {
    assert a in s.heap && s.place[a].InTree?;
  }

}
