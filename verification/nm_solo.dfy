/**
  A call on the Natarajan-Mittal tree that nobody disturbs completes: a thread that alone takes steps replies after a
  bounded number of them, from every reachable state, whatever flags, tags and unlinked nodes the other threads have
  left behind.
 */
module NMSolo {
  import opened NMShape
  import opened NMProtocol
  import opened NMInvariant
  import opened NMPreservation
  import opened NMTheorems
  import opened NMRuns
  import opened NMReclaim
  import opened NMWalk
  import opened NMRetry

  // ---------------------------------------------------------------- every walk down ends

  /** Following pointers from `a` leads to finitely many published nodes. */
  ghost predicate Unfolds(h: Heap, pl: map<Addr, Place>, a: Addr) {
    exists t: Tree :: Rep(h, a, t) && AllPublic(pl, t)
  }

  ghost predicate AllPublic(pl: map<Addr, Place>, t: Tree) {
    forall x :: x in Addrs(t) ==> x in pl && Public(pl[x])
  }

  /** So it is from every published node, unlinked ones included. */
  ghost predicate Grounded(s: State) {
    forall a :: a in s.heap && a in s.place && Public(s.place[a]) ==> Unfolds(s.heap, s.place, a)
  }

  lemma {:induction false} TreeUnfolds(s: State, a: Addr)
    requires Inv(s) && a in Addrs(Live(s))
    ensures Unfolds(s.heap, s.place, a)
  {
    hide ThreadsOK, ClaimsOK, OwnersOK, RetiredOK, PlacesOwned, NodesOK, Sentinels, Ordered, Full, Distinct, Addrs;
    TreeOf(s);
    SubRep(s.heap, ROOT, Live(s), a);
    var t := Sub(Live(s), a);
    forall x | x in Addrs(t) ensures x in s.place && Public(s.place[x]) {
      InTreePublic(s, x);
    }
    assert Rep(s.heap, a, t) && AllPublic(s.place, t);
  }

  /** A published node outside the tree keeps its pointers. */
  lemma {:induction false} PointersStay(s: State, s': State, a: Addr)
    requires Inv(s) && Next(s, s') && a in s.heap && a in s.place && Public(s.place[a]) && a !in Addrs(Live(s'))
    ensures a in s'.heap && a in s'.place && Public(s'.place[a])
    ensures s'.heap[a].left.ptr == s.heap[a].left.ptr && s'.heap[a].right.ptr == s.heap[a].right.ptr
  {
    hide ThreadsOK, ClaimsOK, OwnersOK, RetiredOK, PlacesOwned, PathsKept, FlagsKept, Effect, FlagEffect, StepOf,
      ShapeOK, Addrs;
    var i, o :| StepOf(s, s', i, o);
    StepFacts(s, s', i, o);
    assert NodeOK(s.heap, a);
    assert Evolves(s.heap[a], s'.heap[a]);
  }

  lemma {:induction false} Regrow(s: State, s': State, a: Addr, t: Tree)
    requires Inv(s) && Inv(s') && Next(s, s') && Rep(s.heap, a, t) && AllPublic(s.place, t)
    ensures Unfolds(s'.heap, s'.place, a)
    decreases t
  {
    hide Inv, Next, Public;
    match t
    case Nil =>
      assert Rep(s'.heap, a, Nil) && AllPublic(s'.place, Nil);
    case T(b, l, r) =>
      if a in Addrs(Live(s')) {
        TreeUnfolds(s', a);
      } else {
        PointersStay(s, s', a);
        Regrow(s, s', s.heap[a].left.ptr, l);
        Regrow(s, s', s.heap[a].right.ptr, r);
        var l' :| Rep(s'.heap, s.heap[a].left.ptr, l') && AllPublic(s'.place, l');
        var r' :| Rep(s'.heap, s.heap[a].right.ptr, r') && AllPublic(s'.place, r');
        assert Rep(s'.heap, a, T(a, l', r')) && AllPublic(s'.place, T(a, l', r'));
      }
  }

  lemma {:induction false} WasPublic(s: State, s': State, a: Addr)
    requires Inv(s) && Next(s, s') && a in s'.heap && a in s'.place && Public(s'.place[a]) && a !in Addrs(Live(s'))
    ensures a in s.heap && a in s.place && Public(s.place[a])
  {
    hide ThreadsOK, ClaimsOK, OwnersOK, RetiredOK, PlacesOwned, PathsKept, FlagsKept, Effect, FlagEffect, StepOf,
      ShapeOK, Addrs, Evolves;
    var i, o :| StepOf(s, s', i, o);
    StepFacts(s, s', i, o);
  }

  lemma {:induction false} RunGrounded(r: seq<State>, j: nat)
    requires IsRun(r) && j < |r|
    ensures Grounded(r[j])
    decreases j
  {
    hide Init, Next, Inv, Unfolds, Addrs, Public;
    RunInv(r, j);
    if j > 0 {
      RunGrounded(r, j - 1);
      RunInv(r, j - 1);
      assert Next(r[j - 1], r[j - 1 + 1]);
    }
    forall a | a in r[j].heap && a in r[j].place && Public(r[j].place[a]) ensures Unfolds(r[j].heap, r[j].place, a) {
      if a in Addrs(Live(r[j])) {
        TreeUnfolds(r[j], a);
      } else if j == 0 {
        AllInTree(r[0], a);
      } else {
        WasPublic(r[j - 1], r[j], a);
        RegrowAt(r[j - 1], r[j], a);
      }
    }
  }

  lemma {:induction false} RegrowAt(s: State, s': State, a: Addr)
    requires Inv(s) && Inv(s') && Next(s, s') && Unfolds(s.heap, s.place, a)
    ensures Unfolds(s'.heap, s'.place, a)
  {
    hide Inv, Next, Rep, AllPublic;
    var t :| Rep(s.heap, a, t) && AllPublic(s.place, t);
    Regrow(s, s', a, t);
  }

  lemma {:induction false} AllInTree(s: State, a: Addr)
    requires Init(s) && Inv(s) && a in s.heap
    ensures a in Addrs(Live(s))
  {
    hide ThreadsOK, ClaimsOK, OwnersOK, RetiredOK, PlacesOwned, NodesOK, ShapeOK, Addrs;
    TreeOf(s);
  }

  // ---------------------------------------------------------------- how deep it can go

  ghost function Height(t: Tree): nat {
    match t
    case Nil => 0
    case T(_, l, r) => 1 + if Height(l) < Height(r) then Height(r) else Height(l)
  }

  /** The number of nodes on the longest way down from `a`. */
  ghost function Depth(h: Heap, a: Addr): nat {
    if exists t :: Rep(h, a, t) then var t :| Rep(h, a, t); Height(t) else 0
  }

  lemma {:induction false} DepthIs(h: Heap, a: Addr, t: Tree)
    requires Rep(h, a, t)
    ensures Depth(h, a) == Height(t)
  {
    var u :| Rep(h, a, u) && Depth(h, a) == Height(u);
    RepUnique(h, a, t, u);
  }

  lemma {:induction false} SubHeight(t: Tree, x: Addr)
    requires x in Addrs(t)
    ensures Height(Sub(t, x)) <= Height(t)
    decreases t
  {
    if x != t.a {
      if x in Addrs(t.l) {
        SubHeight(t.l, x);
      } else {
        SubHeight(t.r, x);
      }
    }
  }

  /** No node is below itself. */
  lemma {:induction false} NotBelow(h: Heap, a: Addr, t: Tree, d: Dir)
    requires Rep(h, a, t) && t.T?
    ensures a !in Addrs(t.Kid(d))
  {
    var u := t.Kid(d);
    if a in Addrs(u) {
      SubRep(h, h[a].At(d).ptr, u, a);
      SubHeight(u, a);
      RepUnique(h, a, t, Sub(u, a));
    }
  }

  lemma {:induction false} Card(x: set<Addr>, y: set<Addr>)
    requires x <= y
    ensures |x| <= |y| && (x != y ==> |x| < |y|)
  {
    var z := y - x;
    assert y == x + z;
  }

  lemma {:induction false} HeightMost(h: Heap, a: Addr, t: Tree)
    requires Rep(h, a, t)
    ensures Height(t) <= |Addrs(t)|
    decreases t
  {
    if t.T? {
      HeightMost(h, h[a].left.ptr, t.l);
      HeightMost(h, h[a].right.ptr, t.r);
      NotBelow(h, a, t, L);
      NotBelow(h, a, t, R);
      Card(Addrs(t.l) + {a}, Addrs(t));
      Card(Addrs(t.r) + {a}, Addrs(t));
    }
  }

  lemma {:induction false} DepthMost(h: Heap, a: Addr)
    ensures Depth(h, a) <= |h|
  {
    if exists t :: Rep(h, a, t) {
      var t :| Rep(h, a, t);
      DepthIs(h, a, t);
      HeightMost(h, a, t);
      Card(Addrs(t), h.Keys);
      assert |h.Keys| == |h|;
    }
  }

  lemma {:induction false} DepthLess(h: Heap, pl: map<Addr, Place>, a: Addr, d: Dir)
    requires Unfolds(h, pl, a) && a in h && a != NULL
    ensures Depth(h, a) > 0 && Depth(h, h[a].At(d).ptr) < Depth(h, a)
  {
    hide AllPublic;
    var t :| Rep(h, a, t) && AllPublic(pl, t);
    DepthIs(h, a, t);
    DepthIs(h, h[a].At(d).ptr, t.Kid(d));
  }

  // ---------------------------------------------------------------- why a call seeks again

  /** The thread is at a compare-and-set that fails, or at the end of its walk. */
  ghost predicate Thrown(h: Heap, pc: Pc) {
    || ((pc.CasInsert? || pc.CasFlag?) && !LeadsTo(h, pc.rec.parent, pc.rec.ldir, pc.rec.leaf))
    || (pc.CasSplice? && !Holds(h, pc.rec.anc, pc.rec.sdir, pc.rec.succ))
    || (pc.WalkPop? && pc.stack == [])
  }

  lemma {:induction false} RestartLocal(i: Tid, h: Heap, t: Tree, pl: map<Addr, Place>, claimed: set<Addr>, th: Thread,
      seen: set<Addr>, o: Out)
    requires HeapOK(h, t, pl) && ThreadOK(h, t, pl, claimed, i, th, seen) && !th.job.NoJob? && Local(h, th, o)
    ensures o.th.pc.SeekRoot? ==> Thrown(h, th.pc) && !o.th.job.NoJob?
  {
    hide ThreadOK, HeapOK;
    PointersValid(i, h, t, pl, claimed, th, seen);
    Apart(i, h, t, pl, claimed, th, seen);
  }

  /** Inside a call, a seek starts again only after a compare-and-set has failed or a walk has ended. */
  lemma {:induction false} RestartReason(r: seq<State>, j: nat, t: Tid)
    requires IsRun(r) && j + 1 < |r| && StepBy(r[j], r[j + 1], t) && t in r[j].threads && !r[j].threads[t].job.NoJob?
    requires r[j + 1].threads[t].pc.SeekRoot?
    ensures Thrown(r[j].heap, r[j].threads[t].pc)
  {
    hide Inv, Init, Next, ThreadOK, HeapOK, Local, Thrown, Moved, Watch;
    RunInv(r, j);
    var s, s' := r[j], r[j + 1];
    var o :| StepOf(s, s', t, o);
    ThreadIs(s, t);
    RestartLocal(t, s.heap, Live(s), s.place, s.claimed, s.threads[t], s.seen[t], o);
  }

  // ---------------------------------------------------------------- what the thread expects is so

  ghost predicate Fresh(h: Heap, pc: Pc) {
    && (pc.SeekSent? ==> Holds(h, ROOT, L, pc.s))
    && (HasRec(pc) ==> Holds(h, pc.rec.anc, pc.rec.sdir, pc.rec.succ))
    && (pc.SeekNext? || pc.Decide? || pc.CasInsert? || pc.CasFlag? ==>
          LeadsTo(h, pc.rec.parent, pc.rec.ldir, pc.rec.leaf))
    && (pc.SeekNext? && !pc.prevTag ==> !h[pc.rec.parent].At(pc.rec.ldir).tag)
  }

  lemma {:induction false} FreshSucceeds(h: Heap, pc: Pc)
    requires Fresh(h, pc) && Thrown(h, pc)
    ensures pc.WalkPop?
  {
  }

  /** An untagged edge to a node that is not a leaf is plain. */
  lemma {:induction false} PlainEdge(h: Heap, t: Tree, pl: map<Addr, Place>, a: Addr, d: Dir, x: Addr)
    requires HeapOK(h, t, pl) && LeadsTo(h, a, d, x) && !h[a].At(d).tag && x in h && !h[x].Leaf()
    ensures Holds(h, a, d, x)
  {
    hide ShapeOK, PlacesOK;
    assert NodeOK(h, a);
  }

  lemma {:induction false} FreshStep(i: Tid, h: Heap, t: Tree, pl: map<Addr, Place>, claimed: set<Addr>, th: Thread,
      seen: set<Addr>, o: Out)
    requires HeapOK(h, t, pl) && ThreadOK(h, t, pl, claimed, i, th, seen) && Local(h, th, o) && Fresh(h, th.pc)
    ensures Fresh(o.heap, o.th.pc)
  {
    hide ThreadOK, HeapOK;
    PointersValid(i, h, t, pl, claimed, th, seen);
    Apart(i, h, t, pl, claimed, th, seen);
    if th.pc.SeekSent? {
      AtSentinels(i, h, t, pl, claimed, th, seen);
    }
    if th.pc.SeekNext? && !th.pc.prevTag && h[th.pc.rec.leaf].At(th.pc.dir).ptr != NULL {
      PlainEdge(h, t, pl, th.pc.rec.parent, th.pc.rec.ldir, th.pc.rec.leaf);
    }
  }

  // ---------------------------------------------------------------- how far a call has to go

  /**
    How many steps a thread needs at most until its next seek, its next splice or its reply, when it has unlinked
    `held` nodes that it has yet to retire.
   */
  ghost function Cost(h: Heap, pc: Pc, held: nat): nat {
    match pc
    case SeekRoot => |h| + 14
    case SeekSent(_) => |h| + 13
    case SeekNext(rec, _, _) => 11 + Depth(h, rec.leaf)
    case Decide(_) => 10
    case CasInsert(_) => 9
    case CasFlag(_, _) => 9
    case LoadLeaf(_) => 8
    case TagSibling(_, _) => 7
    case LoadSibling(_, _) => 6
    case CasSplice(_, _, _, _) => 5
    case WalkPop(stack, _) => |h| + 15 + 3 * held + |stack|
    case WalkRight(stack, _, _) => |h| + 14 + 3 * held + |stack|
    case _ => 0
  }

  /** More than a seek, a cleanup and the walk after it can cost. */
  ghost function Round(h: Heap): nat {
    4 * |h| + 17
  }

  /** How many rounds there can be: every splice makes the tree smaller, and at most one seek is in vain. */
  ghost function Rounds(s: State, t: Tid): nat
    requires t in s.threads
  {
    |Addrs(Live(s))| + if Fresh(s.heap, s.threads[t].pc) then 0 else 1
  }

  /** `x` times `y`. */
  ghost function Times(x: nat, y: nat): nat {
    if x == 0 then 0 else Times(x - 1, y) + y
  }

  lemma {:induction false} TimesLess(x: nat, z: nat, y: nat)
    requires x < z
    ensures Times(x, y) + y <= Times(z, y)
    decreases z
  {
    if x < z - 1 {
      TimesLess(x, z - 1, y);
    }
  }

  /** How many steps a thread needs at most if it alone takes steps. */
  ghost function ToGo(s: State, t: Tid): nat
    requires t in s.threads
  {
    if s.threads[t].pc.Return? then 0
    else Times(Rounds(s, t), Round(s.heap)) + Cost(s.heap, s.threads[t].pc, |Unretired(s, t)|)
  }

  /** One step of the thread that is neither a splice nor a step of a walk, nor the start of a seek. */
  lemma {:induction false} StepCost(i: Tid, h: Heap, t: Tree, pl: map<Addr, Place>, claimed: set<Addr>, th: Thread,
      seen: set<Addr>, o: Out, held: nat)
    requires HeapOK(h, t, pl) && ThreadOK(h, t, pl, claimed, i, th, seen) && Local(h, th, o) && !th.job.NoJob?
    requires HasRec(th.pc) ==> Unfolds(h, pl, th.pc.rec.leaf)
    requires !th.pc.Return? && !th.pc.WalkPop? && !th.pc.WalkRight? && !o.th.pc.WalkPop? && !o.th.pc.SeekRoot?
    ensures !o.th.job.NoJob? && o.heap.Keys == h.Keys
    ensures !o.th.pc.Return? ==> Cost(h, o.th.pc, held) < Cost(h, th.pc, held)
    ensures o.th.pc.SeekNext? ==> o.heap == h
  {
    hide ThreadOK, HeapOK, Depth, Unfolds;
    PointersValid(i, h, t, pl, claimed, th, seen);
    Apart(i, h, t, pl, claimed, th, seen);
    NotNullIn(h, t, pl);
    if th.pc.SeekSent? && th.pc.s in h {
      DepthMost(h, h[th.pc.s].left.ptr);
    }
    if th.pc.SeekNext? {
      DepthLess(h, pl, th.pc.rec.leaf, th.pc.dir);
    }
  }

  lemma {:induction false} NotNullIn(h: Heap, t: Tree, pl: map<Addr, Place>)
    requires HeapOK(h, t, pl)
    ensures NULL !in h
  {
  }

  /** A splice makes the tree smaller. */
  lemma {:induction false} SpliceShrinks(s: State, s': State, t: Tid, o: Out)
    requires Inv(s) && StepOf(s, s', t, o) && s.threads[t].pc.CasSplice? && !s.threads[t].job.NoJob?
    requires var rec := s.threads[t].pc.rec; Holds(s.heap, rec.anc, rec.sdir, rec.succ)
    ensures o.th.pc == WalkPop([s.threads[t].pc.rec.succ], s.threads[t].pc.sib) && o.th.job == s.threads[t].job
    ensures s'.heap.Keys == s.heap.Keys && |Addrs(Live(s'))| < |Addrs(Live(s))|
    ensures var rec := s.threads[t].pc.rec;
            rec.parent in s.heap && s.heap[rec.parent].At(Other(s.threads[t].pc.side)).ptr !in Addrs(Live(s'))
  {
    hide ThreadOK, HeapOK, Inv, Moved, Watch, Addrs;
    ThreadIs(s, t);
    var h, th := s.heap, s.threads[t];
    PointersValid(t, h, Live(s), s.place, s.claimed, th, s.seen[t]);
    ClaimsIs(s);
    var t', pl' := UnlinkStep(t, h, Live(s), s.place, s.claimed, th, s.seen[t]);
    TreeIs(t, h, Live(s), s.place, s.seen[t], o, t', pl', s.claimed);
    Card(Addrs(t'), Addrs(Live(s)));
  }

  lemma {:induction false} ClaimsIs(s: State)
    requires Inv(s)
    ensures ClaimsOK(s.heap, Live(s), s.place, s.claimed)
  {
    hide ThreadsOK, HeapOK, ClaimsOK, OwnersOK, RetiredOK, PlacesOwned;
    TreeOf(s);
  }

  lemma {:induction false} TreeIs(i: Tid, h: Heap, t: Tree, pl: map<Addr, Place>, seen: set<Addr>, o: Out, t': Tree,
      pl': map<Addr, Place>, claimed: set<Addr>)
    requires Advanced(i, h, t, pl, seen, o, t', pl', claimed)
    ensures Shape(o.heap) == t'
  {
    hide Rely, ThreadOK, Moved, Watch, NodesOK, PlacesOK, Distinct, Full, Ordered, Sentinels;
    ShapeIs(o.heap, t');
  }

  /** A step that neither links nor splices leaves the tree as it is. */
  lemma {:induction false} TreeStays(s: State, s': State, t: Tid, o: Out)
    requires Inv(s) && StepOf(s, s', t, o) && !o.th.pc.WalkPop? && !o.th.pc.Return?
    ensures Live(s') == Live(s)
  {
    hide SystemOK, Rely, FlagEffect, Inv, Local, Moved, Watch, Contents, AllPathsKept;
    StepFacts(s, s', t, o);
  }

  // ---------------------------------------------------------------- alone

  ghost predicate InCall(s: State, t: Tid) {
    t in s.threads && !s.threads[t].job.NoJob?
  }

  /** The step keeps the call going and brings the reply nearer. */
  ghost predicate Nearer(s: State, s': State, t: Tid) {
    t in s.threads && InCall(s', t) && ToGo(s', t) < ToGo(s, t)
  }

  /** One step of a walk. */
  lemma {:induction false} WalkCost(h: Heap, th: Thread, held: nat, held': nat)
    requires Walking(th.pc) && !th.job.NoJob? && held == held' + (if th.pc.WalkRight? then 1 else 0)
    requires th.pc.WalkPop? && th.pc.stack != [] ==>
               var n := th.pc.stack[|th.pc.stack| - 1]; n == NULL || n == th.pc.sib || n in h
    requires th.pc.WalkRight? ==> th.pc.node in h
    ensures var o := ExecWalk(h, th);
            && o.heap == h && o.th.job == th.job && Fresh(h, th.pc) && Fresh(h, o.th.pc)
            && (o.th.pc.Return? || Cost(h, o.th.pc, held') < Cost(h, th.pc, held))
  {
    hide Depth;
  }

  lemma {:induction false} WalkNearer(s: State, s': State, t: Tid, o: Out)
    requires Inv(s) && StepOf(s, s', t, o) && Walking(s.threads[t].pc)
    ensures Nearer(s, s', t)
  {
    hide Inv, Local, Moved, Watch, Times, Addrs, Cost, ExecWalk, Fresh;
    WalkPlaces(s, s', t, o);
    var th := s.threads[t];
    PopStack(s, t);
    if th.pc.WalkRight? {
      assert Unretired(s', t) == Unretired(s, t) - {th.pc.node};
    } else {
      assert Unretired(s', t) == Unretired(s, t);
    }
    WalkCost(s.heap, th, |Unretired(s, t)|, |Unretired(s', t)|);
    CostPositive(s.heap, th.pc, |Unretired(s, t)|);
  }

  lemma {:induction false} CostPositive(h: Heap, pc: Pc, held: nat)
    requires !pc.Idle? && !pc.Fault? && !pc.Return?
    ensures Cost(h, pc, held) > 0
  {
    hide Depth;
  }

  lemma {:induction false} CostSame(h: Heap, h': Heap, pc: Pc, held: nat, held': nat)
    requires h'.Keys == h.Keys && (pc.SeekNext? ==> h' == h) && !Walking(pc)
    ensures Cost(h', pc, held') == Cost(h, pc, held) && |h'| == |h|
  {
    hide Depth;
    assert |h'.Keys| == |h'| && |h.Keys| == |h|;
  }

  /** The top of the stack of a walk is null, the sibling or a node. */
  lemma {:induction false} PopStack(s: State, t: Tid)
    requires Inv(s) && t in s.threads && Walking(s.threads[t].pc)
    ensures var pc := s.threads[t].pc;
            && (pc.WalkPop? && pc.stack != [] ==>
                  var n := pc.stack[|pc.stack| - 1]; n == NULL || n == pc.sib || n in s.heap)
            && (pc.WalkRight? ==> pc.node in s.heap)
  {
    hide Inv, ThreadOK, HeapOK, WalkLeft;
    var n := WalkStartsAt(s, t);
    LeftStack(s.heap, s.place, t, s.threads[t].pc, n);
  }

  lemma {:induction false} LeftStack(h: Heap, pl: map<Addr, Place>, i: Tid, pc: Pc, n: nat)
    requires WalkLeft(h, pl, i, pc, n)
    ensures pc.WalkPop? && pc.stack != [] ==>
              var x := pc.stack[|pc.stack| - 1]; x == NULL || x == pc.sib || x in h
    ensures pc.WalkRight? ==> pc.node in h
  {
    if pc.WalkPop? && pc.stack != [] {
      var f :| Forest(h, pl, i, pc.stack, pc.sib, f, {}) && ForestWeight(f) == n;
      assert CutRep(h, pc.stack[|f| - 1], pc.sib, f[|f| - 1]);
    }
  }

  lemma {:induction false} SpliceNearer(s: State, s': State, t: Tid, o: Out)
    requires Inv(s) && Inv(s') && StepOf(s, s', t, o) && s.threads[t].pc.CasSplice? && !s.threads[t].job.NoJob?
    requires var rec := s.threads[t].pc.rec; Holds(s.heap, rec.anc, rec.sdir, rec.succ)
    ensures Nearer(s, s', t)
  {
    hide Inv, Local, Moved, Watch, Times, Addrs;
    SpliceShrinks(s, s', t, o);
    HeldMost(s', t);
    assert |s'.heap.Keys| == |s'.heap| && |s.heap.Keys| == |s.heap|;
    TimesLess(Rounds(s', t), Rounds(s, t), Round(s.heap));
  }

  lemma {:induction false} HeldMost(s: State, t: Tid)
    requires Inv(s)
    ensures |Unretired(s, t)| <= |s.heap|
  {
    hide ThreadsOK, ClaimsOK, OwnersOK, RetiredOK, PlacesOwned, NodesOK, ShapeOK;
    TreeOf(s);
    Card(Unretired(s, t), s.heap.Keys);
    assert |s.heap.Keys| == |s.heap|;
  }

  lemma {:induction false} SeekNearer(s: State, s': State, t: Tid, o: Out)
    requires Inv(s) && StepOf(s, s', t, o) && !s.threads[t].job.NoJob? && !Walking(s.threads[t].pc)
    requires !s.threads[t].pc.Return? && o.th.pc.SeekRoot?
    ensures Nearer(s, s', t)
  {
    hide Inv, ThreadOK, HeapOK, Local, Moved, Watch, Times, Addrs;
    ThreadIs(s, t);
    var th := s.threads[t];
    RestartLocal(t, s.heap, Live(s), s.place, s.claimed, th, s.seen[t], o);
    if Fresh(s.heap, th.pc) {
      FreshSucceeds(s.heap, th.pc);
    }
    TreeStays(s, s', t, o);
    QuietKeys(s.heap, th, o);
    assert |s'.heap.Keys| == |s'.heap| && |s.heap.Keys| == |s.heap|;
    TimesLess(Rounds(s', t), Rounds(s, t), Round(s.heap));
  }

  lemma {:induction false} QuietKeys(h: Heap, th: Thread, o: Out)
    requires Local(h, th, o) && !th.pc.Idle? && o.th.pc.SeekRoot?
    ensures o.heap == h
  {
  }

  lemma {:induction false} PlainNearer(s: State, s': State, t: Tid, o: Out)
    requires Inv(s) && StepOf(s, s', t, o) && Grounded(s) && !s.threads[t].job.NoJob? && !Walking(s.threads[t].pc)
    requires !s.threads[t].pc.Return? && !o.th.pc.SeekRoot? && !o.th.pc.WalkPop?
    ensures Nearer(s, s', t)
  {
    hide Inv, ThreadOK, HeapOK, Local, Moved, Watch, ToGo, Unfolds, Fresh, Cost, Unretired, Live;
    ThreadIs(s, t);
    var th := s.threads[t];
    Apart(t, s.heap, Live(s), s.place, s.claimed, th, s.seen[t]);
    PointersValid(t, s.heap, Live(s), s.place, s.claimed, th, s.seen[t]);
    var held := |Unretired(s, t)|;
    StepCost(t, s.heap, Live(s), s.place, s.claimed, th, s.seen[t], o, held);
    CostPositive(s.heap, th.pc, held);
    if !o.th.pc.Return? {
      TreeStays(s, s', t, o);
      NoWalk(t, s.heap, Live(s), s.place, s.claimed, th, s.seen[t], o);
      CostSame(s.heap, s'.heap, o.th.pc, held, |Unretired(s', t)|);
      if Fresh(s.heap, th.pc) {
        FreshStep(t, s.heap, Live(s), s.place, s.claimed, th, s.seen[t], o);
      }
      SameRound(s, s', t);
    } else {
      AtReply(s, s', t);
    }
  }

  lemma {:induction false} SameRound(s: State, s': State, t: Tid)
    requires t in s.threads && t in s'.threads && !s.threads[t].pc.Return? && Live(s') == Live(s)
      && |s'.heap| == |s.heap|
    requires Fresh(s.heap, s.threads[t].pc) ==> Fresh(s'.heap, s'.threads[t].pc)
    requires Cost(s'.heap, s'.threads[t].pc, |Unretired(s', t)|) < Cost(s.heap, s.threads[t].pc, |Unretired(s, t)|)
    ensures ToGo(s', t) < ToGo(s, t)
  {
    hide Times, Addrs, Cost, Unretired, Fresh;
    if Rounds(s', t) < Rounds(s, t) {
      TimesLess(Rounds(s', t), Rounds(s, t), Round(s.heap));
    }
  }

  lemma {:induction false} AtReply(s: State, s': State, t: Tid)
    requires t in s.threads && t in s'.threads && !s.threads[t].pc.Return? && s'.threads[t].pc.Return?
    requires Cost(s.heap, s.threads[t].pc, |Unretired(s, t)|) > 0
    ensures ToGo(s', t) < ToGo(s, t)
  {
    hide Times, Addrs, Cost, Unretired, Fresh;
  }

  lemma {:induction false} NoWalk(i: Tid, h: Heap, t: Tree, pl: map<Addr, Place>, claimed: set<Addr>, th: Thread,
      seen: set<Addr>, o: Out)
    requires HeapOK(h, t, pl) && ThreadOK(h, t, pl, claimed, i, th, seen) && Local(h, th, o)
    requires !o.th.pc.WalkPop? && !Walking(th.pc)
    ensures !Walking(o.th.pc)
  {
    hide ThreadOK, HeapOK;
  }

  /** A step of the thread itself brings the reply nearer. */
  lemma {:induction false} SoloStep(s: State, s': State, t: Tid)
    requires Inv(s) && Inv(s') && Grounded(s) && StepBy(s, s', t) && InCall(s, t) && !s.threads[t].pc.Return?
    ensures Nearer(s, s', t)
  {
    hide Inv, ThreadOK, HeapOK, Local, Moved, Watch, ToGo, Grounded, Nearer, Holds;
    var o :| StepOf(s, s', t, o);
    var th := s.threads[t];
    ThreadIs(s, t);
    if Walking(th.pc) {
      WalkNearer(s, s', t, o);
    } else if o.th.pc.SeekRoot? {
      SeekNearer(s, s', t, o);
    } else if o.th.pc.WalkPop? {
      OnlySplice(t, s.heap, Live(s), s.place, s.claimed, th, s.seen[t], o);
      SpliceNearer(s, s', t, o);
    } else {
      PlainNearer(s, s', t, o);
    }
  }

  lemma {:induction false} OnlySplice(i: Tid, h: Heap, t: Tree, pl: map<Addr, Place>, claimed: set<Addr>, th: Thread,
      seen: set<Addr>, o: Out)
    requires HeapOK(h, t, pl) && ThreadOK(h, t, pl, claimed, i, th, seen) && Local(h, th, o)
    requires o.th.pc.WalkPop? && !Walking(th.pc)
    ensures th.pc.CasSplice? && Holds(h, th.pc.rec.anc, th.pc.rec.sdir, th.pc.rec.succ)
  {
    hide ThreadOK, HeapOK;
    PointersValid(i, h, t, pl, claimed, th, seen);
    Apart(i, h, t, pl, claimed, th, seen);
  }

  // ---------------------------------------------------------------- completion

  ghost predicate OwnMove(r: seq<State>, n: int, t: Tid) {
    0 <= n < |r| - 1 && StepBy(r[n], r[n + 1], t)
  }

  /** From state `i` on, only thread `t` takes steps. */
  ghost predicate Alone(r: seq<State>, i: nat, t: Tid) {
    forall n :: i <= n < |r| - 1 ==> OwnMove(r, n, t)
  }

  /** At most as many rounds as there are nodes, and two more; a thread in a walk also has its stack to go through. */
  ghost function Bound(s: State, t: Tid): nat
    requires t in s.threads
  {
    Times(|s.heap| + 2, Round(s.heap)) + if Walking(s.threads[t].pc) then |s.threads[t].pc.stack| else 0
  }

  lemma {:induction false} WithinBound(s: State, t: Tid)
    requires Inv(s) && t in s.threads
    ensures ToGo(s, t) <= Bound(s, t)
  {
    hide Inv, Addrs, Unretired, Fresh, Depth;
    HeldMost(s, t);
    TreeMost(s);
    var pc := s.threads[t].pc;
    if pc.SeekNext? {
      DepthMost(s.heap, pc.rec.leaf);
    }
    TimesLess(Rounds(s, t), |s.heap| + 2, Round(s.heap));
  }

  lemma {:induction false} TreeMost(s: State)
    requires Inv(s)
    ensures |Addrs(Live(s))| <= |s.heap|
  {
    hide ThreadsOK, ClaimsOK, OwnersOK, RetiredOK, PlacesOwned, NodesOK, Distinct, Full, Ordered, Sentinels, Addrs;
    TreeOf(s);
    Card(Addrs(Live(s)), s.heap.Keys);
    assert |s.heap.Keys| == |s.heap|;
  }

  /** In any run, a thread inside a call that has been alone for as many steps as that has replied. */
  lemma {:induction false} SoloReturns(r: seq<State>, i: nat, t: Tid) returns (n: nat)
    requires IsRun(r) && i < |r| && InCall(r[i], t) && Alone(r, i, t) && |r| - 1 - i >= ToGo(r[i], t)
    ensures i <= n < |r| && InCall(r[n], t) && r[n].threads[t].pc.Return?
    decreases |r| - i
  {
    hide Init, Next, Inv, StepBy, ToGo;
    RunInv(r, i);
    RunGrounded(r, i);
    if r[i].threads[t].pc.Return? {
      n := i;
    } else {
      Positive(r[i], t);
      assert OwnMove(r, i, t);
      RunInv(r, i + 1);
      SoloStep(r[i], r[i + 1], t);
      n := SoloReturns(r, i + 1, t);
    }
  }

  lemma {:induction false} Positive(s: State, t: Tid)
    requires Inv(s) && InCall(s, t) && !s.threads[t].pc.Return?
    ensures ToGo(s, t) > 0
  {
    hide Inv, ThreadOK, HeapOK, Cost, Times, Fresh, Unretired;
    ThreadIs(s, t);
    PointersValid(t, s.heap, Live(s), s.place, s.claimed, s.threads[t], s.seen[t]);
    CostPositive(s.heap, s.threads[t].pc, |Unretired(s, t)|);
  }

  /** A thread inside a call that has not replied can always take a step. */
  lemma {:induction false} CanMove(s: State, t: Tid) returns (s': State)
    requires Inv(s) && InCall(s, t) && !s.threads[t].pc.Return?
    ensures StepBy(s, s', t)
  {
    hide Inv, ThreadOK, HeapOK, Exec;
    ThreadIs(s, t);
    var th := s.threads[t];
    PointersValid(t, s.heap, Live(s), s.place, s.claimed, th, s.seen[t]);
    var o := Exec(s.heap, th);
    var threads := s.threads[t := o.th];
    s' := State(o.heap, threads, s.retired + multiset(o.retired),
      map u | u in s.threads ::
        Watch(if u in s.seen then s.seen[u] else {}, threads[u], u == t && o.th.pc.SeekRoot?, o.heap),
      Moved(t, s.heap, s.place, o),
      s.claimed + (if s.threads[t].pc.CasFlag? && o.th.job.Purge? then {s.threads[t].pc.rec.leaf} else {}));
    assert StepOf(s, s', t, o);
  }

  lemma {:induction false} MoveIs(s: State, s': State, t: Tid)
    requires StepBy(s, s', t)
    ensures Next(s, s')
  {
    hide StepOf;
  }

  lemma {:induction false} RunMore(r: seq<State>, s': State)
    requires IsRun(r) && Next(r[|r| - 1], s')
    ensures IsRun(r + [s'])
  {
    hide Init, Next;
    var q := r + [s'];
    forall i | 0 <= i < |q| - 1 ensures Next(q[i], q[i + 1]) {
      if i < |r| - 1 {
        assert Next(r[i], r[i + 1]);
      }
    }
  }

  /** The remove replies with the value of the leaf that it has flagged, and the leaf is no longer in the tree. */
  ghost predicate TakenOut(s: State, t: Tid, job: Job)
    requires job.Purge?
  {
    t in s.threads && s.threads[t] == Thread(job, Return(Removed(Some(job.v)))) && job.leaf !in Addrs(Live(s))
  }

  lemma {:induction false} PurgeEnds(s: State, t: Tid)
    requires Inv(s) && t in s.threads && s.threads[t].job.Purge? && s.threads[t].pc.Return?
    ensures TakenOut(s, t, s.threads[t].job)
  {
    hide Inv, Addrs;
    RepliesOK(s, t);
  }

  /**
    An undisturbed call completes: from every reachable state, a thread inside a call that alone takes steps replies
    within the bound. A remove that has flagged its leaf has then taken it out of the tree.
   */
  lemma {:induction false} SoloCompletes(r: seq<State>, t: Tid) returns (r': seq<State>)
    requires IsRun(r) && InCall(r[|r| - 1], t)
    ensures |r| <= |r'| && r'[..|r|] == r && IsRun(r') && Alone(r', |r| - 1, t)
    ensures |r'| - |r| <= ToGo(r[|r| - 1], t) <= Bound(r[|r| - 1], t)
    ensures InCall(r'[|r'| - 1], t) && r'[|r'| - 1].threads[t].pc.Return?
    ensures r[|r| - 1].threads[t].job.Purge? ==> TakenOut(r'[|r'| - 1], t, r[|r| - 1].threads[t].job)
    decreases ToGo(r[|r| - 1], t)
  {
    hide Init, Next, Inv, StepBy, ToGo, Bound, TakenOut, Path;
    var s := r[|r| - 1];
    RunInv(r, |r| - 1);
    RunGrounded(r, |r| - 1);
    WithinBound(s, t);
    if s.threads[t].pc.Return? {
      r' := r;
      if s.threads[t].job.Purge? {
        PurgeEnds(s, t);
      }
    } else {
      var s' := CanMove(s, t);
      MoveIs(s, s', t);
      var q := r + [s'];
      RunMore(r, s');
      RunInv(q, |r|);
      SoloStep(s, s', t);
      BusyStep(s, s', t);
      r' := SoloCompletes(q, t);
      assert r'[..|r|] == r'[..|q|][..|r|] == r;
      assert r'[|r| - 1] == r'[..|q|][|r| - 1] && r'[|r|] == r'[..|q|][|r|];
      assert OwnMove(r', |r| - 1, t);
    }
  }

  /**
    The reason behind every seek that starts again: the walk after a splice of the thread has ended, or since the
    thread loaded the edge that it expects another thread has overwritten it.
   */
  lemma {:induction false} RestartCause(r: seq<State>, j: nat, t: Tid) returns (l: nat, m: nat, u: Tid)
    requires IsRun(r) && j + 1 < |r| && StepBy(r[j], r[j + 1], t) && InCall(r[j], t)
    requires r[j + 1].threads[t].pc.SeekRoot?
    ensures (r[j].threads[t].pc.WalkPop? && r[j].threads[t].pc.stack == [])
         || (l <= m < j && u != t
             && exists w, a, d, x :: TracksSince(r, w, l, j, t, a, d, x) && Overwrites(r[m], r[m + 1], u, a, d, x))
  {
    hide Init, Next, StepBy, TracksSince, Overwrites;
    RestartReason(r, j, t);
    var pc := r[j].threads[t].pc;
    l, m, u := 0, 0, 0;
    if pc.CasSplice? {
      l, m, u := SpliceFails(r, j, t, pc.rec.anc, pc.rec.sdir, pc.rec.succ);
    } else if !pc.WalkPop? {
      l, m, u := UpdateFails(r, j, t, pc.rec.parent, pc.rec.ldir, pc.rec.leaf);
    }
  }

  // ---------------------------------------------------------------- helping

  /** A cleanup is under way with the record `rec`, and what it expects is so. */
  ghost predicate Cleaning(s: State, t: Tid, rec: Rec) {
    && InCall(s, t) && Fresh(s.heap, s.threads[t].pc)
    && var pc := s.threads[t].pc;
       (pc.LoadLeaf? || pc.TagSibling? || pc.LoadSibling? || pc.CasSplice?) && pc.rec == rec
  }

  /** One edge of the parent is flagged, and the leaf that it leads to is not in the tree of `s'`. */
  ghost predicate Unlinks(s: State, s': State, rec: Rec) {
    exists d :: rec.parent in s.heap && s.heap[rec.parent].At(d).flag
      && s.heap[rec.parent].At(d).ptr !in Addrs(Live(s'))
  }

  lemma {:induction false} CleanupStep(s: State, s': State, t: Tid, rec: Rec)
    requires Inv(s) && StepBy(s, s', t) && Cleaning(s, t, rec)
    ensures if s.threads[t].pc.CasSplice? then InCall(s', t) && s'.threads[t].pc.WalkPop? && Unlinks(s, s', rec)
            else Cleaning(s', t, rec) && Cost(s'.heap, s'.threads[t].pc, 0) + 1 == Cost(s.heap, s.threads[t].pc, 0)
  {
    hide Inv, ThreadOK, HeapOK, Local, Moved, Watch, Addrs, Depth;
    var o :| StepOf(s, s', t, o);
    var th := s.threads[t];
    ThreadIs(s, t);
    if th.pc.CasSplice? {
      SpliceShrinks(s, s', t, o);
      FlaggedThere(t, s.heap, Live(s), s.place, s.claimed, th, s.seen[t]);
    } else {
      CleanupGoes(t, s.heap, Live(s), s.place, s.claimed, th, s.seen[t], o);
      FreshStep(t, s.heap, Live(s), s.place, s.claimed, th, s.seen[t], o);
    }
  }

  lemma {:induction false} FlaggedThere(i: Tid, h: Heap, t: Tree, pl: map<Addr, Place>, claimed: set<Addr>, th: Thread,
      seen: set<Addr>)
    requires ThreadOK(h, t, pl, claimed, i, th, seen) && th.pc.CasSplice?
    ensures th.pc.rec.parent in h && h[th.pc.rec.parent].At(Other(th.pc.side)).flag
  {
    hide SeenOK, PrivateOK, WalkOK, PurgeOK, PurgeSeek, Chained;
  }

  lemma {:induction false} CleanupGoes(i: Tid, h: Heap, t: Tree, pl: map<Addr, Place>, claimed: set<Addr>, th: Thread,
      seen: set<Addr>, o: Out)
    requires HeapOK(h, t, pl) && ThreadOK(h, t, pl, claimed, i, th, seen) && Local(h, th, o) && !th.job.NoJob?
    requires th.pc.LoadLeaf? || th.pc.TagSibling? || th.pc.LoadSibling?
    ensures o.th.job == th.job
    ensures th.pc.LoadLeaf? ==> o.th.pc.TagSibling? && o.th.pc.rec == th.pc.rec
    ensures th.pc.TagSibling? ==> o.th.pc.LoadSibling? && o.th.pc.rec == th.pc.rec
    ensures th.pc.LoadSibling? ==> o.th.pc.CasSplice? && o.th.pc.rec == th.pc.rec
  {
    hide ThreadOK, HeapOK;
    PointersValid(i, h, t, pl, claimed, th, seen);
    Apart(i, h, t, pl, claimed, th, seen);
  }

  /**
    An undisturbed cleanup, of the thread's own leaf or of another's, unlinks the flagged leaf beside its record within
    four steps, if the edge from the ancestor to the successor is still the plain one.
   */
  lemma {:induction false} SoloCleanup(r: seq<State>, i: nat, t: Tid, rec: Rec) returns (n: nat)
    requires IsRun(r) && i < |r| && Cleaning(r[i], t, rec) && Alone(r, i, t) && |r| - 1 - i >= 4
    ensures i < n <= i + 4 && t in r[n].threads && r[n].threads[t].pc.WalkPop?
    ensures Unlinks(r[n - 1], r[n], rec)
  {
    hide Init, Next, Inv, StepBy, Unlinks, Fresh, Depth;
    n := CleanupFrom(r, i, t, rec, 4);
  }

  lemma {:induction false} CleanupFrom(r: seq<State>, i: nat, t: Tid, rec: Rec, k: nat) returns (n: nat)
    requires IsRun(r) && i < |r| && Cleaning(r[i], t, rec) && Alone(r, i, t) && |r| - 1 - i >= k
    requires Cost(r[i].heap, r[i].threads[t].pc, 0) <= k + 4
    ensures i < n <= i + k && t in r[n].threads && r[n].threads[t].pc.WalkPop? && Unlinks(r[n - 1], r[n], rec)
    decreases k
  {
    hide Init, Next, Inv, StepBy, Unlinks, Fresh, Depth;
    RunInv(r, i);
    assert OwnMove(r, i, t);
    CleanupStep(r[i], r[i + 1], t, rec);
    if r[i].threads[t].pc.CasSplice? {
      n := i + 1;
    } else {
      n := CleanupFrom(r, i + 1, t, rec, k - 1);
    }
  }
}
