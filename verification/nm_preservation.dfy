/**
  Every step of every thread keeps the invariant.
 */
module NMPreservation {
  import opened NMShape
  import opened NMProtocol
  import opened NMInvariant
  import opened NMActions
  import opened NMSteps

  /** The acting thread's step, seen from the heap and from the thread itself. */
  ghost predicate Advanced(i: Tid, h: Heap, t: Tree, pl: map<Addr, Place>, seen: set<Addr>, o: Out,
                           t': Tree, pl': map<Addr, Place>, claimed': set<Addr>) {
    && HeapOK(o.heap, t', pl') && Rely(i, h, t, pl, o.heap, t', pl')
    && pl' == Moved(i, h, pl, o)
    && ThreadOK(o.heap, t', pl', claimed', i, o.th, Watch(seen, o.th, o.th.pc.SeekRoot?, o.heap))
  }

  lemma {:induction false} RelyRefl(i: Tid, h: Heap, t: Tree, pl: map<Addr, Place>)
    requires PlacesOK(h, t, pl)
    ensures Rely(i, h, t, pl, h, t, pl)
  {
  }

  /** A seek that starts now has seen the present search path. */
  lemma {:induction false} SeekStarts(h: Heap, t: Tree, pl: map<Addr, Place>, k: int, job: Job)
    requires HeapOK(h, t, pl)
    requires job.Purge? ==>
      job.k == k && FiniteLeaf(h, job.leaf) && h[job.leaf].key == Fin(k) && h[job.leaf].value.Some?
    ensures SeenOK(h, t, pl, k, Path(h, t, k)) && PurgeSeek(h, t, job, SeekRoot, Path(h, t, k))
  {
    PathIn(h, t, k);
    if job.Purge? && job.leaf in Addrs(t) {
      forall a | a in Path(h, t, k) && a in h && h[a].Leaf() ensures a == job.leaf {
        OnlyLeafStable(h, t, k, job.leaf, a);
      }
    }
  }

  /** A step that touches no shared memory except by reading. */
  lemma {:induction false} Quiet(i: Tid, h: Heap, t: Tree, pl: map<Addr, Place>, claimed: set<Addr>, th: Thread,
      seen: set<Addr>, pc': Pc)
    requires HeapOK(h, t, pl) && ThreadOK(h, t, pl, claimed, i, th, seen) && !th.job.NoJob? && !th.pc.Return?
    requires PcOK(h, t, th.job.k, seen, th.job, pc') && WalkOK(h, pl, i, pc')
    requires th.job.Insert? ==> !pc'.Return?
    requires Seeking(pc') ==> pc'.SeekRoot? || Seeking(th.pc)
    ensures Advanced(i, h, t, pl, seen, Goto(h, th, pc'), t, pl, claimed)
  {
    var o := Goto(h, th, pc');
    hide SeenOK, PcOK, WalkOK, NodesOK, PlacesOK, Sentinels, Rely;
    RelyRefl(i, h, t, pl);
    PlacesSame(i, h, t, pl, o);
    ShapeIs(h, t);
    if pc'.SeekRoot? {
      SeekRootOK(h, t, th.job.k, Path(h, t, th.job.k), th.job);
      SeekStarts(h, t, pl, th.job.k, th.job);
      assert Watch(seen, o.th, true, h) == Path(h, t, th.job.k);
    } else {
      SeenKeeps(h, t, pl, th.job.k, seen);
    }
  }

  lemma {:induction false} SeekRootOK(h: Heap, t: Tree, k: int, seen: set<Addr>, job: Job)
    ensures PcOK(h, t, k, seen, job, SeekRoot)
  {
  }

  lemma {:induction false} SeenKeeps(h: Heap, t: Tree, pl: map<Addr, Place>, k: int, seen: set<Addr>)
    requires SeenOK(h, t, pl, k, seen)
    ensures seen + Path(h, t, k) == seen
  {
  }

  // ---------------------------------------------------------------- quiet steps, one program counter at a time

  lemma {:induction false} QuietStep(i: Tid, h: Heap, t: Tree, pl: map<Addr, Place>, claimed: set<Addr>, th: Thread,
      seen: set<Addr>)
    requires HeapOK(h, t, pl) && ThreadOK(h, t, pl, claimed, i, th, seen) && ClaimsOK(h, t, pl, claimed)
    requires Running(th) && Matches(th) && Reads(h, th)
    ensures Advanced(i, h, t, pl, seen, Exec(h, th), t, pl, claimed) && Exec(h, th) == Goto(h, th, Exec(h, th).th.pc)
  {
    hide Rep, Distinct, Full, Ordered, Sentinels, NodesOK, PlacesOK, SeenOK, PcOK, PurgeSeek, Path, Contents, Advanced,
      PrivateOK, ClaimsOK, Flagged, Addrs;
    hide WalkOK;
    var k := th.job.k;
    var o := Exec(h, th);
    JobFacts(h, t, pl, claimed, th.job);
    match th.pc {
    case SeekRoot => SeenPath(h, t, pl, k, seen); SeekRootStep(h, t, k, seen, th);
    case SeekSent(s) => SeenPath(h, t, pl, k, seen); SentOK(h, t, k, seen, th); SeekSentStep(h, t, k, seen, th);
    case SeekNext(_, _, _) => SeekNextStep(h, t, pl, k, seen, th);
    case Decide(_) => DecideStep(h, t, pl, k, seen, th);
    case CasInsert(_) => CasFails(h, t, k, seen, th);
    case CasFlag(_, _) => CasFails(h, t, k, seen, th);
    case LoadLeaf(_) => CleanupQuiet(h, t, k, seen, th);
    case LoadSibling(_, _) => CleanupQuiet(h, t, k, seen, th);
    case CasSplice(_, _, _, _) => CleanupQuiet(h, t, k, seen, th);
    case WalkPop(_, _) => WalkPopStep(h, t, pl, i, k, seen, th);
    }
    if !th.pc.WalkPop? {
      WalkIdle(h, pl, i, th.pc, o.th.pc);
    }
    Quiet(i, h, t, pl, claimed, th, seen, o.th.pc);
  }

  lemma {:induction false} WalkIdle(h: Heap, pl: map<Addr, Place>, i: Tid, pc: Pc, pc': Pc)
    requires WalkOK(h, pl, i, pc) && !pc.WalkPop? && !pc.WalkRight? && !pc'.WalkPop? && !pc'.WalkRight?
    ensures WalkOK(h, pl, i, pc')
  {
  }

  /** The steps that only read shared memory: loads, failing CASes, local decisions. */
  ghost predicate Reads(h: Heap, th: Thread) {
    match th.pc
    case CasInsert(rec) => rec.parent in h && h[rec.parent].At(rec.ldir) != Plain(rec.leaf)
    case CasFlag(rec, _) => rec.parent in h && h[rec.parent].At(rec.ldir) != Plain(rec.leaf)
    case CasSplice(rec, _, _, _) => rec.anc in h && h[rec.anc].At(rec.sdir) != Plain(rec.succ)
    case Decide(_) => !th.job.Insert?
    case TagSibling(_, _) => false
    case WalkRight(_, _, _) => false
    case _ => true
  }

  lemma {:induction false} JobFacts(h: Heap, t: Tree, pl: map<Addr, Place>, claimed: set<Addr>, job: Job)
    requires PurgeOK(h, job, claimed) && ClaimsOK(h, t, pl, claimed)
    ensures job.Purge? ==> FiniteLeaf(h, job.leaf) && (job.leaf in Addrs(t) ==> Flagged(h, t, job.leaf))
  {
  }

  lemma {:induction false} SeenPath(h: Heap, t: Tree, pl: map<Addr, Place>, k: int, seen: set<Addr>)
    requires SeenOK(h, t, pl, k, seen)
    ensures Path(h, t, k) <= seen
  {
  }

  lemma {:induction false} SentOK(h: Heap, t: Tree, k: int, seen: set<Addr>, th: Thread)
    requires th.pc.SeekSent? && PcOK(h, t, k, seen, th.job, th.pc)
    ensures th.pc == SeekSent(SENT)
  {
  }

  // ---------------------------------------------------------------- steps that write

  /** The parts of the acting thread's invariant that a write leaves to `Rely`. */
  lemma {:induction false} Noisy(i: Tid, h: Heap, t: Tree, pl: map<Addr, Place>, claimed: set<Addr>, th: Thread,
      seen: set<Addr>, h': Heap, t': Tree, pl': map<Addr, Place>, claimed': set<Addr>, th': Thread)
    requires HeapOK(h, t, pl) && ThreadOK(h, t, pl, claimed, i, th, seen) && ClaimsOK(h, t, pl, claimed)
    requires HeapOK(h', t', pl') && Rely(i, h, t, pl, h', t', pl') && claimed <= claimed'
    requires !th.job.NoJob? && !th'.job.NoJob? && th'.job.k == th.job.k && !Seeking(th'.pc)
    requires PrivateOK(h', pl', i, th'.job, th'.pc) && WalkOK(h', pl', i, th'.pc)
    requires PurgeOK(h', th'.job, claimed')
    requires PcOK(h', t', th.job.k, seen + Path(h', t', th.job.k), th'.job, th'.pc)
    ensures ThreadOK(h', t', pl', claimed', i, th', Watch(seen, th', false, h'))
  {
    hide SeenOK, PcOK, WalkOK, NodesOK, PlacesOK, Sentinels, Rely, PurgeOK, PrivateOK;
    SeenStable(i, h, t, pl, h', t', pl', th.job.k, seen);
    ShapeIs(h', t');
  }

  lemma {:induction false} TagStep(i: Tid, h: Heap, t: Tree, pl: map<Addr, Place>, claimed: set<Addr>, th: Thread,
      seen: set<Addr>)
    requires HeapOK(h, t, pl) && ThreadOK(h, t, pl, claimed, i, th, seen) && ClaimsOK(h, t, pl, claimed)
    requires th.pc.TagSibling? && !th.job.NoJob?
    ensures Advanced(i, h, t, pl, seen, ExecCleanup(h, th), t, pl, claimed)
    ensures Contents(ExecCleanup(h, th).heap, t) == Contents(h, t) && AllPathsKept(h, t, ExecCleanup(h, th).heap, t)
    ensures forall l :: Flagged(ExecCleanup(h, th).heap, t, l) ==> Flagged(h, t, l)
  {
    hide SeenOK, PcOK, NodesOK, PlacesOK, NodesEvolve, Sentinels, Rep, Distinct, Full, Ordered, Path, Contents, Moved,
      EdgeEvolves;
    hide EdgesOK, ExecCleanup, AllPathsKept;
    var o, k, rec, side := ExecCleanup(h, th), th.job.k, th.pc.rec, th.pc.side;
    TagWrite(h, t, pl, k, seen, th);
    var e := h[rec.parent].At(side).(tag := true);
    MarkStep(i, h, t, pl, rec.parent, side, e, o.heap);
    MarkFlags(h, t, rec.parent, side, e, o.heap);
    TagPc(i, h, t, pl, k, seen, th);
    PlacesSame(i, h, t, pl, o);
    JobWrite(i, h, t, pl, claimed, th, o.heap, o.th.pc);
    Noisy(i, h, t, pl, claimed, th, seen, o.heap, t, pl, claimed, o.th);
  }

  lemma {:induction false} MarkFlags(h: Heap, t: Tree, p: Addr, d: Dir, e: Edge, h': Heap)
    requires p in h && h' == h[p := h[p].Put(d, e)] && e.ptr == h[p].At(d).ptr
    ensures forall l :: Flagged(h', t, l) ==> Flagged(h, t, l) || (e.flag && !h[p].At(d).flag && l == e.ptr)
  {
    forall l | Flagged(h', t, l) && !(e.flag && !h[p].At(d).flag && l == e.ptr) ensures Flagged(h, t, l) {
      var a, x :| a in Addrs(t) && a in h' && h'[a].At(x).flag && h'[a].At(x).ptr == l;
      assert a in h && h[a].At(x).flag && h[a].At(x).ptr == l;
    }
  }

  lemma {:induction false} TagWrite(h: Heap, t: Tree, pl: map<Addr, Place>, k: int, seen: set<Addr>, th: Thread)
    requires NodesOK(h) && SeenOK(h, t, pl, k, seen) && th.pc.TagSibling? && PcOK(h, t, k, seen, th.job, th.pc)
    ensures var p, e := th.pc.rec.parent, h[th.pc.rec.parent].At(th.pc.side).(tag := true);
            && p in h && p in pl && Public(pl[p]) && EdgeEvolves(h[p].At(th.pc.side), e)
            && EdgesOK(h[p := h[p].Put(th.pc.side, e)], p)
            && ExecCleanup(h, th) == Goto(h[p := h[p].Put(th.pc.side, e)], th, LoadSibling(th.pc.rec, th.pc.side))
  {
    assert NodeOK(h, th.pc.rec.parent);
  }

  lemma {:induction false} SeenPublic(h: Heap, t: Tree, pl: map<Addr, Place>, k: int, seen: set<Addr>)
    requires SeenOK(h, t, pl, k, seen)
    ensures forall a :: a in seen ==> a in h && a in pl && Public(pl[a])
  {
  }

  lemma {:induction false} TagPc(i: Tid, h: Heap, t: Tree, pl: map<Addr, Place>, k: int, seen: set<Addr>, th: Thread)
    requires NodesOK(h) && PlacesOK(h, t, pl) && SeenOK(h, t, pl, k, seen)
    requires th.pc.TagSibling? && PcOK(h, t, k, seen, th.job, th.pc) && !th.job.NoJob?
    requires NodesEvolve(i, h, pl, ExecCleanup(h, th).heap, pl)
    ensures var o := ExecCleanup(h, th); PcOK(o.heap, t, k, seen + Path(o.heap, t, k), th.job, o.th.pc)
  {
    hide Path, Chained, PlacesOK, NodesOK, SeenOK, NodesEvolve;
    SeenPublic(h, t, pl, k, seen);
    var o := ExecCleanup(h, th);
    RecStable(i, h, t, pl, o.heap, pl, k, seen, seen + Path(o.heap, t, k), th.pc.rec);
  }

  /** A write to a public node leaves private nodes, the job and the walk as they were. */
  lemma {:induction false} JobWrite(i: Tid, h: Heap, t: Tree, pl: map<Addr, Place>, claimed: set<Addr>, th: Thread,
      h': Heap, pc': Pc)
    requires PlacesOK(h, t, pl) && NodesEvolve(i, h, pl, h', pl) && ClaimsOK(h, t, pl, claimed) && NodesOK(h)
    requires PrivateOK(h, pl, i, th.job, th.pc) && PurgeOK(h, th.job, claimed)
    requires !th.pc.Return? && th.job.Insert? ==>
      th.job.nl in h' && h'[th.job.nl] == h[th.job.nl] && h'[th.job.ni] == h[th.job.ni]
    requires pc'.Return? == th.pc.Return?
    ensures PrivateOK(h', pl, i, th.job, pc')
    ensures PurgeOK(h', th.job, claimed)
  {
    JobStable(i, h, t, pl, h', pl, claimed, claimed, th.job);
  }

  // ---------------------------------------------------------------- injecting the flag

  /** What a successful flag CAS writes. */
  lemma {:induction false} FlagWrite(h: Heap, t: Tree, pl: map<Addr, Place>, k: int, seen: set<Addr>, th: Thread)
    requires NodesOK(h) && PlacesOK(h, t, pl) && SeenOK(h, t, pl, k, seen) && Rep(h, ROOT, t)
    requires th.pc.CasFlag? && th.job.Inject? && PcOK(h, t, k, seen, th.job, th.pc)
    requires h[th.pc.rec.parent].At(th.pc.rec.ldir) == Plain(th.pc.rec.leaf)
    ensures var p, d, e := th.pc.rec.parent, th.pc.rec.ldir, Edge(th.pc.rec.leaf, true, false);
            && p in h && p in pl && Public(pl[p]) && p in Addrs(t) && th.pc.rec.leaf in Addrs(t)
            && EdgeEvolves(h[p].At(d), e) && EdgesOK(h[p := h[p].Put(d, e)], p)
            && ExecCas(h, th)
              == Out(h[p := h[p].Put(d, e)], Thread(Purge(th.job.k, th.pc.rec.leaf, th.pc.v), LoadLeaf(th.pc.rec)), {},
              {})
    ensures th.pc.rec.leaf in h && th.pc.rec.leaf != NULL && FiniteLeaf(h, th.pc.rec.leaf)
  {
    var p, d := th.pc.rec.parent, th.pc.rec.ldir;
    assert NodeOK(h, p);
    UnmarkedInTree(h, t, pl, k, seen, p, d);
    KidIn(h, ROOT, t, p, d);
  }

  lemma {:induction false} FlagPc(i: Tid, h: Heap, t: Tree, pl: map<Addr, Place>, k: int, seen: set<Addr>, th: Thread,
      claimed: set<Addr>)
    requires NodesOK(h) && PlacesOK(h, t, pl) && SeenOK(h, t, pl, k, seen)
    requires th.pc.CasFlag? && th.job.Inject? && k == th.job.k && PcOK(h, t, k, seen, th.job, th.pc)
    requires h[th.pc.rec.parent].At(th.pc.rec.ldir) == Plain(th.pc.rec.leaf)
    requires NodesEvolve(i, h, pl, ExecCas(h, th).heap, pl)
    ensures var o := ExecCas(h, th);
            && PcOK(o.heap, t, k, seen + Path(o.heap, t, k), o.th.job, o.th.pc)
            && PurgeOK(o.heap, o.th.job, claimed + {th.pc.rec.leaf})
  {
    var o := ExecCas(h, th);
    RecStable(i, h, t, pl, o.heap, pl, k, seen, seen + Path(o.heap, t, k), th.pc.rec);
    assert Evolves(h[th.pc.rec.leaf], o.heap[th.pc.rec.leaf]);
  }

  /** A leaf is flagged once: a leaf already claimed is unlinked or hangs from a flagged edge. */
  lemma {:induction false} FlagIsFresh(h: Heap, t: Tree, pl: map<Addr, Place>, claimed: set<Addr>, p: Addr, d: Dir,
      l: Addr)
    requires Rep(h, ROOT, t) && Distinct(t) && ClaimsOK(h, t, pl, claimed) && p in Addrs(t) && l != NULL
      && l in Addrs(t)
    requires h[p].At(d) == Plain(l)
    ensures l !in claimed && !Flagged(h, t, l)
  {
    if Flagged(h, t, l) {
      EdgeToFlagged(h, t, p, d);
    }
  }

  lemma {:induction false} FlagStep(i: Tid, h: Heap, t: Tree, pl: map<Addr, Place>, claimed: set<Addr>, th: Thread,
      seen: set<Addr>)
    requires HeapOK(h, t, pl) && ThreadOK(h, t, pl, claimed, i, th, seen) && ClaimsOK(h, t, pl, claimed)
    requires th.pc.CasFlag? && th.job.Inject? && h[th.pc.rec.parent].At(th.pc.rec.ldir) == Plain(th.pc.rec.leaf)
    ensures Advanced(i, h, t, pl, seen, ExecCas(h, th), t, pl, claimed + {th.pc.rec.leaf})
    ensures Contents(ExecCas(h, th).heap, t) == Contents(h, t) && AllPathsKept(h, t, ExecCas(h, th).heap, t)
    ensures th.pc.rec.leaf !in claimed && !Flagged(h, t, th.pc.rec.leaf)
    ensures forall l :: Flagged(ExecCas(h, th).heap, t, l) ==> Flagged(h, t, l) || l == th.pc.rec.leaf
    ensures Flagged(ExecCas(h, th).heap, t, th.pc.rec.leaf) && th.pc.rec.leaf in h
    ensures th.pc.rec.leaf in pl && Public(pl[th.pc.rec.leaf])
    ensures ExecCas(h, th).th.job == Purge(th.job.k, th.pc.rec.leaf, th.pc.v)
  {
    hide SeenOK, PcOK, NodesOK, NodesEvolve, Sentinels, Rep, Distinct, Full, Ordered, Path, Contents, Moved,
      EdgeEvolves;
    hide EdgesOK, ExecCas, AllPathsKept;
    var o, k, rec, l := ExecCas(h, th), th.job.k, th.pc.rec, th.pc.rec.leaf;
    var e := Edge(l, true, false);
    FlagWrite(h, t, pl, k, seen, th);
    MarkStep(i, h, t, pl, rec.parent, rec.ldir, e, o.heap);
    MarkFlags(h, t, rec.parent, rec.ldir, e, o.heap);
    FlagPc(i, h, t, pl, k, seen, th, claimed);
    FlagIsFresh(h, t, pl, claimed, rec.parent, rec.ldir, l);
    PlacesSame(i, h, t, pl, o);
    assert o.heap[rec.parent].At(rec.ldir) == e;
    Noisy(i, h, t, pl, claimed, th, seen, o.heap, t, pl, claimed + {l}, o.th);
  }

  // ---------------------------------------------------------------- insert

  lemma {:induction false} PlacesChange(i: Tid, h: Heap, t: Tree, pl: map<Addr, Place>, o: Out, nl: Addr, ni: Addr)
    requires Rep(h, ROOT, t) && PlacesOK(h, t, pl) && o.heap == h && o.retired == {} && o.freed == {nl, ni}
    requires nl in h && ni in h && !pl[nl].InTree? && !pl[ni].InTree?
    ensures Moved(i, h, pl, o) == pl[nl := Freed][ni := Freed]
  {
    ShapeIs(h, t);
  }

  lemma {:induction false} FreePlaces(i: Tid, h: Heap, t: Tree, pl: map<Addr, Place>, nl: Addr, ni: Addr,
      pl': map<Addr, Place>)
    requires PlacesOK(h, t, pl) && nl in h && ni in h && pl[nl] == Private(i) && pl[ni] == Private(i)
    requires pl' == pl[nl := Freed][ni := Freed]
    ensures PlacesOK(h, t, pl') && Rely(i, h, t, pl, h, t, pl')
  {
  }

  /** An insert that finds its key frees both of its nodes and hands the value back. */
  lemma {:induction false} RefuseStep(i: Tid, h: Heap, t: Tree, pl: map<Addr, Place>, claimed: set<Addr>, th: Thread,
      seen: set<Addr>)
      returns (pl': map<Addr, Place>)
    requires HeapOK(h, t, pl) && ThreadOK(h, t, pl, claimed, i, th, seen) && ClaimsOK(h, t, pl, claimed)
    requires th.pc.Decide? && th.job.Insert? && h[th.pc.rec.leaf].key == Fin(th.job.k)
    ensures Advanced(i, h, t, pl, seen, ExecDecide(h, th), t, pl', claimed) && ExecDecide(h, th).heap == h
    ensures ExecDecide(h, th).th.pc.Return?
  {
    hide SeenOK, NodesOK, PlacesOK, Sentinels, Distinct, Full, Ordered, Path, Contents, Moved, Rely;
    var o, k, nl, ni, a := ExecDecide(h, th), th.job.k, th.job.nl, th.job.ni, th.pc.rec.leaf;
    pl' := pl[nl := Freed][ni := Freed];
    FreePlaces(i, h, t, pl, nl, ni, pl');
    PlacesChange(i, h, t, pl, o, nl, ni);
    assert a in seen + Path(h, t, k);
    Noisy(i, h, t, pl, claimed, th, seen, h, t, pl', claimed, o.th);
  }

  lemma {:induction false} PrepareNode(h: Heap, leaf: Addr, k: int, v: V, nl: Addr, ni: Addr)
    requires NodesOK(h) && leaf in h && nl in h && ni in h && nl != ni && leaf != ni
    requires h[nl] == Node(Fin(k), Some(v), Plain(NULL), Plain(NULL))
    ensures var n := NewInternal(h, leaf, k, nl);
            NodeOK(h[ni := n], ni) && n.Internal() && !n.left.Marked() && !n.right.Marked()
  {
  }

  lemma {:induction false} PreparePc(i: Tid, h: Heap, t: Tree, pl: map<Addr, Place>, k: int, seen: set<Addr>,
      th: Thread, h': Heap)
    requires NodesOK(h) && PlacesOK(h, t, pl) && SeenOK(h, t, pl, k, seen) && NodesEvolve(i, h, pl, h', pl)
    requires th.pc.Decide? && th.job.Insert? && k == th.job.k && PcOK(h, t, k, seen, th.job, th.pc)
    requires h[th.pc.rec.leaf].key != Fin(k) && PrivateOK(h, pl, i, th.job, th.pc)
    requires h' == h[th.job.ni := NewInternal(h, th.pc.rec.leaf, k, th.job.nl)]
    ensures PcOK(h', t, k, seen + Path(h', t, k), th.job, CasInsert(th.pc.rec))
    ensures PrivateOK(h', pl, i, th.job, CasInsert(th.pc.rec)) && th.pc.rec.leaf != th.job.ni
  {
    RecStable(i, h, t, pl, h', pl, k, seen, seen + Path(h', t, k), th.pc.rec);
    assert Public(pl[th.pc.rec.leaf]);
  }

  /** An insert that does not find its key fills in its private internal node. */
  lemma {:induction false} PrepareStep(i: Tid, h: Heap, t: Tree, pl: map<Addr, Place>, claimed: set<Addr>, th: Thread,
      seen: set<Addr>)
    requires HeapOK(h, t, pl) && ThreadOK(h, t, pl, claimed, i, th, seen) && ClaimsOK(h, t, pl, claimed)
    requires th.pc.Decide? && th.job.Insert? && h[th.pc.rec.leaf].key != Fin(th.job.k)
    ensures Advanced(i, h, t, pl, seen, ExecDecide(h, th), t, pl, claimed)
    ensures Contents(ExecDecide(h, th).heap, t) == Contents(h, t) && AllPathsKept(h, t, ExecDecide(h, th).heap, t)
    ensures forall l :: Flagged(ExecDecide(h, th).heap, t, l) ==> Flagged(h, t, l)
    ensures ExecDecide(h, th).th.pc.CasInsert?
  {
    hide SeenOK, NodesOK, PlacesOK, NodesEvolve, Sentinels, Rep, Distinct, Full, Ordered, Path, Contents, Moved,
      NewInternal, AllPathsKept;
    var o, k, nl, ni, a := ExecDecide(h, th), th.job.k, th.job.nl, th.job.ni, th.pc.rec.leaf;
    LeafNotPrivate(h, t, pl, k, seen, i, a, ni);
    PrepareNode(h, a, k, th.job.v, nl, ni);
    PrivateWrite(i, h, t, pl, ni, NewInternal(h, a, k, nl), o.heap);
    PreparePc(i, h, t, pl, k, seen, th, o.heap);
    PlacesSame(i, h, t, pl, o);
    PrivateFlags(i, h, t, pl, ni, o.heap);
    Noisy(i, h, t, pl, claimed, th, seen, o.heap, t, pl, claimed, o.th);
  }

  lemma {:induction false} LeafNotPrivate(h: Heap, t: Tree, pl: map<Addr, Place>, k: int, seen: set<Addr>, i: Tid,
      a: Addr, ni: Addr)
    requires SeenOK(h, t, pl, k, seen) && a in seen && ni in pl && pl[ni] == Private(i)
    ensures a in h && a != ni
  {
  }

  lemma {:induction false} PrivateFlags(i: Tid, h: Heap, t: Tree, pl: map<Addr, Place>, ni: Addr, h': Heap)
    requires PlacesOK(h, t, pl) && ni in h && ni in pl && pl[ni] == Private(i) && ni in h' && h' == h[ni := h'[ni]]
    ensures forall l :: Flagged(h', t, l) ==> Flagged(h, t, l)
  {
    forall l | Flagged(h', t, l) ensures Flagged(h, t, l) {
      var a, x :| a in Addrs(t) && a in h' && h'[a].At(x).flag && h'[a].At(x).ptr == l;
      assert a in h && h[a].At(x).flag && h[a].At(x).ptr == l;
    }
  }

  lemma {:induction false} LinkReady(i: Tid, h: Heap, t: Tree, pl: map<Addr, Place>, k: int, seen: set<Addr>,
      th: Thread)
    requires NodesOK(h) && PlacesOK(h, t, pl) && SeenOK(h, t, pl, k, seen)
    requires th.pc.CasInsert? && th.job.Insert? && k == th.job.k && PcOK(h, t, k, seen, th.job, th.pc)
    requires PrivateOK(h, pl, i, th.job, th.pc) && h[th.pc.rec.parent].At(th.pc.rec.ldir) == Plain(th.pc.rec.leaf)
    ensures InsertReady(i, h, t, pl, th.pc.rec.parent, th.pc.rec.ldir, th.pc.rec.leaf, k, th.job.v, th.job.nl,
      th.job.ni)
  {
    UnmarkedInTree(h, t, pl, k, seen, th.pc.rec.parent, th.pc.rec.ldir);
  }

  lemma {:induction false} LinkPlaces(i: Tid, h: Heap, t: Tree, pl: map<Addr, Place>, o: Out, t': Tree, nl: Addr,
      ni: Addr)
    requires Rep(h, ROOT, t) && PlacesOK(h, t, pl) && Rep(o.heap, ROOT, t') && Addrs(t') == Addrs(t) + {nl, ni}
    requires o.heap.Keys == h.Keys && o.retired == {} && o.freed == {} && nl in h && ni in h
    ensures Moved(i, h, pl, o) == pl[nl := InTree][ni := InTree]
  {
    ShapeIs(h, t);
    ShapeIs(o.heap, t');
  }

  /** A successful insert CAS. */
  lemma {:induction false} LinkStep(i: Tid, h: Heap, t: Tree, pl: map<Addr, Place>, claimed: set<Addr>, th: Thread,
      seen: set<Addr>)
      returns (t': Tree, pl': map<Addr, Place>)
    requires HeapOK(h, t, pl) && ThreadOK(h, t, pl, claimed, i, th, seen) && ClaimsOK(h, t, pl, claimed)
    requires th.pc.CasInsert? && th.job.Insert? && h[th.pc.rec.parent].At(th.pc.rec.ldir) == Plain(th.pc.rec.leaf)
    ensures Advanced(i, h, t, pl, seen, ExecCas(h, th), t', pl', claimed)
    ensures th.job.k !in Contents(h, t) && Contents(ExecCas(h, th).heap, t') == Contents(h, t)[th.job.k := th.job.v]
    ensures forall l :: Flagged(ExecCas(h, th).heap, t', l) ==> Flagged(h, t, l)
    ensures ExecCas(h, th).th.pc == Return(Inserted) && Addrs(t) <= Addrs(t')
    ensures LeafPaths(h, t, th.pc.rec.leaf, th.job.k, ExecCas(h, th).heap, t')
  {
    hide SeenOK, NodesOK, PlacesOK, NodesEvolve, Sentinels, Rep, Distinct, Full, Ordered, Path, Contents, Moved,
      InsertReady, Addrs, LeafPaths, Rely, Flagged, ClaimsOK;
    var o, k, nl, ni, rec := ExecCas(h, th), th.job.k, th.job.nl, th.job.ni, th.pc.rec;
    LinkReady(i, h, t, pl, k, seen, th);
    pl' := pl[nl := InTree][ni := InTree];
    t' := InsertStep(i, h, t, pl, rec.parent, rec.ldir, rec.leaf, k, th.job.v, nl, ni, o.heap, pl');
    LinkPlaces(i, h, t, pl, o, t', nl, ni);
    Noisy(i, h, t, pl, claimed, th, seen, o.heap, t', pl', claimed, o.th);
  }

  // ---------------------------------------------------------------- splice and retire

  lemma {:induction false} SpliceFinds(h: Heap, t: Tree, pl: map<Addr, Place>, k: int, seen: set<Addr>,
      th: Thread) returns (c: seq<Addr>)
    requires PlacesOK(h, t, pl) && SeenOK(h, t, pl, k, seen)
    requires th.pc.CasSplice? && !th.job.NoJob? && k == th.job.k && PcOK(h, t, k, seen, th.job, th.pc)
    requires h[th.pc.rec.anc].At(th.pc.rec.sdir) == Plain(th.pc.rec.succ)
    ensures SpliceReady(h, t, th.pc.rec.anc, th.pc.rec.sdir, k, c, th.pc.side, th.pc.sib, th.pc.flag)
    ensures |c| > 0 && c[0] == th.pc.rec.succ && c[|c| - 1] == th.pc.rec.parent && th.pc.rec.anc in Addrs(t)
      && th.pc.rec.anc in h
    ensures ExecCleanup(h, th)
      == Goto(h[th.pc.rec.anc := h[th.pc.rec.anc].Put(th.pc.rec.sdir, Edge(th.pc.sib, th.pc.flag, false))],
                                       th, WalkPop([th.pc.rec.succ], th.pc.sib))
    ensures th.pc.rec.parent in h
    ensures th.job.Purge? ==> h[th.pc.rec.parent].At(Other(th.pc.side)).ptr == th.job.leaf
  {
    var rec := th.pc.rec;
    UnmarkedInTree(h, t, pl, k, seen, rec.anc, rec.sdir);
    c :| |c| > 0 && c[0] == rec.succ && c[|c| - 1] == rec.parent && TagChain(h, k, c);
  }

  lemma {:induction false} NoPending(h: Heap, pl: map<Addr, Place>, i: Tid, pc: Pc)
    requires pc.CasSplice? && WalkOK(h, pl, i, pc)
    ensures forall a :: a in pl ==> pl[a] != Pending(i)
  {
  }

  lemma {:induction false} WalkPcOK(h: Heap, t: Tree, k: int, seen: set<Addr>, job: Job, stack: seq<Addr>, sib: Addr)
    requires job.Purge? ==> job.leaf !in Addrs(t)
    ensures PcOK(h, t, k, seen, job, WalkPop(stack, sib))
  {
  }

  lemma {:induction false} UnlinkPlaces(i: Tid, h: Heap, t: Tree, pl: map<Addr, Place>, o: Out, t': Tree)
    requires Rep(h, ROOT, t) && PlacesOK(h, t, pl) && Rep(o.heap, ROOT, t') && Addrs(t') <= Addrs(t)
    requires o.heap.Keys == h.Keys && o.retired == {} && o.freed == {}
    ensures Moved(i, h, pl, o) == Unlinked(i, pl, Addrs(t) - Addrs(t'))
  {
    ShapeIs(h, t);
    ShapeIs(o.heap, t');
  }

  /** A successful splice CAS. */
  lemma {:induction false} UnlinkStep(i: Tid, h: Heap, t: Tree, pl: map<Addr, Place>, claimed: set<Addr>, th: Thread,
      seen: set<Addr>)
      returns (t': Tree, pl': map<Addr, Place>)
    requires HeapOK(h, t, pl) && ThreadOK(h, t, pl, claimed, i, th, seen) && ClaimsOK(h, t, pl, claimed)
    requires th.pc.CasSplice? && !th.job.NoJob? && h[th.pc.rec.anc].At(th.pc.rec.sdir) == Plain(th.pc.rec.succ)
    ensures Advanced(i, h, t, pl, seen, ExecCleanup(h, th), t', pl', claimed)
    ensures ExecCleanup(h, th).th.pc.WalkPop? && Addrs(t') <= Addrs(t)
      && AllPathsKept(h, t, ExecCleanup(h, th).heap, t')
    ensures var gone := Addrs(t) - Addrs(t');
            && Contents(ExecCleanup(h, th).heap, t') == Contents(h, t) - KeysOf(h, gone)
            && KeysOf(h, gone) <= Contents(h, t).Keys && th.pc.rec.parent in gone
            && h[th.pc.rec.parent].At(Other(th.pc.side)).ptr !in Addrs(t')
            && (forall a :: a in gone ==> a in h && (h[a].Internal() || (FiniteLeaf(h, a) && Flagged(h, t, a))))
    ensures forall l :: Flagged(ExecCleanup(h, th).heap, t', l) ==> Flagged(h, t, l)
  {
    hide SeenOK, NodesOK, PlacesOK, NodesEvolve, Sentinels, Rep, Distinct, Full, Ordered, Path, Contents, Moved,
      SpliceReady, Addrs;
    hide Unlinked, KeysOf, CutRep, Forest, PathsKept, FlagsKept, PcOK, WalkOK, PrivateOK, PurgeOK, ExecCleanup,
      AllPathsKept;
    var o, k, rec := ExecCleanup(h, th), th.job.k, th.pc.rec;
    var c := SpliceFinds(h, t, pl, k, seen, th);
    NoPending(h, pl, i, th.pc);
    t' := SpliceStep(i, h, t, pl, rec.anc, rec.sdir, k, c, th.pc.side, th.pc.sib, th.pc.flag, o.heap);
    pl' := Unlinked(i, pl, Addrs(t) - Addrs(t'));
    UnlinkPlaces(i, h, t, pl, o, t');
    UnlinkPrivate(i, h, t, pl, th, o.heap, Addrs(t) - Addrs(t'));
    WalkPcOK(o.heap, t', k, seen + Path(o.heap, t', k), th.job, [rec.succ], th.pc.sib);
    JobStable(i, h, t, pl, o.heap, pl', claimed, claimed, th.job);
    Noisy(i, h, t, pl, claimed, th, seen, o.heap, t', pl', claimed, o.th);
  }

  lemma {:induction false} UnlinkPrivate(i: Tid, h: Heap, t: Tree, pl: map<Addr, Place>, th: Thread, h': Heap,
      gone: set<Addr>)
    requires PrivateOK(h, pl, i, th.job, th.pc) && PlacesOK(h, t, pl) && gone <= Addrs(t)
    requires th.pc.CasSplice? && th.pc.rec.anc in h && th.pc.rec.anc in h'
      && h' == h[th.pc.rec.anc := h'[th.pc.rec.anc]]
    requires th.pc.rec.anc in Addrs(t)
    ensures PrivateOK(h', Unlinked(i, pl, gone), i, th.job, WalkPop([th.pc.rec.succ], th.pc.sib))
  {
  }

  lemma {:induction false} RetirePlaces(i: Tid, h: Heap, t: Tree, pl: map<Addr, Place>, n: Addr)
    requires PlacesOK(h, t, pl) && n in h && pl[n] == Pending(i)
    ensures PlacesOK(h, t, pl[n := Retired]) && Rely(i, h, t, pl, h, t, pl[n := Retired])
  {
  }

  lemma {:induction false} RetireMoves(i: Tid, h: Heap, t: Tree, pl: map<Addr, Place>, o: Out, n: Addr)
    requires Rep(h, ROOT, t) && PlacesOK(h, t, pl) && o.heap == h && o.retired == {n} && o.freed == {} && n in h
    requires pl[n] == Pending(i)
    ensures Moved(i, h, pl, o) == pl[n := Retired]
  {
    ShapeIs(h, t);
  }

  /** The walk hands one unlinked node to the collector. */
  lemma {:induction false} RetireStep(i: Tid, h: Heap, t: Tree, pl: map<Addr, Place>, claimed: set<Addr>, th: Thread,
      seen: set<Addr>)
      returns (pl': map<Addr, Place>)
    requires HeapOK(h, t, pl) && ThreadOK(h, t, pl, claimed, i, th, seen) && ClaimsOK(h, t, pl, claimed)
    requires th.pc.WalkRight? && !th.job.NoJob?
    ensures Advanced(i, h, t, pl, seen, ExecWalk(h, th), t, pl', claimed)
    ensures ExecWalk(h, th).heap == h && ExecWalk(h, th).retired == {th.pc.node} && th.pc.node in pl
      && pl[th.pc.node] == Pending(i)
    ensures ExecWalk(h, th).th.pc.WalkPop?
  {
    hide SeenOK, NodesOK, Rely, Sentinels, Rep, Distinct, Full, Ordered, Path, Contents, Moved, Addrs, CutRep, Forest,
      WalkOK;
    var o, k, n := ExecWalk(h, th), th.job.k, th.pc.node;
    WalkNode(h, pl, i, th.pc);
    pl' := pl[n := Retired];
    WalkRightStep(h, pl, i, th, pl');
    RetirePlaces(i, h, t, pl, n);
    RetireMoves(i, h, t, pl, o, n);
    Noisy(i, h, t, pl, claimed, th, seen, h, t, pl', claimed, o.th);
  }

  lemma {:induction false} WalkNode(h: Heap, pl: map<Addr, Place>, i: Tid, pc: Pc)
    requires pc.WalkRight? && WalkOK(h, pl, i, pc)
    ensures pc.node in h
  {
  }

  // ---------------------------------------------------------------- calls and replies

  lemma {:induction false} BeginQuiet(i: Tid, h: Heap, t: Tree, pl: map<Addr, Place>, claimed: set<Addr>, th: Thread,
      seen: set<Addr>, o: Out)
    requires HeapOK(h, t, pl) && ThreadOK(h, t, pl, claimed, i, th, seen) && th.job.NoJob?
    requires Begins(h, th, o) && !o.th.job.Insert?
    ensures Advanced(i, h, t, pl, seen, o, t, pl, claimed) && o.heap == h
  {
    hide SeenOK, NodesOK, PlacesOK, Sentinels, Distinct, Full, Ordered, Path, Contents, Moved, Rely, Rep;
    PlacesSame(i, h, t, pl, o);
    RelyRefl(i, h, t, pl);
    SeekStarts(h, t, pl, o.th.job.k, o.th.job);
    ShapeIs(h, t);
    assert Watch(seen, o.th, true, h) == Path(h, t, o.th.job.k);
  }

  lemma {:induction false} BeginPlaces(i: Tid, h: Heap, t: Tree, pl: map<Addr, Place>, o: Out, nl: Addr, ni: Addr)
    requires Rep(h, ROOT, t) && PlacesOK(h, t, pl) && Rep(o.heap, ROOT, t) && o.heap.Keys == h.Keys + {nl, ni}
    requires nl !in h && ni !in h && o.retired == {} && o.freed == {}
    ensures Moved(i, h, pl, o) == pl[nl := Private(i)][ni := Private(i)]
  {
    ShapeIs(h, t);
    ShapeIs(o.heap, t);
  }

  lemma {:induction false} BeginInsert(i: Tid, h: Heap, t: Tree, pl: map<Addr, Place>, claimed: set<Addr>, th: Thread,
      seen: set<Addr>, o: Out)
      returns (pl': map<Addr, Place>)
    requires HeapOK(h, t, pl) && ThreadOK(h, t, pl, claimed, i, th, seen) && th.job.NoJob?
    requires Begins(h, th, o) && o.th.job.Insert?
    ensures Advanced(i, h, t, pl, seen, o, t, pl', claimed) && Contents(o.heap, t) == Contents(h, t)
    ensures AllPathsKept(h, t, o.heap, t)
    ensures forall l :: Flagged(o.heap, t, l) ==> Flagged(h, t, l)
  {
    hide SeenOK, NodesOK, Sentinels, Distinct, Full, Ordered, Path, Contents, Moved, Rely, Rep, Addrs, PurgeSeek,
      AllPathsKept, Flagged, PlacesOK;
    var k, v, nl, ni := o.th.job.k, o.th.job.v, o.th.job.nl, o.th.job.ni;
    pl' := pl[nl := Private(i)][ni := Private(i)];
    Allocate(i, h, t, pl, nl, ni, k, v, o.heap, pl');
    BeginPlaces(i, h, t, pl, o, nl, ni);
    SeekStarts(o.heap, t, pl', k, o.th.job);
    ShapeIs(o.heap, t);
    assert Watch(seen, o.th, true, o.heap) == Path(o.heap, t, k);
    AllocateFlags(h, t, nl, ni, o.heap);
  }

  lemma {:induction false} AllocateFlags(h: Heap, t: Tree, nl: Addr, ni: Addr, h': Heap)
    requires nl in h' && ni in h' && h' == h[nl := h'[nl]][ni := h'[ni]] && Addrs(t) <= h.Keys && nl !in h && ni !in h
    ensures forall l :: Flagged(h', t, l) ==> Flagged(h, t, l)
  {
    forall l | Flagged(h', t, l) ensures Flagged(h, t, l) {
      var a, x :| a in Addrs(t) && a in h' && h'[a].At(x).flag && h'[a].At(x).ptr == l;
      assert a in h && h[a].At(x).flag && h[a].At(x).ptr == l;
    }
  }

  lemma {:induction false} EndStep(i: Tid, h: Heap, t: Tree, pl: map<Addr, Place>, claimed: set<Addr>, th: Thread,
      seen: set<Addr>, o: Out)
    requires HeapOK(h, t, pl) && ThreadOK(h, t, pl, claimed, i, th, seen) && Ends(h, th, o)
    ensures Advanced(i, h, t, pl, seen, o, t, pl, claimed) && o.heap == h
  {
    hide SeenOK, NodesOK, PlacesOK, Sentinels, Distinct, Full, Ordered, Path, Contents, Moved, Rely, Rep;
    PlacesSame(i, h, t, pl, o);
    RelyRefl(i, h, t, pl);
  }
}
