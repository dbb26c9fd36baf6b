/**
  Why a call on the Natarajan-Mittal tree seeks again or helps: a compare-and-set of an insert, a flag or a splice
  fails only after another thread has written the edge that it expects, or because the edge was already marked when
  it was loaded.
 */
module NMRetry {
  import opened NMShape
  import opened NMProtocol
  import opened NMInvariant
  import opened NMActions
  import opened NMTheorems
  import opened NMRuns

  /** Thread `t` takes the step from `s` to `s'`. */
  ghost predicate StepBy(s: State, s': State, t: Tid) {
    exists o :: StepOf(s, s', t, o)
  }

  ghost predicate HasRec(pc: Pc) {
    || pc.SeekNext? || pc.Decide? || pc.CasInsert? || pc.CasFlag?
    || pc.LoadLeaf? || pc.TagSibling? || pc.LoadSibling? || pc.CasSplice?
  }

  /** The thread has gone from `a` along side `d` to `x`, as the last edge of its record. */
  ghost predicate LastEdge(pc: Pc, a: Addr, d: Dir, x: Addr) {
    && (pc.SeekNext? || pc.Decide? || pc.CasInsert? || pc.CasFlag?)
    && pc.rec.parent == a && pc.rec.ldir == d && pc.rec.leaf == x
  }

  /**
    The thread has gone from `a` along side `d` to `x` by an untagged edge: the one from the ancestor to the successor
    of its record, or one that is about to become that.
   */
  ghost predicate TopEdge(pc: Pc, a: Addr, d: Dir, x: Addr) {
    || (pc.SeekSent? && a == ROOT && d == L && x == pc.s)
    || (HasRec(pc) && pc.rec.anc == a && pc.rec.sdir == d && pc.rec.succ == x)
    || (pc.SeekNext? && !pc.prevTag && LastEdge(pc, a, d, x))
  }

  ghost predicate LeadsTo(h: Heap, a: Addr, d: Dir, x: Addr) {
    a in h && h[a].At(d).ptr == x
  }

  ghost predicate Holds(h: Heap, a: Addr, d: Dir, x: Addr) {
    a in h && h[a].At(d) == Plain(x)
  }

  /** The thread is about to write an edge of `a`. */
  ghost predicate Aims(pc: Pc, a: Addr) {
    || ((pc.CasInsert? || pc.CasFlag? || pc.TagSibling?) && pc.rec.parent == a)
    || (pc.CasSplice? && pc.rec.anc == a)
  }

  // ---------------------------------------------------------------- one step

  /** A chain of the record stays inside the subtree where it begins. */
  lemma {:induction false} ChainInside(h: Heap, k: int, c: seq<Addr>, u: Tree)
    requires NULL !in h && |c| > 0 && TagChain(h, k, c) && Rep(h, c[0], u)
    ensures c[|c| - 1] in Addrs(u)
    decreases |c|
  {
    assert c[0] in h;
    if |c| > 1 {
      var d := Goes(h, c[0], k);
      assert Onward(h, c[0], k).ptr == c[0 + 1];
      ChainTail(h, k, c);
      ChainInside(h, k, c[1..], u.Kid(d));
    }
  }

  /** While the edge from the ancestor to the successor is plain, the parent is not the ancestor. */
  lemma {:induction false} AncestorApart(h: Heap, t: Tree, pl: map<Addr, Place>, k: int, seen: set<Addr>, rec: Rec)
    requires HeapOK(h, t, pl) && SeenOK(h, t, pl, k, seen) && RecOK(h, k, seen, rec)
    requires Holds(h, rec.anc, rec.sdir, rec.succ)
    ensures rec.anc != rec.parent
  {
    hide Ordered, Sentinels, Full, Path;
    assert Public(pl[rec.anc]) && rec.anc in Addrs(t);
    SubRep(h, ROOT, t, rec.anc);
    var u := Sub(t, rec.anc).Kid(rec.sdir);
    var c :| |c| > 0 && c[0] == rec.succ && c[|c| - 1] == rec.parent && TagChain(h, k, c);
    assert Rep(h, rec.succ, u);
    ChainInside(h, k, c, u);
  }

  /** The nodes a thread works with: what it has come through is published, and apart from what it writes besides. */
  lemma {:induction false} Apart(i: Tid, h: Heap, t: Tree, pl: map<Addr, Place>, claimed: set<Addr>, th: Thread,
      seen: set<Addr>)
    requires HeapOK(h, t, pl) && ThreadOK(h, t, pl, claimed, i, th, seen)
    ensures HasRec(th.pc) ==>
              && th.pc.rec.parent in h && th.pc.rec.parent in pl && Public(pl[th.pc.rec.parent])
              && th.pc.rec.anc in h && th.pc.rec.anc in pl && Public(pl[th.pc.rec.anc])
              && th.pc.rec.leaf in h && th.pc.rec.leaf in pl && Public(pl[th.pc.rec.leaf])
              && th.pc.rec.succ in h && th.pc.rec.succ in pl && Public(pl[th.pc.rec.succ])
    ensures th.pc.Decide? && th.job.Insert? ==> th.job.ni in pl && pl[th.job.ni].Private?
    ensures HasRec(th.pc) && Holds(h, th.pc.rec.anc, th.pc.rec.sdir, th.pc.rec.succ) ==>
              th.pc.rec.anc != th.pc.rec.parent
  {
    hide HeapOK, WalkOK, PurgeOK, PurgeSeek, Chained, Path, Addrs, Holds;
    if HasRec(th.pc) {
      PcRec(h, t, th.job.k, seen, th.job, th.pc);
      if Holds(h, th.pc.rec.anc, th.pc.rec.sdir, th.pc.rec.succ) {
        AncestorApart(h, t, pl, th.job.k, seen, th.pc.rec);
      }
    }
  }

  lemma {:induction false} AtSentinels(i: Tid, h: Heap, t: Tree, pl: map<Addr, Place>, claimed: set<Addr>, th: Thread,
      seen: set<Addr>)
    requires HeapOK(h, t, pl) && ThreadOK(h, t, pl, claimed, i, th, seen) && th.pc.SeekSent?
    ensures th.pc.s in h && th.pc.s in pl && Public(pl[th.pc.s]) && !h[th.pc.s].left.tag
    ensures ROOT in h && ROOT in pl && Public(pl[ROOT])
  {
    hide WalkOK, PurgeOK, PurgeSeek, PrivateOK, Path, Distinct, Full, Ordered;
    SentinelsUnmarked(h, t);
    assert ROOT in Addrs(t);
  }

  /** A thread adds an edge to its record that it has just loaded, and does not write it while it is the last one. */
  lemma {:induction false} OwnLast(i: Tid, h: Heap, t: Tree, pl: map<Addr, Place>, claimed: set<Addr>, th: Thread,
      seen: set<Addr>, o: Out, a: Addr, d: Dir, x: Addr)
    requires HeapOK(h, t, pl) && ThreadOK(h, t, pl, claimed, i, th, seen) && Local(h, th, o)
    requires LastEdge(o.th.pc, a, d, x)
    ensures if LastEdge(th.pc, a, d, x) then a in h && a in o.heap && o.heap[a].At(d) == h[a].At(d)
            else LeadsTo(o.heap, a, d, x)
  {
    hide ThreadOK, HeapOK;
    PointersValid(i, h, t, pl, claimed, th, seen);
    Apart(i, h, t, pl, claimed, th, seen);
  }

  lemma {:induction false} OwnTop(i: Tid, h: Heap, t: Tree, pl: map<Addr, Place>, claimed: set<Addr>, th: Thread,
      seen: set<Addr>, o: Out, a: Addr, d: Dir, x: Addr)
    requires HeapOK(h, t, pl) && ThreadOK(h, t, pl, claimed, i, th, seen) && Local(h, th, o)
    requires TopEdge(o.th.pc, a, d, x)
    ensures if TopEdge(th.pc, a, d, x) then Holds(h, a, d, x) ==> Holds(o.heap, a, d, x)
            else LeadsTo(o.heap, a, d, x) && !o.heap[a].At(d).tag
  {
    hide ThreadOK, HeapOK;
    PointersValid(i, h, t, pl, claimed, th, seen);
    Apart(i, h, t, pl, claimed, th, seen);
    if th.pc.SeekSent? {
      AtSentinels(i, h, t, pl, claimed, th, seen);
    }
  }

  /** Only a compare-and-set or a tag writes a published node. */
  lemma {:induction false} WriterAims(i: Tid, h: Heap, t: Tree, pl: map<Addr, Place>, claimed: set<Addr>, th: Thread,
      seen: set<Addr>, o: Out, a: Addr, d: Dir)
    requires HeapOK(h, t, pl) && ThreadOK(h, t, pl, claimed, i, th, seen) && Local(h, th, o)
    requires a in h && a in pl && Public(pl[a]) && (a in o.heap ==> o.heap[a].At(d) != h[a].At(d))
    ensures a in o.heap && Aims(th.pc, a)
  {
    hide ThreadOK, HeapOK;
    PointersValid(i, h, t, pl, claimed, th, seen);
    Apart(i, h, t, pl, claimed, th, seen);
  }

  // ---------------------------------------------------------------- since when

  /** The two edges of the record: a compare-and-set of an insert or a flag, or of a splice, is on one of them. */
  datatype Which = Last | Top

  ghost predicate Tracks(w: Which, pc: Pc, a: Addr, d: Dir, x: Addr) {
    if w.Last? then LastEdge(pc, a, d, x) else TopEdge(pc, a, d, x)
  }

  /** The edge as the thread has just loaded it. */
  ghost predicate Loaded(w: Which, h: Heap, a: Addr, d: Dir, x: Addr) {
    LeadsTo(h, a, d, x) && (w.Top? ==> !h[a].At(d).tag)
  }

  lemma {:induction false} ThreadIs(s: State, t: Tid)
    requires Inv(s) && t in s.threads
    ensures HeapOK(s.heap, Live(s), s.place)
    ensures t in s.seen && ThreadOK(s.heap, Live(s), s.place, s.claimed, t, s.threads[t], s.seen[t])
  {
    hide ThreadOK, HeapOK, ClaimsOK, OwnersOK, RetiredOK, PlacesOwned;
    TreeOf(s);
  }

  /** One step, seen by a thread that tracks an edge afterwards. */
  lemma {:induction false} TrackStep(s: State, s': State, w: Which, t: Tid, a: Addr, d: Dir, x: Addr)
    requires Inv(s) && Next(s, s') && t in s'.threads && Tracks(w, s'.threads[t].pc, a, d, x)
    ensures t in s.threads
    ensures !Tracks(w, s.threads[t].pc, a, d, x) ==> StepBy(s, s', t) && Loaded(w, s'.heap, a, d, x)
    ensures Tracks(w, s.threads[t].pc, a, d, x) && StepBy(s, s', t) && Holds(s.heap, a, d, x) ==>
              Holds(s'.heap, a, d, x)
  {
    hide ThreadOK, HeapOK, Inv, Local, Moved, Watch, LastEdge, TopEdge;
    var i, o :| StepOf(s, s', i, o);
    if StepBy(s, s', t) {
      var p :| StepOf(s, s', t, p);
      ThreadIs(s, t);
      if w.Last? {
        OwnLast(t, s.heap, Live(s), s.place, s.claimed, s.threads[t], s.seen[t], p, a, d, x);
      } else {
        OwnTop(t, s.heap, Live(s), s.place, s.claimed, s.threads[t], s.seen[t], p, a, d, x);
      }
    }
  }

  /** Since state `l`, the edge belongs to the record of `t`, which had just loaded it. */
  ghost predicate TracksSince(r: seq<State>, w: Which, l: nat, j: nat, t: Tid, a: Addr, d: Dir, x: Addr) {
    && 0 < l <= j < |r| && StepBy(r[l - 1], r[l], t) && Loaded(w, r[l].heap, a, d, x)
    && forall n :: l <= n <= j ==> t in r[n].threads && Tracks(w, r[n].threads[t].pc, a, d, x)
  }

  lemma {:induction false} Since(r: seq<State>, w: Which, j: nat, t: Tid, a: Addr, d: Dir, x: Addr) returns (l: nat)
    requires IsRun(r) && j < |r| && t in r[j].threads && Tracks(w, r[j].threads[t].pc, a, d, x)
    ensures TracksSince(r, w, l, j, t, a, d, x)
    decreases j
  {
    hide Next, Inv, StepBy, Loaded;
    assert j > 0;
    RunInv(r, j - 1);
    assert Next(r[j - 1], r[j - 1 + 1]);
    TrackStep(r[j - 1], r[j], w, t, a, d, x);
    if Tracks(w, r[j - 1].threads[t].pc, a, d, x) {
      l := Since(r, w, j - 1, t, a, d, x);
    } else {
      l := j;
    }
  }

  lemma {:induction false} TrackedPublic(s: State, w: Which, t: Tid, a: Addr, d: Dir, x: Addr)
    requires Inv(s) && t in s.threads && Tracks(w, s.threads[t].pc, a, d, x)
    ensures a in s.heap && a in s.place && Public(s.place[a]) && x in s.heap && x in s.place && Public(s.place[x])
  {
    hide ThreadOK, HeapOK, Inv;
    ThreadIs(s, t);
    Apart(t, s.heap, Live(s), s.place, s.claimed, s.threads[t], s.seen[t]);
    if s.threads[t].pc.SeekSent? {
      AtSentinels(t, s.heap, Live(s), s.place, s.claimed, s.threads[t], s.seen[t]);
    }
  }

  // ---------------------------------------------------------------- who wrote

  /** A compare-and-set or a tag of thread `u` takes the edge away from being a plain edge to `x`. */
  ghost predicate Overwrites(s: State, s': State, u: Tid, a: Addr, d: Dir, x: Addr) {
    && StepBy(s, s', u) && u in s.threads && Aims(s.threads[u].pc, a)
    && Holds(s.heap, a, d, x) && a in s'.heap && s'.heap[a].At(d) != Plain(x)
  }

  lemma {:induction false} OverwriteStep(s: State, s': State, w: Which, t: Tid, a: Addr, d: Dir, x: Addr)
      returns (u: Tid)
    requires Inv(s) && Next(s, s') && t in s.threads && t in s'.threads && Tracks(w, s.threads[t].pc, a, d, x)
    requires Tracks(w, s'.threads[t].pc, a, d, x) && Holds(s.heap, a, d, x) && !Holds(s'.heap, a, d, x)
    ensures u != t && Overwrites(s, s', u, a, d, x)
  {
    hide ThreadOK, HeapOK, Inv, Local, Moved, Watch, Tracks, Aims;
    TrackedPublic(s, w, t, a, d, x);
    TrackStep(s, s', w, t, a, d, x);
    var o: Out;
    u, o :| StepOf(s, s', u, o);
    assert StepBy(s, s', u);
    ThreadIs(s, u);
    WriterAims(u, s.heap, Live(s), s.place, s.claimed, s.threads[u], s.seen[u], o, a, d);
  }

  lemma {:induction false} FindOverwrite(r: seq<State>, w: Which, l: nat, j: nat, t: Tid, a: Addr, d: Dir, x: Addr)
      returns (m: nat, u: Tid)
    requires IsRun(r) && TracksSince(r, w, l, j, t, a, d, x) && Holds(r[l].heap, a, d, x) && !Holds(r[j].heap, a, d, x)
    ensures l <= m < j && u != t && Overwrites(r[m], r[m + 1], u, a, d, x)
    decreases j
  {
    hide Init, Next, Inv, Tracks, Holds, Loaded, Overwrites, StepBy;
    assert l < j;
    if Holds(r[j - 1].heap, a, d, x) {
      RunInv(r, j - 1);
      assert Next(r[j - 1], r[j - 1 + 1]);
      m := j - 1;
      u := OverwriteStep(r[j - 1], r[j], w, t, a, d, x);
    } else {
      m, u := FindOverwrite(r, w, l, j - 1, t, a, d, x);
    }
  }

  /** The compare-and-set fails because the edge is marked, and the call goes on to help. */
  ghost predicate Helps(s: State, t: Tid) {
    t in s.threads && Running(s.threads[t]) && Matches(s.threads[t]) && Exec(s.heap, s.threads[t]).th.pc.LoadLeaf?
  }

  /**
    Why the compare-and-set of an insert or a flag fails: either the edge was already marked when the thread loaded
    it, is unchanged, and the call goes on to help; or since the load, which found the plain edge that the thread
    expects, a compare-and-set or a tag of another thread on the same node has overwritten it.
   */
  lemma {:induction false} UpdateFails(r: seq<State>, j: nat, t: Tid, a: Addr, d: Dir, x: Addr)
      returns (l: nat, m: nat, u: Tid)
    requires IsRun(r) && j < |r| && t in r[j].threads
    requires (r[j].threads[t].pc.CasInsert? || r[j].threads[t].pc.CasFlag?) && LastEdge(r[j].threads[t].pc, a, d, x)
    requires !Holds(r[j].heap, a, d, x)
    ensures TracksSince(r, Last, l, j, t, a, d, x)
    ensures if r[l].heap[a].At(d).Marked() then
              a in r[j].heap && r[j].heap[a].At(d).Marked() && r[j].heap[a].At(d).ptr == x && Helps(r[j], t)
            else l <= m < j && u != t && Overwrites(r[m], r[m + 1], u, a, d, x)
  {
    hide Init, Next, Inv, StepBy, Overwrites;
    m, u := 0, 0;
    l := Since(r, Last, j, t, a, d, x);
    if r[l].heap[a].At(d).Marked() {
      MarkedForever(r, l, j, a, d);
      RunInv(r, j);
      HelpsThere(r[j], t);
    } else {
      m, u := FindOverwrite(r, Last, l, j, t, a, d, x);
    }
  }

  lemma {:induction false} HelpsThere(s: State, t: Tid)
    requires Inv(s) && t in s.threads && (s.threads[t].pc.CasInsert? || s.threads[t].pc.CasFlag?)
    requires var rec := s.threads[t].pc.rec;
             rec.parent in s.heap && s.heap[rec.parent].At(rec.ldir).Marked()
             && s.heap[rec.parent].At(rec.ldir).ptr == rec.leaf
    ensures Helps(s, t)
  {
    hide Inv, ThreadOK, HeapOK;
    ThreadIs(s, t);
    PointersValid(t, s.heap, Live(s), s.place, s.claimed, s.threads[t], s.seen[t]);
  }

  /** A splice is aimed at an internal node, so the edge it expects had no flag when it was loaded. */
  lemma {:induction false} SuccessorInternal(s: State, t: Tid)
    requires Inv(s) && t in s.threads && s.threads[t].pc.CasSplice?
    ensures s.threads[t].pc.rec.succ in s.heap && !s.heap[s.threads[t].pc.rec.succ].Leaf()
  {
    hide Inv, HeapOK, PrivateOK, WalkOK, PurgeOK, PurgeSeek, SeenOK;
    ThreadIs(s, t);
    var rec, k := s.threads[t].pc.rec, s.threads[t].job.k;
    var c :| |c| > 0 && c[0] == rec.succ && c[|c| - 1] == rec.parent && TagChain(s.heap, k, c);
    hide ThreadOK;
    if |c| > 1 {
      assert Onward(s.heap, c[0], k).ptr == c[0 + 1];
      NotNull(s, c[1]);
    }
  }

  lemma {:induction false} NotNull(s: State, a: Addr)
    requires Inv(s) && a in s.heap
    ensures a != NULL
  {
    hide ThreadsOK, ClaimsOK, OwnersOK, RetiredOK, PlacesOwned, ShapeOK, PlacesOK;
    TreeOf(s);
  }

  lemma {:induction false} FlaggedLeaf(s: State, a: Addr, d: Dir)
    requires Inv(s) && a in s.heap && s.heap[a].At(d).flag
    ensures var x := s.heap[a].At(d).ptr; x in s.heap && s.heap[x].Leaf()
  {
    hide ThreadsOK, ClaimsOK, OwnersOK, RetiredOK, PlacesOwned, ShapeOK, PlacesOK;
    TreeOf(s);
    assert NodeOK(s.heap, a);
  }

  /**
    Why the compare-and-set of a splice fails: since the thread loaded the edge from the ancestor to the successor,
    which was plain, a compare-and-set or a tag of another thread on the ancestor has overwritten it.
   */
  lemma {:induction false} SpliceFails(r: seq<State>, j: nat, t: Tid, a: Addr, d: Dir, x: Addr)
      returns (l: nat, m: nat, u: Tid)
    requires IsRun(r) && j < |r| && t in r[j].threads && r[j].threads[t].pc.CasSplice?
    requires TopEdge(r[j].threads[t].pc, a, d, x) && !Holds(r[j].heap, a, d, x)
    ensures TracksSince(r, Top, l, j, t, a, d, x) && Holds(r[l].heap, a, d, x)
    ensures l <= m < j && u != t && Overwrites(r[m], r[m + 1], u, a, d, x)
  {
    hide Init, Next, Inv, StepBy, Overwrites;
    l := Since(r, Top, j, t, a, d, x);
    RunInv(r, l);
    RunInv(r, j);
    SuccessorInternal(r[j], t);
    TrackedPublic(r[l], Top, t, a, d, x);
    if r[l].heap[a].At(d).flag {
      FlaggedLeaf(r[l], a, d);
      LeafForever(r, l, j, x);
    }
    m, u := FindOverwrite(r, Top, l, j, t, a, d, x);
  }
}
