/**
  Each step of a thread re-establishes that thread's invariant.
 */
module NMSteps {
  import opened NMShape
  import opened NMProtocol
  import opened NMInvariant
  import opened NMActions

  // ---------------------------------------------------------------- seek

  lemma {:induction false} SentinelPath(h: Heap, t: Tree, k: int)
    requires NodesOK(h) && Rep(h, ROOT, t) && Sentinels(h, t)
    ensures ROOT in Path(h, t, k) && SENT in Path(h, t, k) && h[SENT].left.ptr in Path(h, t, k)
    ensures h[ROOT].left == Plain(SENT) && h[ROOT].Internal() && h[SENT].Internal()
    ensures Goes(h, ROOT, k) == L && Goes(h, SENT, k) == L && InfKey(h, h[SENT].left.ptr)
  {
    SentinelNodes(h, t);
    SentinelsUnmarked(h, t);
    assert NodeOK(h, ROOT) && NodeOK(h, SENT);
    assert ROOT in Path(h, t, k);
    assert Path(h, t, k) == {ROOT} + Path(h, t.l, k);
    assert Path(h, t.l, k) == {SENT} + Path(h, t.l.l, k);
  }

  lemma {:induction false} SeekRootStep(h: Heap, t: Tree, k: int, seen: set<Addr>, th: Thread)
    requires NodesOK(h) && Rep(h, ROOT, t) && Sentinels(h, t) && Path(h, t, k) <= seen
    requires th.pc.SeekRoot? && !th.job.NoJob? && th.job.k == k
    ensures var o := ExecSeek(h, th);
            o == Goto(h, th, o.th.pc) && PcOK(h, t, k, seen, th.job, o.th.pc) && o.th.pc.SeekSent?
  {
    SentinelPath(h, t, k);
  }

  lemma {:induction false} SeekSentStep(h: Heap, t: Tree, k: int, seen: set<Addr>, th: Thread)
    requires NodesOK(h) && Rep(h, ROOT, t) && Sentinels(h, t) && Path(h, t, k) <= seen
    requires th.pc == SeekSent(SENT) && !th.job.NoJob? && th.job.k == k
    requires th.job.Purge? ==> FiniteLeaf(h, th.job.leaf)
    ensures var o := ExecSeek(h, th);
            o == Goto(h, th, o.th.pc) && PcOK(h, t, k, seen, th.job, o.th.pc) && o.th.pc.SeekNext?
  {
    SentinelPath(h, t, k);
    var c := [SENT];
    assert TagChain(h, k, c);
    assert Chained(h, k, SENT, SENT);
  }

  /** The child the search moves to was on the search path during this seek as well. */
  lemma {:induction false} SeekGoesOn(h: Heap, t: Tree, pl: map<Addr, Place>, k: int, seen: set<Addr>, a: Addr)
    requires NodesOK(h) && Rep(h, ROOT, t) && SeenOK(h, t, pl, k, seen) && a in seen && Onward(h, a, k).ptr != NULL
    ensures Onward(h, a, k).ptr in seen && h[a].Internal()
  {
    assert NodeOK(h, a);
    if a in Addrs(t) {
      PathStep(h, ROOT, t, k, a);
    }
  }

  lemma {:induction false} ChainGrows(h: Heap, k: int, a: Addr, b: Addr, c: Addr)
    requires Chained(h, k, a, b) && b in h && c in h && Onward(h, b, k).tag && Onward(h, b, k).ptr == c
    ensures Chained(h, k, a, c)
  {
    var s :| |s| > 0 && s[0] == a && s[|s| - 1] == b && TagChain(h, k, s);
    var s' := s + [c];
    assert TagChain(h, k, s');
  }

  lemma {:induction false} RecAdvances(h: Heap, k: int, seen: set<Addr>, rec: Rec, prevTag: bool, to: Addr)
    requires RecOK(h, k, seen, rec) && h[rec.leaf].Internal() && to in seen && to in h
    requires prevTag ==> h[rec.parent].At(rec.ldir).tag && h[rec.parent].At(rec.ldir).ptr == rec.leaf
    ensures RecOK(h, k, seen, Advance(rec, prevTag, Goes(h, rec.leaf, k), to))
  {
    if prevTag {
      ChainGrows(h, k, rec.succ, rec.parent, rec.leaf);
    } else {
      assert TagChain(h, k, [rec.leaf]);
      assert Chained(h, k, rec.leaf, rec.leaf);
    }
  }

  /** A search for the key of a flagged leaf reaches that leaf by a flagged edge. */
  lemma {:induction false} FlaggedArrival(h: Heap, t: Tree, pl: map<Addr, Place>, job: Job, pc: Pc, seen: set<Addr>,
      a: Addr)
    requires Rep(h, ROOT, t) && Distinct(t) && NULL !in h
    requires job.Purge? && SeenOK(h, t, pl, job.k, seen) && a in seen && h[a].Internal()
    requires Seeking(pc) && PurgeSeek(h, t, job, pc, seen) && job.leaf in h
    requires job.leaf in Addrs(t) ==> Flagged(h, t, job.leaf)
    requires Onward(h, a, job.k).ptr == job.leaf
    ensures Onward(h, a, job.k).flag
  {
    if a in Addrs(t) {
      KidIn(h, ROOT, t, a, Goes(h, a, job.k));
      EdgeToFlagged(h, t, a, Goes(h, a, job.k));
    }
  }

  lemma {:induction false} SeekNextStep(h: Heap, t: Tree, pl: map<Addr, Place>, k: int, seen: set<Addr>, th: Thread)
    requires NodesOK(h) && Rep(h, ROOT, t) && Distinct(t) && SeenOK(h, t, pl, k, seen)
    requires th.pc.SeekNext? && !th.job.NoJob? && th.job.k == k && PcOK(h, t, k, seen, th.job, th.pc)
    requires th.job.Purge? ==> th.job.leaf in h && (th.job.leaf in Addrs(t) ==> Flagged(h, t, th.job.leaf))
    requires PurgeSeek(h, t, th.job, th.pc, seen)
    ensures var o := ExecSeek(h, th);
            o == Goto(h, th, o.th.pc) && PcOK(h, t, k, seen, th.job, o.th.pc) && Seeking(o.th.pc) && !o.th.pc.SeekRoot?
  {
    var rec, a := th.pc.rec, th.pc.rec.leaf;
    assert NodeOK(h, a);
    var e := Onward(h, a, k);
    if e.ptr != NULL {
      SeekGoesOn(h, t, pl, k, seen, a);
      RecAdvances(h, k, seen, rec, th.pc.prevTag, e.ptr);
      if th.job.Purge? && e.ptr == th.job.leaf {
        FlaggedArrival(h, t, pl, th.job, th.pc, seen, a);
      }
    }
  }

  // ---------------------------------------------------------------- decisions

  /** A remove that finds another leaf where it flagged one knows that its leaf is unlinked. */
  lemma {:induction false} PurgeInfers(h: Heap, t: Tree, job: Job, pc: Pc, seen: set<Addr>, a: Addr)
    requires job.Purge? && Seeking(pc) && PurgeSeek(h, t, job, pc, seen) && a in seen && a in h && h[a].Leaf()
      && a != job.leaf
    ensures job.leaf !in Addrs(t)
  {
  }

  lemma {:induction false} DecideStep(h: Heap, t: Tree, pl: map<Addr, Place>, k: int, seen: set<Addr>, th: Thread)
    requires NodesOK(h) && SeenOK(h, t, pl, k, seen)
    requires th.pc.Decide? && !th.job.NoJob? && !th.job.Insert? && th.job.k == k && PcOK(h, t, k, seen, th.job, th.pc)
    requires PurgeSeek(h, t, th.job, th.pc, seen)
    ensures var o := ExecDecide(h, th); o == Goto(h, th, o.th.pc) && PcOK(h, t, k, seen, th.job, o.th.pc)
    ensures var pc := ExecDecide(h, th).th.pc; pc.Return? || pc.CasFlag? || pc.LoadLeaf?
  {
    var a := th.pc.rec.leaf;
    assert NodeOK(h, a);
    assert a in seen && a in h && h[a].Leaf();
    if th.job.Purge? && a != th.job.leaf {
      PurgeInfers(h, t, th.job, th.pc, seen, a);
    }
  }

  // ---------------------------------------------------------------- compare-and-set, cleanup

  /** A seen node with an unmarked edge is still in the tree. */
  lemma {:induction false} UnmarkedInTree(h: Heap, t: Tree, pl: map<Addr, Place>, k: int, seen: set<Addr>, a: Addr,
      d: Dir)
    requires PlacesOK(h, t, pl) && SeenOK(h, t, pl, k, seen) && a in seen && h[a].Internal() && !h[a].At(d).Marked()
    ensures a in Addrs(t) && a in Path(h, t, k)
  {
    assert Public(pl[a]);
  }

  lemma {:induction false} CasFails(h: Heap, t: Tree, k: int, seen: set<Addr>, th: Thread)
    requires (th.pc.CasInsert? && th.job.Insert?) || (th.pc.CasFlag? && th.job.Inject?)
    requires th.job.k == k && PcOK(h, t, k, seen, th.job, th.pc)
    requires h[th.pc.rec.parent].At(th.pc.rec.ldir) != Plain(th.pc.rec.leaf)
    ensures var o := ExecCas(h, th); o == Goto(h, th, o.th.pc) && PcOK(h, t, k, seen, th.job, o.th.pc)
    ensures var pc := ExecCas(h, th).th.pc; pc.SeekRoot? || pc.LoadLeaf?
  {
  }

  lemma {:induction false} CleanupQuiet(h: Heap, t: Tree, k: int, seen: set<Addr>, th: Thread)
    requires NodesOK(h) && (th.pc.LoadLeaf? || th.pc.LoadSibling? || th.pc.CasSplice?)
    requires !th.job.NoJob? && th.job.k == k && PcOK(h, t, k, seen, th.job, th.pc)
    requires th.pc.CasSplice? ==> h[th.pc.rec.anc].At(th.pc.rec.sdir) != Plain(th.pc.rec.succ)
    ensures var o := ExecCleanup(h, th); o == Goto(h, th, o.th.pc) && PcOK(h, t, k, seen, th.job, o.th.pc)
    ensures var pc := ExecCleanup(h, th).th.pc; pc.SeekRoot? || pc.TagSibling? || pc.CasSplice?
  {
    assert NodeOK(h, th.pc.rec.parent);
  }

  // ---------------------------------------------------------------- the walk

  lemma {:induction false} ForestPush(h: Heap, pl: map<Addr, Place>, i: Tid, stack: seq<Addr>, sib: Addr, f: seq<Tree>,
      more: set<Addr>, a: Addr, u: Tree)
    requires Forest(h, pl, i, stack, sib, f, Addrs(u) + more) && CutRep(h, a, sib, u) && Distinct(u) && Addrs(u) !! more
    ensures Forest(h, pl, i, stack + [a], sib, f + [u], more)
  {
    var g := f + [u];
    assert g[..|g| - 1] == f && g[|g| - 1] == u;
    assert ForestAddrs(g) == ForestAddrs(f) + Addrs(u);
    forall j | 0 <= j < |g| ensures CutRep(h, (stack + [a])[j], sib, g[j]) {
      if j < |f| {
        assert (stack + [a])[j] == stack[j] && g[j] == f[j];
      }
    }
  }

  lemma {:induction false} ForestPop(h: Heap, pl: map<Addr, Place>, i: Tid, stack: seq<Addr>, sib: Addr, f: seq<Tree>)
    requires Forest(h, pl, i, stack, sib, f, {}) && stack != []
    ensures var n := |f| - 1; Forest(h, pl, i, stack[..n], sib, f[..n], Addrs(f[n]))
    ensures CutRep(h, stack[|stack| - 1], sib, f[|f| - 1]) && Distinct(f[|f| - 1])
  {
    var n := |f| - 1;
    forall j | 0 <= j < n ensures CutRep(h, stack[..n][j], sib, f[..n][j]) {
      assert CutRep(h, stack[j], sib, f[j]);
    }
    assert CutRep(h, stack[n], sib, f[n]);
  }

  lemma {:induction false} WalkPopStep(h: Heap, t: Tree, pl: map<Addr, Place>, i: Tid, k: int, seen: set<Addr>,
      th: Thread)
    requires NodesOK(h) && th.pc.WalkPop? && WalkOK(h, pl, i, th.pc) && !th.job.NoJob?
    requires PcOK(h, t, k, seen, th.job, th.pc)
    ensures var o := ExecWalk(h, th);
            o == Goto(h, th, o.th.pc) && PcOK(h, t, k, seen, th.job, o.th.pc) && WalkOK(h, pl, i, o.th.pc)
    ensures var pc := ExecWalk(h, th).th.pc;
            pc.SeekRoot? || pc.WalkPop? || pc.WalkRight? || (pc.Return? && th.job.Purge?)
  {
    hide NodesOK, WalkOK, Addrs;
    if th.pc.stack == [] {
      PopEnds(h, pl, i, th.pc.sib, ExecWalk(h, th).th.pc);
    } else {
      PopGoes(h, pl, i, th.pc.stack, th.pc.sib);
    }
  }

  /** The walk is over when the stack is empty: nothing is left to retire. */
  lemma {:induction false} PopEnds(h: Heap, pl: map<Addr, Place>, i: Tid, sib: Addr, pc: Pc)
    requires WalkOK(h, pl, i, WalkPop([], sib)) && !pc.WalkPop? && !pc.WalkRight?
    ensures WalkOK(h, pl, i, pc)
  {
    var f :| Forest(h, pl, i, [], sib, f, {});
    assert f == [];
  }

  /** The next stack entry is skipped, or its left child is pushed. */
  lemma {:induction false} PopGoes(h: Heap, pl: map<Addr, Place>, i: Tid, stack: seq<Addr>, sib: Addr)
    requires WalkOK(h, pl, i, WalkPop(stack, sib)) && stack != []
    ensures var rest, n := stack[..|stack| - 1], stack[|stack| - 1];
            if n == NULL || n == sib then WalkOK(h, pl, i, WalkPop(rest, sib))
            else n in h && WalkOK(h, pl, i, WalkRight(rest + [h[n].left.ptr], sib, n))
  {
    var f :| Forest(h, pl, i, stack, sib, f, {});
    assert |f| == |stack|;
    hide Forest;
    ForestPop(h, pl, i, stack, sib, f);
    var rest, n, u, g := stack[..|stack| - 1], stack[|stack| - 1], f[|f| - 1], f[..|f| - 1];
    if n == NULL || n == sib {
      assert Addrs(u) == {};
    } else {
      assert Addrs(u) == Addrs(u.l) + ({n} + Addrs(u.r));
      ForestPush(h, pl, i, rest, sib, g, {n} + Addrs(u.r), h[n].left.ptr, u.l);
    }
  }

  lemma {:induction false} WalkRightStep(h: Heap, pl: map<Addr, Place>, i: Tid, th: Thread,
      pl': map<Addr, Place>)
    requires th.pc.WalkRight? && WalkOK(h, pl, i, th.pc) && th.pc.node in pl && pl' == pl[th.pc.node := Retired]
    ensures pl[th.pc.node] == Pending(i)
    ensures var o := ExecWalk(h, th);
            o == Out(h, th.(pc := o.th.pc), {th.pc.node}, {}) && o.th.pc.WalkPop? && WalkOK(h, pl', i, o.th.pc)
  {
    hide CutRep, ForestDistinct, Addrs, Distinct;
    var stack, sib, n := th.pc.stack, th.pc.sib, th.pc.node;
    var f, u :| Forest(h, pl, i, stack, sib, f, {n} + Addrs(u)) && CutRep(h, h[n].right.ptr, sib, u)
                && Distinct(u) && n !in Addrs(u);
    assert {n} + Addrs(u) == Addrs(u) + {n};
    ForestPush(h, pl, i, stack, sib, f, {n}, h[n].right.ptr, u);
    assert n in {n} + Addrs(u);
    assert Forest(h, pl', i, stack + [h[n].right.ptr], sib, f + [u], {});
  }
}
