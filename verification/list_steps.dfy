/**
  The steps of one thread that leave the shared list alone: what the traversals learn as they go.
 */
module ListSteps {
  import opened ListModel
  import opened ListInvariant

  /** Seen and unmarked: the node is in the chain, so its value is what the map holds now. */
  lemma {:induction false} Arrived(h: Heap, c: seq<Addr>, pl: map<Addr, Place>, k: int, seen: set<Addr>,
      obs: set<Option<V>>, a: Addr)
    requires HeapOK(h, c, pl) && SeenOK(h, c, pl, k, seen, obs) && a in seen && !h[a].next.mark && h[a].key == Key(k)
    ensures h[a].value in obs && h[a].value.Some?
  {
    assert a in h && Public(pl[a]) && !Gone(pl[a]);
    assert NodeOK(h, a);
    LookupChar(h, c, pl, k, a);
  }

  /** The node after a seen node was seen too; a cursor that moves on still knows what it has passed. */
  lemma {:induction false} MoveOn(h: Heap, c: seq<Addr>, pl: map<Addr, Place>, k: int, seen: set<Addr>,
      obs: set<Option<V>>, a: Addr)
    requires HeapOK(h, c, pl) && SeenOK(h, c, pl, k, seen, obs) && a in seen
    requires Less(h[a].key, Key(k)) || (h[a].next.mark && (Past(h, a, k) ==> None in obs))
    ensures var n := h[a].next.ptr;
            && (n != NULL ==> n in seen && n in h && n != HEAD)
            && (Past(h, n, k) ==> None in obs)
  {
    assert a in h && Public(pl[a]);
    assert NextOK(h, pl, a);
    NextIn(h, c, pl, seen, a);
    var n := h[a].next.ptr;
    if n != NULL {
      assert NodeOK(h, n);
    }
    if Past(h, n, k) {
      if Less(h[a].key, Key(k)) {
        assert Gap(h, a, k);
      } else {
        assert Past(h, a, k) || h[a].key == Key(k);
      }
    }
  }

  lemma {:induction false} RunStart(h: Heap, a: Addr)
    ensures MarkedRun(h, a, a)
  {
    assert IsMarkedRun(h, [a]);
  }

  lemma {:induction false} RunGrows(h: Heap, a: Addr, b: Addr)
    requires MarkedRun(h, a, b) && b in h && h[b].next.mark
    ensures MarkedRun(h, a, h[b].next.ptr)
  {
    var w: seq<Addr> :| |w| > 0 && w[0] == a && w[|w| - 1] == b && IsMarkedRun(h, w);
    var v := w + [h[b].next.ptr];
    assert IsMarkedRun(h, v) by {
      forall i | 0 <= i < |v| - 1 ensures v[i] in h && h[v[i]].next.mark && h[v[i]].next.ptr == v[i + 1] {
        assert i < |w| - 1 ==> w[i] in h && h[w[i]].next.ptr == w[i + 1];
      }
    }
    assert v[0] == a && v[|v| - 1] == h[b].next.ptr;
  }

  lemma {:induction false} HeadStep(h: Heap, c: seq<Addr>, pl: map<Addr, Place>, seen: set<Addr>, obs: set<Option<V>>,
      th: Thread, o: Out)
    requires th.pc.LoadHead? && !th.job.NoJob? && o == ExecLoadHead(h, th)
    requires HeapOK(h, c, pl) && SeenOK(h, c, pl, th.job.k, seen, obs)
    ensures PcOK(h, th.job.k, seen, obs, th.job, o.th.pc) && o == Goto(h, th, o.th.pc)
  {
    assert c[0] == HEAD && HEAD in c && HEAD in h;
    assert NodeOK(h, HEAD);
    MoveOn(h, c, pl, th.job.k, seen, obs, HEAD);
    RunStart(h, h[HEAD].next.ptr);
  }

  lemma {:induction false} HarrisStep(h: Heap, c: seq<Addr>, pl: map<Addr, Place>, seen: set<Addr>, obs: set<Option<V>>,
      th: Thread, o: Out)
    requires th.pc.HLoop? && !th.job.NoJob? && o == ExecHarris(h, th)
    requires HeapOK(h, c, pl) && SeenOK(h, c, pl, th.job.k, seen, obs) && PcOK(h, th.job.k, seen, obs, th.job, th.pc)
    ensures PcOK(h, th.job.k, seen, obs, th.job, o.th.pc) && o == Goto(h, th, o.th.pc)
  {
    var k, curr := th.job.k, th.pc.curr;
    if curr != NULL {
      if h[curr].next.mark || Less(h[curr].key, Key(k)) {
        MoveOn(h, c, pl, k, seen, obs, curr);
      } else if h[curr].key == Key(k) {
        Arrived(h, c, pl, k, seen, obs, curr);
      }
      if h[curr].next.mark {
        RunGrows(h, th.pc.prevNext, curr);
      } else {
        RunStart(h, h[curr].next.ptr);
      }
      assert NodeOK(h, curr);
      hide HeapOK, SeenOK, MarkedRun;
    }
  }

  lemma {:induction false} MichaelStep(h: Heap, c: seq<Addr>, pl: map<Addr, Place>, seen: set<Addr>,
      obs: set<Option<V>>, th: Thread, o: Out)
    requires th.pc.MLoop? && !th.job.NoJob? && o == ExecMichael(h, th)
    requires HeapOK(h, c, pl) && SeenOK(h, c, pl, th.job.k, seen, obs) && PcOK(h, th.job.k, seen, obs, th.job, th.pc)
    ensures PcOK(h, th.job.k, seen, obs, th.job, o.th.pc) && o == Goto(h, th, o.th.pc)
  {
    var k, curr := th.job.k, th.pc.curr;
    if curr != NULL && !h[curr].next.mark {
      assert NodeOK(h, curr);
      if Less(h[curr].key, Key(k)) {
        MoveOn(h, c, pl, k, seen, obs, curr);
      } else if h[curr].key == Key(k) {
        Arrived(h, c, pl, k, seen, obs, curr);
      }
    }
  }

  lemma {:induction false} ShavitStep(h: Heap, c: seq<Addr>, pl: map<Addr, Place>, seen: set<Addr>, obs: set<Option<V>>,
      th: Thread, o: Out)
    requires th.pc.SLoop? && !th.job.NoJob? && th.job.kind.Shavit? && o == ExecShavit(h, th)
    requires HeapOK(h, c, pl) && SeenOK(h, c, pl, th.job.k, seen, obs) && PcOK(h, th.job.k, seen, obs, th.job, th.pc)
    ensures PcOK(h, th.job.k, seen, obs, th.job, o.th.pc) && o == Goto(h, th, o.th.pc)
  {
    var k, curr := th.job.k, th.pc.curr;
    if curr != NULL {
      assert NodeOK(h, curr);
      if Less(h[curr].key, Key(k)) {
        MoveOn(h, c, pl, k, seen, obs, curr);
      } else if h[curr].key == Key(k) && !h[curr].next.mark {
        Arrived(h, c, pl, k, seen, obs, curr);
      }
    }
  }

  lemma {:induction false} FoundStep(h: Heap, c: seq<Addr>, pl: map<Addr, Place>, seen: set<Addr>, obs: set<Option<V>>,
      th: Thread, o: Out)
    requires th.pc.Found? && (th.job.Get? || th.job.Remove?) && o == ExecFound(h, th)
    requires HeapOK(h, c, pl) && SeenOK(h, c, pl, th.job.k, seen, obs) && PcOK(h, th.job.k, seen, obs, th.job, th.pc)
    ensures PcOK(h, th.job.k, seen, obs, th.job, o.th.pc) && o == Goto(h, th, o.th.pc)
  {
  }
}
