/**
  The Natarajan-Mittal tree: the invariant holds in every reachable state, every step refines the map,
  and every reply is right at some moment of its call.
 */
module NMTheorems {
  import opened NMShape
  import opened NMProtocol
  import opened NMInvariant
  import opened NMActions
  import opened NMPreservation

  // ---------------------------------------------------------------- one step of one thread

  ghost predicate Links(th: Thread, o: Out) {
    th.pc.CasInsert? && o.th.pc == Return(Inserted)
  }

  ghost predicate Splices(th: Thread, o: Out) {
    th.pc.CasSplice? && o.th.pc.WalkPop?
  }

  ghost predicate Flags(th: Thread, o: Out) {
    th.pc.CasFlag? && o.th.job.Purge?
  }

  ghost function NewClaims(th: Thread, o: Out): set<Addr> {
    if Flags(th, o) then {th.pc.rec.leaf} else {}
  }

  /** What a step does to the tree and to the map. */
  ghost predicate Effect(h: Heap, t: Tree, th: Thread, o: Out, t': Tree) {
    if Links(th, o) then
      && th.job.Insert? && th.job.k !in Contents(h, t) && Addrs(t) <= Addrs(t')
      && Contents(o.heap, t') == Contents(h, t)[th.job.k := th.job.v]
      && LeafPaths(h, t, th.pc.rec.leaf, th.job.k, o.heap, t')
    else if Splices(th, o) then
      && Contents(o.heap, t') == Contents(h, t) - KeysOf(h, Addrs(t) - Addrs(t'))
      && KeysOf(h, Addrs(t) - Addrs(t')) <= Contents(h, t).Keys
      && (forall a :: a in Addrs(t) - Addrs(t') ==>
        a in h && (h[a].Internal() || (FiniteLeaf(h, a) && Flagged(h, t, a))))
      && AllPathsKept(h, t, o.heap, t')
    else t' == t && Contents(o.heap, t') == Contents(h, t) && AllPathsKept(h, t, o.heap, t')
  }

  /** Only a flag CAS adds a flag. */
  ghost predicate FlagEffect(h: Heap, t: Tree, claimed: set<Addr>, pl: map<Addr, Place>, th: Thread, o: Out, t': Tree) {
    && (forall l :: Flagged(o.heap, t', l) ==> Flagged(h, t, l) || (Flags(th, o) && l == th.pc.rec.leaf))
    && (Flags(th, o) ==>
          && th.pc.rec.leaf !in claimed && th.pc.rec.leaf in h && th.pc.rec.leaf in pl && Public(pl[th.pc.rec.leaf])
          && o.th.job.leaf == th.pc.rec.leaf && Flagged(o.heap, t', th.pc.rec.leaf) && o.th.pc.LoadLeaf?)
    && (!Flags(th, o) && o.th.job.Purge? ==> o.th.job == th.job)
  }

  ghost predicate RetireEffect(i: Tid, pl: map<Addr, Place>, o: Out) {
    forall n :: n in o.retired ==> n in pl && pl[n] == Pending(i)
  }

  lemma {:induction false} QuietCase(i: Tid, h: Heap, t: Tree, pl: map<Addr, Place>, claimed: set<Addr>, th: Thread,
      seen: set<Addr>)
    requires HeapOK(h, t, pl) && ThreadOK(h, t, pl, claimed, i, th, seen) && ClaimsOK(h, t, pl, claimed)
    requires Running(th) && Matches(th) && Reads(h, th)
    ensures var o := Exec(h, th);
            && Advanced(i, h, t, pl, seen, o, t, pl, claimed + NewClaims(th, o))
            && Effect(h, t, th, o, t) && FlagEffect(h, t, claimed, pl, th, o, t) && RetireEffect(i, pl, o)
  {
    hide HeapOK, ThreadOK, ClaimsOK, Contents, Flagged, Advanced;
    QuietStep(i, h, t, pl, claimed, th, seen);
    assert claimed + {} == claimed;
  }

  lemma {:induction false} WriteCase(i: Tid, h: Heap, t: Tree, pl: map<Addr, Place>, claimed: set<Addr>, th: Thread,
      seen: set<Addr>)
      returns (t': Tree, pl': map<Addr, Place>)
    requires HeapOK(h, t, pl) && ThreadOK(h, t, pl, claimed, i, th, seen) && ClaimsOK(h, t, pl, claimed)
    requires Running(th) && Matches(th) && !Reads(h, th) && InHeap(h, th)
    ensures var o := Exec(h, th);
            && Advanced(i, h, t, pl, seen, o, t', pl', claimed + NewClaims(th, o))
            && Effect(h, t, th, o, t') && FlagEffect(h, t, claimed, pl, th, o, t') && RetireEffect(i, pl, o)
  {
    hide HeapOK, ThreadOK, ClaimsOK, Contents, Flagged, Advanced, KeysOf, Addrs, LeafPaths;
    t', pl' := t, pl;
    assert claimed + {} == claimed;
    if th.pc.Decide? {
      if h[th.pc.rec.leaf].key == Fin(th.job.k) {
        pl' := RefuseStep(i, h, t, pl, claimed, th, seen);
      } else {
        PrepareStep(i, h, t, pl, claimed, th, seen);
      }
    } else if th.pc.CasInsert? {
      t', pl' := LinkStep(i, h, t, pl, claimed, th, seen);
    } else if th.pc.CasFlag? {
      FlagStep(i, h, t, pl, claimed, th, seen);
    } else if th.pc.TagSibling? {
      TagStep(i, h, t, pl, claimed, th, seen);
    } else if th.pc.CasSplice? {
      t', pl' := UnlinkStep(i, h, t, pl, claimed, th, seen);
    } else {
      pl' := RetireStep(i, h, t, pl, claimed, th, seen);
    }
  }

  /** The pointers a step dereferences are in the heap: no thread faults. */
  ghost predicate InHeap(h: Heap, th: Thread) {
    && (th.pc.Decide? ==> th.pc.rec.leaf in h)
    && (th.pc.CasInsert? || th.pc.CasFlag? || th.pc.CasSplice? ==> th.pc.rec.parent in h)
    && (th.pc.CasSplice? ==> th.pc.rec.anc in h)
  }

  lemma {:induction false} PointersValid(i: Tid, h: Heap, t: Tree, pl: map<Addr, Place>, claimed: set<Addr>, th: Thread,
      seen: set<Addr>)
    requires ThreadOK(h, t, pl, claimed, i, th, seen)
    ensures InHeap(h, th) && !th.pc.Fault? && (th.job.NoJob? <==> th.pc.Idle?) && (Running(th) ==> Matches(th))
  {
  }

  lemma {:induction false} BeginCase(i: Tid, h: Heap, t: Tree, pl: map<Addr, Place>, claimed: set<Addr>, th: Thread,
      seen: set<Addr>, o: Out)
      returns (pl': map<Addr, Place>)
    requires HeapOK(h, t, pl) && ThreadOK(h, t, pl, claimed, i, th, seen) && Begins(h, th, o)
    ensures Advanced(i, h, t, pl, seen, o, t, pl', claimed + NewClaims(th, o))
    ensures Effect(h, t, th, o, t) && FlagEffect(h, t, claimed, pl, th, o, t) && RetireEffect(i, pl, o)
  {
    hide HeapOK, ThreadOK, Contents, Flagged, Advanced, Path, Addrs;
    PointersValid(i, h, t, pl, claimed, th, seen);
    assert claimed + {} == claimed;
    pl' := pl;
    if o.th.job.Insert? {
      pl' := BeginInsert(i, h, t, pl, claimed, th, seen, o);
    } else {
      BeginQuiet(i, h, t, pl, claimed, th, seen, o);
    }
  }

  /** Any step of any thread. */
  lemma {:induction false} StepLocal(i: Tid, h: Heap, t: Tree, pl: map<Addr, Place>, claimed: set<Addr>, th: Thread,
      seen: set<Addr>, o: Out)
      returns (t': Tree, pl': map<Addr, Place>)
    requires HeapOK(h, t, pl) && ThreadOK(h, t, pl, claimed, i, th, seen) && ClaimsOK(h, t, pl, claimed)
    requires Local(h, th, o)
    ensures Advanced(i, h, t, pl, seen, o, t', pl', claimed + NewClaims(th, o))
    ensures Effect(h, t, th, o, t') && FlagEffect(h, t, claimed, pl, th, o, t') && RetireEffect(i, pl, o)
  {
    hide HeapOK, ThreadOK, ClaimsOK, Contents, Flagged, Advanced, Exec, Effect, FlagEffect, RetireEffect, Begins, Reads,
      InHeap;
    PointersValid(i, h, t, pl, claimed, th, seen);
    t', pl' := t, pl;
    if Begins(h, th, o) {
      pl' := BeginCase(i, h, t, pl, claimed, th, seen, o);
    } else if Ends(h, th, o) {
      EndCase(i, h, t, pl, claimed, th, seen, o);
    } else if Reads(h, th) {
      QuietCase(i, h, t, pl, claimed, th, seen);
    } else {
      t', pl' := WriteCase(i, h, t, pl, claimed, th, seen);
    }
  }

  lemma {:induction false} EndCase(i: Tid, h: Heap, t: Tree, pl: map<Addr, Place>, claimed: set<Addr>, th: Thread,
      seen: set<Addr>, o: Out)
    requires HeapOK(h, t, pl) && ThreadOK(h, t, pl, claimed, i, th, seen) && Ends(h, th, o)
    ensures Advanced(i, h, t, pl, seen, o, t, pl, claimed + NewClaims(th, o))
    ensures Effect(h, t, th, o, t) && FlagEffect(h, t, claimed, pl, th, o, t) && RetireEffect(i, pl, o)
  {
    hide HeapOK, ThreadOK, Contents, Flagged, Advanced;
    assert claimed + {} == claimed;
    EndStep(i, h, t, pl, claimed, th, seen, o);
  }

  // ---------------------------------------------------------------- the invariant over all runs

  lemma {:induction false} OthersStable(s: State, s': State, t: Tree, i: Tid, o: Out, t': Tree)
    requires HeapOK(s.heap, t, s.place) && ThreadsOK(s, t) && ClaimsOK(s.heap, t, s.place, s.claimed)
    requires StepOf(s, s', i, o) && Advanced(i, s.heap, t, s.place, s.seen[i], o, t', s'.place, s'.claimed)
    ensures ThreadsOK(s', t')
  {
    hide HeapOK, Rely, ClaimsOK, ThreadOK, Watch, Local, Moved;
    assert s'.seen.Keys == s'.threads.Keys;
    forall u | u in s'.threads
      ensures ThreadOK(s'.heap, t', s'.place, s'.claimed, u, s'.threads[u], s'.seen[u])
    {
      if u != i {
        assert s'.threads[u] == s.threads[u];
        ThreadStable(i, s.heap, t, s.place, s'.heap, t', s'.place, s.claimed, s'.claimed, u, s.threads[u], s.seen[u]);
      }
    }
  }

  lemma {:induction false} ClaimsKept(i: Tid, h: Heap, t: Tree, pl: map<Addr, Place>, claimed: set<Addr>, th: Thread,
      o: Out, t': Tree, pl': map<Addr, Place>)
    requires PlacesOK(h, t, pl) && PlacesOK(o.heap, t', pl') && Rely(i, h, t, pl, o.heap, t', pl')
    requires ClaimsOK(h, t, pl, claimed) && FlagEffect(h, t, claimed, pl, th, o, t')
    ensures ClaimsOK(o.heap, t', pl', claimed + NewClaims(th, o))
  {
    hide Addrs, Flagged, PathsKept, Evolves;
    forall l | l in claimed + NewClaims(th, o)
      ensures l in o.heap && l in pl' && Public(pl'[l]) && (l in Addrs(t') ==> Flagged(o.heap, t', l))
    {
      assert l in h && l in pl && Public(pl[l]) && pl[l] != Private(i);
    }
  }

  /** A flagged leaf of the tree is in the tree. */
  lemma {:induction false} FlaggedIn(h: Heap, t: Tree, l: Addr)
    requires NodesOK(h) && Rep(h, ROOT, t) && Flagged(h, t, l)
    ensures l in Addrs(t)
  {
    var a, d :| a in Addrs(t) && a in h && h[a].At(d).flag && h[a].At(d).ptr == l;
    assert NodeOK(h, a);
    KidIn(h, ROOT, t, a, d);
  }

  /** A purging thread that is not about to reply keeps its job; one that is about to reply has lost its leaf. */
  lemma {:induction false} OwnerStays(h: Heap, t: Tree, pl: map<Addr, Place>, claimed: set<Addr>, i: Tid, th: Thread,
      seen: set<Addr>, l: Addr)
    requires ThreadOK(h, t, pl, claimed, i, th, seen) && th.job.Purge? && l == th.job.leaf && l in Addrs(t)
    ensures !th.pc.Return?
  {
  }

  lemma {:induction false} TargetsClaimed(s: State, t: Tree)
    requires ThreadsOK(s, t)
    ensures forall u :: u in s.threads && s.threads[u].job.Purge? ==> s.threads[u].job.leaf in s.claimed
  {
    hide SeenOK, PcOK, WalkOK, PrivateOK, PurgeSeek;
    forall u | u in s.threads && s.threads[u].job.Purge? ensures s.threads[u].job.leaf in s.claimed {
      assert ThreadOK(s.heap, t, s.place, s.claimed, u, s.threads[u], s.seen[u]);
    }
  }

  lemma {:induction false} OwnerOf(s: State, s': State, t: Tree, i: Tid, o: Out, t': Tree, l: Addr) returns (u: Tid)
    requires OwnersOK(s.heap, t, s.threads) && ThreadsOK(s, t) && ThreadsOK(s', t')
    requires NodesOK(s'.heap) && Rep(s'.heap, ROOT, t') && Flagged(s'.heap, t', l)
    requires StepOf(s, s', i, o) && FlagEffect(s.heap, t, s.claimed, s.place, s.threads[i], o, t')
    ensures u in s'.threads && s'.threads[u].job.Purge? && s'.threads[u].job.leaf == l && !s'.threads[u].pc.Return?
  {
    hide Rep, NodesOK, ThreadOK, Flagged, Watch, Moved, Local;
    FlaggedIn(s'.heap, t', l);
    if Flagged(s.heap, t, l) {
      u :| u in s.threads && s.threads[u].job.Purge? && s.threads[u].job.leaf == l && !s.threads[u].pc.Return?;
      if u == i {
        PointersValid(i, s.heap, t, s.place, s.claimed, s.threads[i], s.seen[i]);
        JobKept(s.heap, s.threads[i], o);
        OwnerStays(s'.heap, t', s'.place, s'.claimed, i, o.th, s'.seen[i], l);
      }
    } else {
      u := i;
    }
  }

  lemma {:induction false} OwnersKept(s: State, s': State, t: Tree, i: Tid, o: Out, t': Tree)
    requires OwnersOK(s.heap, t, s.threads) && ThreadsOK(s, t) && ThreadsOK(s', t')
    requires NodesOK(s'.heap) && Rep(s'.heap, ROOT, t')
    requires StepOf(s, s', i, o) && FlagEffect(s.heap, t, s.claimed, s.place, s.threads[i], o, t')
    ensures OwnersOK(s'.heap, t', s'.threads)
  {
    hide Rep, NodesOK, ThreadsOK, Flagged, Watch, Moved, Local;
    TargetsClaimed(s, t);
    forall l | Flagged(s'.heap, t', l)
      ensures exists u ::
        u in s'.threads && s'.threads[u].job.Purge? && s'.threads[u].job.leaf == l && !s'.threads[u].pc.Return?
    {
      var u := OwnerOf(s, s', t, i, o, t', l);
    }
  }

  lemma {:induction false} JobKept(h: Heap, th: Thread, o: Out)
    requires Local(h, th, o) && th.job.Purge? && !th.pc.Return? && !th.pc.Idle?
    ensures o.th.job == th.job
  {
  }

  lemma {:induction false} AccountsKept(s: State, s': State, i: Tid, o: Out)
    requires RetiredOK(s.place, s.retired) && PlacesOwned(s.place, s.threads) && s.place.Keys == s.heap.Keys
    requires StepOf(s, s', i, o) && NodesEvolve(i, s.heap, s.place, s'.heap, s'.place) && RetireEffect(i, s.place, o)
    requires s'.place.Keys == s'.heap.Keys
    requires forall a :: a in s'.place && s'.place[a].Retired? ==>
      a in o.retired || (a in s.place && s.place[a].Retired?)
    requires forall a :: a in o.retired ==> s'.place[a].Retired?
    ensures RetiredOK(s'.place, s'.retired) && PlacesOwned(s'.place, s'.threads)
  {
    hide Local, Moved, Watch, Evolves;
    OwnedKept(s, s', i, o);
    hide PlacesOwned;
    forall a | a in s'.retired ensures a in s'.place && s'.place[a].Retired? && s'.retired[a] == 1 {
      if a in s.retired {
        assert s.place[a].Retired? && a !in o.retired;
      }
    }
  }

  lemma {:induction false} OwnedKept(s: State, s': State, i: Tid, o: Out)
    requires PlacesOwned(s.place, s.threads) && s.place.Keys == s.heap.Keys && s'.place.Keys == s'.heap.Keys
    requires StepOf(s, s', i, o) && NodesEvolve(i, s.heap, s.place, s'.heap, s'.place)
    ensures PlacesOwned(s'.place, s'.threads)
  {
    hide Local, Moved, Watch, Evolves;
    forall a | a in s'.place && (s'.place[a].Private? || s'.place[a].Pending?) ensures s'.place[a].t in s'.threads {
      if a in s.heap && s.place[a] != Private(i) {
        assert PlaceStep(i, s.place[a], s'.place[a]);
      }
    }
  }

  lemma {:induction false} RetiredMoves(i: Tid, h: Heap, t: Tree, pl: map<Addr, Place>, o: Out, t': Tree)
    requires Rep(h, ROOT, t) && Rep(o.heap, ROOT, t') && PlacesOK(h, t, pl) && RetireEffect(i, pl, o)
    requires PlacesOK(o.heap, t', Moved(i, h, pl, o)) && NodesEvolve(i, h, pl, o.heap, Moved(i, h, pl, o))
    ensures var pl' := Moved(i, h, pl, o);
            && (forall a :: a in pl' && pl'[a].Retired? ==> a in o.retired || (a in pl && pl[a].Retired?))
            && (forall a :: a in o.retired ==> a in pl' && pl'[a].Retired?)
  {
    hide Rep, Evolves;
    ShapeIs(h, t);
    ShapeIs(o.heap, t');
    forall a | a in o.retired ensures a in Moved(i, h, pl, o) && Moved(i, h, pl, o)[a].Retired? {
      assert pl[a] == Pending(i) && a !in Addrs(t);
      assert a in h && PlaceStep(i, pl[a], Moved(i, h, pl, o)[a]);
    }
  }

  /** Every step of the system keeps the invariant. */
  lemma {:induction false} SystemStep(s: State, s': State, t: Tree, i: Tid, o: Out) returns (t': Tree)
    requires SystemOK(s, t) && StepOf(s, s', i, o)
    ensures SystemOK(s', t') && Effect(s.heap, t, s.threads[i], o, t')
    ensures FlagEffect(s.heap, t, s.claimed, s.place, s.threads[i], o, t')
    ensures Rely(i, s.heap, t, s.place, s'.heap, t', s'.place)
  {
    hide ThreadOK, ClaimsOK, Effect, FlagEffect, RetireEffect, OwnersOK, RetiredOK, PlacesOwned, Local, Watch, Moved;
    hide NodesOK, PlacesOK, NodesEvolve, PathsKept, FlagsKept, Sentinels, Rep, Distinct, Full, Ordered, Links, Splices,
      Flags;
    var th := s.threads[i];
    var pl': map<Addr, Place>;
    t', pl' := StepLocal(i, s.heap, t, s.place, s.claimed, th, s.seen[i], o);
    ClaimsSame(s, s', i, o);
    OthersStable(s, s', t, i, o, t');
    ClaimsKept(i, s.heap, t, s.place, s.claimed, th, o, t', pl');
    OwnersKept(s, s', t, i, o, t');
    RetiredMoves(i, s.heap, t, s.place, o, t');
    PlacesKeys(s.heap, t, s.place);
    PlacesKeys(s'.heap, t', s'.place);
    AccountsKept(s, s', i, o);
  }

  lemma {:induction false} ClaimsSame(s: State, s': State, i: Tid, o: Out)
    requires StepOf(s, s', i, o)
    ensures s'.claimed == s.claimed + NewClaims(s.threads[i], o)
  {
  }

  lemma {:induction false} PlacesKeys(h: Heap, t: Tree, pl: map<Addr, Place>)
    requires PlacesOK(h, t, pl)
    ensures pl.Keys == h.Keys
  {
  }
}
