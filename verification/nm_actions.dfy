/**
  The four ways in which the shared heap changes: a mark is set, a leaf is inserted, a path is spliced
  out, or private memory is written. Each keeps the heap invariant, satisfies `Rely`, and has an exact
  effect on the map.
 */
module NMActions {
  import opened NMShape
  import opened NMProtocol
  import opened NMInvariant

  // ---------------------------------------------------------------- steps that keep the tree

  /** The nodes differ at most in marks, and every flag is kept. */
  ghost predicate SameNode(n: Node, n': Node) {
    && n'.key == n.key && n'.value == n.value
    && n'.left.ptr == n.left.ptr && n'.right.ptr == n.right.ptr
    && (n.left.flag ==> n'.left.flag) && (n.right.flag ==> n'.right.flag)
  }

  lemma {:induction false} NodesFrame(h: Heap, h': Heap, t: Tree)
    requires ShapeOK(h, t)
    requires forall a :: a in h && a in Addrs(t) ==> a in h' && SameNode(h[a], h'[a])
    ensures ShapeOK(h', t) && Contents(h', t) == Contents(h, t)
    ensures forall k :: Path(h', t, k) == Path(h, t, k)
  {
    RepFrame(h, h', ROOT, t);
    ContentsFrame(h, h', t);
    forall k ensures Path(h', t, k) == Path(h, t, k) {
      PathFrame(h, h', t, k);
    }
    assert t.a in Addrs(t) && t.l.a in Addrs(t) && INF1 in Addrs(t.l) && INF2 in Addrs(t);
    assert INF0 in Addrs(t.l.l) && t.l.l.a in Addrs(t.l);
  }

  lemma {:induction false} PlacesSame(i: Tid, h: Heap, t: Tree, pl: map<Addr, Place>, o: Out)
    requires Rep(h, ROOT, t) && PlacesOK(h, t, pl) && Rep(o.heap, ROOT, t)
    requires o.heap.Keys == h.Keys && o.retired == {} && o.freed == {}
    ensures Moved(i, h, pl, o) == pl
  {
    ShapeIs(h, t);
    ShapeIs(o.heap, t);
  }

  lemma {:induction false} FlagsSame(h: Heap, h': Heap, t: Tree)
    requires forall a :: a in h && a in Addrs(t) ==> a in h' && SameNode(h[a], h'[a])
    ensures FlagsKept(h, t, h', t)
  {
    forall l | Flagged(h, t, l) ensures Flagged(h', t, l) {
      var a, d :| a in Addrs(t) && a in h && h[a].At(d).flag && h[a].At(d).ptr == l;
      assert h'[a].At(d).flag && h'[a].At(d).ptr == l;
    }
  }

  lemma {:induction false} MarkNodes(h: Heap, p: Addr, d: Dir, e: Edge, h': Heap)
    requires NodesOK(h) && p in h && e.ptr == h[p].At(d).ptr
    requires h' == h[p := h[p].Put(d, e)] && EdgesOK(h', p)
    ensures NodesOK(h')
  {
    forall a | a in h' ensures NodeOK(h', a) {
      assert NodeOK(h, a);
    }
  }

  lemma {:induction false} MarkPlaces(i: Tid, h: Heap, t: Tree, pl: map<Addr, Place>, p: Addr, d: Dir, e: Edge,
      h': Heap)
    requires PlacesOK(h, t, pl) && p in h && Public(pl[p])
    requires e.ptr == h[p].At(d).ptr && EdgeEvolves(h[p].At(d), e)
    requires h' == h[p := h[p].Put(d, e)]
    ensures PlacesOK(h', t, pl) && NodesEvolve(i, h, pl, h', pl)
  {
  }

  /** Setting a mark changes no pointer and so no path and no binding. */
  lemma {:induction false} MarkStep(i: Tid, h: Heap, t: Tree, pl: map<Addr, Place>, p: Addr, d: Dir, e: Edge, h': Heap)
    requires HeapOK(h, t, pl) && p in h && Public(pl[p])
    requires e.ptr == h[p].At(d).ptr && EdgeEvolves(h[p].At(d), e)
    requires h' == h[p := h[p].Put(d, e)] && EdgesOK(h', p)
    ensures HeapOK(h', t, pl) && Rely(i, h, t, pl, h', t, pl)
    ensures Contents(h', t) == Contents(h, t) && AllPathsKept(h, t, h', t)
  {
    assert forall a :: a in h && a in Addrs(t) ==> a in h' && SameNode(h[a], h'[a]);
    NodesFrame(h, h', t);
    MarkNodes(h, p, d, e, h');
    MarkPlaces(i, h, t, pl, p, d, e, h');
    FlagsSame(h, h', t);
  }

  lemma {:induction false} WriteNodes(h: Heap, p: Addr, n: Node, h': Heap)
    requires NodesOK(h) && p in h && !FiniteLeaf(h, p) && h' == h[p := n] && NodeOK(h', p)
    ensures NodesOK(h')
  {
    forall a | a in h' ensures NodeOK(h', a) {
      assert NodeOK(h, a);
    }
  }

  /** Writing to memory that is private to the writer. */
  lemma {:induction false} WritePlaces(i: Tid, h: Heap, t: Tree, pl: map<Addr, Place>, p: Addr, n: Node, h': Heap)
    requires PlacesOK(h, t, pl) && p in h && pl[p] == Private(i) && h' == h[p := n] && !n.left.Marked()
      && !n.right.Marked()
    ensures PlacesOK(h', t, pl) && NodesEvolve(i, h, pl, h', pl)
  {
    hide Addrs;
    assert PlacesOK(h', t, pl);
    hide PlacesOK;
  }

  lemma {:induction false} WriteOutside(h: Heap, t: Tree, pl: map<Addr, Place>, p: Addr, n: Node, h': Heap)
    requires PlacesOK(h, t, pl) && p in h && !pl[p].InTree? && h' == h[p := n]
    ensures forall a :: a in Addrs(t) && a in h ==> a in h' && h'[a] == h[a]
  {
    hide Addrs;
  }

  lemma {:induction false} PrivateWrite(i: Tid, h: Heap, t: Tree, pl: map<Addr, Place>, p: Addr, n: Node, h': Heap)
    requires HeapOK(h, t, pl) && p in h && pl[p] == Private(i) && !FiniteLeaf(h, p)
    requires h' == h[p := n] && NodeOK(h', p) && !n.left.Marked() && !n.right.Marked()
    ensures HeapOK(h', t, pl) && Rely(i, h, t, pl, h', t, pl)
    ensures Contents(h', t) == Contents(h, t) && AllPathsKept(h, t, h', t)
  {
    WritePlaces(i, h, t, pl, p, n, h');
    WriteOutside(h, t, pl, p, n, h');
    hide PlacesOK, NodesEvolve;
    NodesFrame(h, h', t);
    WriteNodes(h, p, n, h');
    FlagsSame(h, h', t);
  }

  /** Allocating a leaf and a blank internal node. */
  lemma {:induction false} Allocate(i: Tid, h: Heap, t: Tree, pl: map<Addr, Place>, nl: Addr, ni: Addr, k: int, v: V,
      h': Heap, pl': map<Addr, Place>)
    requires HeapOK(h, t, pl) && nl !in h && ni !in h && nl != ni && nl != NULL && ni != NULL
    requires h' == h[nl := Node(Fin(k), Some(v), Plain(NULL), Plain(NULL))][ni := Node(Inf, None, Plain(NULL),
      Plain(NULL))]
    requires pl' == pl[nl := Private(i)][ni := Private(i)]
    ensures HeapOK(h', t, pl') && Rely(i, h, t, pl, h', t, pl')
    ensures Contents(h', t) == Contents(h, t) && AllPathsKept(h, t, h', t)
  {
    assert forall a :: a in h && a in Addrs(t) ==> a in h' && SameNode(h[a], h'[a]);
    NodesFrame(h, h', t);
    AllocateNodes(h, nl, ni, k, v, h');
    AllocatePlaces(i, h, t, pl, nl, ni, k, v, h', pl');
    FlagsSame(h, h', t);
  }

  lemma {:induction false} AllocatePlaces(i: Tid, h: Heap, t: Tree, pl: map<Addr, Place>, nl: Addr, ni: Addr, k: int,
      v: V, h': Heap, pl': map<Addr, Place>)
    requires PlacesOK(h, t, pl) && nl !in h && ni !in h && nl != ni && Addrs(t) <= h.Keys
    requires h' == h[nl := Node(Fin(k), Some(v), Plain(NULL), Plain(NULL))][ni := Node(Inf, None, Plain(NULL),
      Plain(NULL))]
    requires pl' == pl[nl := Private(i)][ni := Private(i)]
    ensures PlacesOK(h', t, pl') && NodesEvolve(i, h, pl, h', pl')
  {
    forall a | a in h ensures a in h' && a in pl && a in pl' && h'[a] == h[a] && pl'[a] == pl[a] {
    }
    forall a | a in h' && a !in h
      ensures a in pl' && pl'[a] == Private(i) && a !in Addrs(t) && !h'[a].left.Marked() && !h'[a].right.Marked()
    {
    }
    assert pl'.Keys == h'.Keys;
    assert PlacesOK(h', t, pl');
  }

  lemma {:induction false} AllocateNodes(h: Heap, nl: Addr, ni: Addr, k: int, v: V, h': Heap)
    requires NodesOK(h) && nl !in h && ni !in h && nl != ni && nl != NULL && ni != NULL
    requires h' == h[nl := Node(Fin(k), Some(v), Plain(NULL), Plain(NULL))][ni := Node(Inf, None, Plain(NULL),
      Plain(NULL))]
    ensures NodesOK(h')
  {
    forall a | a in h' ensures NodeOK(h', a) {
      if a in h {
        assert NodeOK(h, a);
      }
    }
  }

  // ---------------------------------------------------------------- the tree below a replaced edge

  ghost function LeafTree(a: Addr): Tree {
    T(a, Nil, Nil)
  }

  /** What the sentinel shape says about the heap. */
  lemma {:induction false} SentinelNodes(h: Heap, t: Tree)
    requires Rep(h, ROOT, t) && Sentinels(h, t)
    ensures h[ROOT].left.ptr == SENT && h[ROOT].right.ptr == INF2 && h[SENT].right.ptr == INF1
    ensures h[INF0].Leaf() && h[INF1].Leaf() && h[INF2].Leaf()
    ensures InfKey(h, h[SENT].left.ptr) && h[SENT].left.ptr == t.l.l.a
    ensures t.l.l != T(INF0, Nil, Nil) ==> h[t.l.l.a].Internal() && h[t.l.l.a].right.ptr == INF0
  {
    var n := t.l.l;
    assert Rep(h, SENT, t.l) && Rep(h, INF2, t.r);
    assert Rep(h, n.a, n) && Rep(h, INF1, t.l.r);
    if n != T(INF0, Nil, Nil) {
      assert Rep(h, h[n.a].right.ptr, n.r);
    }
  }

  /** Replacing an edge below the sentinels keeps them in place. */
  lemma {:induction false} SentinelGraft(h: Heap, h': Heap, t: Tree, p: Addr, d: Dir, u: Tree)
    requires Sentinels(h, t) && Distinct(t) && p in Addrs(t) && p != ROOT && u.T?
    requires forall a :: a in Addrs(t) && InfKey(h, a) ==> InfKey(h', a)
    requires p in h && (h[p].key.Inf? ==> d == L) && p != INF0 && p != INF1 && p != INF2
    requires p == SENT ==> u == LeafTree(INF0) || (InfKey(h', u.a) && u.l.T? && u.r == LeafTree(INF0))
    ensures Sentinels(h', Graft(t, p, d, u))
  {
    var s, n := t.l, t.l.l;
    assert INF0 in Addrs(n) && INF1 in Addrs(s) && n.a in Addrs(s) && s.a in Addrs(t) && INF2 in Addrs(t);
    GraftMiss(t.r, p, d, u);
    assert Graft(t, p, d, u) == T(ROOT, Graft(s, p, d, u), t.r);
    if p != SENT {
      GraftMiss(s.r, p, d, u);
      assert Graft(s, p, d, u) == T(SENT, Graft(n, p, d, u), s.r);
      if p != n.a {
        GraftMiss(n.r, p, d, u);
        assert p in Addrs(n.l);
        assert Graft(n, p, d, u) == T(n.a, Graft(n.l, p, d, u), n.r);
      }
    }
  }

  /** Only the edge at `p` differs, and it was unmarked. */
  ghost predicate EdgeSet(h: Heap, h': Heap, p: Addr, d: Dir, e: Edge) {
    && p in h && h' == h[p := h[p].Put(d, e)]
    && !h[p].At(d).Marked() && !e.tag && h[p].At(d).ptr != NULL && e.ptr != NULL
  }

  lemma {:induction false} SetNodes(h: Heap, h': Heap, p: Addr, d: Dir, e: Edge)
    requires NodesOK(h) && EdgeSet(h, h', p, d, e) && (e.flag ==> FiniteLeaf(h, e.ptr))
    ensures NodesOK(h')
  {
    forall a | a in h' ensures NodeOK(h', a) {
      assert NodeOK(h, a);
    }
  }

  /** The shape after an edge of the tree has been replaced. */
  lemma {:induction false} SetShape(h: Heap, h': Heap, t: Tree, p: Addr, d: Dir, e: Edge, u: Tree)
    requires ShapeOK(h, t) && EdgeSet(h, h', p, d, e) && p in Addrs(t) && Sub(t, p).T? && Sub(t, p).l.T?
    requires Rep(h', e.ptr, u) && Distinct(u) && Full(u) && Ordered(h, u) && u.T?
    requires Addrs(u) !! (Addrs(t) - Addrs(Sub(t, p).Kid(d)))
    requires forall k :: k in Contents(h, u) ==> p in Path(h, t, k) && Goes(h, p, k) == d
    requires Sentinels(h', Graft(t, p, d, u))
    ensures ShapeOK(h', Graft(t, p, d, u))
    ensures Addrs(Graft(t, p, d, u)) == Addrs(t) - Addrs(Sub(t, p).Kid(d)) + Addrs(u)
    ensures Contents(h', Graft(t, p, d, u)) == Contents(h, t) - Contents(h, Sub(t, p).Kid(d)).Keys + Contents(h, u)
    ensures p in Addrs(Graft(t, p, d, u))
  {
    hide Sentinels, Path, Full, Ordered, Distinct, Graft, Sub, Contents;
    GraftRep(h, h', ROOT, t, p, d, e, u);
    GraftAddrs(t, p, d, u);
    GraftFull(t, p, d, u);
    GraftContents(h, ROOT, t, p, d, u);
    ContentsFrame(h, h', Graft(t, p, d, u));
  }

  /** The search paths after an edge of the tree has been replaced. */
  lemma {:induction false} SetPath(h: Heap, h': Heap, t: Tree, p: Addr, d: Dir, e: Edge, u: Tree, k: int)
    requires Rep(h, ROOT, t) && Distinct(t) && EdgeSet(h, h', p, d, e) && p in Addrs(t)
    ensures Path(h', u, k) == Path(h, u, k)
    ensures p in Path(h, t, k) && Goes(h, p, k) == d ==>
              Path(h', Graft(t, p, d, u), k) == Path(h, t, k) - Addrs(Sub(t, p).Kid(d)) + Path(h, u, k)
    ensures !(p in Path(h, t, k) && Goes(h, p, k) == d) ==> Path(h', Graft(t, p, d, u), k) == Path(h, t, k)
  {
    GraftPath(h, ROOT, t, p, d, u, k);
    PathFrame(h, h', Graft(t, p, d, u), k);
    PathFrame(h, h', u, k);
  }

  // ---------------------------------------------------------------- insert

  /** The subtree that an insert links in. */
  ghost function InsertTree(h: Heap, leaf: Addr, k: int, nl: Addr, ni: Addr): Tree
    requires leaf in h
  {
    if Above(h[leaf].key, k) then T(ni, LeafTree(nl), LeafTree(leaf)) else T(ni, LeafTree(leaf), LeafTree(nl))
  }

  /** What an insert's CAS finds when it succeeds. */
  ghost predicate InsertReady(i: Tid, h: Heap, t: Tree, pl: map<Addr, Place>, p: Addr, d: Dir, leaf: Addr, k: int, v: V,
                              nl: Addr, ni: Addr) {
    && p in Path(h, t, k) && p in h && d == Goes(h, p, k) && h[p].Internal() && h[p].At(d) == Plain(leaf)
    && leaf in h && h[leaf].Leaf() && h[leaf].key != Fin(k)
    && nl in h && ni in h && nl in pl && ni in pl && nl != ni && pl[nl] == Private(i) && pl[ni] == Private(i)
    && h[nl] == Node(Fin(k), Some(v), Plain(NULL), Plain(NULL))
    && h[ni] == NewInternal(h, leaf, k, nl)
  }

  lemma {:induction false} InsertSpot(h: Heap, t: Tree, p: Addr, d: Dir, leaf: Addr, k: int)
    requires Rep(h, ROOT, t) && p in Path(h, t, k) && p in h && h[p].Internal() && h[p].At(d).ptr == leaf
    requires leaf in h && h[leaf].Leaf()
    ensures p in Addrs(t) && leaf in Addrs(t) && Sub(t, p).T? && Sub(t, p).l.T? && Sub(t, p).Kid(d) == LeafTree(leaf)
  {
    PathIn(h, t, k);
    SubRep(h, ROOT, t, p);
    KidIn(h, ROOT, t, p, d);
    assert Rep(h, leaf, LeafTree(leaf));
    RepUnique(h, leaf, Sub(t, p).Kid(d), LeafTree(leaf));
  }

  lemma {:induction false} InsertSub(h: Heap, h': Heap, leaf: Addr, k: int, v: V, nl: Addr, ni: Addr)
    requires leaf in h && h[leaf].Leaf() && h[leaf].key != Fin(k) && leaf != NULL
    requires nl in h && ni in h && nl != ni && nl != leaf && ni != leaf && nl != NULL && ni != NULL
    requires h[nl] == Node(Fin(k), Some(v), Plain(NULL), Plain(NULL)) && h[ni] == NewInternal(h, leaf, k, nl)
    requires nl in h' && ni in h' && leaf in h' && h'[nl] == h[nl] && h'[ni] == h[ni] && h'[leaf] == h[leaf]
    ensures var u := InsertTree(h, leaf, k, nl, ni);
            && Rep(h', ni, u) && Distinct(u) && Full(u) && Ordered(h, u) && Addrs(u) == {leaf, nl, ni}
            && Contents(h, u) == Binding(h, leaf)[k := v]
  {
    var u := InsertTree(h, leaf, k, nl, ni);
    assert Rep(h', nl, LeafTree(nl)) && Rep(h', leaf, LeafTree(leaf));
    assert Contents(h, LeafTree(nl)) == map[k := v];
    assert Contents(h, LeafTree(leaf)) == Binding(h, leaf);
  }

  lemma {:induction false} InsertSentinels(h: Heap, t: Tree, p: Addr, d: Dir, leaf: Addr, k: int, nl: Addr, ni: Addr,
      h': Heap)
    requires Rep(h, ROOT, t) && Distinct(t) && Sentinels(h, t) && p in Addrs(t) && leaf in h && ni in h && nl in h
    requires d == Goes(h, p, k) && h[p].Internal() && h[p].At(d).ptr == leaf && h[leaf].Leaf()
    requires h[ni] == NewInternal(h, leaf, k, nl) && p != ni && h' == h[p := h[p].Put(d, Plain(ni))]
    ensures Sentinels(h', Graft(t, p, d, InsertTree(h, leaf, k, nl, ni)))
  {
    SentinelNodes(h, t);
    SentinelGraft(h, h', t, p, d, InsertTree(h, leaf, k, nl, ni));
  }

  lemma {:induction false} InsertKeys(h: Heap, t: Tree, p: Addr, d: Dir, leaf: Addr, k: int, v: V, u: Tree)
    requires Rep(h, ROOT, t) && Distinct(t) && Full(t) && Ordered(h, t)
    requires p in Path(h, t, k) && p in Addrs(t) && d == Goes(h, p, k) && h[p].At(d).ptr == leaf
    requires leaf in h && h[leaf].Leaf() && h[leaf].key != Fin(k) && Sub(t, p).Kid(d) == LeafTree(leaf) && leaf != NULL
    requires Contents(h, u) == Binding(h, leaf)[k := v]
    ensures forall x :: x in Contents(h, u) ==> p in Path(h, t, x) && Goes(h, p, x) == d
    ensures k !in Contents(h, t)
    ensures Contents(h, t) - Contents(h, Sub(t, p).Kid(d)).Keys + Contents(h, u) == Contents(h, t)[k := v]
  {
    hide Rep, Distinct, Full, Ordered, Path, Contents, Binding;
    LeafContents(h, leaf);
    forall x | x in Binding(h, leaf)
      ensures x in Contents(h, t) && p in Path(h, t, x) && Goes(h, p, x) == d
        && Contents(h, t)[x] == Binding(h, leaf)[x]
    {
      KeysThrough(h, ROOT, t, p, d, x);
    }
    PathStep(h, ROOT, t, k, p);
    LeafAnswers(h, ROOT, t, k, leaf);
    SwapBinding(Contents(h, t), Binding(h, leaf), k, v);
  }

  lemma {:induction false} LeafContents(h: Heap, leaf: Addr)
    ensures Contents(h, LeafTree(leaf)) == Binding(h, leaf)
  {
  }

  /** Taking part of a map out and putting it back with one more binding adds that binding. */
  lemma {:induction false} SwapBinding(m: map<int, V>, b: map<int, V>, k: int, v: V)
    requires forall x :: x in b ==> x in m && m[x] == b[x]
    ensures m - b.Keys + b[k := v] == m[k := v]
  {
    var l, r := m - b.Keys + b[k := v], m[k := v];
    forall x ensures x in l <==> x in r {
      if x in b {
        assert x in m;
      }
    }
    forall x | x in l ensures l[x] == r[x] {
    }
  }

  lemma {:induction false} InsertRely(h: Heap, t: Tree, p: Addr, d: Dir, leaf: Addr, u: Tree, ni: Addr, h': Heap)
    requires Rep(h, ROOT, t) && Distinct(t) && p in Addrs(t) && EdgeSet(h, h', p, d, Plain(ni))
    requires leaf in h && h[leaf].Leaf() && Sub(t, p).Kid(d) == LeafTree(leaf)
    requires Addrs(t) <= Addrs(Graft(t, p, d, u))
    ensures PathsKept(h, t, h', Graft(t, p, d, u)) && FlagsKept(h, t, h', Graft(t, p, d, u))
  {
    var t' := Graft(t, p, d, u);
    forall k, a | a in Path(h, t, k) && a in h && h[a].Internal() && a in Addrs(t') ensures a in Path(h', t', k) {
      SetPath(h, h', t, p, d, Plain(ni), u, k);
      assert Addrs(LeafTree(leaf)) == {leaf};
    }
    forall l | Flagged(h, t, l) && l in Addrs(t') ensures Flagged(h', t', l) {
      var a, e :| a in Addrs(t) && a in h && h[a].At(e).flag && h[a].At(e).ptr == l;
      assert a in Addrs(t') && a in h' && h'[a].At(e) == h[a].At(e);
    }
  }

  lemma {:induction false} InsertPlaces(i: Tid, h: Heap, t: Tree, pl: map<Addr, Place>, p: Addr, d: Dir, nl: Addr,
      ni: Addr, h': Heap, t': Tree, pl': map<Addr, Place>)
    requires PlacesOK(h, t, pl) && EdgeSet(h, h', p, d, Plain(ni)) && pl[p].InTree?
    requires nl in h && ni in h && pl[nl] == Private(i) && pl[ni] == Private(i)
    requires Addrs(t') == Addrs(t) + {nl, ni} && pl' == pl[nl := InTree][ni := InTree]
    ensures PlacesOK(h', t', pl') && NodesEvolve(i, h, pl, h', pl')
  {
    InsertStays(i, h, t, pl, p, d, nl, ni, h', t', pl');
    hide PlacesOK;
    InsertEvolves(i, h, pl, p, d, nl, ni, h', pl');
  }

  lemma {:induction false} InsertStays(i: Tid, h: Heap, t: Tree, pl: map<Addr, Place>, p: Addr, d: Dir, nl: Addr,
      ni: Addr, h': Heap, t': Tree, pl': map<Addr, Place>)
    requires PlacesOK(h, t, pl) && EdgeSet(h, h', p, d, Plain(ni)) && pl[p].InTree?
    requires nl in h && ni in h && pl[nl] == Private(i) && pl[ni] == Private(i)
    requires Addrs(t') == Addrs(t) + {nl, ni} && pl' == pl[nl := InTree][ni := InTree]
    ensures PlacesOK(h', t', pl') && pl.Keys == h.Keys
  {
    hide Addrs;
  }

  lemma {:induction false} InsertEvolves(i: Tid, h: Heap, pl: map<Addr, Place>, p: Addr, d: Dir, nl: Addr, ni: Addr,
                                         h': Heap, pl': map<Addr, Place>)
    requires pl.Keys == h.Keys && EdgeSet(h, h', p, d, Plain(ni)) && pl[p].InTree?
    requires nl in h && ni in h && pl[nl] == Private(i) && pl[ni] == Private(i) && pl' == pl[nl := InTree][ni := InTree]
    ensures NodesEvolve(i, h, pl, h', pl')
  {
  }

  lemma {:induction false} InsertShape(h: Heap, t: Tree, p: Addr, d: Dir, leaf: Addr, k: int, v: V, nl: Addr, ni: Addr,
      h': Heap)
    requires ShapeOK(h, t) && p in Path(h, t, k) && p in Addrs(t) && h[p].Internal() && h[p].At(d) == Plain(leaf)
    requires d == Goes(h, p, k) && leaf in h && h[leaf].Leaf() && h[leaf].key != Fin(k) && leaf != NULL && ni != NULL
      && nl != NULL
    requires nl in h && ni in h && nl != ni && nl !in Addrs(t) && ni !in Addrs(t) && leaf in Addrs(t)
    requires h[nl] == Node(Fin(k), Some(v), Plain(NULL), Plain(NULL)) && h[ni] == NewInternal(h, leaf, k, nl)
    requires h' == h[p := h[p].Put(d, Plain(ni))]
    ensures var t' := Graft(t, p, d, InsertTree(h, leaf, k, nl, ni));
            && ShapeOK(h', t') && Addrs(t') == Addrs(t) + {nl, ni}
            && Contents(h', t') == Contents(h, t)[k := v]
    ensures k !in Contents(h, t) && Sub(t, p).Kid(d) == LeafTree(leaf) && leaf != ROOT && p != leaf
  {
    hide Rep, Distinct, Full, Ordered, Contents, Path, Sentinels, Graft, NewInternal, InsertTree, Binding;
    SentinelNodes(h, t);
    InsertSpot(h, t, p, d, leaf, k);
    var u := InsertTree(h, leaf, k, nl, ni);
    InsertSub(h, h', leaf, k, v, nl, ni);
    InsertSentinels(h, t, p, d, leaf, k, nl, ni, h');
    InsertKeys(h, t, p, d, leaf, k, v, u);
    assert Addrs(LeafTree(leaf)) == {leaf};
    SetShape(h, h', t, p, d, Plain(ni), u);
  }

  /** A successful insert CAS links a leaf for an absent key, and changes nothing else in the map. */
  lemma {:induction false} InsertStep(i: Tid, h: Heap, t: Tree, pl: map<Addr, Place>, p: Addr, d: Dir, leaf: Addr,
      k: int, v: V, nl: Addr, ni: Addr, h': Heap, pl': map<Addr, Place>) returns (t': Tree)
    requires HeapOK(h, t, pl) && InsertReady(i, h, t, pl, p, d, leaf, k, v, nl, ni)
    requires h' == h[p := h[p].Put(d, Plain(ni))] && pl' == pl[nl := InTree][ni := InTree]
    ensures HeapOK(h', t', pl') && Rely(i, h, t, pl, h', t', pl')
    ensures k !in Contents(h, t) && Contents(h', t') == Contents(h, t)[k := v]
    ensures Addrs(t') == Addrs(t) + {nl, ni}
    ensures forall l :: Flagged(h', t', l) ==> Flagged(h, t, l)
    ensures LeafPaths(h, t, leaf, k, h', t')
  {
    hide Rep, Distinct, Full, Ordered, Sentinels, NodesEvolve, PathsKept, FlagsKept, LeafPaths, Graft, Sub, Contents;
    hide Path, NewInternal, InsertTree, Flagged;
    InsertSpot(h, t, p, d, leaf, k);
    t' := Graft(t, p, d, InsertTree(h, leaf, k, nl, ni));
    InsertShape(h, t, p, d, leaf, k, v, nl, ni, h');
    SetNodes(h, h', p, d, Plain(ni));
    InsertPlaces(i, h, t, pl, p, d, nl, ni, h', t', pl');
    InsertRely(h, t, p, d, leaf, InsertTree(h, leaf, k, nl, ni), ni, h');
    InsertFlags(h, t, p, d, leaf, k, nl, ni, h', t');
    InsertPaths(h, t, p, d, leaf, k, nl, ni, h');
  }

  /** Where the searches that used to end in the old leaf go now. */
  lemma {:induction false} InsertPaths(h: Heap, t: Tree, p: Addr, d: Dir, leaf: Addr, k: int, nl: Addr, ni: Addr,
      h': Heap)
    requires Rep(h, ROOT, t) && Distinct(t) && p in Addrs(t) && EdgeSet(h, h', p, d, Plain(ni))
      && h[p].At(d).ptr == leaf
    requires leaf in h && leaf in Addrs(t) && h[leaf].Leaf() && leaf != NULL && leaf != ROOT
      && Sub(t, p).Kid(d) == LeafTree(leaf) && p != leaf
    requires nl in h && ni in h && h[ni] == NewInternal(h, leaf, k, nl) && h[nl].key == Fin(k) && nl != leaf
      && ni != leaf
    ensures LeafPaths(h, t, leaf, k, h', Graft(t, p, d, InsertTree(h, leaf, k, nl, ni)))
  {
    var u := InsertTree(h, leaf, k, nl, ni);
    forall x ensures Path(h, u, x) == {ni, if Stays(h[leaf].key, k, x) then leaf else nl} {
      assert Path(h, LeafTree(leaf), x) == {leaf} && Path(h, LeafTree(nl), x) == {nl};
    }
    assert Addrs(LeafTree(leaf)) == {leaf};
    forall x, a | a in Path(h, t, x) && a != leaf ensures a in Path(h', Graft(t, p, d, u), x) {
      SetPath(h, h', t, p, d, Plain(ni), u, x);
    }
    forall x | leaf in Path(h, t, x)
      ensures leaf in Path(h', Graft(t, p, d, u), x) <==> Stays(h[leaf].key, k, x)
    {
      SetPath(h, h', t, p, d, Plain(ni), u, x);
      LeafParentOnPath(h, t, p, d, leaf, x);
    }
  }

  /** A search that ends in a leaf came through the leaf's parent. */
  lemma {:induction false} LeafParentOnPath(h: Heap, t: Tree, p: Addr, d: Dir, leaf: Addr, k: int)
    requires Rep(h, ROOT, t) && Distinct(t) && p in Addrs(t) && h[p].At(d).ptr == leaf && leaf != NULL
    requires leaf in Path(h, t, k) && leaf != ROOT
    ensures p in Path(h, t, k) && Goes(h, p, k) == d
  {
    var q := PathParent(h, ROOT, t, k, leaf);
    PathIn(h, t, k);
    OneParent(h, ROOT, t, p, d, q, Goes(h, q, k));
  }

  lemma {:induction false} PathParent(h: Heap, a: Addr, t: Tree, k: int, x: Addr) returns (q: Addr)
    requires Rep(h, a, t) && x in Path(h, t, k) && x != a
    ensures q in Path(h, t, k) && q in h && h[q].At(Goes(h, q, k)).ptr == x
    decreases t
  {
    var g := Goes(h, t.a, k);
    if h[a].At(g).ptr == x {
      q := a;
    } else {
      q := PathParent(h, h[a].At(g).ptr, t.Kid(g), k, x);
    }
  }

  lemma {:induction false} InsertFlags(h: Heap, t: Tree, p: Addr, d: Dir, leaf: Addr, k: int, nl: Addr, ni: Addr,
      h': Heap, t': Tree)
    requires EdgeSet(h, h', p, d, Plain(ni)) && Addrs(t') == Addrs(t) + {nl, ni} && leaf in h
    requires nl in h && ni in h && h[ni] == NewInternal(h, leaf, k, nl) && h[nl].Leaf() && p != nl && p != ni
    requires !h[nl].left.flag && !h[nl].right.flag
    ensures forall l :: Flagged(h', t', l) ==> Flagged(h, t, l)
  {
    forall l | Flagged(h', t', l) ensures Flagged(h, t, l) {
      var a, e :| a in Addrs(t') && a in h' && h'[a].At(e).flag && h'[a].At(e).ptr == l;
      assert a in Addrs(t) && h'[a].At(e) == h[a].At(e);
    }
  }

  // ---------------------------------------------------------------- splice

  /** The finite keys held by a set of leaves. */
  ghost function KeysOf(h: Heap, s: set<Addr>): set<int> {
    set a | a in s && FiniteLeaf(h, a) :: h[a].key.k
  }

  /** The nodes that go when `u` is replaced by its subtree `w` are frozen nodes and flagged leaves. */
  ghost predicate Doomed(h: Heap, u: Tree, w: Tree) {
    forall a :: a in Addrs(u) && a !in Addrs(w) ==>
      a in h && ((h[a].Internal() && h[a].Frozen()) || (FiniteLeaf(h, a) && Flagged(h, u, a)))
  }

  /** One node of the path: its tagged edge goes on, and the other edge ends in a flagged finite leaf. */
  lemma {:induction false} PathNode(h: Heap, u: Tree, d: Dir) returns (x: Addr)
    requires NodesOK(h) && u.T? && Rep(h, u.a, u) && Distinct(u) && Full(u) && Ordered(h, u) && h[u.a].At(d).tag
    ensures h[u.a].Internal() && h[u.a].Frozen() && h[u.a].At(Other(d)).flag && x == h[u.a].At(Other(d)).ptr
    ensures FiniteLeaf(h, x) && u.Kid(Other(d)) == LeafTree(x) && u.Kid(d).T?
    ensures Addrs(u) == {u.a, x} + Addrs(u.Kid(d)) && x !in Addrs(u.Kid(d)) && u.a !in Addrs(u.Kid(d))
    ensures h[x].key.k !in Contents(h, u.Kid(d))
    ensures Contents(h, u.Kid(d)) == Contents(h, u) - {h[x].key.k}
  {
    assert NodeOK(h, u.a);
    x := h[u.a].At(Other(d)).ptr;
    assert NodeOK(h, x);
    assert Rep(h, x, u.Kid(Other(d))) && Rep(h, h[u.a].At(d).ptr, u.Kid(d));
    RepUnique(h, x, u.Kid(Other(d)), LeafTree(x));
    assert Contents(h, LeafTree(x)) == Binding(h, x) == map[h[x].key.k := h[x].value.value];
    assert h[x].key.k in Contents(h, u.Kid(Other(d)));
    assert Goes(h, u.a, h[x].key.k) == Other(d);
    assert Contents(h, u) == Contents(h, u.l) + Contents(h, u.r);
  }

  /** Lifting a collapse of a child to the node above it. */
  lemma {:induction false} PathLift(h: Heap, u: Tree, d: Dir, w: Tree, x: Addr)
    requires u.T? && Rep(h, u.a, u) && h[u.a].Internal() && h[u.a].Frozen() && h[u.a].At(Other(d)).flag
    requires FiniteLeaf(h, x) && x == h[u.a].At(Other(d)).ptr && Addrs(w) <= Addrs(u.Kid(d))
    requires Addrs(u) == {u.a, x} + Addrs(u.Kid(d)) && x !in Addrs(u.Kid(d)) && u.a !in Addrs(u.Kid(d))
    requires Doomed(h, u.Kid(d), w)
    ensures Doomed(h, u, w)
    ensures KeysOf(h, Addrs(u) - Addrs(w)) == {h[x].key.k} + KeysOf(h, Addrs(u.Kid(d)) - Addrs(w))
  {
    assert Flagged(h, u, x);
    forall a | a in Addrs(u.Kid(d)) && a !in Addrs(w) && FiniteLeaf(h, a) ensures Flagged(h, u, a) {
      var b, e :| b in Addrs(u.Kid(d)) && b in h && h[b].At(e).flag && h[b].At(e).ptr == a;
      assert b in Addrs(u);
    }
    assert Addrs(u) - Addrs(w) == {u.a, x} + (Addrs(u.Kid(d)) - Addrs(w));
    assert !FiniteLeaf(h, u.a);
  }

  /** The node above a collapsing child collapses too. */
  lemma {:induction false} CollapseUp(h: Heap, u: Tree, d: Dir, sib: Addr)
    requires NodesOK(h) && u.T? && Rep(h, u.a, u) && Distinct(u) && Full(u) && Ordered(h, u) && h[u.a].At(d).tag
    requires sib in Addrs(u.Kid(d)) && Collapses(h, u.Kid(d), sib)
    ensures sib in Addrs(u) && sib != u.a && Sub(u, sib) == Sub(u.Kid(d), sib) && u.a !in Addrs(Sub(u, sib))
    ensures Addrs(u.Kid(d)) <= Addrs(u)
    ensures Collapses(h, u, sib) && h[u.a].Internal()
  {
    hide NodesOK, Ordered, Full, Doomed, KeysOf;
    var x := PathNode(h, u, d);
    var v, w := u.Kid(d), Sub(u.Kid(d), sib);
    SubRep(h, h[u.a].At(d).ptr, v, sib);
    PathLift(h, u, d, w, x);
    assert Contents(h, u) - {h[x].key.k} - KeysOf(h, Addrs(v) - Addrs(w))
      == Contents(h, u) - KeysOf(h, Addrs(u) - Addrs(w));
  }

  /** Replacing `u` by its subtree at `sib` loses frozen nodes, flagged leaves and the bindings of those leaves. */
  ghost predicate Collapses(h: Heap, u: Tree, sib: Addr) {
    && Doomed(h, u, Sub(u, sib))
    && Contents(h, Sub(u, sib)) == Contents(h, u) - KeysOf(h, Addrs(u) - Addrs(Sub(u, sib)))
  }

  /** A chain of tagged edges collapses to the sibling at its end. */
  lemma {:induction false} ChainCollapses(h: Heap, k: int, c: seq<Addr>, side: Dir, u: Tree, sib: Addr)
    requires NodesOK(h) && |c| > 0 && TagChain(h, k, c) && Rep(h, c[0], u) && Distinct(u) && Full(u) && Ordered(h, u)
    requires c[|c| - 1] in h && h[c[|c| - 1]].At(side).tag && h[c[|c| - 1]].At(side).ptr == sib
    ensures u.T? && u.a == c[0] && sib in Addrs(u) && sib != c[0] && c[0] !in Addrs(Sub(u, sib))
    ensures c[|c| - 1] in Addrs(u) - Addrs(Sub(u, sib))
    ensures Collapses(h, u, sib) && h[c[0]].Internal()
    decreases |c|
  {
    assert c[0] in h;
    if |c| == 1 {
      var x := PathNode(h, u, side);
      var v := u.Kid(side);
      assert Rep(h, sib, v) && Sub(v, sib) == v;
      assert KeysOf(h, Addrs(v) - Addrs(v)) == {};
      CollapseUp(h, u, side, sib);
    } else {
      var d := Goes(h, c[0], k);
      assert Onward(h, c[0], k).tag;
      ChainTail(h, k, c);
      ChainCollapses(h, k, c[1..], side, u.Kid(d), sib);
      CollapseUp(h, u, d, sib);
    }
  }

  lemma {:induction false} ChainHead(h: Heap, k: int, c: seq<Addr>)
    requires |c| > 0 && TagChain(h, k, c)
    ensures c[0] in h && (|c| > 1 ==> Onward(h, c[0], k).tag)
  {
  }

  lemma {:induction false} ChainTail(h: Heap, k: int, c: seq<Addr>)
    requires |c| > 1 && TagChain(h, k, c)
    ensures TagChain(h, k, c[1..]) && c[1..][|c| - 2] == c[|c| - 1] && Onward(h, c[0], k).ptr == c[1]
  {
    forall j | 0 <= j < |c[1..]| - 1
      ensures Onward(h, c[1..][j], k).tag && Onward(h, c[1..][j], k).ptr == c[1..][j + 1]
    {
      assert c[1..][j] == c[j + 1];
    }
  }

  /** Neither `r.left` nor `s.left` is ever marked. */
  lemma {:induction false} SentinelsUnmarked(h: Heap, t: Tree)
    requires NodesOK(h) && Rep(h, ROOT, t) && Sentinels(h, t)
    ensures !h[ROOT].left.Marked() && !h[SENT].left.Marked()
    ensures t.l.l != LeafTree(INF0) ==> !h[t.l.l.a].left.tag && !h[t.l.l.a].right.flag
  {
    SentinelNodes(h, t);
    assert NodeOK(h, ROOT) && NodeOK(h, SENT);
    assert Rep(h, SENT, t.l);
    assert h[SENT].Internal();
    if t.l.l != LeafTree(INF0) {
      assert NodeOK(h, t.l.l.a);
    }
  }

  /** What a splice CAS finds when it succeeds. */
  ghost predicate SpliceReady(h: Heap, t: Tree, p: Addr, d: Dir, k: int, c: seq<Addr>, side: Dir, sib: Addr,
      flag: bool) {
    && p in Addrs(t) && p in h && d == Goes(h, p, k) && h[p].Internal()
    && |c| > 0 && TagChain(h, k, c) && h[p].At(d) == Plain(c[0])
    && c[|c| - 1] in h && h[c[|c| - 1]].At(side) == Edge(sib, flag, true)
  }

  /** The successor's subtree collapses. */
  lemma {:induction false} SpliceCollapse(h: Heap, t: Tree, p: Addr, d: Dir, k: int, c: seq<Addr>, side: Dir, sib: Addr,
      flag: bool)
    requires NodesOK(h) && Rep(h, ROOT, t) && Distinct(t) && Full(t) && Ordered(h, t)
    requires SpliceReady(h, t, p, d, k, c, side, sib, flag)
    ensures Collapses(h, Sub(t, p).Kid(d), sib) && Sub(Sub(t, p).Kid(d), sib) == Sub(t, sib)
    ensures Doomed(h, Sub(t, p).Kid(d), Sub(t, sib))
  {
    SubRep(h, ROOT, t, p);
    var q := Sub(t, p);
    ChainCollapses(h, k, c, side, q.Kid(d), sib);
    assert sib in Addrs(q);
    SubSub(t, p, sib);
  }

  /** Where the parts of a splice are in the tree. */
  lemma {:induction false} SpliceSub(h: Heap, t: Tree, p: Addr, d: Dir, k: int, c: seq<Addr>, side: Dir, sib: Addr,
      flag: bool)
    requires NodesOK(h) && Rep(h, ROOT, t) && Distinct(t) && Full(t) && Ordered(h, t)
    requires SpliceReady(h, t, p, d, k, c, side, sib, flag)
    ensures Sub(t, p).T? && Sub(t, p).l.T? && Rep(h, c[0], Sub(t, p).Kid(d)) && Distinct(Sub(t, p).Kid(d))
    ensures p !in Addrs(Sub(t, p).Kid(d)) && Addrs(Sub(t, p).Kid(d)) <= Addrs(t)
    ensures sib in Addrs(Sub(t, p).Kid(d)) && sib in Addrs(t)
      && c[|c| - 1] in Addrs(Sub(t, p).Kid(d)) - Addrs(Sub(t, sib))
    ensures Sub(Sub(t, p).Kid(d), sib) == Sub(t, sib) && sib in Addrs(Sub(t, sib))
    ensures var w := Sub(t, sib);
            w.T? && Rep(h, sib, w) && Distinct(w) && Full(w) && Ordered(h, w) && Addrs(w) <= Addrs(Sub(t, p).Kid(d))
    ensures h[c[0]].Internal() && h[c[0]].Frozen()
  {
    SubRep(h, ROOT, t, p);
    var q := Sub(t, p);
    var u := q.Kid(d);
    assert Rep(h, c[0], u) && Distinct(u) && Full(u) && Ordered(h, u);
    ChainCollapses(h, k, c, side, u, sib);
    assert sib in Addrs(q);
    SubSub(t, p, sib);
    assert Sub(q, sib) == Sub(u, sib);
    SubRep(h, c[0], u, sib);
    assert c[0] in Addrs(u);
  }

  lemma {:induction false} SpliceSentinels(h: Heap, t: Tree, p: Addr, d: Dir, k: int, c: seq<Addr>, side: Dir,
      sib: Addr, flag: bool, h': Heap)
    requires NodesOK(h) && ShapeOK(h, t) && SpliceReady(h, t, p, d, k, c, side, sib, flag)
    requires h' == h[p := h[p].Put(d, Edge(sib, flag, false))]
    requires h[c[0]].Internal() && h[c[0]].Frozen() && Rep(h, sib, Sub(t, sib)) && Sub(t, sib).T?
    ensures Sentinels(h', Graft(t, p, d, Sub(t, sib)))
  {
    SentinelNodes(h, t);
    SentinelsUnmarked(h, t);
    assert p != ROOT;
    if p == SENT {
      assert c[0] == t.l.l.a && h[c[0]].right.tag;
      ChainHead(h, k, c);
      assert |c| == 1 && side == R && sib == INF0;
      assert Rep(h, INF0, LeafTree(INF0));
      RepUnique(h, INF0, Sub(t, sib), LeafTree(INF0));
    }
    SentinelGraft(h, h', t, p, d, Sub(t, sib));
  }

  lemma {:induction false} SpliceShape(h: Heap, t: Tree, p: Addr, d: Dir, k: int, c: seq<Addr>, side: Dir, sib: Addr,
      flag: bool, h': Heap)
    requires NodesOK(h) && ShapeOK(h, t) && SpliceReady(h, t, p, d, k, c, side, sib, flag)
    requires h' == h[p := h[p].Put(d, Edge(sib, flag, false))]
    ensures sib != NULL && c[0] != NULL
    ensures var t' := Graft(t, p, d, Sub(t, sib));
            && ShapeOK(h', t')
            && Addrs(t') == Addrs(t) - Addrs(Sub(t, p).Kid(d)) + Addrs(Sub(t, sib)) && p in Addrs(t')
            && Contents(h', t') == Contents(h, t) - Contents(h, Sub(t, p).Kid(d)).Keys + Contents(h, Sub(t, sib))
  {
    hide Rep, Distinct, Full, Ordered, Sentinels, NodesOK, TagChain, Sub, Addrs, Graft, Path, Contents, Doomed, KeysOf;
    var e := Edge(sib, flag, false);
    SpliceSub(h, t, p, d, k, c, side, sib, flag);
    SpliceCollapse(h, t, p, d, k, c, side, sib, flag);
    var u, w := Sub(t, p).Kid(d), Sub(t, sib);
    SpliceSentinels(h, t, p, d, k, c, side, sib, flag, h');
    RepFrame(h, h', sib, w);
    forall x | x in Contents(h, w) ensures p in Path(h, t, x) && Goes(h, p, x) == d {
      KeysThrough(h, ROOT, t, p, d, x);
    }
    SetShape(h, h', t, p, d, e, w);
  }

  /** A search path that reaches a subtree enters it at the top. */
  lemma {:induction false} PathInto(h: Heap, a: Addr, t: Tree, k: int, x: Addr, y: Addr)
    requires Rep(h, a, t) && Distinct(t) && x in Addrs(t) && y in Addrs(Sub(t, x)) && y in Path(h, t, k)
    ensures y in Path(h, Sub(t, x), k)
    decreases t
  {
    if x != t.a {
      var g := Goes(h, t.a, k);
      var v := t.Kid(g);
      PathIn(h, v, k);
      var side := if x in Addrs(t.l) then L else R;
      SubRep(h, h[a].At(side).ptr, t.Kid(side), x);
      assert Sub(t, x) == Sub(t.Kid(side), x);
      assert y in Addrs(v) && side == g;
      PathInto(h, h[a].At(g).ptr, v, k, x, y);
    }
  }

  /** Every node of a tree but its root hangs from an edge inside the tree. */
  lemma {:induction false} ParentInside(h: Heap, a: Addr, t: Tree, x: Addr) returns (b: Addr, e: Dir)
    requires Rep(h, a, t) && x in Addrs(t) && x != a
    ensures b in Addrs(t) && h[b].At(e).ptr == x
    decreases t
  {
    var side := if x in Addrs(t.l) then L else R;
    if x == t.Kid(side).a {
      b, e := a, side;
    } else {
      b, e := ParentInside(h, h[a].At(side).ptr, t.Kid(side), x);
    }
  }

  lemma {:induction false} SplicePaths(h: Heap, t: Tree, p: Addr, d: Dir, e: Edge, sib: Addr, h': Heap)
    requires Rep(h, ROOT, t) && Distinct(t) && EdgeSet(h, h', p, d, e) && p in Addrs(t) && sib in Addrs(t)
    requires Addrs(Graft(t, p, d, Sub(t, sib))) == Addrs(t) - Addrs(Sub(t, p).Kid(d)) + Addrs(Sub(t, sib))
    ensures AllPathsKept(h, t, h', Graft(t, p, d, Sub(t, sib)))
  {
    var w := Sub(t, sib);
    var t' := Graft(t, p, d, w);
    forall k, a | a in Path(h, t, k) && a in Addrs(t') ensures a in Path(h', t', k) {
      SetPath(h, h', t, p, d, e, w, k);
      if a in Addrs(w) {
        PathInto(h, ROOT, t, k, sib, a);
      }
    }
  }

  /** The flag follows the leaf when it is moved up. */
  lemma {:induction false} SpliceFlags(h: Heap, t: Tree, p: Addr, d: Dir, q: Addr, side: Dir, e: Edge, h': Heap,
      t': Tree)
    requires Rep(h, ROOT, t) && Distinct(t) && EdgeSet(h, h', p, d, e) && p in Addrs(t) && e.ptr in Addrs(t)
    requires q in Addrs(t) && h[q].At(side).ptr == e.ptr && h[q].At(side).flag == e.flag
    requires Addrs(t') == Addrs(t) - Addrs(Sub(t, p).Kid(d)) + Addrs(Sub(t, e.ptr)) && p in Addrs(t')
    requires Rep(h, h[p].At(d).ptr, Sub(t, p).Kid(d)) && Addrs(Sub(t, p).Kid(d)) <= Addrs(t)
    ensures FlagsKept(h, t, h', t')
    ensures forall l :: Flagged(h', t', l) ==> Flagged(h, t, l)
  {
    var w, u := Sub(t, e.ptr), Sub(t, p).Kid(d);
    SubRep(h, ROOT, t, e.ptr);
    forall l | Flagged(h, t, l) && l in Addrs(t') ensures Flagged(h', t', l) {
      var a, x :| a in Addrs(t) && a in h && h[a].At(x).flag && h[a].At(x).ptr == l;
      if a in Addrs(t') {
        assert h'[a].At(x) == h[a].At(x);
      } else {
        FlagMovesUp(h, t, p, d, u, e.ptr, a, x, l);
        OneParent(h, ROOT, t, a, x, q, side);
        assert h'[p].At(d) == e && e.flag;
      }
    }
    forall l | Flagged(h', t', l) ensures Flagged(h, t, l) {
      var a, x :| a in Addrs(t') && a in h' && h'[a].At(x).flag && h'[a].At(x).ptr == l;
      if a == p && x == d {
        assert h[q].At(side).flag;
      } else {
        assert a in Addrs(t) && h[a].At(x) == h'[a].At(x);
      }
    }
  }

  /** A leaf that stays while its parent goes is the top of the subtree that is moved up. */
  lemma {:induction false} FlagMovesUp(h: Heap, t: Tree, p: Addr, d: Dir, u: Tree, sib: Addr, a: Addr, x: Dir, l: Addr)
    requires Rep(h, ROOT, t) && Distinct(t) && p in Addrs(t) && sib in Addrs(t) && u == Sub(t, p).Kid(d)
    requires Rep(h, h[p].At(d).ptr, u) && a in Addrs(u) && a !in Addrs(Sub(t, sib))
    requires h[a].At(x).ptr == l && l != NULL && (l !in Addrs(u) || l in Addrs(Sub(t, sib)))
    ensures l == sib
  {
    KidIn(h, h[p].At(d).ptr, u, a, x);
    SubRep(h, ROOT, t, sib);
    if l != sib {
      var b, y := ParentInside(h, sib, Sub(t, sib), l);
      SubRep(h, ROOT, t, p);
      assert a in Addrs(Sub(t, p));
      OneParent(h, ROOT, t, a, x, b, y);
    }
  }

  /** The unlinked nodes pass to the thread that unlinked them. */
  ghost function Unlinked(i: Tid, pl: map<Addr, Place>, gone: set<Addr>): map<Addr, Place> {
    map a | a in pl :: if a in gone then Pending(i) else pl[a]
  }

  lemma {:induction false} SplicePlaces(i: Tid, h: Heap, t: Tree, pl: map<Addr, Place>, p: Addr, d: Dir, e: Edge,
      h': Heap, t': Tree, gone: set<Addr>)
    requires PlacesOK(h, t, pl) && EdgeSet(h, h', p, d, e) && p in Addrs(t')
    requires gone <= Addrs(t) && Addrs(t') == Addrs(t) - gone && p !in gone
    requires forall a :: a in gone ==> a in h && (h[a].Internal() ==> h[a].Frozen())
    ensures PlacesOK(h', t', Unlinked(i, pl, gone)) && NodesEvolve(i, h, pl, h', Unlinked(i, pl, gone))
  {
    SpliceStays(h, t, pl, p, d, e, h', t', gone, Unlinked(i, pl, gone));
    SpliceEvolves(i, h, t, pl, p, d, e, h', gone);
  }

  lemma {:induction false} SpliceStays(h: Heap, t: Tree, pl: map<Addr, Place>, p: Addr, d: Dir, e: Edge, h': Heap,
      t': Tree, gone: set<Addr>, pl': map<Addr, Place>)
    requires PlacesOK(h, t, pl) && EdgeSet(h, h', p, d, e) && p in Addrs(t')
    requires gone <= Addrs(t) && Addrs(t') == Addrs(t) - gone && p !in gone
    requires forall a :: a in gone ==> a in h && (h[a].Internal() ==> h[a].Frozen())
    requires pl'.Keys == pl.Keys && forall a :: a in pl ==> if a in gone then Gone(pl'[a]) else pl'[a] == pl[a]
    ensures PlacesOK(h', t', pl')
  {
    hide Addrs;
    assert pl'.Keys == h'.Keys;
  }

  lemma {:induction false} SpliceEvolves(i: Tid, h: Heap, t: Tree, pl: map<Addr, Place>, p: Addr, d: Dir, e: Edge,
      h': Heap, gone: set<Addr>)
    requires PlacesOK(h, t, pl) && EdgeSet(h, h', p, d, e) && p in Addrs(t) && gone <= Addrs(t) && p !in gone
    ensures NodesEvolve(i, h, pl, h', Unlinked(i, pl, gone))
  {
    hide Addrs;
  }

  /** The tree `u` without its subtree at `sib`. */
  ghost function Cut(u: Tree, sib: Addr): Tree {
    match u
    case Nil => Nil
    case T(a, l, r) => if a == sib then Nil else T(a, Cut(l, sib), Cut(r, sib))
  }

  lemma {:induction false} CutMiss(u: Tree, sib: Addr)
    requires sib !in Addrs(u)
    ensures Cut(u, sib) == u
  {
    if u.T? {
      CutMiss(u.l, sib);
      CutMiss(u.r, sib);
    }
  }

  lemma {:induction false} CutIs(h: Heap, a: Addr, u: Tree, sib: Addr)
    requires Rep(h, a, u) && Distinct(u)
    ensures CutRep(h, a, sib, Cut(u, sib)) && Distinct(Cut(u, sib))
    ensures Addrs(Cut(u, sib)) <= Addrs(u)
    ensures sib in Addrs(u) ==> Addrs(Cut(u, sib)) == Addrs(u) - Addrs(Sub(u, sib))
    decreases u
  {
    if u.T? && u.a != sib {
      CutIs(h, h[a].left.ptr, u.l, sib);
      CutIs(h, h[a].right.ptr, u.r, sib);
      if sib in Addrs(u.l) {
        SubRep(h, h[a].left.ptr, u.l, sib);
        CutMiss(u.r, sib);
      } else if sib in Addrs(u.r) {
        SubRep(h, h[a].right.ptr, u.r, sib);
        CutMiss(u.l, sib);
      }
    }
  }

  /** The walk starts with exactly the unlinked nodes in front of it. */
  lemma {:induction false} WalkStarts(i: Tid, h: Heap, pl: map<Addr, Place>, u: Tree, top: Addr, sib: Addr, h': Heap)
    requires Rep(h, top, u) && Distinct(u) && sib in Addrs(u)
    requires forall x :: x in Addrs(u) ==> x in h' && h'[x] == h[x]
    requires forall a :: a in pl ==> pl[a] != Pending(i)
    requires Addrs(u) <= pl.Keys
    ensures WalkOK(h', Unlinked(i, pl, Addrs(u) - Addrs(Sub(u, sib))), i, WalkPop([top], sib))
  {
    var pl' := Unlinked(i, pl, Addrs(u) - Addrs(Sub(u, sib)));
    CutIs(h, top, u, sib);
    var f := [Cut(u, sib)];
    CutFrame(h, h', top, sib, Cut(u, sib));
    assert f[..0] == [];
    assert ForestAddrs(f) == Addrs(Cut(u, sib));
    assert Forest(h', pl', i, [top], sib, f, {});
  }

  lemma {:induction false} MapRestore(m: map<int, V>, o: map<int, V>, x: set<int>)
    requires x <= o.Keys && forall k :: k in o ==> k in m && m[k] == o[k]
    ensures m - o.Keys + (o - x) == m - x
  {
    var n := m - o.Keys + (o - x);
    forall k ensures k in n.Keys <==> k in (m - x).Keys {
      assert k in o.Keys ==> k in o && k in m;
    }
    assert n.Keys == (m - x).Keys;
    forall k | k in n.Keys ensures n[k] == (m - x)[k] {
      assert k in o.Keys ==> k in o && m[k] == o[k];
    }
  }

  lemma {:induction false} GoneKeys(h: Heap, b: Addr, u: Tree, gone: set<Addr>)
    requires NodesOK(h) && Rep(h, b, u) && Ordered(h, u) && gone <= Addrs(u)
    ensures KeysOf(h, gone) <= Contents(h, u).Keys
  {
    forall x | x in KeysOf(h, gone) ensures x in Contents(h, u) {
      var a :| a in gone && FiniteLeaf(h, a) && h[a].key.k == x;
      assert NodeOK(h, a);
      LeafOnPath(h, b, u, a);
    }
  }

  lemma {:induction false} SpliceContents(h: Heap, t: Tree, p: Addr, d: Dir, sib: Addr, gone: set<Addr>)
    requires NodesOK(h) && Rep(h, ROOT, t) && Distinct(t) && Full(t) && Ordered(h, t) && p in Addrs(t)
    requires Collapses(h, Sub(t, p).Kid(d), sib) && Sub(Sub(t, p).Kid(d), sib) == Sub(t, sib)
    requires gone == Addrs(Sub(t, p).Kid(d)) - Addrs(Sub(t, sib))
    ensures Contents(h, t) - Contents(h, Sub(t, p).Kid(d)).Keys + Contents(h, Sub(t, sib))
      == Contents(h, t) - KeysOf(h, gone)
    ensures KeysOf(h, gone) <= Contents(h, t).Keys
  {
    var u := Sub(t, p).Kid(d);
    SubRep(h, ROOT, t, p);
    forall x | x in Contents(h, u) ensures x in Contents(h, t) && Contents(h, t)[x] == Contents(h, u)[x] {
      KeysThrough(h, ROOT, t, p, d, x);
    }
    GoneKeys(h, h[p].At(d).ptr, u, gone);
    MapRestore(Contents(h, t), Contents(h, u), KeysOf(h, gone));
  }

  /** The heap after a splice, and the effect of the splice on the map. */
  lemma {:induction false} SpliceHeap(h: Heap, t: Tree, p: Addr, d: Dir, k: int, c: seq<Addr>, side: Dir, sib: Addr,
      flag: bool, h': Heap)
      returns (t': Tree)
    requires NodesOK(h) && ShapeOK(h, t) && SpliceReady(h, t, p, d, k, c, side, sib, flag)
    requires h' == h[p := h[p].Put(d, Edge(sib, flag, false))]
    ensures t' == Graft(t, p, d, Sub(t, sib)) && ShapeOK(h', t') && NodesOK(h')
      && EdgeSet(h, h', p, d, Edge(sib, flag, false))
    ensures Addrs(t') == Addrs(t) - (Addrs(Sub(t, p).Kid(d)) - Addrs(Sub(t, sib))) && p in Addrs(t')
    ensures Contents(h', t') == Contents(h, t) - KeysOf(h, Addrs(t) - Addrs(t'))
    ensures KeysOf(h, Addrs(t) - Addrs(t')) <= Contents(h, t).Keys
    ensures forall a :: a in Addrs(t) && a !in Addrs(t') ==>
              a in h && (h[a].Internal() ==> h[a].Frozen())
                && (h[a].Internal() || (FiniteLeaf(h, a) && Flagged(h, t, a)))
  {
    hide Rep, Distinct, Full, Ordered, Sentinels, NodesOK, TagChain, Sub, Addrs, Graft, Contents, KeysOf, Doomed,
      Collapses;
    SpliceSub(h, t, p, d, k, c, side, sib, flag);
    var e, u, w := Edge(sib, flag, false), Sub(t, p).Kid(d), Sub(t, sib);
    SpliceShape(h, t, p, d, k, c, side, sib, flag, h');
    t' := Graft(t, p, d, w);
    var gone := Addrs(u) - Addrs(w);
    assert gone == Addrs(t) - Addrs(t');
    SpliceCollapse(h, t, p, d, k, c, side, sib, flag);
    SpliceSafe(h, t, u, w, p, d, e, c[|c| - 1], side, h');
    SpliceContents(h, t, p, d, sib, gone);
  }

  lemma {:induction false} SpliceGone(h: Heap, t: Tree, p: Addr, d: Dir, k: int, c: seq<Addr>, side: Dir, sib: Addr,
      flag: bool, t': Tree)
    requires NodesOK(h) && Rep(h, ROOT, t) && Distinct(t) && Full(t) && Ordered(h, t)
    requires SpliceReady(h, t, p, d, k, c, side, sib, flag)
    requires Addrs(t') == Addrs(t) - (Addrs(Sub(t, p).Kid(d)) - Addrs(Sub(t, sib)))
    ensures c[|c| - 1] in Addrs(t) - Addrs(t') && sib in Addrs(t') && sib in Addrs(t)
    ensures Rep(h, h[p].At(d).ptr, Sub(t, p).Kid(d)) && Addrs(Sub(t, sib)) <= Addrs(Sub(t, p).Kid(d)) <= Addrs(t)
    ensures h[c[|c| - 1]].At(Other(side)).ptr !in Addrs(t')
  {
    hide Rep, Distinct, Full, Ordered, NodesOK, TagChain, Contents, Sub, Addrs;
    SpliceSub(h, t, p, d, k, c, side, sib, flag);
    var q := c[|c| - 1];
    var l := h[q].At(Other(side)).ptr;
    if l in Addrs(t') {
      FlagMovesUp(h, t, p, d, Sub(t, p).Kid(d), sib, q, Other(side), l);
      OneParent(h, ROOT, t, q, Other(side), q, side);
    }
  }

  /** What a splice guarantees to the other threads. */
  lemma {:induction false} SpliceRely(h: Heap, t: Tree, p: Addr, d: Dir, q: Addr, side: Dir, sib: Addr, flag: bool,
      h': Heap, t': Tree)
    requires Rep(h, ROOT, t) && Distinct(t) && p in Addrs(t) && p in Addrs(t') && q in Addrs(t) && sib in Addrs(t)
    requires EdgeSet(h, h', p, d, Edge(sib, flag, false)) && t' == Graft(t, p, d, Sub(t, sib))
    requires Addrs(t') == Addrs(t) - (Addrs(Sub(t, p).Kid(d)) - Addrs(Sub(t, sib)))
    requires Rep(h, h[p].At(d).ptr, Sub(t, p).Kid(d)) && Addrs(Sub(t, sib)) <= Addrs(Sub(t, p).Kid(d)) <= Addrs(t)
    requires h[q].At(side).ptr == sib && h[q].At(side).flag == flag
    ensures AllPathsKept(h, t, h', t') && PathsKept(h, t, h', t') && FlagsKept(h, t, h', t')
    ensures forall l :: Flagged(h', t', l) ==> Flagged(h, t, l)
  {
    assert Addrs(t') == Addrs(t) - Addrs(Sub(t, p).Kid(d)) + Addrs(Sub(t, sib));
    SplicePaths(h, t, p, d, Edge(sib, flag, false), sib, h');
    SpliceFlags(h, t, p, d, q, side, Edge(sib, flag, false), h', t');
  }

  lemma {:induction false} SpliceWalk(i: Tid, h: Heap, t: Tree, pl: map<Addr, Place>, p: Addr, d: Dir, k: int,
      c: seq<Addr>, side: Dir, sib: Addr, flag: bool, h': Heap, t': Tree)
    requires NodesOK(h) && ShapeOK(h, t) && SpliceReady(h, t, p, d, k, c, side, sib, flag) && pl.Keys == h.Keys
    requires h' == h[p := h[p].Put(d, Edge(sib, flag, false))]
    requires Addrs(t') == Addrs(t) - (Addrs(Sub(t, p).Kid(d)) - Addrs(Sub(t, sib)))
    requires forall a :: a in pl ==> pl[a] != Pending(i)
    ensures WalkOK(h', Unlinked(i, pl, Addrs(t) - Addrs(t')), i, WalkPop([c[0]], sib))
  {
    hide NodesOK, Rep, Distinct, Full, Ordered, Sentinels, TagChain, WalkOK, Unlinked;
    SpliceSub(h, t, p, d, k, c, side, sib, flag);
    var u := Sub(t, p).Kid(d);
    assert Addrs(t) - Addrs(t') == Addrs(u) - Addrs(Sub(u, sib));
    WalkStarts(i, h, pl, u, c[0], sib, h');
  }

  /**
    A successful splice CAS unlinks exactly the chain from the successor to the parent and the flagged
    leaves beside it, and removes exactly the bindings of those leaves.
   */
  lemma {:induction false} SpliceStep(i: Tid, h: Heap, t: Tree, pl: map<Addr, Place>, p: Addr, d: Dir, k: int,
      c: seq<Addr>, side: Dir, sib: Addr, flag: bool, h': Heap) returns (t': Tree)
    requires HeapOK(h, t, pl) && SpliceReady(h, t, p, d, k, c, side, sib, flag)
    requires h' == h[p := h[p].Put(d, Edge(sib, flag, false))]
    requires forall a :: a in pl ==> pl[a] != Pending(i)
    ensures Addrs(t') <= Addrs(t) && c[|c| - 1] in Addrs(t) - Addrs(t') && sib in Addrs(t')
    ensures h[c[|c| - 1]].At(Other(side)).ptr !in Addrs(t')
    ensures var gone := Addrs(t) - Addrs(t');
            && HeapOK(h', t', Unlinked(i, pl, gone)) && Rely(i, h, t, pl, h', t', Unlinked(i, pl, gone))
            && WalkOK(h', Unlinked(i, pl, gone), i, WalkPop([c[0]], sib))
            && Contents(h', t') == Contents(h, t) - KeysOf(h, gone) && KeysOf(h, gone) <= Contents(h, t).Keys
            && (forall a :: a in gone ==> a in h && (h[a].Internal() || (FiniteLeaf(h, a) && Flagged(h, t, a))))
    ensures AllPathsKept(h, t, h', t')
    ensures forall l :: Flagged(h', t', l) ==> Flagged(h, t, l)
  {
    hide Rep, Distinct, Full, Ordered, Sentinels, NodesOK, NodesEvolve, PathsKept, FlagsKept, WalkOK, AllPathsKept;
    hide Graft, Sub, Addrs, Contents, KeysOf;
    t' := SpliceHeap(h, t, p, d, k, c, side, sib, flag, h');
    SpliceGone(h, t, p, d, k, c, side, sib, flag, t');
    SpliceRely(h, t, p, d, c[|c| - 1], side, sib, flag, h', t');
    SpliceWalk(i, h, t, pl, p, d, k, c, side, sib, flag, h', t');
    SplicePlaces(i, h, t, pl, p, d, Edge(sib, flag, false), h', t', Addrs(t) - Addrs(t'));
  }

  lemma {:induction false} SpliceSafe(h: Heap, t: Tree, u: Tree, w: Tree, p: Addr, d: Dir, e: Edge, q: Addr, side: Dir,
      h': Heap)
    requires NodesOK(h) && Doomed(h, u, w) && Addrs(u) <= Addrs(t) && Rep(h, ROOT, t)
    requires p in h && !h[p].At(d).Marked() && h[p].At(d).ptr != NULL && h' == h[p := h[p].Put(d, e)]
    requires q in h && e == h[q].At(side).(tag := false) && e.ptr != NULL
    ensures NodesOK(h') && EdgeSet(h, h', p, d, e)
    ensures forall a :: a in Addrs(u) && a !in Addrs(w) ==>
              a in h && (h[a].Internal() ==> h[a].Frozen())
                && (h[a].Internal() || (FiniteLeaf(h, a) && Flagged(h, t, a)))
  {
    assert NodeOK(h, q);
    SetNodes(h, h', p, d, e);
    forall a | a in Addrs(u) && a !in Addrs(w) && !h[a].Internal() ensures Flagged(h, t, a) {
      var b, x :| b in Addrs(u) && b in h && h[b].At(x).flag && h[b].At(x).ptr == a;
      assert b in Addrs(t);
    }
  }
}
