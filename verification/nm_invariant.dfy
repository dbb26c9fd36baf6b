/**
  The invariant of the Natarajan-Mittal tree, and what a step of one thread guarantees to the others.
 */
module NMInvariant {
  import opened NMShape
  import opened NMProtocol

  // ---------------------------------------------------------------- the heap

  /** A tagged edge has a flagged sibling, and a flagged edge leads to a finite leaf. */
  ghost predicate EdgesOK(h: Heap, a: Addr)
    requires a in h
  {
    && (h[a].left.tag ==> h[a].right.flag)
    && (h[a].right.tag ==> h[a].left.flag)
    && (h[a].left.flag ==> FiniteLeaf(h, h[a].left.ptr))
    && (h[a].right.flag ==> FiniteLeaf(h, h[a].right.ptr))
  }

  ghost predicate FiniteLeaf(h: Heap, a: Addr) {
    a in h && h[a].Leaf() && h[a].key.Fin?
  }

  ghost predicate NodeOK(h: Heap, a: Addr)
    requires a in h
  {
    && EdgesOK(h, a)
    && (h[a].Leaf() || h[a].Internal())
    && (h[a].Leaf() && h[a].key.Fin? ==> h[a].value.Some?)
  }

  /** `r.left` is `s`, and `s.left` is the leaf `inf0` or an infinite node with `inf0` on its right. */
  ghost predicate Sentinels(h: Heap, t: Tree) {
    && t.T? && t.a == ROOT && t.r == T(INF2, Nil, Nil)
    && t.l.T? && t.l.a == SENT && t.l.r == T(INF1, Nil, Nil)
    && InfKey(h, ROOT) && InfKey(h, SENT) && InfKey(h, INF0) && InfKey(h, INF1) && InfKey(h, INF2)
    && (t.l.l == T(INF0, Nil, Nil)
        || (t.l.l.T? && InfKey(h, t.l.l.a) && t.l.l.l.T? && t.l.l.r == T(INF0, Nil, Nil)))
  }

  ghost predicate InfKey(h: Heap, a: Addr) {
    a in h && h[a].key.Inf?
  }

  ghost predicate Gone(p: Place) {
    p.Pending? || p.Retired?
  }

  ghost predicate Public(p: Place) {
    p.InTree? || Gone(p)
  }

  /** The reachable part of the heap is an external search tree below the sentinels. */
  ghost predicate ShapeOK(h: Heap, t: Tree) {
    Rep(h, ROOT, t) && Distinct(t) && Full(t) && Ordered(h, t) && Sentinels(h, t)
  }

  ghost predicate NodesOK(h: Heap) {
    && NULL !in h
    && forall a {:trigger NodeOK(h, a)} :: a in h ==> NodeOK(h, a)
  }

  /** Unlinked internal nodes are frozen and unpublished nodes are unmarked. */
  ghost predicate PlacesOK(h: Heap, t: Tree, pl: map<Addr, Place>) {
    && pl.Keys == h.Keys
    && (forall a :: a in h ==> (a in Addrs(t) <==> pl[a].InTree?))
    && (forall a :: a in h && Gone(pl[a]) && h[a].Internal() ==> h[a].Frozen())
    && (forall a :: a in h && !Public(pl[a]) ==> !h[a].left.Marked() && !h[a].right.Marked())
  }

  ghost predicate HeapOK(h: Heap, t: Tree, pl: map<Addr, Place>) {
    ShapeOK(h, t) && NodesOK(h) && PlacesOK(h, t, pl)
  }

  /** The leaf `l` hangs from a flagged edge of the tree. */
  ghost predicate Flagged(h: Heap, t: Tree, l: Addr) {
    exists a, d :: a in Addrs(t) && a in h && h[a].At(d).flag && h[a].At(d).ptr == l
  }

  // ---------------------------------------------------------------- what other threads may rely on

  ghost predicate EdgeEvolves(e: Edge, e': Edge) {
    && (e.flag ==> e'.flag) && (e.tag ==> e' == e)
    && (e.Marked() ==> e'.ptr == e.ptr)
    && (e.ptr == NULL <==> e'.ptr == NULL)
  }

  ghost predicate Evolves(n: Node, n': Node) {
    && n'.key == n.key && n'.value == n.value
    && EdgeEvolves(n.left, n'.left) && EdgeEvolves(n.right, n'.right)
  }

  /** The ways in which a step of `t` may move a node that is not private to `t`. */
  ghost predicate PlaceStep(t: Tid, p: Place, p': Place) {
    || p' == p
    || (p.InTree? && p' == Pending(t))
    || (p == Pending(t) && p'.Retired?)
  }

  /** While an internal node stays in the tree, it stays on the search paths it is on. */
  ghost predicate PathsKept(h: Heap, t: Tree, h': Heap, t': Tree) {
    forall k, a :: a in Path(h, t, k) && a in h && h[a].Internal() && a in Addrs(t') ==> a in Path(h', t', k)
  }

  /** The stronger form that holds of every step but an insert: leaves too stay on the search paths they are on. */
  ghost predicate AllPathsKept(h: Heap, t: Tree, h': Heap, t': Tree) {
    forall k, a :: a in Path(h, t, k) && a in Addrs(t') ==> a in Path(h', t', k)
  }

  /** Beside a leaf with key `key`, the new internal node for `x` sends searches for `k` to the old leaf. */
  predicate Stays(key: Key, x: int, k: int) {
    if Above(key, x) then !Above(key, k) else Above(Fin(x), k)
  }

  /** An insert of `x` beside `leaf` diverts from that leaf exactly the keys on the new leaf's side. */
  ghost predicate LeafPaths(h: Heap, t: Tree, leaf: Addr, x: int, h': Heap, t': Tree) {
    && leaf in h
    && (forall k, a :: a in Path(h, t, k) && a != leaf ==> a in Path(h', t', k))
    && (forall k :: leaf in Path(h, t, k) ==> (leaf in Path(h', t', k) <==> Stays(h[leaf].key, x, k)))
  }

  /** While a flagged leaf stays in the tree, it hangs from a flagged edge. */
  ghost predicate FlagsKept(h: Heap, t: Tree, h': Heap, t': Tree) {
    forall l :: Flagged(h, t, l) && l in Addrs(t') ==> Flagged(h', t', l)
  }

  /** What a step of `i` may do to single nodes. */
  ghost predicate NodesEvolve(i: Tid, h: Heap, pl: map<Addr, Place>, h': Heap, pl': map<Addr, Place>) {
    && (forall a :: a in h ==> a in h' && a in pl && a in pl')
    && (forall a :: a in h && pl[a] != Private(i) ==> Evolves(h[a], h'[a]) && PlaceStep(i, pl[a], pl'[a]))
    && (forall a :: a in h && pl[a].Private? && pl[a] != Private(i) ==> h'[a] == h[a])
    && (forall a :: a in h && pl[a].InTree? && !pl'[a].InTree? ==> h'[a] == h[a])
    && (forall a :: a in h' && a !in h ==> a in pl' && pl'[a] == Private(i))
    && (forall a :: a in h && pl[a] == Private(i) ==> !Gone(pl'[a]) && (pl'[a].Private? ==> pl'[a] == pl[a]))
  }

  ghost predicate Rely(i: Tid, h: Heap, t: Tree, pl: map<Addr, Place>, h': Heap, t': Tree, pl': map<Addr, Place>) {
    NodesEvolve(i, h, pl, h', pl') && PathsKept(h, t, h', t') && FlagsKept(h, t, h', t')
  }

  // ---------------------------------------------------------------- one thread

  /** The edge by which a search for `k` leaves the node at `a`. */
  function Onward(h: Heap, a: Addr, k: int): Edge
    requires a in h
  {
    h[a].At(Goes(h, a, k))
  }

  /**
    Everything in `seen` was on the search path of `k` at some moment of the current seek, and either is
    on it now, or is unlinked and passed the search on to a child that is also in `seen`.
   */
  ghost predicate SeenOK(h: Heap, t: Tree, pl: map<Addr, Place>, k: int, seen: set<Addr>) {
    && Path(h, t, k) <= seen
    && (forall a :: a in seen ==> a in h && a in pl && Public(pl[a]))
    && (forall a :: a in seen && h[a].Internal() && a in Addrs(t) ==> a in Path(h, t, k))
    && (forall a :: a in seen && h[a].Internal() && a !in Addrs(t) ==> Onward(h, a, k).ptr in seen)
  }

  /** Each node of `c` leads to the next by a tagged edge in the direction of `k`. */
  ghost predicate TagChain(h: Heap, k: int, c: seq<Addr>) {
    && (forall i :: 0 <= i < |c| ==> c[i] in h)
    && (forall i :: 0 <= i < |c| - 1 ==>
          Onward(h, c[i], k).tag && Onward(h, c[i], k).ptr == c[i + 1])
  }

  ghost predicate Chained(h: Heap, k: int, a: Addr, b: Addr) {
    exists c: seq<Addr> :: |c| > 0 && c[0] == a && c[|c| - 1] == b && TagChain(h, k, c)
  }

  ghost predicate RecOK(h: Heap, k: int, seen: set<Addr>, rec: Rec) {
    && rec.anc in seen && rec.succ in seen && rec.parent in seen && rec.leaf in seen
    && rec.anc in h && rec.parent in h && rec.leaf in h
    && h[rec.anc].Internal() && h[rec.parent].Internal()
    && rec.sdir == Goes(h, rec.anc, k) && rec.ldir == Goes(h, rec.parent, k)
    && Chained(h, k, rec.succ, rec.parent)
  }

  /** A search for `k` that has ended. */
  ghost predicate AtLeaf(h: Heap, k: int, seen: set<Addr>, rec: Rec) {
    RecOK(h, k, seen, rec) && h[rec.leaf].Leaf()
  }

  /** A cleanup knows that one edge of the parent is flagged and that the other is the one to move up. */
  ghost predicate CleanOK(h: Heap, k: int, seen: set<Addr>, rec: Rec, side: Dir, job: Job) {
    && RecOK(h, k, seen, rec)
    && h[rec.parent].At(Other(side)).flag
    && (job.Purge? ==> side == Other(rec.ldir) && h[rec.parent].At(rec.ldir).ptr == job.leaf)
  }

  /** The part of a tree that the walk still has to retire: it stops at `sib`. */
  ghost predicate CutRep(h: Heap, a: Addr, sib: Addr, t: Tree)
    ensures CutRep(h, a, sib, t) ==> forall x :: x in Addrs(t) ==> x in h
    decreases t
  {
    match t
    case Nil => a == NULL || a == sib
    case T(b, l, r) =>
      a == b && a != NULL && a != sib && a in h && CutRep(h, h[a].left.ptr, sib, l) && CutRep(h, h[a].right.ptr, sib, r)
  }

  ghost function ForestAddrs(f: seq<Tree>): set<Addr> {
    if f == [] then {} else ForestAddrs(f[..|f| - 1]) + Addrs(f[|f| - 1])
  }

  ghost predicate ForestDistinct(f: seq<Tree>) {
    f == [] || (var g, u := f[..|f| - 1], f[|f| - 1]; ForestDistinct(g) && Distinct(u) && Addrs(u) !! ForestAddrs(g))
  }

  /** `f` holds the trees below the stack entries; they contain exactly the pending nodes, less `more`. */
  ghost predicate Forest(h: Heap, pl: map<Addr, Place>, i: Tid, stack: seq<Addr>, sib: Addr, f: seq<Tree>,
      more: set<Addr>) {
    && |f| == |stack|
    && (forall j :: 0 <= j < |f| ==> CutRep(h, stack[j], sib, f[j]))
    && ForestDistinct(f)
    && (forall a :: a in pl ==> (pl[a] == Pending(i) <==> a in ForestAddrs(f) || a in more))
    && ForestAddrs(f) !! more
  }

  ghost predicate WalkOK(h: Heap, pl: map<Addr, Place>, i: Tid, pc: Pc) {
    match pc
    case WalkPop(stack, sib) => exists f :: Forest(h, pl, i, stack, sib, f, {})
    case WalkRight(stack, sib, n) =>
      && n in h
      && exists f, u :: Forest(h, pl, i, stack, sib, f, {n} + Addrs(u)) && CutRep(h, h[n].right.ptr, sib, u)
                        && Distinct(u) && n !in Addrs(u)
    case _ => forall a :: a in pl ==> pl[a] != Pending(i)
  }

  /** What a thread about to reply knows. */
  ghost predicate ReplyOK(h: Heap, t: Tree, seen: set<Addr>, job: Job, reply: Reply) {
    match reply
    case Got(res) =>
      job.Get? && exists a ::
        a in seen && a in h && h[a].Leaf() && res == (if h[a].key == Fin(job.k) then h[a].value else None)
    case Inserted => job.Insert?
    case Refused(k, v) => job.Insert? && k == job.k && v == job.v
                          && exists a :: a in seen && a in h && h[a].Leaf() && h[a].key == Fin(k)
    case Removed(None) => job.Inject? && exists a :: a in seen && a in h && h[a].Leaf() && h[a].key != Fin(job.k)
    case Removed(Some(v)) => job.Purge? && v == job.v && job.leaf !in Addrs(t)
  }

  /** A seek that has come back to the leaf its remove flagged did so by a flagged edge. */
  ghost predicate FoundOK(h: Heap, rec: Rec, job: Job)
    requires rec.parent in h
  {
    job.Purge? && rec.leaf == job.leaf ==> h[rec.parent].At(rec.ldir).flag && h[rec.parent].At(rec.ldir).ptr == rec.leaf
  }

  ghost predicate PcOK(h: Heap, t: Tree, k: int, seen: set<Addr>, job: Job, pc: Pc) {
    match pc
    case Idle => false
    case Fault => false
    case SeekRoot => true
    case SeekSent(s) => s == SENT && s in seen && s in h && h[s].Internal()
    case SeekNext(rec, prevTag, dir) =>
      && RecOK(h, k, seen, rec) && dir == Goes(h, rec.leaf, k)
      && (prevTag ==> h[rec.parent].At(rec.ldir).tag && h[rec.parent].At(rec.ldir).ptr == rec.leaf)
      && FoundOK(h, rec, job)
    case Decide(rec) => AtLeaf(h, k, seen, rec) && FoundOK(h, rec, job)
    case CasInsert(rec) =>
      && AtLeaf(h, k, seen, rec) && job.Insert? && h[rec.leaf].key != Fin(k)
      && job.nl in h && job.ni in h && h[job.ni] == NewInternal(h, rec.leaf, k, job.nl)
    case CasFlag(rec, v) =>
      && AtLeaf(h, k, seen, rec) && job.Inject?
      && h[rec.leaf].key == Fin(k) && h[rec.leaf].value == Some(v)
    case LoadLeaf(rec) =>
      && AtLeaf(h, k, seen, rec) && h[rec.parent].At(rec.ldir).Marked() && h[rec.parent].At(rec.ldir).ptr == rec.leaf
      && (job.Purge? ==> rec.leaf == job.leaf && h[rec.parent].At(rec.ldir).flag)
    case TagSibling(rec, side) => CleanOK(h, k, seen, rec, side, job)
    case LoadSibling(rec, side) => CleanOK(h, k, seen, rec, side, job) && h[rec.parent].At(side).tag
    case CasSplice(rec, side, sib, flag) =>
      CleanOK(h, k, seen, rec, side, job) && h[rec.parent].At(side) == Edge(sib, flag, true)
    case WalkPop(_, _) => job.Purge? ==> job.leaf !in Addrs(t)
    case WalkRight(_, _, _) => job.Purge? ==> job.leaf !in Addrs(t)
    case Return(reply) => ReplyOK(h, t, seen, job, reply)
  }

  /** The nodes an insert holds privately. */
  ghost predicate PrivateOK(h: Heap, pl: map<Addr, Place>, i: Tid, job: Job, pc: Pc) {
    && (job.Insert? && !pc.Return? ==>
          && job.nl in h && job.ni in h && job.nl in pl && job.ni in pl && job.nl != job.ni
          && pl[job.nl] == Private(i) && pl[job.ni] == Private(i)
          && h[job.nl] == Node(Fin(job.k), Some(job.v), Plain(NULL), Plain(NULL)) && !FiniteLeaf(h, job.ni))
    && (forall a :: a in pl && pl[a] == Private(i) ==> job.Insert? && !pc.Return? && (a == job.nl || a == job.ni))
  }

  /** A remove that has flagged its leaf: the flag is there as long as the leaf is. */
  ghost predicate PurgeOK(h: Heap, job: Job, claimed: set<Addr>) {
    job.Purge? ==>
      && job.leaf in h && job.leaf in claimed && h[job.leaf].Leaf()
      && h[job.leaf].key == Fin(job.k) && h[job.leaf].value == Some(job.v)
  }

  ghost predicate Seeking(pc: Pc) {
    pc.SeekRoot? || pc.SeekSent? || pc.SeekNext? || pc.Decide?
  }

  /** What a seek that began after the flag was injected can find. */
  ghost predicate PurgeSeek(h: Heap, t: Tree, job: Job, pc: Pc, seen: set<Addr>) {
    job.Purge? && Seeking(pc) ==>
      && (job.leaf in Addrs(t) ==> forall a :: a in seen && a in h && h[a].Leaf() ==> a == job.leaf)
      && (forall a :: a in seen && a in h && h[a].Internal() && a !in Addrs(t) ==>
            (Onward(h, a, job.k).ptr == job.leaf ==> Onward(h, a, job.k).flag))
  }

  ghost predicate ThreadOK(h: Heap, t: Tree, pl: map<Addr, Place>, claimed: set<Addr>, i: Tid, th: Thread,
      seen: set<Addr>) {
    && PrivateOK(h, pl, i, th.job, th.pc)
    && WalkOK(h, pl, i, th.pc)
    && if th.job.NoJob? then th.pc.Idle?
       else
         && SeenOK(h, t, pl, th.job.k, seen)
         && PcOK(h, t, th.job.k, seen, th.job, th.pc)
         && PurgeOK(h, th.job, claimed)
         && PurgeSeek(h, t, th.job, th.pc, seen)
  }

  // ---------------------------------------------------------------- the whole system

  /** A flagged leaf stays flagged until it is unlinked. */
  ghost predicate ClaimsOK(h: Heap, t: Tree, pl: map<Addr, Place>, claimed: set<Addr>) {
    forall l :: l in claimed ==> l in h && l in pl && Public(pl[l]) && (l in Addrs(t) ==> Flagged(h, t, l))
  }

  /** Every flagged edge of the tree belongs to one remove that has not replied. */
  ghost predicate OwnersOK(h: Heap, t: Tree, threads: map<Tid, Thread>) {
    && (forall i, j :: i in threads && j in threads && i != j && threads[i].job.Purge? && threads[j].job.Purge? ==>
          threads[i].job.leaf != threads[j].job.leaf)
    && (forall l :: Flagged(h, t, l) ==>
          exists i :: i in threads && threads[i].job.Purge? && threads[i].job.leaf == l && !threads[i].pc.Return?)
  }

  ghost predicate RetiredOK(pl: map<Addr, Place>, retired: multiset<Addr>) {
    && (forall a :: a in retired ==> a in pl && pl[a].Retired? && retired[a] == 1)
    && (forall a :: a in pl && pl[a].Retired? ==> a in retired)
  }

  /** Every private or pending node belongs to a thread. */
  ghost predicate PlacesOwned(pl: map<Addr, Place>, threads: map<Tid, Thread>) {
    forall a :: a in pl && (pl[a].Private? || pl[a].Pending?) ==> pl[a].t in threads
  }

  ghost predicate ThreadsOK(s: State, t: Tree) {
    && s.seen.Keys == s.threads.Keys
    && forall i :: i in s.threads ==> ThreadOK(s.heap, t, s.place, s.claimed, i, s.threads[i], s.seen[i])
  }

  ghost predicate SystemOK(s: State, t: Tree) {
    && HeapOK(s.heap, t, s.place)
    && ThreadsOK(s, t)
    && ClaimsOK(s.heap, t, s.place, s.claimed)
    && OwnersOK(s.heap, t, s.threads)
    && RetiredOK(s.place, s.retired)
    && PlacesOwned(s.place, s.threads)
  }

  ghost predicate Inv(s: State) {
    exists t :: SystemOK(s, t)
  }

  lemma {:induction false} ShapeIs(h: Heap, t: Tree)
    requires Rep(h, ROOT, t)
    ensures Shape(h) == t
  {
    RepUnique(h, ROOT, t, Shape(h));
  }

  // ---------------------------------------------------------------- stability

  lemma {:induction false} SeenStable(i: Tid, h: Heap, t: Tree, pl: map<Addr, Place>, h': Heap, t': Tree,
      pl': map<Addr, Place>, k: int, seen: set<Addr>)
    requires Rep(h, ROOT, t) && PlacesOK(h, t, pl) && PlacesOK(h', t', pl') && Rely(i, h, t, pl, h', t', pl')
    requires Rep(h', ROOT, t') && SeenOK(h, t, pl, k, seen)
    ensures SeenOK(h', t', pl', k, seen + Path(h', t', k))
  {
    PathIn(h', t', k);
    forall a | a in seen
      ensures a in h' && a in pl' && Public(pl'[a]) && (h'[a].Internal() ==> h[a].Internal())
      ensures h'[a].Internal() && a in Addrs(t') ==> a in Path(h', t', k)
      ensures h'[a].Internal() && a !in Addrs(t') ==> Onward(h', a, k).ptr in seen
    {
      SeenStableAt(i, h, t, pl, h', t', pl', k, seen, a);
    }
  }

  lemma {:induction false} SeenStableAt(i: Tid, h: Heap, t: Tree, pl: map<Addr, Place>, h': Heap, t': Tree,
      pl': map<Addr, Place>, k: int, seen: set<Addr>, a: Addr)
    requires Rep(h, ROOT, t) && PlacesOK(h, t, pl) && PlacesOK(h', t', pl') && Rely(i, h, t, pl, h', t', pl')
    requires SeenOK(h, t, pl, k, seen) && a in seen
    ensures a in h' && a in pl' && Public(pl'[a]) && Evolves(h[a], h'[a])
    ensures h'[a].Internal() && a in Addrs(t') ==> a in Path(h', t', k)
    ensures h'[a].Internal() && a !in Addrs(t') ==> Onward(h', a, k) == Onward(h, a, k) || Onward(h, a, k).Marked()
    ensures h'[a].Internal() && a !in Addrs(t') ==> Onward(h', a, k).ptr in seen
  {
    hide Addrs, Path, Rep, FlagsKept;
    assert a in h && Public(pl[a]) && pl[a] != Private(i);
    if h'[a].Internal() && a !in Addrs(t') {
      if a in Addrs(t) {
        assert h'[a] == h[a];
        PathStep(h, ROOT, t, k, a);
      } else {
        assert Gone(pl[a]) && h[a].Frozen();
        assert Onward(h, a, k).Marked();
      }
    }
  }

  lemma {:induction false} ChainStable(h: Heap, h': Heap, k: int, a: Addr, b: Addr)
    requires Chained(h, k, a, b)
    requires forall x, d :: x in h && h[x].At(d).tag ==>
               x in h' && h'[x].key == h[x].key && h'[x].At(d).tag && h'[x].At(d).ptr == h[x].At(d).ptr
    requires b in h'
    ensures Chained(h', k, a, b)
  {
    var c :| |c| > 0 && c[0] == a && c[|c| - 1] == b && TagChain(h, k, c);
    forall j | 0 <= j < |c| - 1
      ensures c[j] in h' && Onward(h', c[j], k).tag && Onward(h', c[j], k).ptr == c[j + 1]
    {
      var x, d := c[j], Goes(h, c[j], k);
      assert h[x].At(d).tag;
    }
    assert TagChain(h', k, c);
  }

  /** Tagged edges never change again. */
  lemma {:induction false} TagsStay(i: Tid, h: Heap, t: Tree, pl: map<Addr, Place>, h': Heap, pl': map<Addr, Place>)
    requires PlacesOK(h, t, pl) && NodesEvolve(i, h, pl, h', pl')
    ensures forall x, d :: x in h && h[x].At(d).tag ==>
               x in h' && h'[x].key == h[x].key && h'[x].At(d).tag && h'[x].At(d).ptr == h[x].At(d).ptr
  {
  }

  lemma {:induction false} RecStable(i: Tid, h: Heap, t: Tree, pl: map<Addr, Place>, h': Heap, pl': map<Addr, Place>,
                  k: int, seen: set<Addr>, seen': set<Addr>, rec: Rec)
    requires PlacesOK(h, t, pl) && NodesEvolve(i, h, pl, h', pl') && seen <= seen'
    requires forall a :: a in seen ==> a in h && a in pl && Public(pl[a])
    requires RecOK(h, k, seen, rec)
    ensures RecOK(h', k, seen', rec)
    ensures forall a :: a in seen ==> a in h' && Evolves(h[a], h'[a])
  {
    TagsStay(i, h, t, pl, h', pl');
    ChainStable(h, h', k, rec.succ, rec.parent);
  }

  lemma {:induction false} ReplyStable(i: Tid, h: Heap, t: Tree, pl: map<Addr, Place>, h': Heap, t': Tree,
      pl': map<Addr, Place>, seen: set<Addr>, seen': set<Addr>, job: Job, reply: Reply)
    requires NodesEvolve(i, h, pl, h', pl') && PlacesOK(h', t', pl') && PlacesOK(h, t, pl) && seen <= seen'
    requires forall a :: a in seen ==> a in h && a in pl && Public(pl[a])
    requires job.Purge? ==> job.leaf in h && Public(pl[job.leaf])
    requires ReplyOK(h, t, seen, job, reply)
    ensures ReplyOK(h', t', seen', job, reply)
  {
    forall a | a in seen && a in h && h[a].Leaf()
      ensures a in h' && h'[a].Leaf() && h'[a].key == h[a].key && h'[a].value == h[a].value
    {
    }
    match reply
    case Got(res) =>
      var a :| a in seen && a in h && h[a].Leaf() && res == (if h[a].key == Fin(job.k) then h[a].value else None);
      assert a in seen';
    case Inserted =>
    case Refused(k, v) =>
      var a :| a in seen && a in h && h[a].Leaf() && h[a].key == Fin(k);
      assert a in seen';
    case Removed(None) =>
      var a :| a in seen && a in h && h[a].Leaf() && h[a].key != Fin(job.k);
      assert a in seen';
    case Removed(Some(v)) =>
  }

  /** The facts about its record that a thread keeps while others step. */
  ghost predicate Kept(h: Heap, h': Heap, seen: set<Addr>) {
    forall a :: a in seen ==> a in h && a in h' && Evolves(h[a], h'[a])
  }

  lemma {:induction false} SeekStable(h: Heap, t: Tree, h': Heap, t': Tree, k: int, seen: set<Addr>, seen': set<Addr>,
      job: Job, pc: Pc)
    requires Kept(h, h', seen) && seen <= seen'
    requires pc.SeekSent? || pc.SeekNext? || pc.Decide? || pc.CasInsert? || pc.CasFlag? || pc.LoadLeaf?
    requires pc.SeekSent? || RecOK(h', k, seen', pc.rec)
    requires job.Insert? ==> job.nl in h && job.ni in h && job.nl in h' && job.ni in h'
    requires job.Insert? ==> h'[job.nl] == h[job.nl] && h'[job.ni] == h[job.ni]
    requires PcOK(h, t, k, seen, job, pc)
    ensures PcOK(h', t', k, seen', job, pc)
  {
  }

  lemma {:induction false} CleanStable(h: Heap, t: Tree, h': Heap, t': Tree, k: int, seen: set<Addr>, seen': set<Addr>,
      job: Job, pc: Pc)
    requires Kept(h, h', seen) && seen <= seen'
    requires pc.TagSibling? || pc.LoadSibling? || pc.CasSplice?
    requires RecOK(h', k, seen', pc.rec)
    requires PcOK(h, t, k, seen, job, pc)
    ensures PcOK(h', t', k, seen', job, pc)
  {
    var p := pc.rec.parent;
    assert Evolves(h[p], h'[p]);
  }

  lemma {:induction false} SeenKept(i: Tid, h: Heap, pl: map<Addr, Place>, h': Heap, pl': map<Addr, Place>,
      seen: set<Addr>)
    requires NodesEvolve(i, h, pl, h', pl') && forall a :: a in seen ==> a in h && a in pl && Public(pl[a])
    ensures Kept(h, h', seen)
  {
    hide Evolves;
  }

  lemma {:induction false} PrivateKept(i: Tid, h: Heap, pl: map<Addr, Place>, h': Heap, pl': map<Addr, Place>, u: Tid,
      job: Job, pc: Pc)
    requires NodesEvolve(i, h, pl, h', pl') && u != i && PrivateOK(h, pl, u, job, pc)
    ensures job.Insert? && !pc.Return? ==>
              && job.nl in h && job.ni in h && job.nl in h' && job.ni in h'
              && h'[job.nl] == h[job.nl] && h'[job.ni] == h[job.ni]
  {
  }

  /** An unlinked leaf stays unlinked. */
  lemma {:induction false} PurgeKept(i: Tid, h: Heap, t: Tree, pl: map<Addr, Place>, h': Heap, t': Tree,
      pl': map<Addr, Place>, job: Job)
    requires NodesEvolve(i, h, pl, h', pl') && PlacesOK(h', t', pl') && PlacesOK(h, t, pl)
    requires job.Purge? ==> job.leaf in h && Public(pl[job.leaf])
    ensures job.Purge? && job.leaf !in Addrs(t) ==> job.leaf !in Addrs(t')
  {
    hide Addrs;
  }

  lemma {:induction false} PcRec(h: Heap, t: Tree, k: int, seen: set<Addr>, job: Job, pc: Pc)
    requires PcOK(h, t, k, seen, job, pc)
    ensures !pc.Idle? && !pc.Fault?
    ensures !pc.Return? && !pc.SeekRoot? && !pc.WalkPop? && !pc.WalkRight? && !pc.SeekSent? ==>
      RecOK(h, k, seen, pc.rec)
  {
  }

  lemma {:induction false} PcStable(i: Tid, h: Heap, t: Tree, pl: map<Addr, Place>, h': Heap, t': Tree,
      pl': map<Addr, Place>, k: int, seen: set<Addr>, seen': set<Addr>, u: Tid, job: Job, pc: Pc)
    requires NodesEvolve(i, h, pl, h', pl') && PlacesOK(h', t', pl') && PlacesOK(h, t, pl) && seen <= seen'
    requires forall a :: a in seen ==> a in h && a in pl && Public(pl[a])
    requires job.Purge? ==> job.leaf in h && Public(pl[job.leaf])
    requires u != i && PrivateOK(h, pl, u, job, pc)
    requires PcOK(h, t, k, seen, job, pc)
    ensures PcOK(h', t', k, seen', job, pc)
  {
    hide NodesEvolve, PlacesOK, RecOK, PrivateOK, Kept, Addrs, ReplyOK, FoundOK, AtLeaf, CleanOK;
    SeenKept(i, h, pl, h', pl', seen);
    PrivateKept(i, h, pl, h', pl', u, job, pc);
    PurgeKept(i, h, t, pl, h', t', pl', job);
    PcRec(h, t, k, seen, job, pc);
    if pc.Return? {
      ReplyStable(i, h, t, pl, h', t', pl', seen, seen', job, pc.reply);
    } else if !pc.SeekRoot? && !pc.WalkPop? && !pc.WalkRight? {
      PcRecStable(i, h, t, pl, h', t', pl', k, seen, seen', job, pc);
    }
  }

  lemma {:induction false} PcRecStable(i: Tid, h: Heap, t: Tree, pl: map<Addr, Place>, h': Heap, t': Tree,
      pl': map<Addr, Place>, k: int, seen: set<Addr>, seen': set<Addr>, job: Job, pc: Pc)
    requires NodesEvolve(i, h, pl, h', pl') && PlacesOK(h, t, pl) && seen <= seen' && Kept(h, h', seen)
    requires forall a :: a in seen ==> a in h && a in pl && Public(pl[a])
    requires job.Insert? ==>
               && job.nl in h && job.ni in h && job.nl in h' && job.ni in h'
               && h'[job.nl] == h[job.nl] && h'[job.ni] == h[job.ni]
    requires PcOK(h, t, k, seen, job, pc) && !pc.Return? && !pc.SeekRoot? && !pc.WalkPop? && !pc.WalkRight? && !pc.Idle?
      && !pc.Fault?
    requires !pc.SeekSent? ==> RecOK(h, k, seen, pc.rec)
    ensures PcOK(h', t', k, seen', job, pc)
  {
    hide PcOK, RecOK, Kept, NodesEvolve, PlacesOK, Evolves;
    if pc.SeekSent? {
      SeekStable(h, t, h', t', k, seen, seen', job, pc);
    } else {
      RecStable(i, h, t, pl, h', pl', k, seen, seen', pc.rec);
      if pc.TagSibling? || pc.LoadSibling? || pc.CasSplice? {
        CleanStable(h, t, h', t', k, seen, seen', job, pc);
      } else {
        SeekStable(h, t, h', t', k, seen, seen', job, pc);
      }
    }
  }

  // ---------------------------------------------------------------- the retire walk

  lemma {:induction false} CutFrame(h: Heap, h': Heap, a: Addr, sib: Addr, t: Tree)
    requires CutRep(h, a, sib, t)
    requires forall x :: x in Addrs(t) && x in h ==>
               x in h' && h'[x].left.ptr == h[x].left.ptr && h'[x].right.ptr == h[x].right.ptr
    ensures CutRep(h', a, sib, t)
    decreases t
  {
    match t
    case Nil =>
    case T(_, l, r) =>
      CutFrame(h, h', h[a].left.ptr, sib, l);
      CutFrame(h, h', h[a].right.ptr, sib, r);
  }

  lemma {:induction false} InForest(f: seq<Tree>, j: int)
    requires 0 <= j < |f|
    ensures Addrs(f[j]) <= ForestAddrs(f)
  {
    if j < |f| - 1 {
      InForest(f[..|f| - 1], j);
    }
  }

  /** The pointers of an unlinked node never change again. */
  lemma {:induction false} GoneStays(i: Tid, h: Heap, t: Tree, pl: map<Addr, Place>, h': Heap, pl': map<Addr, Place>,
      x: Addr)
    requires NodesOK(h) && PlacesOK(h, t, pl) && NodesEvolve(i, h, pl, h', pl') && x in h && Gone(pl[x])
    ensures x in h' && h'[x].left.ptr == h[x].left.ptr && h'[x].right.ptr == h[x].right.ptr
  {
    assert NodeOK(h, x);
  }

  lemma {:induction false} ForestStable(i: Tid, h: Heap, t: Tree, pl: map<Addr, Place>, h': Heap, pl': map<Addr, Place>,
                     u: Tid, stack: seq<Addr>, sib: Addr, f: seq<Tree>, more: set<Addr>)
    requires u != i && NodesOK(h) && PlacesOK(h, t, pl) && NodesEvolve(i, h, pl, h', pl') && pl'.Keys == h'.Keys
    requires Forest(h, pl, u, stack, sib, f, more) && more <= h.Keys
    ensures Forest(h', pl', u, stack, sib, f, more)
  {
    forall j | 0 <= j < |f| ensures CutRep(h', stack[j], sib, f[j]) {
      InForest(f, j);
      forall x | x in Addrs(f[j]) && x in h
        ensures x in h' && h'[x].left.ptr == h[x].left.ptr && h'[x].right.ptr == h[x].right.ptr
      {
        GoneStays(i, h, t, pl, h', pl', x);
      }
      CutFrame(h, h', stack[j], sib, f[j]);
    }
    forall a | a in pl' ensures pl'[a] == Pending(u) <==> a in ForestAddrs(f) || a in more {
      if a !in h {
        assert pl'[a] == Private(i);
        ForestInHeap(h, pl, u, stack, sib, f, more);
      }
    }
  }

  lemma {:induction false} ForestInHeap(h: Heap, pl: map<Addr, Place>, u: Tid, stack: seq<Addr>, sib: Addr,
      f: seq<Tree>, more: set<Addr>)
    requires |f| == |stack| && forall j :: 0 <= j < |f| ==> CutRep(h, stack[j], sib, f[j])
    ensures forall a :: a in ForestAddrs(f) ==> a in h
    decreases |f|
  {
    if f != [] {
      ForestInHeap(h, pl, u, stack[..|f| - 1], sib, f[..|f| - 1], more);
    }
  }

  lemma {:induction false} RightStable(i: Tid, h: Heap, t: Tree, pl: map<Addr, Place>, h': Heap, pl': map<Addr, Place>,
                    u: Tid, stack: seq<Addr>, sib: Addr, n: Addr, f: seq<Tree>, w: Tree)
    requires u != i && NodesOK(h) && PlacesOK(h, t, pl) && NodesEvolve(i, h, pl, h', pl') && pl'.Keys == h'.Keys
    requires n in h && Forest(h, pl, u, stack, sib, f, {n} + Addrs(w)) && CutRep(h, h[n].right.ptr, sib, w)
    ensures n in h' && Forest(h', pl', u, stack, sib, f, {n} + Addrs(w)) && CutRep(h', h'[n].right.ptr, sib, w)
  {
    ForestStable(i, h, t, pl, h', pl', u, stack, sib, f, {n} + Addrs(w));
    GoneStays(i, h, t, pl, h', pl', n);
    forall x | x in Addrs(w) && x in h
      ensures x in h' && h'[x].left.ptr == h[x].left.ptr && h'[x].right.ptr == h[x].right.ptr
    {
      assert x in {n} + Addrs(w);
      GoneStays(i, h, t, pl, h', pl', x);
    }
    CutFrame(h, h', h[n].right.ptr, sib, w);
  }

  lemma {:induction false} WalkStable(i: Tid, h: Heap, t: Tree, pl: map<Addr, Place>, h': Heap, pl': map<Addr, Place>,
      u: Tid, pc: Pc)
    requires u != i && NodesOK(h) && PlacesOK(h, t, pl) && NodesEvolve(i, h, pl, h', pl') && pl'.Keys == h'.Keys
    requires WalkOK(h, pl, u, pc)
    ensures WalkOK(h', pl', u, pc)
  {
    hide Addrs, Forest, Evolves, NodesOK, PlacesOK, CutRep, Distinct;
    if pc.WalkPop? {
      var f :| Forest(h, pl, u, pc.stack, pc.sib, f, {});
      ForestStable(i, h, t, pl, h', pl', u, pc.stack, pc.sib, f, {});
    } else if pc.WalkRight? {
      var n := pc.node;
      var f, w :| Forest(h, pl, u, pc.stack, pc.sib, f, {n} + Addrs(w)) && CutRep(h, h[n].right.ptr, pc.sib, w)
                  && Distinct(w) && n !in Addrs(w);
      RightStable(i, h, t, pl, h', pl', u, pc.stack, pc.sib, n, f, w);
    }
  }

  // ---------------------------------------------------------------- a thread is not disturbed by the others

  /** While the flagged leaf is in the tree, it is the only leaf that searches for its key meet. */
  lemma {:induction false} OnlyLeafStable(h: Heap, t: Tree, k: int, l: Addr, a: Addr)
    requires Rep(h, ROOT, t) && Full(t) && Ordered(h, t) && l in Addrs(t) && a in Path(h, t, k)
    requires FiniteLeaf(h, l) && h[l].key == Fin(k) && h[l].value.Some? && a in h && h[a].Leaf()
    ensures a == l
  {
    LeafOnPath(h, ROOT, t, l);
    OneLeafOnPath(h, ROOT, t, k, a, l);
  }

  /** The edge of the tree that leads to a flagged leaf is the flagged one. */
  lemma {:induction false} EdgeToFlagged(h: Heap, t: Tree, a: Addr, d: Dir)
    requires Rep(h, ROOT, t) && Distinct(t) && a in Addrs(t) && h[a].At(d).ptr != NULL && Flagged(h, t, h[a].At(d).ptr)
    ensures h[a].At(d).flag
  {
    var b, e :| b in Addrs(t) && b in h && h[b].At(e).flag && h[b].At(e).ptr == h[a].At(d).ptr;
    OneParent(h, ROOT, t, a, d, b, e);
  }

  /** A node that passed the search on to the flagged leaf did so by a flagged edge. */
  lemma {:induction false} FlagPassedOn(i: Tid, h: Heap, t: Tree, pl: map<Addr, Place>, h': Heap, t': Tree,
      pl': map<Addr, Place>, k: int, l: Addr, seen: set<Addr>, a: Addr)
    requires Rep(h, ROOT, t) && Distinct(t) && PlacesOK(h, t, pl) && PlacesOK(h', t', pl')
      && Rely(i, h, t, pl, h', t', pl')
    requires SeenOK(h, t, pl, k, seen) && a in seen && a in h' && h'[a].Internal() && a !in Addrs(t')
    requires Onward(h', a, k).ptr == l && l != NULL && (l in Addrs(t) ==> Flagged(h, t, l))
    requires a !in Addrs(t) && h[a].Internal() && Onward(h, a, k).ptr == l ==> Onward(h, a, k).flag
    ensures Onward(h', a, k).flag
  {
    SeenStableAt(i, h, t, pl, h', t', pl', k, seen, a);
    if a in Addrs(t) {
      assert h'[a] == h[a];
      KidIn(h, ROOT, t, a, Goes(h, a, k));
      EdgeToFlagged(h, t, a, Goes(h, a, k));
    } else {
      assert h[a].Frozen();
    }
  }

  lemma {:induction false} PurgeSeekStable(i: Tid, h: Heap, t: Tree, pl: map<Addr, Place>, h': Heap, t': Tree,
      pl': map<Addr, Place>, job: Job, pc: Pc, seen: set<Addr>)
    requires Rep(h, ROOT, t) && Distinct(t) && PlacesOK(h, t, pl)
    requires Rep(h', ROOT, t') && Full(t') && Ordered(h', t') && PlacesOK(h', t', pl') && Rely(i, h, t, pl, h', t', pl')
    requires job.Purge? && Seeking(pc) && SeenOK(h, t, pl, job.k, seen) && PurgeSeek(h, t, job, pc, seen)
    requires job.leaf in h && Public(pl[job.leaf]) && FiniteLeaf(h', job.leaf) && h'[job.leaf].key == Fin(job.k)
    requires h'[job.leaf].value.Some? && job.leaf != NULL
    requires job.leaf in Addrs(t) ==> Flagged(h, t, job.leaf)
    ensures PurgeSeek(h', t', job, pc, seen + Path(h', t', job.k))
  {
    hide Ordered, Full, Distinct, Rep, Path, Rely, PlacesOK, SeenOK, Flagged, FiniteLeaf;
    var k, l := job.k, job.leaf;
    SeenEvolves(i, h, t, pl, h', t', pl', k, seen);
    BackInTree(i, h, t, pl, h', t', pl', l);
    if l in Addrs(t') {
      forall a | a in seen + Path(h', t', k) && a in h' && h'[a].Leaf() ensures a == l {
        if a !in seen {
          OnlyLeafStable(h', t', k, l, a);
        }
      }
    }
    forall a | a in seen + Path(h', t', k) && a in h' && h'[a].Internal() && a !in Addrs(t')
      && Onward(h', a, k).ptr == l
      ensures Onward(h', a, k).flag
    {
      PathIn(h', t', k);
      FlagPassedOn(i, h, t, pl, h', t', pl', k, l, seen, a);
    }
  }

  /** A seen node is in the heap, and stays a leaf or an internal node. */
  lemma {:induction false} SeenEvolves(i: Tid, h: Heap, t: Tree, pl: map<Addr, Place>, h': Heap, t': Tree,
      pl': map<Addr, Place>, k: int, seen: set<Addr>)
    requires SeenOK(h, t, pl, k, seen) && Rely(i, h, t, pl, h', t', pl')
    ensures forall a :: a in seen ==> a in h && a in h' && (h'[a].Leaf() <==> h[a].Leaf())
  {
    hide Path, Addrs, PathsKept, FlagsKept;
  }

  /** A published node that is in the tree was there before the step. */
  lemma {:induction false} BackInTree(i: Tid, h: Heap, t: Tree, pl: map<Addr, Place>, h': Heap, t': Tree,
      pl': map<Addr, Place>, l: Addr)
    requires PlacesOK(h, t, pl) && PlacesOK(h', t', pl') && Rely(i, h, t, pl, h', t', pl') && l in h && Public(pl[l])
    ensures l in Addrs(t') ==> l in Addrs(t)
  {
    hide Addrs, PathsKept, FlagsKept;
  }

  lemma {:induction false} PrivateStable(i: Tid, h: Heap, pl: map<Addr, Place>, h': Heap,
      pl': map<Addr, Place>, u: Tid, job: Job, pc: Pc)
    requires u != i && NodesEvolve(i, h, pl, h', pl') && pl.Keys == h.Keys && pl'.Keys == h'.Keys
    requires PrivateOK(h, pl, u, job, pc)
    ensures PrivateOK(h', pl', u, job, pc)
  {
    forall a | a in pl' && pl'[a] == Private(u) ensures a in pl && pl[a] == Private(u) {
      if a in h {
        assert pl[a] != Private(i);
      }
    }
  }

  lemma {:induction false} JobStable(i: Tid, h: Heap, t: Tree, pl: map<Addr, Place>, h': Heap,
      pl': map<Addr, Place>, claimed: set<Addr>, claimed': set<Addr>, job: Job)
    requires PlacesOK(h, t, pl) && NodesEvolve(i, h, pl, h', pl') && claimed <= claimed' && ClaimsOK(h, t, pl, claimed)
    requires NodesOK(h)
    requires PurgeOK(h, job, claimed)
    ensures PurgeOK(h', job, claimed')
    ensures job.Purge? ==> job.leaf in h && job.leaf in pl && Public(pl[job.leaf]) && FiniteLeaf(h', job.leaf)
    ensures job.Purge? ==> job.leaf != NULL
  {
    if job.Purge? {
      assert Evolves(h[job.leaf], h'[job.leaf]);
    }
  }

  lemma {:induction false} BusyStable(i: Tid, h: Heap, t: Tree, pl: map<Addr, Place>, h': Heap, t': Tree,
      pl': map<Addr, Place>, claimed: set<Addr>, claimed': set<Addr>, u: Tid, th: Thread, seen: set<Addr>)
    requires ShapeOK(h, t) && PlacesOK(h, t, pl) && ShapeOK(h', t') && PlacesOK(h', t', pl') && NodesOK(h)
    requires Rely(i, h, t, pl, h', t', pl')
    requires u != i && claimed <= claimed' && ClaimsOK(h, t, pl, claimed) && !th.job.NoJob?
    requires PrivateOK(h, pl, u, th.job, th.pc)
    requires SeenOK(h, t, pl, th.job.k, seen) && PcOK(h, t, th.job.k, seen, th.job, th.pc)
    requires PurgeOK(h, th.job, claimed) && PurgeSeek(h, t, th.job, th.pc, seen)
    ensures var s := seen + Path(h', t', th.job.k);
            && SeenOK(h', t', pl', th.job.k, s) && PcOK(h', t', th.job.k, s, th.job, th.pc)
            && PurgeOK(h', th.job, claimed') && PurgeSeek(h', t', th.job, th.pc, s)
  {
    var s := seen + Path(h', t', th.job.k);
    JobStable(i, h, t, pl, h', pl', claimed, claimed', th.job);
    SeenStable(i, h, t, pl, h', t', pl', th.job.k, seen);
    PcStable(i, h, t, pl, h', t', pl', th.job.k, seen, s, u, th.job, th.pc);
    if th.job.Purge? && Seeking(th.pc) {
      PurgeSeekStable(i, h, t, pl, h', t', pl', th.job, th.pc, seen);
    }
  }

  /** Rely-guarantee: whatever `i` does under `Rely` leaves another thread's invariant intact. */
  lemma {:induction false} ThreadStable(i: Tid, h: Heap, t: Tree, pl: map<Addr, Place>, h': Heap, t': Tree,
      pl': map<Addr, Place>, claimed: set<Addr>, claimed': set<Addr>, u: Tid, th: Thread, seen: set<Addr>)
    requires HeapOK(h, t, pl) && HeapOK(h', t', pl') && Rely(i, h, t, pl, h', t', pl')
    requires u != i && claimed <= claimed' && ClaimsOK(h, t, pl, claimed)
    requires ThreadOK(h, t, pl, claimed, u, th, seen)
    ensures ThreadOK(h', t', pl', claimed', u, th, Watch(seen, th, false, h'))
  {
    PrivateStable(i, h, pl, h', pl', u, th.job, th.pc);
    WalkStable(i, h, t, pl, h', pl', u, th.pc);
    if !th.job.NoJob? {
      ShapeIs(h', t');
      BusyStable(i, h, t, pl, h', t', pl', claimed, claimed', u, th, seen);
    }
  }
}
