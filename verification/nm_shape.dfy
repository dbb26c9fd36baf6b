/**
  The heap of the Natarajan-Mittal tree and the tree shape it represents.

  A node is one allocation; an edge is one atomic word holding a pointer and the two mark bits.
  `Rep` relates a heap to the (unique) finite tree that hangs off an address, and every statement
  about reachability, search paths and contents is made about that tree.
 */
module NMShape {

  /** Addresses stand for pointers; zero is the null pointer, and no address is used twice. */
  type Addr = nat
  const NULL: Addr := 0

  /** The values stored in the map. */
  type V(==, !new)

  datatype Option<T> = None | Some(value: T)

  /** A key is finite or the infinite key shared by every sentinel. */
  datatype Key = Fin(k: int) | Inf

  /** `Key::cmp(k) == Greater`. */
  predicate Above(key: Key, k: int) {
    key.Inf? || key.k > k
  }

  datatype Dir = L | R

  function Other(d: Dir): Dir {
    if d == L then R else L
  }

  /** One atomic word: a pointer with a flag bit and a tag bit. */
  datatype Edge = Edge(ptr: Addr, flag: bool, tag: bool) {
    predicate Marked() { flag || tag }
  }

  function Plain(a: Addr): Edge {
    Edge(a, false, false)
  }

  datatype Node = Node(key: Key, value: Option<V>, left: Edge, right: Edge) {
    function At(d: Dir): Edge {
      if d == L then left else right
    }

    function Put(d: Dir, e: Edge): Node {
      if d == L then this.(left := e) else this.(right := e)
    }

    predicate Leaf() {
      left.ptr == NULL && right.ptr == NULL
    }

    predicate Internal() {
      left.ptr != NULL && right.ptr != NULL
    }

    /** Both edges carry a mark, so neither pointer can change any more. */
    predicate Frozen() {
      left.Marked() && right.Marked()
    }
  }

  type Heap = map<Addr, Node>

  /** The direction in which a search for `k` leaves the node at `a`. */
  function Goes(h: Heap, a: Addr, k: int): Dir {
    if a in h && !Above(h[a].key, k) then R else L
  }

  datatype Tree = Nil | T(a: Addr, l: Tree, r: Tree) {
    function Kid(d: Dir): Tree {
      if Nil? then Nil else if d == L then l else r
    }
  }

  function Addrs(t: Tree): set<Addr> {
    match t
    case Nil => {}
    case T(a, l, r) => {a} + Addrs(l) + Addrs(r)
  }

  /** `t` is the tree found by following pointers from `a`. */
  ghost predicate Rep(h: Heap, a: Addr, t: Tree)
    ensures Rep(h, a, t) ==> forall x :: x in Addrs(t) ==> x in h && x != NULL
    decreases t
  {
    match t
    case Nil => a == NULL
    case T(b, l, r) => a == b && a != NULL && a in h && Rep(h, h[a].left.ptr, l) && Rep(h, h[a].right.ptr, r)
  }

  /** No address occurs twice. */
  ghost predicate Distinct(t: Tree) {
    match t
    case Nil => true
    case T(a, l, r) => a !in Addrs(l) && a !in Addrs(r) && Addrs(l) !! Addrs(r) && Distinct(l) && Distinct(r)
  }

  /** Every node has two children or none: the tree is external. */
  ghost predicate Full(t: Tree) {
    match t
    case Nil => true
    case T(a, l, r) => l.Nil? == r.Nil? && Full(l) && Full(r)
  }

  /** The nodes visited by a search for `k`. */
  ghost function Path(h: Heap, t: Tree, k: int): set<Addr> {
    match t
    case Nil => {}
    case T(a, l, r) => {a} + Path(h, t.Kid(Goes(h, a, k)), k)
  }

  /** The binding held by one leaf. */
  ghost function Binding(h: Heap, a: Addr): map<int, V> {
    if a in h && h[a].key.Fin? && h[a].value.Some? then map[h[a].key.k := h[a].value.value] else map[]
  }

  /** The map a tree stands for: the bindings of its finite leaves. */
  ghost function Contents(h: Heap, t: Tree): map<int, V> {
    match t
    case Nil => map[]
    case T(a, l, r) => if l.Nil? && r.Nil? then Binding(h, a) else Contents(h, l) + Contents(h, r)
  }

  /** Searches for the finite keys below a node turn towards them. */
  ghost predicate Ordered(h: Heap, t: Tree) {
    match t
    case Nil => true
    case T(a, l, r) =>
      && (forall k :: k in Contents(h, l) ==> Goes(h, a, k) == L)
      && (forall k :: k in Contents(h, r) ==> Goes(h, a, k) == R)
      && Ordered(h, l) && Ordered(h, r)
  }

  /** The subtree rooted at `a`. */
  ghost function Sub(t: Tree, a: Addr): Tree {
    match t
    case Nil => Nil
    case T(b, l, r) => if a == b then t else if a in Addrs(l) then Sub(l, a) else Sub(r, a)
  }

  /** `t` with the `d` child of the node `p` replaced by `u`. */
  ghost function Graft(t: Tree, p: Addr, d: Dir, u: Tree): Tree {
    match t
    case Nil => Nil
    case T(a, l, r) =>
      if a == p then (if d == L then T(a, u, r) else T(a, l, u))
      else T(a, Graft(l, p, d, u), Graft(r, p, d, u))
  }

  // ---------------------------------------------------------------- representation

  lemma {:induction false} RepUnique(h: Heap, a: Addr, t: Tree, u: Tree)
    requires Rep(h, a, t) && Rep(h, a, u)
    ensures t == u
    decreases t
  {
    match t
    case Nil =>
    case T(_, l, r) =>
      RepUnique(h, h[a].left.ptr, l, u.l);
      RepUnique(h, h[a].right.ptr, r, u.r);
  }

  lemma {:induction false} RepFrame(h: Heap, h': Heap, a: Addr, t: Tree)
    requires Rep(h, a, t)
    requires forall x :: x in Addrs(t) && x in h ==>
               x in h' && h'[x].left.ptr == h[x].left.ptr && h'[x].right.ptr == h[x].right.ptr
    ensures Rep(h', a, t)
    decreases t
  {
    match t
    case Nil =>
    case T(_, l, r) =>
      RepFrame(h, h', h[a].left.ptr, l);
      RepFrame(h, h', h[a].right.ptr, r);
  }

  lemma {:induction false} SubRep(h: Heap, a: Addr, t: Tree, x: Addr)
    requires Rep(h, a, t) && x in Addrs(t)
    ensures Rep(h, x, Sub(t, x)) && Sub(t, x).T? && Sub(t, x).a == x
    ensures Addrs(Sub(t, x)) <= Addrs(t)
    ensures Distinct(t) ==> Distinct(Sub(t, x))
    ensures Full(t) ==> Full(Sub(t, x))
    ensures Ordered(h, t) ==> Ordered(h, Sub(t, x))
    decreases t
  {
    match t
    case T(b, l, r) =>
      if x == b {
      } else if x in Addrs(l) {
        SubRep(h, h[a].left.ptr, l, x);
      } else {
        SubRep(h, h[a].right.ptr, r, x);
      }
  }

  /** A node of the tree has its children in the tree. */
  lemma {:induction false} KidIn(h: Heap, a: Addr, t: Tree, x: Addr, d: Dir)
    requires Rep(h, a, t) && x in Addrs(t) && h[x].At(d).ptr != NULL
    ensures h[x].At(d).ptr in Addrs(t)
  {
    SubRep(h, a, t, x);
    var u := Sub(t, x);
    assert Rep(h, h[x].At(d).ptr, u.Kid(d));
  }

  lemma {:induction false} SubSub(t: Tree, x: Addr, y: Addr)
    requires Distinct(t) && x in Addrs(t) && y in Addrs(Sub(t, x))
    ensures y in Addrs(t) && Sub(Sub(t, x), y) == Sub(t, y)
  {
    match t
    case T(b, l, r) =>
      if x == b {
      } else if x in Addrs(l) {
        SubSub(l, x, y);
      } else {
        SubSub(r, x, y);
      }
  }

  /** In a tree without repeated addresses, a node hangs from one edge only. */
  lemma {:induction false} OneParent(h: Heap, a: Addr, t: Tree, x: Addr, d: Dir, y: Addr, e: Dir)
    requires Rep(h, a, t) && Distinct(t) && x in Addrs(t) && y in Addrs(t)
    requires h[x].At(d).ptr != NULL && h[x].At(d).ptr == h[y].At(e).ptr
    ensures x == y && d == e
    decreases t
  {
    var c := h[x].At(d).ptr;
    match t
    case T(b, l, r) =>
      SideOf(h, a, t, x, d);
      SideOf(h, a, t, y, e);
      if x == b || y == b {
        if x != b { NotRoot(h, a, t, x, d, e); }
        if y != b { NotRoot(h, a, t, y, e, d); }
      } else if x in Addrs(l) {
        OneParent(h, h[a].left.ptr, l, x, d, y, e);
      } else {
        OneParent(h, h[a].right.ptr, r, x, d, y, e);
      }
  }

  /** The child of a node below the root lies on the same side as the node. */
  lemma {:induction false} SideOf(h: Heap, a: Addr, t: Tree, x: Addr, d: Dir)
    requires Rep(h, a, t) && Distinct(t) && x in Addrs(t) && h[x].At(d).ptr != NULL
    ensures x == t.a ==> h[x].At(d).ptr in Addrs(t.Kid(d))
    ensures x != t.a && x in Addrs(t.l) ==> h[x].At(d).ptr in Addrs(t.l)
    ensures x != t.a && x in Addrs(t.r) ==> h[x].At(d).ptr in Addrs(t.r)
  {
    if x == t.a {
      assert Rep(h, h[x].At(d).ptr, t.Kid(d));
    } else if x in Addrs(t.l) {
      KidIn(h, h[a].left.ptr, t.l, x, d);
    } else {
      KidIn(h, h[a].right.ptr, t.r, x, d);
    }
  }

  /** No edge below the root leads to a child of the root. */
  lemma {:induction false} NotRoot(h: Heap, a: Addr, t: Tree, x: Addr, d: Dir, e: Dir)
    requires Rep(h, a, t) && Distinct(t) && t.T? && x in Addrs(t) && x != t.a && h[x].At(d).ptr != NULL
    ensures h[x].At(d).ptr != h[a].At(e).ptr
  {
    var u := t.Kid(e);
    var c := h[a].At(e).ptr;
    if h[x].At(d).ptr == c {
      assert Rep(h, c, u) && c in Addrs(u);
      SideOf(h, a, t, x, d);
      NoEdgeToTop(h, c, u, x, d);
    }
  }

  lemma {:induction false} NoEdgeToTop(h: Heap, c: Addr, u: Tree, x: Addr, d: Dir)
    requires Rep(h, c, u) && Distinct(u) && x in Addrs(u) && c != NULL
    ensures h[x].At(d).ptr != c
  {
    if h[x].At(d).ptr == c {
      SideOf(h, c, u, x, d);
    }
  }

  // ---------------------------------------------------------------- search paths

  lemma {:induction false} PathIn(h: Heap, t: Tree, k: int)
    ensures Path(h, t, k) <= Addrs(t)
  {
    match t
    case Nil =>
    case T(a, l, r) => PathIn(h, t.Kid(Goes(h, a, k)), k);
  }

  lemma {:induction false} PathFrame(h: Heap, h': Heap, t: Tree, k: int)
    requires forall x :: x in Addrs(t) ==> Goes(h', x, k) == Goes(h, x, k)
    ensures Path(h', t, k) == Path(h, t, k)
  {
    match t
    case Nil =>
    case T(a, l, r) =>
      PathFrame(h, h', l, k);
      PathFrame(h, h', r, k);
  }

  /** A search that reaches a node goes on to the child it turns to. */
  lemma {:induction false} PathStep(h: Heap, a: Addr, t: Tree, k: int, x: Addr)
    requires Rep(h, a, t) && x in Path(h, t, k) && x in h && h[x].At(Goes(h, x, k)).ptr != NULL
    ensures h[x].At(Goes(h, x, k)).ptr in Path(h, t, k)
    decreases t
  {
    match t
    case T(b, l, r) =>
      var d := Goes(h, b, k);
      if x == b {
        assert Rep(h, h[b].At(d).ptr, t.Kid(d));
      } else {
        PathStep(h, h[b].At(d).ptr, t.Kid(d), k, x);
      }
  }

  /** A search path ends in one leaf. */
  lemma {:induction false} OneLeafOnPath(h: Heap, a: Addr, t: Tree, k: int, x: Addr, y: Addr)
    requires Rep(h, a, t) && Full(t) && x in Path(h, t, k) && y in Path(h, t, k)
    requires x in h && y in h && h[x].Leaf() && h[y].Leaf()
    ensures x == y
    decreases t
  {
    match t
    case T(b, l, r) =>
      var d := Goes(h, b, k);
      if x != b && y != b {
        OneLeafOnPath(h, h[b].At(d).ptr, t.Kid(d), k, x, y);
      } else {
        assert Rep(h, h[b].left.ptr, l) && Rep(h, h[b].right.ptr, r);
      }
  }

  /** The leaf holding a finite key ends the search for that key. */
  lemma {:induction false} LeafOnPath(h: Heap, a: Addr, t: Tree, x: Addr)
    requires Rep(h, a, t) && Ordered(h, t) && x in Addrs(t)
    requires h[x].Leaf() && h[x].key.Fin? && h[x].value.Some?
    ensures h[x].key.k in Contents(h, t) && Contents(h, t)[h[x].key.k] == h[x].value.value
    ensures x in Path(h, t, h[x].key.k)
    decreases t
  {
    match t
    case T(b, l, r) =>
      if x == b {
      } else if x in Addrs(l) {
        LeafOnPath(h, h[b].left.ptr, l, x);
        assert h[b].left.ptr != NULL;
      } else {
        LeafOnPath(h, h[b].right.ptr, r, x);
        assert h[b].right.ptr != NULL;
      }
  }

  /** What the leaf at the end of a search says about the map. */
  lemma {:induction false} LeafAnswers(h: Heap, a: Addr, t: Tree, k: int, x: Addr)
    requires Rep(h, a, t) && Full(t) && Ordered(h, t) && x in Path(h, t, k) && x in h && h[x].Leaf()
    ensures k in Contents(h, t) <==> h[x].key == Fin(k) && h[x].value.Some?
    ensures k in Contents(h, t) ==> Contents(h, t)[k] == h[x].value.value
    decreases t
  {
    match t
    case T(b, l, r) =>
      if l.Nil? {
        assert x == b;
      } else {
        var d := Goes(h, b, k);
        assert x != b;
        LeafAnswers(h, h[b].At(d).ptr, t.Kid(d), k, x);
      }
  }

  // ---------------------------------------------------------------- contents

  lemma {:induction false} ContentsFrame(h: Heap, h': Heap, t: Tree)
    requires forall x :: x in Addrs(t) ==> x in h && x in h' && h'[x].key == h[x].key && h'[x].value == h[x].value
    ensures Contents(h', t) == Contents(h, t)
    ensures Ordered(h, t) ==> Ordered(h', t)
  {
    match t
    case Nil =>
    case T(a, l, r) =>
      ContentsFrame(h, h', l);
      ContentsFrame(h, h', r);
  }

  /** Every key of a subtree is searched for through that subtree's parent edge. */
  lemma {:induction false} KeysThrough(h: Heap, a: Addr, t: Tree, p: Addr, d: Dir, k: int)
    requires Rep(h, a, t) && Distinct(t) && Full(t) && Ordered(h, t) && p in Addrs(t)
    requires k in Contents(h, Sub(t, p).Kid(d))
    ensures k in Contents(h, t) && p in Path(h, t, k) && Goes(h, p, k) == d
    ensures Contents(h, t)[k] == Contents(h, Sub(t, p).Kid(d))[k]
    decreases t
  {
    SubRep(h, a, t, p);
    match t
    case T(b, l, r) =>
      if p == b {
      } else if p in Addrs(l) {
        KeysThrough(h, h[b].left.ptr, l, p, d, k);
      } else {
        KeysThrough(h, h[b].right.ptr, r, p, d, k);
      }
  }

  // ---------------------------------------------------------------- grafting

  lemma {:induction false} GraftMiss(t: Tree, p: Addr, d: Dir, u: Tree)
    requires p !in Addrs(t)
    ensures Graft(t, p, d, u) == t
  {
    match t
    case Nil =>
    case T(_, l, r) =>
      GraftMiss(l, p, d, u);
      GraftMiss(r, p, d, u);
  }

  lemma {:induction false} GraftAddrs(t: Tree, p: Addr, d: Dir, u: Tree)
    requires Distinct(t) && p in Addrs(t) && Sub(t, p).T?
    requires Distinct(u) && Addrs(u) !! (Addrs(t) - Addrs(Sub(t, p).Kid(d)))
    ensures Addrs(Graft(t, p, d, u)) == Addrs(t) - Addrs(Sub(t, p).Kid(d)) + Addrs(u)
    ensures Distinct(Graft(t, p, d, u))
    ensures Addrs(Sub(t, p).Kid(d)) <= Addrs(t) - {p}
  {
    match t
    case T(b, l, r) =>
      if p == b {
      } else if p in Addrs(l) {
        GraftAddrs(l, p, d, u);
        GraftMiss(r, p, d, u);
      } else {
        GraftAddrs(r, p, d, u);
        GraftMiss(l, p, d, u);
      }
  }

  lemma {:induction false} GraftFull(t: Tree, p: Addr, d: Dir, u: Tree)
    requires Full(t) && Full(u) && u.T?
    requires p in Addrs(t) ==> Sub(t, p).T? && Sub(t, p).l.T?
    requires Distinct(t)
    ensures Full(Graft(t, p, d, u)) && Graft(t, p, d, u).Nil? == t.Nil?
  {
    match t
    case Nil =>
    case T(b, l, r) =>
      if p == b {
      } else {
        GraftFull(l, p, d, u);
        GraftFull(r, p, d, u);
      }
  }

  lemma {:induction false} GraftRep(h: Heap, h': Heap, a: Addr, t: Tree, p: Addr, d: Dir, e: Edge, u: Tree)
    requires Rep(h, a, t) && Distinct(t) && p in Addrs(t) && p in h'
    requires h'[p] == h[p].Put(d, e) && Rep(h', e.ptr, u)
    requires forall x :: x in h && x != p && x in Addrs(t) ==>
               x in h' && h'[x].left.ptr == h[x].left.ptr && h'[x].right.ptr == h[x].right.ptr
    ensures Rep(h', a, Graft(t, p, d, u))
    decreases t
  {
    match t
    case T(b, l, r) =>
      if p == b {
        if d == L { RepFrame(h, h', h[a].right.ptr, r); } else { RepFrame(h, h', h[a].left.ptr, l); }
      } else if p in Addrs(l) {
        GraftRep(h, h', h[a].left.ptr, l, p, d, e, u);
        GraftMiss(r, p, d, u);
        RepFrame(h, h', h[a].right.ptr, r);
      } else {
        GraftRep(h, h', h[a].right.ptr, r, p, d, e, u);
        GraftMiss(l, p, d, u);
        RepFrame(h, h', h[a].left.ptr, l);
      }
  }

  /** Search paths change only below the edge that was replaced. */
  lemma {:induction false} GraftPath(h: Heap, a: Addr, t: Tree, p: Addr, d: Dir, u: Tree, k: int)
    requires Rep(h, a, t) && Distinct(t) && p in Addrs(t)
    ensures p in Path(h, t, k) && Goes(h, p, k) == d ==>
              Path(h, Graft(t, p, d, u), k) == Path(h, t, k) - Addrs(Sub(t, p).Kid(d)) + Path(h, u, k)
    ensures !(p in Path(h, t, k) && Goes(h, p, k) == d) ==> Path(h, Graft(t, p, d, u), k) == Path(h, t, k)
    decreases t
  {
    var g := Goes(h, t.a, k);
    var c := t.Kid(g);
    PathIn(h, c, k);
    if p == t.a {
      GraftPathTop(h, a, t, d, u, k);
    } else if p in Addrs(c) {
      SubRep(h, h[a].At(g).ptr, c, p);
      GraftPath(h, h[a].At(g).ptr, c, p, d, u, k);
      assert Sub(t, p) == Sub(c, p);
      assert Graft(t, p, d, u).Kid(g) == Graft(c, p, d, u);
      assert t.a !in Addrs(Sub(c, p).Kid(d));
      AddTop(t.a, Path(h, c, k), Addrs(Sub(c, p).Kid(d)), Path(h, u, k));
    } else {
      GraftMiss(c, p, d, u);
      assert Graft(t, p, d, u).Kid(g) == c;
      hide Addrs, Rep, Distinct, Graft, Sub;
    }
  }

  lemma {:induction false} AddTop(a: Addr, path: set<Addr>, off: set<Addr>, on: set<Addr>)
    requires a !in off
    ensures {a} + (path - off + on) == {a} + path - off + on
  {
  }

  lemma {:induction false} GraftPathTop(h: Heap, a: Addr, t: Tree, d: Dir, u: Tree, k: int)
    requires Rep(h, a, t) && Distinct(t) && t.T?
    ensures Goes(h, t.a, k) == d ==>
      Path(h, Graft(t, t.a, d, u), k) == Path(h, t, k) - Addrs(Sub(t, t.a).Kid(d)) + Path(h, u, k)
    ensures Goes(h, t.a, k) != d ==> Path(h, Graft(t, t.a, d, u), k) == Path(h, t, k)
    ensures t.a in Path(h, t, k)
  {
    PathIn(h, t.Kid(Goes(h, t.a, k)), k);
    hide Rep;
  }

  lemma {:induction false} MapSwap(o: map<int, V>, r: map<int, V>, u: map<int, V>)
    requires forall k :: k in r ==> k !in o && k !in u
    ensures o + r == r + o && u + r == r + u
    ensures (o + r) - o.Keys + u == u + r
  {
    forall k | k in r.Keys ensures k !in o.Keys && k !in u.Keys {
      assert k in r;
    }
    assert (o + r) - o.Keys == r;
  }

  lemma {:induction false} MapSwapIn(c: map<int, V>, x: set<int>, u: map<int, V>, r: map<int, V>)
    requires x <= c.Keys && forall k :: k in r ==> k !in c && k !in u
    ensures c + r == r + c && (c - x + u) + r == r + (c - x + u)
    ensures (c + r) - x + u == (c - x + u) + r
  {
    forall k | k in r.Keys ensures k !in c.Keys && k !in u.Keys {
      assert k in r;
    }
    assert (c + r) - x == (c - x) + r;
  }

  /** Replacing a child replaces its bindings and no others, and keeps the order. */
  lemma {:induction false} GraftContents(h: Heap, a: Addr, t: Tree, p: Addr, d: Dir, u: Tree)
    requires Rep(h, a, t) && Distinct(t) && Full(t) && Ordered(h, t) && p in Addrs(t)
    requires Sub(t, p).T? && Sub(t, p).l.T? && u.T? && Ordered(h, u)
    requires forall k :: k in Contents(h, u) ==> p in Path(h, t, k) && Goes(h, p, k) == d
    ensures Contents(h, Graft(t, p, d, u)) == Contents(h, t) - Contents(h, Sub(t, p).Kid(d)).Keys + Contents(h, u)
    ensures Ordered(h, Graft(t, p, d, u))
    decreases t, 1
  {
    if p == t.a {
      assert forall k :: k in Contents(h, t.Kid(d)) ==> Goes(h, p, k) == d;
      assert forall k :: k in Contents(h, t.Kid(Other(d))) ==> Goes(h, p, k) == Other(d);
      MapSwap(Contents(h, t.Kid(d)), Contents(h, t.Kid(Other(d))), Contents(h, u));
    } else if p in Addrs(t.l) {
      GraftSide(h, a, t, L, p, d, u);
    } else {
      GraftSide(h, a, t, R, p, d, u);
    }
  }

  lemma {:induction false} GraftSide(h: Heap, a: Addr, t: Tree, side: Dir, p: Addr, d: Dir, u: Tree)
    requires Rep(h, a, t) && Distinct(t) && Full(t) && Ordered(h, t) && p in Addrs(t)
    requires t.a != p && p in Addrs(t.Kid(side))
    requires Sub(t, p).T? && Sub(t, p).l.T? && u.T? && Ordered(h, u)
    requires forall k :: k in Contents(h, u) ==> p in Path(h, t, k) && Goes(h, p, k) == d
    ensures Contents(h, Graft(t, p, d, u)) == Contents(h, t) - Contents(h, Sub(t, p).Kid(d)).Keys + Contents(h, u)
    ensures Ordered(h, Graft(t, p, d, u))
    decreases t, 0
  {
    var c := t.Kid(side);
    var o := t.Kid(Other(side));
    forall k | k in Contents(h, u) ensures p in Path(h, c, k) && Goes(h, t.a, k) == side {
      PathIn(h, o, k);
    }
    assert Sub(t, p) == Sub(c, p);
    GraftContents(h, h[a].At(side).ptr, c, p, d, u);
    GraftMiss(o, p, d, u);
    var g := Graft(c, p, d, u);
    assert Graft(t, p, d, u).Kid(side) == g && Graft(t, p, d, u).Kid(Other(side)) == o;
    KeysIn(h, h[a].At(side).ptr, c, p, d);
    assert forall k :: k in Contents(h, c) ==> Goes(h, t.a, k) == side;
    assert forall k :: k in Contents(h, o) ==> Goes(h, t.a, k) == Other(side);
    MapSwapIn(Contents(h, c), Contents(h, Sub(c, p).Kid(d)).Keys, Contents(h, u), Contents(h, o));
  }

  lemma {:induction false} KeysIn(h: Heap, a: Addr, t: Tree, p: Addr, d: Dir)
    requires Rep(h, a, t) && Distinct(t) && Full(t) && Ordered(h, t) && p in Addrs(t)
    ensures Contents(h, Sub(t, p).Kid(d)).Keys <= Contents(h, t).Keys
  {
    forall k | k in Contents(h, Sub(t, p).Kid(d)) ensures k in Contents(h, t) {
      KeysThrough(h, a, t, p, d, k);
    }
  }
}
