/**
  Rotations: what `mk_balanced` builds, for every interference by other threads.
 */
module BonsaiBalance {
  import opened BonsaiTree
  import opened BonsaiBuild

  // ---------------------------------------------------------------- specifications

  /** The lists only grow, and every node added to the list of new nodes was allocated by this update. */
  ghost predicate Grows(e: Env, w: Work, w': Work) {
    && |w.created| <= |w'.created| && w'.created[..|w.created|] == w.created
    && (forall i :: |w.created| <= i < |w'.created| ==> w'.created[i] == e.alloc(i))
    && w.retired <= w'.retired && w.clock <= w'.clock && w.peak <= w'.peak
  }

  /** At most `n` shields more than at the start were held at any moment. */
  ghost predicate Within(w: Work, w': Work, n: nat) {
    w'.peak <= w.peak || w'.peak <= |w.held| + n
  }

  /** Node accounting: what was there and what was created is what is there now and what was retired. */
  ghost predicate Ledger(w: Work, w': Work, pre: multiset<Addr>, post: multiset<Addr>) {
    pre + multiset(w'.created) + multiset(w.retired) == post + multiset(w'.retired) + multiset(w.created)
  }

  /** `m` is a tree with the given bindings made out of the given nodes, or it reports a stamp or an ejection. */
  ghost predicate Built(e: Env, w: Work, m: Made<Ref>, pre: multiset<Addr>, items: seq<Item>) {
    && !m.o.Fault? && Grows(e, w, m.w) && |m.w.held| == |w.held|
    && (m.o.Ok? && m.o.v.To? ==>
          && m.o.v.t.Node? && Sized(m.o.v.t) && Items(m.o.v.t) == items && Ledger(w, m.w, pre, Nodes(m.o.v.t))
          && |w.created| < |m.w.created| && m.o.v.t.a == m.w.created[|m.w.created| - 1])
  }

  /** No load of the update finds a stamp in the tree. */
  ghost predicate Clear(e: Env, t: Tree) {
    t.Node? ==> (forall n, d :: Edge(t.a, d) !in e.view(n)) && Clear(e, t.left) && Clear(e, t.right)
  }

  ghost predicate Undisturbed(e: Env) {
    (forall i, n, d :: Edge(e.alloc(i), d) !in e.view(n)) && forall n :: !e.eject(n)
  }

  /** Success, with a tree free of stamps. */
  ghost predicate Smooth(e: Env, m: Made<Ref>) {
    m.o.Ok? && m.o.v.To? && Clear(e, m.o.v.t)
  }

  // ---------------------------------------------------------------- small steps

  lemma {:induction false} SpotOK(e: Env, w: Work, r: Ref)
    ensures var c := Spot(e, w, r);
            && c.w == w.(clock := c.w.clock, safe := c.w.safe) && w.clock <= c.w.clock
            && (r.To? && Clear(e, r.t) ==> !c.bad)
  {
  }

  lemma {:induction false} SpotsOK(e: Env, w: Work, r: Ref, q: Ref)
    ensures var c := Spots(e, w, r, q);
            && c.w == w.(clock := c.w.clock, safe := c.w.safe) && w.clock <= c.w.clock
            && (r.To? && q.To? && Clear(e, r.t) && Clear(e, q.t) ==> !c.bad)
  {
    hide Spot, Clear;
    SpotOK(e, w, r);
    SpotOK(e, Spot(e, w, r).w, q);
  }

  lemma {:induction false} DefendOK(e: Env, w: Work, r: Ref)
    ensures var c := Defend(e, w, r);
            && c.w == w.(defends := c.w.defends, held := c.w.held, peak := c.w.peak, log := c.w.log)
              && w.peak <= c.w.peak
            && |w.held| <= |c.w.held| <= |w.held| + 1 && (c.w.peak <= w.peak || c.w.peak <= |w.held| + 1)
            && (Undisturbed(e) ==> !c.bad)
  {
  }

  lemma {:induction false} DefendTwoOK(e: Env, w: Work, r: Ref, q: Ref)
    ensures var c := DefendTwo(e, w, r, q);
            && c.w == w.(defends := c.w.defends, held := c.w.held, peak := c.w.peak, log := c.w.log)
              && w.peak <= c.w.peak
            && |w.held| <= |c.w.held| <= |w.held| + 2 && (c.w.peak <= w.peak || c.w.peak <= |w.held| + 2)
            && (Undisturbed(e) ==> !c.bad)
  {
    hide Undisturbed;
    DefendOK(e, w, r);
    DefendOK(e, Defend(e, w, r).w, q);
  }

  /** A new node joins the tree and the list of new nodes. */
  lemma {:induction false} MkNodeOK(e: Env, w: Work, left: Ref, right: Ref, key: int, value: V)
    ensures var m := MkNode(e, w, left, right, key, value);
            && m.o.Ok? && Grows(e, w, m.w) && |m.w.held| == |w.held| && m.w.peak == w.peak && m.w.retired == w.retired
            && (m.o.v.To? ==>
                  && left.To? && right.To? && m.w.created == w.created + [e.alloc(|w.created|)]
                  && m.o.v.t == Node(e.alloc(|w.created|), key, value, NodeSize(left.t) + NodeSize(right.t) + 1, left.t,
                    right.t))
            && (left.To? && right.To? && Clear(e, left.t) && Clear(e, right.t) && Undisturbed(e) ==> Smooth(e, m))
  {
    hide Spots;
    SpotsOK(e, w, left, right);
  }

  lemma {:induction false} GrowsTrans(e: Env, w: Work, w1: Work, w2: Work)
    requires Grows(e, w, w1) && Grows(e, w1, w2)
    ensures Grows(e, w, w2)
  {
    assert w2.created[..|w.created|] == w2.created[..|w1.created|][..|w.created|];
    forall i | |w.created| <= i < |w2.created| ensures w2.created[i] == e.alloc(i) {
      assert i < |w1.created| ==> w2.created[i] == w2.created[..|w1.created|][i];
    }
  }

  /** A step that touches neither list. */
  lemma {:induction false} GrowsQuiet(e: Env, w: Work, w': Work)
    requires w'.created == w.created && w'.retired == w.retired && w.clock <= w'.clock && w.peak <= w'.peak
    ensures Grows(e, w, w')
  {
  }

  lemma {:induction false} GrowsRetire(e: Env, w: Work, w': Work, t: Tree)
    requires Grows(e, w, w') && t.Node?
    ensures Grows(e, w, Retire(w', t))
  {
  }

  lemma {:induction false} SizedIs(t: Tree)
    requires Sized(t)
    ensures NodeSize(t) == |Items(t)|
  {
  }

  lemma {:induction false} SizedJoin(t: Tree)
    requires t.Node? && Sized(t.left) && Sized(t.right) && t.size == NodeSize(t.left) + NodeSize(t.right) + 1
    ensures Sized(t)
  {
    SizedIs(t.left);
    SizedIs(t.right);
  }

  // ---------------------------------------------------------------- the ledger, step by step

  lemma {:induction false} LedgerNone(w: Work, w': Work, pre: multiset<Addr>)
    requires w'.created == w.created && w'.retired == w.retired
    ensures Ledger(w, w', pre, pre)
  {
  }

  lemma {:induction false} LedgerMake(w: Work, w': Work, t: Tree)
    requires t.Node? && w'.created == w.created + [t.a] && w'.retired == w.retired
    ensures Ledger(w, w', Nodes(t.left) + Nodes(t.right), Nodes(t))
  {
    assert multiset(w'.created) == multiset(w.created) + multiset{t.a};
    assert Nodes(t.left) + Nodes(t.right) + (multiset(w.created) + multiset{t.a}) + multiset(w.retired)
        == Nodes(t) + multiset(w.retired) + multiset(w.created);
  }

  lemma {:induction false} LedgerRetire(w: Work, w': Work, pre: multiset<Addr>, post: multiset<Addr>, t: Tree)
    requires Ledger(w, w', pre, post) && t.Node?
    ensures Ledger(w, Retire(w', t), pre + multiset{t.a}, post)
  {
    assert multiset(w'.retired + [t.a]) == multiset(w'.retired) + multiset{t.a};
    assert pre + multiset{t.a} + multiset(w'.created) + multiset(w.retired)
        == pre + multiset(w'.created) + multiset(w.retired) + multiset{t.a};
    assert post + (multiset(w'.retired) + multiset{t.a}) + multiset(w.created)
        == post + multiset(w'.retired) + multiset(w.created) + multiset{t.a};
  }

  lemma {:induction false} LedgerTrans(w: Work, w1: Work, w2: Work, p: multiset<Addr>, q: multiset<Addr>,
      x: multiset<Addr>, z: multiset<Addr>)
    requires Ledger(w, w1, p, q) && Ledger(w1, w2, q + x, z)
    ensures Ledger(w, w2, p + x, z)
  {
    forall a ensures (p + x + multiset(w2.created) + multiset(w.retired))[a]
      == (z + multiset(w2.retired) + multiset(w.created))[a] {
      assert (p + multiset(w1.created) + multiset(w.retired))[a] == (q + multiset(w1.retired) + multiset(w.created))[a];
      assert (q + x + multiset(w2.created) + multiset(w1.retired))[a]
        == (z + multiset(w2.retired) + multiset(w1.created))[a];
    }
    assert p + x + multiset(w2.created) + multiset(w.retired) == z + multiset(w2.retired) + multiset(w.created);
  }

  /** The ledger looks at the lists only. */
  lemma {:induction false} LedgerLists(w: Work, w': Work, v: Work, v': Work, pre: multiset<Addr>, post: multiset<Addr>)
    requires Ledger(w, w', pre, post)
    requires v.created == w.created && v.retired == w.retired && v'.created == w'.created && v'.retired == w'.retired
    ensures Ledger(v, v', pre, post)
  {
  }

  /** Two new nodes, one below the other. */
  lemma {:induction false} LedgerTwo(w: Work, w1: Work, w2: Work, n: Tree, t: Tree, other: Tree)
    requires n.Node? && w1.created == w.created + [n.a] && w1.retired == w.retired
    requires t.Node? && w2.created == w1.created + [t.a] && w2.retired == w1.retired
    requires (t.left == n && t.right == other) || (t.right == n && t.left == other)
    ensures Ledger(w, w2, Nodes(n.left) + Nodes(n.right) + Nodes(other), Nodes(t))
  {
    hide Ledger;
    LedgerMake(w, w1, n);
    LedgerMake(w1, w2, t);
    assert Nodes(t.left) + Nodes(t.right) == Nodes(n) + Nodes(other);
    LedgerTrans(w, w1, w2, Nodes(n.left) + Nodes(n.right), Nodes(n), Nodes(other), Nodes(t));
  }

  /** Two nodes in a row to the left, or to the right, list the bindings in the same order. */
  lemma {:induction false} ItemsLeft(t: Tree, x: Item, right: Tree)
    requires t.Node? && t.left.Node? && right.Node? && t.right == right.right && t.left.right == right.left
    requires Item(t.key, t.value) == Item(right.key, right.value) && x == Item(t.left.key, t.left.value)
    ensures Items(t) == Items(t.left.left) + [x] + Items(right)
  {
    var n := t.left;
    assert Items(n) == Items(n.left) + [x] + Items(right.left);
  }

  lemma {:induction false} ItemsRight(t: Tree, x: Item, left: Tree)
    requires t.Node? && t.right.Node? && left.Node? && t.left == left.left && t.right.left == left.right
    requires Item(t.key, t.value) == Item(left.key, left.value) && x == Item(t.right.key, t.right.value)
    ensures Items(t) == Items(left) + [x] + Items(t.right.right)
  {
    var n := t.right;
    assert Items(n) == Items(left.right) + [x] + Items(n.right);
  }

  // ---------------------------------------------------------------- single rotations

  lemma {:induction false} Kids(e: Env, t: Tree)
    requires t.Node?
    ensures Sized(t) ==> Sized(t.left) && Sized(t.right)
    ensures Clear(e, t) ==> Clear(e, t.left) && Clear(e, t.right)
  {
  }

  lemma {:induction false} NodesAround(other: Tree, t: Tree)
    requires t.Node?
    ensures Nodes(other) + Nodes(t.left) + Nodes(t.right) + multiset{t.a} == Nodes(other) + Nodes(t)
    ensures Nodes(t.right) + Nodes(other) + Nodes(t.left) + multiset{t.a} == Nodes(t) + Nodes(other)
  {
    assert Nodes(t) == Nodes(t.left) + multiset{t.a} + Nodes(t.right);
  }

  lemma {:induction false} SingleLeftOK(e: Env, w: Work, left: Tree, right: Tree, key: int, value: V)
    requires right.Node? && Sized(left) && Sized(right)
    ensures var m := SingleLeft(e, w, left, right, right.left, right.right, key, value);
            && Built(e, w, m, Nodes(left) + Nodes(right), Items(left) + [Item(key, value)] + Items(right))
            && m.w.peak == w.peak && m.o.Ok?
            && (m.o.Ok? && m.o.v.To? ==>
                  |m.w.created| == |w.created| + 2 && |m.w.retired| == |w.retired| + 1)
            && (Clear(e, left) && Clear(e, right) && Undisturbed(e) ==> Smooth(e, m))
  {
    hide MkNode, Undisturbed, Grows, Ledger, Items, Nodes, Sized, Clear;
    Kids(e, right);
    NodesAround(left, right);
    var n := MkNode(e, w, To(left), To(right.left), key, value);
    MkNodeOK(e, w, To(left), To(right.left), key, value);
    var res := MkNode(e, n.w, n.o.v, To(right.right), right.key, right.value);
    MkNodeOK(e, n.w, n.o.v, To(right.right), right.key, right.value);
    GrowsTrans(e, w, n.w, res.w);
    GrowsRetire(e, w, res.w, right);
    if res.o.v.To? {
      var t := res.o.v.t;
      SizedJoin(n.o.v.t);
      SizedJoin(t);
      ItemsLeft(t, Item(key, value), right);
      LedgerTwo(w, n.w, res.w, n.o.v.t, t, right.right);
      LedgerRetire(w, res.w, Nodes(left) + Nodes(right.left) + Nodes(right.right), Nodes(t), right);
    }
  }

  lemma {:induction false} SingleRightOK(e: Env, w: Work, left: Tree, right: Tree, key: int, value: V)
    requires left.Node? && Sized(left) && Sized(right)
    ensures var m := SingleRight(e, w, left, right, left.right, left.left, key, value);
            && Built(e, w, m, Nodes(left) + Nodes(right), Items(left) + [Item(key, value)] + Items(right))
            && m.w.peak == w.peak && m.o.Ok?
            && (m.o.Ok? && m.o.v.To? ==>
                  |m.w.created| == |w.created| + 2 && |m.w.retired| == |w.retired| + 1)
            && (Clear(e, left) && Clear(e, right) && Undisturbed(e) ==> Smooth(e, m))
  {
    hide MkNode, Undisturbed, Grows, Ledger, Items, Nodes, Sized, Clear;
    Kids(e, left);
    NodesAround(right, left);
    var n := MkNode(e, w, To(left.right), To(right), key, value);
    MkNodeOK(e, w, To(left.right), To(right), key, value);
    var res := MkNode(e, n.w, To(left.left), n.o.v, left.key, left.value);
    MkNodeOK(e, n.w, To(left.left), n.o.v, left.key, left.value);
    GrowsTrans(e, w, n.w, res.w);
    GrowsRetire(e, w, res.w, left);
    if res.o.v.To? {
      var t := res.o.v.t;
      SizedJoin(n.o.v.t);
      SizedJoin(t);
      ItemsRight(t, Item(key, value), left);
      LedgerTwo(w, n.w, res.w, n.o.v.t, t, left.left);
      LedgerRetire(w, res.w, Nodes(left.right) + Nodes(right) + Nodes(left.left), Nodes(t), left);
    }
  }

  // ---------------------------------------------------------------- double rotations

  /** Two new nodes side by side under a third. */
  lemma {:induction false} LedgerThree(w: Work, w1: Work, w2: Work, w3: Work, n: Tree, p: Tree, t: Tree)
    requires n.Node? && w1.created == w.created + [n.a] && w1.retired == w.retired
    requires p.Node? && w2.created == w1.created + [p.a] && w2.retired == w1.retired
    requires t.Node? && w3.created == w2.created + [t.a] && w3.retired == w2.retired
    requires t.left == n && t.right == p
    ensures Ledger(w, w3, Nodes(n.left) + Nodes(n.right) + (Nodes(p.left) + Nodes(p.right)), Nodes(t))
  {
    hide Ledger;
    LedgerMake(w1, w2, p);
    LedgerMake(w2, w3, t);
    assert Nodes(t.left) + Nodes(t.right) == Nodes(p) + Nodes(n);
    LedgerTrans(w1, w2, w3, Nodes(p.left) + Nodes(p.right), Nodes(p), Nodes(n), Nodes(t));
    LedgerMake(w, w1, n);
    assert Nodes(p.left) + Nodes(p.right) + Nodes(n) == Nodes(n) + (Nodes(p.left) + Nodes(p.right));
    LedgerTrans(w, w1, w3, Nodes(n.left) + Nodes(n.right), Nodes(n), Nodes(p.left) + Nodes(p.right), Nodes(t));
  }

  lemma {:induction false} ItemsThree(t: Tree)
    requires t.Node? && t.left.Node? && t.right.Node?
    ensures Items(t)
      == Items(t.left.left) + [Item(t.left.key, t.left.value)] + Items(t.left.right) + [Item(t.key, t.value)]
                      + Items(t.right.left) + [Item(t.right.key, t.right.value)] + Items(t.right.right)
  {
  }

  /** The three nodes of a double rotation, whichever its direction. */
  lemma {:induction false} MakeThree(e: Env, w: Work, ll: Tree, lr: Tree, rl: Tree, rr: Tree, x: Item, y: Item, z: Item)
    requires Sized(ll) && Sized(lr) && Sized(rl) && Sized(rr)
    ensures var n := MkNode(e, w, To(ll), To(lr), x.k, x.v); var p := MkNode(e, n.w, To(rl), To(rr), z.k, z.v);
            var m := MkNode(e, p.w, n.o.v, p.o.v, y.k, y.v);
            && m.o.Ok? && Grows(e, w, m.w) && |m.w.held| == |w.held| && m.w.peak == w.peak
            && (m.o.v.To? ==>
                  && m.o.v.t.Node? && Sized(m.o.v.t)
                  && Items(m.o.v.t) == Items(ll) + [x] + Items(lr) + [y] + Items(rl) + [z] + Items(rr)
                  && Ledger(w, m.w, Nodes(ll) + Nodes(lr) + (Nodes(rl) + Nodes(rr)), Nodes(m.o.v.t))
                  && |m.w.created| == |w.created| + 3 && m.w.retired == w.retired
                  && m.o.v.t.a == m.w.created[|m.w.created| - 1])
            && (Clear(e, ll) && Clear(e, lr) && Clear(e, rl) && Clear(e, rr) && Undisturbed(e) ==> Smooth(e, m))
  {
    hide MkNode, Undisturbed, Grows, Ledger, Items, Nodes, Clear;
    var n := MkNode(e, w, To(ll), To(lr), x.k, x.v);
    MkNodeOK(e, w, To(ll), To(lr), x.k, x.v);
    var p := MkNode(e, n.w, To(rl), To(rr), z.k, z.v);
    MkNodeOK(e, n.w, To(rl), To(rr), z.k, z.v);
    var m := MkNode(e, p.w, n.o.v, p.o.v, y.k, y.v);
    MkNodeOK(e, p.w, n.o.v, p.o.v, y.k, y.v);
    GrowsTrans(e, w, n.w, p.w);
    GrowsTrans(e, w, p.w, m.w);
    if m.o.v.To? {
      SizedJoin(n.o.v.t);
      SizedJoin(p.o.v.t);
      SizedJoin(m.o.v.t);
      ItemsThree(m.o.v.t);
      LedgerThree(w, n.w, p.w, m.w, n.o.v.t, p.o.v.t, m.o.v.t);
    }
  }

  lemma {:induction false} Regroup(a: seq<Item>, x: Item, b: seq<Item>, y: Item, c: seq<Item>, z: Item, d: seq<Item>)
    ensures a + [x] + b + [y] + c + [z] + d == a + [x] + (b + [y] + c + [z] + d)
    ensures a + [x] + b + [y] + c + [z] + d == a + [x] + (b + [y] + c) + [z] + d
  {
  }

  lemma {:induction false} DoubleLeftTree(left: Tree, right: Tree, x: Item)
    requires right.Node? && right.left.Node?
    ensures var rl := right.left;
            && Items(left) + [x] + Items(rl.left) + [Item(rl.key, rl.value)] + Items(rl.right)
              + [Item(right.key, right.value)] + Items(right.right)
               == Items(left) + [x] + Items(right)
            && Nodes(left) + Nodes(rl.left) + (Nodes(rl.right) + Nodes(right.right)) + multiset{rl.a}
              + multiset{right.a}
               == Nodes(left) + Nodes(right)
  {
    var rl := right.left;
    Regroup(Items(left), x, Items(rl.left), Item(rl.key, rl.value), Items(rl.right), Item(right.key, right.value),
      Items(right.right));
    assert Items(right) == Items(rl) + [Item(right.key, right.value)] + Items(right.right);
    assert Nodes(right) == Nodes(rl.left) + multiset{rl.a} + Nodes(rl.right) + multiset{right.a} + Nodes(right.right);
  }

  lemma {:induction false} DoubleRightTree(left: Tree, right: Tree, z: Item)
    requires left.Node? && left.right.Node?
    ensures var lr := left.right;
            && Items(left.left) + [Item(left.key, left.value)] + Items(lr.left) + [Item(lr.key, lr.value)]
              + Items(lr.right) + [z] + Items(right)
               == Items(left) + [z] + Items(right)
            && Nodes(left.left) + Nodes(lr.left) + (Nodes(lr.right) + Nodes(right)) + multiset{lr.a} + multiset{left.a}
               == Nodes(left) + Nodes(right)
  {
    var lr := left.right;
    var x, y := Item(left.key, left.value), Item(lr.key, lr.value);
    assert Items(left) == Items(left.left) + [x] + Items(lr);
    Regroup(Items(left.left), x, Items(lr.left), y, Items(lr.right), z, Items(right));
    assert Nodes(left) == Nodes(left.left) + multiset{left.a} + (Nodes(lr.left) + multiset{lr.a} + Nodes(lr.right));
  }

  lemma {:induction false} DoubleLeftOK(e: Env, w: Work, left: Tree, right: Tree, key: int, value: V)
    requires right.Node? && right.left.Node? && Sized(left) && Sized(right)
    ensures var m := DoubleLeft(e, w, left, right, right.left, right.right, key, value);
            && Built(e, w, m, Nodes(left) + Nodes(right), Items(left) + [Item(key, value)] + Items(right))
            && Within(w, m.w, 2)
            && (m.o.Ok? && m.o.v.To? ==>
                  |m.w.created| == |w.created| + 3 && |m.w.retired| == |w.retired| + 2)
            && (Clear(e, left) && Clear(e, right) && Undisturbed(e) ==> Smooth(e, m))
  {
    hide MkNode, Undisturbed, Grows, Ledger, Spots, DefendTwo, Items, Nodes;
    var rl, rr := right.left, right.right;
    var rll, rlr := Peek(e, w, rl, L), Peek(e, Tick(w, rl), rl, R);
    var d := DefendTwo(e, Loads(w, rl), rll, rlr);
    DefendTwoOK(e, Loads(w, rl), rll, rlr);
    assert Clear(e, right) ==> Clear(e, rl) && rll.To? && rlr.To?;
    var c := Spots(e, d.w, rll, rlr);
    SpotsOK(e, d.w, rll, rlr);
    GrowsQuiet(e, w, Close(d.w, w));
    GrowsQuiet(e, w, Close(c.w, w));
    if !d.bad && !c.bad {
      var x, y, z := Item(key, value), Item(rl.key, rl.value), Item(right.key, right.value);
      MakeThree(e, c.w, left, rl.left, rl.right, rr, x, y, z);
      var n := MkNode(e, c.w, To(left), To(rl.left), x.k, x.v);
      var p := MkNode(e, n.w, To(rl.right), To(rr), z.k, z.v);
      var m := MkNode(e, p.w, n.o.v, p.o.v, y.k, y.v);
      DoubleEnds(e, w, c.w, m, rl, right);
      if m.o.v.To? {
        DoubleLeftTree(left, right, x);
        DoubleLedger(w, c.w, m.w, Nodes(left) + Nodes(rl.left) + (Nodes(rl.right) + Nodes(rr)), Nodes(m.o.v.t), rl,
          right);
      }
    }
  }

  lemma {:induction false} DoubleEnds(e: Env, w: Work, v: Work, m: Made<Ref>, t: Tree, u: Tree)
    requires Grows(e, v, m.w) && v.created == w.created && v.retired == w.retired && w.clock <= v.clock
      && w.peak <= v.peak
    requires t.Node? && u.Node?
    ensures Grows(e, w, Leave(m.(w := Retire(Retire(m.w, t), u)), w).w)
  {
  }

  lemma {:induction false} DoubleLedger(w: Work, v: Work, w': Work, pre: multiset<Addr>, post: multiset<Addr>, t: Tree,
      u: Tree)
    requires Ledger(v, w', pre, post) && v.created == w.created && v.retired == w.retired && t.Node? && u.Node?
    ensures Ledger(w, Close(Retire(Retire(w', t), u), w), pre + multiset{t.a} + multiset{u.a}, post)
  {
    hide Ledger;
    LedgerRetire(v, w', pre, post, t);
    LedgerRetire(v, Retire(w', t), pre + multiset{t.a}, post, u);
    LedgerLists(v, Retire(Retire(w', t), u), w, Close(Retire(Retire(w', t), u), w), pre + multiset{t.a} + multiset{u.a},
      post);
  }

  lemma {:induction false} DoubleRightOK(e: Env, w: Work, left: Tree, right: Tree, key: int, value: V)
    requires left.Node? && left.right.Node? && Sized(left) && Sized(right)
    ensures var m := DoubleRight(e, w, left, right, left.right, left.left, key, value);
            && Built(e, w, m, Nodes(left) + Nodes(right), Items(left) + [Item(key, value)] + Items(right))
            && Within(w, m.w, 2)
            && (m.o.Ok? && m.o.v.To? ==>
                  |m.w.created| == |w.created| + 3 && |m.w.retired| == |w.retired| + 2)
            && (Clear(e, left) && Clear(e, right) && Undisturbed(e) ==> Smooth(e, m))
  {
    hide MkNode, Undisturbed, Grows, Ledger, Spots, DefendTwo, Items, Nodes;
    var lr, ll := left.right, left.left;
    var lrl, lrr := Peek(e, w, lr, L), Peek(e, Tick(w, lr), lr, R);
    var d := DefendTwo(e, Loads(w, lr), lrl, lrr);
    DefendTwoOK(e, Loads(w, lr), lrl, lrr);
    assert Clear(e, left) ==> Clear(e, lr) && lrl.To? && lrr.To?;
    var c := Spots(e, d.w, lrl, lrr);
    SpotsOK(e, d.w, lrl, lrr);
    GrowsQuiet(e, w, Close(d.w, w));
    GrowsQuiet(e, w, Close(c.w, w));
    if !d.bad && !c.bad {
      var x, y, z := Item(left.key, left.value), Item(lr.key, lr.value), Item(key, value);
      MakeThree(e, c.w, ll, lr.left, lr.right, right, x, y, z);
      var n := MkNode(e, c.w, To(ll), To(lr.left), x.k, x.v);
      var p := MkNode(e, n.w, To(lr.right), To(right), z.k, z.v);
      var m := MkNode(e, p.w, n.o.v, p.o.v, y.k, y.v);
      DoubleEnds(e, w, c.w, m, lr, left);
      if m.o.v.To? {
        DoubleRightTree(left, right, z);
        DoubleLedger(w, c.w, m.w, Nodes(ll) + Nodes(lr.left) + (Nodes(lr.right) + Nodes(right)), Nodes(m.o.v.t), lr,
          left);
      }
    }
  }

  // ---------------------------------------------------------------- mk_balanced

  /** A part of the work done in an inner scope. */
  lemma {:induction false} BuiltInside(e: Env, w: Work, v: Work, m: Made<Ref>, pre: multiset<Addr>, items: seq<Item>)
    requires Built(e, v, m, pre, items) && v.created == w.created && v.retired == w.retired && w.clock <= v.clock
      && w.peak <= v.peak
    ensures Built(e, w, Leave(m, w), pre, items)
  {
    if m.o.Ok? && m.o.v.To? {
      LedgerLists(v, m.w, w, Leave(m, w).w, pre, Nodes(m.o.v.t));
    }
  }

  lemma {:induction false} BuiltNothing(e: Env, w: Work, m: Made<Ref>, pre: multiset<Addr>, items: seq<Item>)
    requires !m.o.Fault? && (m.o.Ok? ==> m.o.v.Stamp?) && |m.w.held| == |w.held|
    requires m.w.created == w.created && m.w.retired == w.retired && w.clock <= m.w.clock && w.peak <= m.w.peak
    ensures Built(e, w, m, pre, items)
  {
  }

  /** A double rotation is chosen only when the inner grandchild is there. */
  lemma {:induction false} InnerThere(l: nat, t: Tree)
    requires Sized(t) && Heavy(NodeSize(t), l)
    ensures t.Node?
    ensures !(NodeSize(t.left) < NodeSize(t.right)) ==> t.left.Node?
    ensures !(NodeSize(t.right) < NodeSize(t.left)) ==> t.right.Node?
  {
    SizedIs(t);
    SizedIs(t.left);
    SizedIs(t.right);
  }

  lemma {:induction false} MkBalancedLeftOK(e: Env, w: Work, left: Tree, right: Tree, key: int, value: V)
    requires Sized(left) && Sized(right) && Heavy(NodeSize(right), NodeSize(left))
    ensures var m := MkBalancedLeft(e, w, left, right, key, value);
            && Built(e, w, m, Nodes(left) + Nodes(right), Items(left) + [Item(key, value)] + Items(right))
            && Within(w, m.w, 4)
            && (Clear(e, left) && Clear(e, right) && Undisturbed(e) ==> Smooth(e, m))
  {
    hide Undisturbed, Built, Spots, DefendTwo, Items, Nodes, SingleLeft, DoubleLeft, Heavy, Sized;
    InnerThere(NodeSize(left), right);
    var pre, items := Nodes(left) + Nodes(right), Items(left) + [Item(key, value)] + Items(right);
    var rl, rr := Peek(e, w, right, L), Peek(e, Tick(w, right), right, R);
    var d := DefendTwo(e, Loads(w, right), rl, rr);
    DefendTwoOK(e, Loads(w, right), rl, rr);
    assert Clear(e, right) ==> rl.To? && rr.To? && Clear(e, rl.t) && Clear(e, rr.t);
    var c := Spots(e, d.w, rl, rr);
    SpotsOK(e, d.w, rl, rr);
    var m := MkBalancedLeft(e, w, left, right, key, value);
    if d.bad || c.bad {
      BuiltNothing(e, w, m, pre, items);
    } else if NodeSize(rl.t) < NodeSize(rr.t) {
      SingleLeftOK(e, c.w, left, right, key, value);
      BuiltInside(e, w, c.w, SingleLeft(e, c.w, left, right, rl.t, rr.t, key, value), pre, items);
    } else {
      DoubleLeftOK(e, c.w, left, right, key, value);
      BuiltInside(e, w, c.w, DoubleLeft(e, c.w, left, right, rl.t, rr.t, key, value), pre, items);
    }
  }

  lemma {:induction false} MkBalancedRightOK(e: Env, w: Work, left: Tree, right: Tree, key: int, value: V)
    requires Sized(left) && Sized(right) && Heavy(NodeSize(left), NodeSize(right))
    ensures var m := MkBalancedRight(e, w, left, right, key, value);
            && Built(e, w, m, Nodes(left) + Nodes(right), Items(left) + [Item(key, value)] + Items(right))
            && Within(w, m.w, 4)
            && (Clear(e, left) && Clear(e, right) && Undisturbed(e) ==> Smooth(e, m))
  {
    hide Undisturbed, Built, Spots, DefendTwo, Items, Nodes, SingleRight, DoubleRight, Heavy, Sized;
    InnerThere(NodeSize(right), left);
    var pre, items := Nodes(left) + Nodes(right), Items(left) + [Item(key, value)] + Items(right);
    var lr, ll := Peek(e, w, left, R), Peek(e, Tick(w, left), left, L);
    var d := DefendTwo(e, Loads(w, left), ll, lr);
    DefendTwoOK(e, Loads(w, left), ll, lr);
    assert Clear(e, left) ==> lr.To? && ll.To? && Clear(e, lr.t) && Clear(e, ll.t);
    var c := Spots(e, d.w, lr, ll);
    SpotsOK(e, d.w, lr, ll);
    var m := MkBalancedRight(e, w, left, right, key, value);
    if d.bad || c.bad {
      BuiltNothing(e, w, m, pre, items);
    } else if NodeSize(lr.t) < NodeSize(ll.t) {
      SingleRightOK(e, c.w, left, right, key, value);
      BuiltInside(e, w, c.w, SingleRight(e, c.w, left, right, lr.t, ll.t, key, value), pre, items);
    } else {
      DoubleRightOK(e, c.w, left, right, key, value);
      BuiltInside(e, w, c.w, DoubleRight(e, c.w, left, right, lr.t, ll.t, key, value), pre, items);
    }
  }

  /** No rotation. */
  lemma {:induction false} MkPlainOK(e: Env, w: Work, left: Tree, right: Tree, key: int, value: V)
    requires Sized(left) && Sized(right)
    ensures var m := MkNode(e, w, To(left), To(right), key, value);
            && Built(e, w, m, Nodes(left) + Nodes(right), Items(left) + [Item(key, value)] + Items(right))
            && m.w.peak == w.peak
            && (Clear(e, left) && Clear(e, right) && Undisturbed(e) ==> Smooth(e, m))
  {
    hide MkNode, Undisturbed, Grows, Ledger;
    var m := MkNode(e, w, To(left), To(right), key, value);
    MkNodeOK(e, w, To(left), To(right), key, value);
    if m.o.v.To? {
      SizedJoin(m.o.v.t);
      LedgerMake(w, m.w, m.o.v.t);
    }
  }

  lemma {:induction false} BuiltRetire(e: Env, w: Work, v: Work, m: Made<Ref>, pre: multiset<Addr>, items: seq<Item>,
      t: Tree)
    requires Built(e, v, m, pre, items) && t.Node? && v.created == w.created && v.retired == w.retired
    requires w.clock <= v.clock && w.peak <= v.peak && |v.held| == |w.held|
    ensures Built(e, w, m.(w := Retire(m.w, t)), pre + multiset{t.a}, items)
  {
    if m.o.Ok? && m.o.v.To? {
      LedgerLists(v, m.w, w, m.w, pre, Nodes(m.o.v.t));
      LedgerRetire(w, m.w, pre, Nodes(m.o.v.t), t);
    }
  }

  /**
    `mk_balanced`, under any interference: a tree with the bindings of `left`, of `cur` and of `right` in
    this order, exact sizes, `cur` and the rotated nodes retired and as many made, or a stamp or an
    ejection is reported. It never dereferences null and holds at most four shields.
   */
  lemma {:induction false} MkBalancedOK(e: Env, w: Work, cur: Ref, left: Ref, right: Ref)
    requires cur.To? ==> cur.t.Node?
    requires (left.To? ==> Sized(left.t)) && (right.To? ==> Sized(right.t))
    ensures var m := MkBalanced(e, w, cur, left, right);
            && !m.o.Fault? && Grows(e, w, m.w) && |m.w.held| == |w.held| && Within(w, m.w, 4)
            && (m.o.Ok? && m.o.v.To? ==> cur.To? && left.To? && right.To?)
            && (cur.To? && left.To? && right.To? ==>
                  Built(e, w, m, Nodes(left.t) + Nodes(right.t) + multiset{cur.t.a},
                    Items(left.t) + [Item(cur.t.key, cur.t.value)] + Items(right.t)))
            && (cur.To? && left.To? && right.To? && Undisturbed(e) ==>
                  (Clear(e, cur.t) && Clear(e, left.t) && Clear(e, right.t) ==> Smooth(e, m)))
  {
    hide Undisturbed, Built, Spot, Spots, Items, Nodes, MkBalancedLeft, MkBalancedRight, MkNode, Heavy, Sized, Grows,
      Clear;
    SpotOK(e, w, cur);
    var c := Spot(e, w, cur);
    SpotsOK(e, c.w, left, right);
    var d := if c.bad then c else Spots(e, c.w, left, right);
    var m := MkBalanced(e, w, cur, left, right);
    if d.bad {
      GrowsQuiet(e, w, m.w);
      if cur.To? && left.To? && right.To? {
        BuiltNothing(e, w, m, Nodes(left.t) + Nodes(right.t) + multiset{cur.t.a},
          Items(left.t) + [Item(cur.t.key, cur.t.value)] + Items(right.t));
      }
    } else {
      var k, v := cur.t.key, cur.t.value;
      var pre, items := Nodes(left.t) + Nodes(right.t), Items(left.t) + [Item(k, v)] + Items(right.t);
      if Heavy(NodeSize(right.t), NodeSize(left.t)) {
        MkBalancedLeftOK(e, d.w, left.t, right.t, k, v);
        BuiltRetire(e, w, d.w, MkBalancedLeft(e, d.w, left.t, right.t, k, v), pre, items, cur.t);
      } else if Heavy(NodeSize(left.t), NodeSize(right.t)) {
        MkBalancedRightOK(e, d.w, left.t, right.t, k, v);
        BuiltRetire(e, w, d.w, MkBalancedRight(e, d.w, left.t, right.t, k, v), pre, items, cur.t);
      } else {
        MkPlainOK(e, d.w, left.t, right.t, k, v);
        BuiltRetire(e, w, d.w, MkNode(e, d.w, left, right, k, v), pre, items, cur.t);
      }
      BuiltBasics(e, w, m, pre + multiset{cur.t.a}, items);
    }
  }

  lemma {:induction false} BuiltBasics(e: Env, w: Work, m: Made<Ref>, pre: multiset<Addr>, items: seq<Item>)
    requires Built(e, w, m, pre, items)
    ensures !m.o.Fault? && Grows(e, w, m.w) && |m.w.held| == |w.held|
  {
  }
}
