/**
  `do_insert`, `do_remove` and the pulls of the Bonsai tree: for every tree and every interference they
  build exactly the updated search tree, or report a stamp or an ejection.
 */
module BonsaiUpdate {
  import opened BonsaiTree
  import opened BonsaiBuild
  import opened BonsaiBalance

  ghost predicate Has(s: seq<Item>, k: int) {
    exists i :: 0 <= i < |s| && s[i].k == k
  }

  lemma {:induction false} SplitSorted(s: seq<Item>, x: Item, r: seq<Item>)
    requires Sorted(s + [x] + r)
    ensures Sorted(s) && Sorted(r) && Sorted(s + [x])
    ensures forall i :: 0 <= i < |s| ==> s[i].k < x.k
    ensures forall i :: 0 <= i < |r| ==> x.k < r[i].k
  {
    var all := s + [x] + r;
    assert forall i :: 0 <= i < |s| ==> all[i] == s[i];
    assert all[|s|] == x;
    assert forall i :: 0 <= i < |r| ==> all[|s| + 1 + i] == r[i];
    forall i, j | 0 <= i < j < |r| ensures r[i].k < r[j].k {
      assert all[|s| + 1 + i].k < all[|s| + 1 + j].k;
    }
    forall i | 0 <= i < |r| ensures x.k < r[i].k {
      assert all[|s|].k < all[|s| + 1 + i].k;
    }
  }

  lemma {:induction false} SplitHas(s: seq<Item>, x: Item, r: seq<Item>, k: int)
    ensures Has(s + [x] + r, k) <==> Has(s, k) || x.k == k || Has(r, k)
  {
    var all := s + [x] + r;
    assert forall i :: 0 <= i < |s| ==> all[i] == s[i];
    assert all[|s|] == x;
    assert forall i :: 0 <= i < |r| ==> all[|s| + 1 + i] == r[i];
  }

  /** In a search tree the key is in the subtree on its side. */
  lemma {:induction false} WhichSide(t: Tree, k: int)
    requires t.Node? && WellFormed(t)
    ensures WellFormed(t.left) && WellFormed(t.right) && Sorted(Items(t.left) + [Item(t.key, t.value)])
    ensures t.key < k ==> (Has(Items(t), k) <==> Has(Items(t.right), k)) && !Has(Items(t.left), k)
    ensures k < t.key ==> (Has(Items(t), k) <==> Has(Items(t.left), k)) && !Has(Items(t.right), k)
    ensures t.key == k ==> Has(Items(t), k) && !Has(Items(t.left), k) && !Has(Items(t.right), k)
  {
    SplitSorted(Items(t.left), Item(t.key, t.value), Items(t.right));
    SplitHas(Items(t.left), Item(t.key, t.value), Items(t.right), k);
  }

  // ---------------------------------------------------------------- the common opening of the recursive builders

  /** The node is checked, its children are loaded, defended and checked. */
  ghost predicate Opening(e: Env, w: Work, t: Tree, left: Ref, right: Ref, c: Checked, d: Checked, s: Checked)
    requires t.Node?
  {
    && c == Spot(e, w, To(t)) && left == Peek(e, c.w, t, L) && right == Peek(e, Tick(c.w, t), t, R)
    && d == DefendTwo(e, Loads(c.w, t), left, right) && s == Spots(e, d.w, left, right)
  }

  /** Nothing has happened to the lists, and at most two shields are held. */
  ghost predicate Opened(w: Work, v: Work) {
    && v.created == w.created && v.retired == w.retired && w.clock <= v.clock && w.peak <= v.peak
    && |w.held| <= |v.held| <= |w.held| + 2 && Within(w, v, 2)
  }

  ghost predicate SameLists(v: Work, w: Work) {
    v.created == w.created && v.retired == w.retired && v.clock == w.clock && v.peak == w.peak
  }

  lemma {:induction false} OpeningOK(e: Env, w: Work, t: Tree, left: Ref, right: Ref, c: Checked, d: Checked,
      s: Checked)
    requires t.Node? && Opening(e, w, t, left, right, c, d, s)
    ensures Opened(w, c.w) && Opened(w, d.w) && Opened(w, s.w)
    ensures (left.To? ==> left.t == t.left) && (right.To? ==> right.t == t.right) && (!s.bad ==> left.To? && right.To?)
    ensures Clear(e, t) && Undisturbed(e) ==> !c.bad && !d.bad && !s.bad
  {
    hide Undisturbed, Spot, Spots, DefendTwo;
    SpotOK(e, w, To(t));
    DefendTwoOK(e, Loads(c.w, t), left, right);
    SpotsOK(e, d.w, left, right);
  }

  /** A result that reports a stamp or an ejection. */
  lemma {:induction false} OpenedGrows(e: Env, w: Work, v: Work, t: Tree)
    requires Opened(w, v) && t.Node?
    ensures Grows(e, w, Close(v, w)) && Within(w, Close(v, w), 2 * Height(t) + 4)
  {
  }

  // ---------------------------------------------------------------- insert

  /** What `do_insert` promises about the tree `t`, whatever other threads do. */
  ghost predicate Inserts(e: Env, w: Work, m: Made<InsertRes>, t: Tree, k: int, v: V) {
    && !m.o.Fault? && Grows(e, w, m.w) && |m.w.held| == |w.held| && Within(w, m.w, 2 * Height(t) + 4)
    && (m.o.Ok? && m.o.v.r.To? ==>
          && Sized(m.o.v.r.t) && Items(m.o.v.r.t) == Put(Items(t), k, v) && (m.o.v.inserted <==> !Has(Items(t), k))
          && Ledger(w, m.w, Nodes(t), Nodes(m.o.v.r.t))
          && (m.o.v.r.t == t || RootCreated(w, m.w, m.o.v.r.t)))
  }

  /** The root of the new tree is one of the new nodes. */
  ghost predicate RootCreated(w: Work, w': Work, t: Tree) {
    t.Node? && |w.created| < |w'.created| && t.a == w'.created[|w'.created| - 1]
  }

  ghost predicate SmoothInsert(e: Env, m: Made<InsertRes>) {
    m.o.Ok? && m.o.v.r.To? && Clear(e, m.o.v.r.t)
  }

  /** The two parts of the ledger of an update: the subtree, then the node above it. */
  lemma {:induction false} LedgerUp(w: Work, v: Work, w1: Work, w2: Work, w': Work, sub: multiset<Addr>,
      sub': multiset<Addr>, other: multiset<Addr>, a: Addr, post: multiset<Addr>, pre1: multiset<Addr>,
      pre: multiset<Addr>)
    requires v.created == w.created && v.retired == w.retired && w'.created == w2.created && w'.retired == w2.retired
    requires Ledger(v, w1, sub, sub') && Ledger(w1, w2, pre1, post)
    requires pre1 == sub' + (other + multiset{a}) && pre == sub + (other + multiset{a})
    ensures Ledger(w, w', pre, post)
  {
    hide Ledger;
    LedgerTrans(v, w1, w2, sub, sub', other + multiset{a}, post);
    LedgerLists(v, w2, w, w', pre, post);
  }

  /** Shields: two for the node, and those of the subtree or of the rotation. */
  lemma {:induction false} ShieldsUp(w: Work, v: Work, w1: Work, w2: Work, n: nat, h: nat)
    requires Opened(w, v) && Within(v, w1, 2 * n + 4) && |w1.held| == |v.held| && w1.peak <= w2.peak
      && Within(w1, w2, 5) && v.peak <= w1.peak
    requires n + 1 <= h && (n == 0 ==> Within(w1, w2, 4))
    ensures Within(w, Close(w2, w), 2 * h + 4)
  {
  }

  lemma {:induction false} BuiltParts(e: Env, w: Work, m: Made<Ref>, pre: multiset<Addr>, items: seq<Item>)
    requires Built(e, w, m, pre, items) && m.o.Ok? && m.o.v.To?
    ensures Sized(m.o.v.t) && Items(m.o.v.t) == items && Ledger(w, m.w, pre, Nodes(m.o.v.t))
      && RootCreated(w, m.w, m.o.v.t)
  {
  }

  lemma {:induction false} GrowsUp(e: Env, w: Work, v: Work, w1: Work, w2: Work)
    requires Opened(w, v) && Grows(e, v, w1) && Grows(e, w1, w2)
    ensures Grows(e, w, Close(w2, w))
  {
    GrowsTrans(e, v, w1, w2);
  }

  /** The step of `do_insert` above the recursive call, on either side. */
  lemma {:induction false} InsertUp(e: Env, w: Work, v: Work, t: Tree, k: int, x: V, d: Side, sub: Made<InsertRes>,
      left: Ref, right: Ref)
    requires t.Node? && WellFormed(t) && Opened(w, v) && Inserts(e, v, sub, Child(t, d), k, x) && sub.o.Ok?
    requires if d.L? then k < t.key && left == sub.o.v.r && right == To(t.right)
      else t.key < k && left == To(t.left) && right == sub.o.v.r
    ensures Inserts(e, w, Leave(InsertDone(MkBalanced(e, sub.w, To(t), left, right), sub.o.v.inserted), w), t, k, x)
  {
    hide Undisturbed, MkBalanced, Grows, Within, Ledger, Built, Put, Sized, Sorted, Has, Opened, Items, Nodes, Height,
      Clear, WellFormed;
    var m := MkBalanced(e, sub.w, To(t), left, right);
    WhichSide(t, k);
    FormedSized(t.left);
    FormedSized(t.right);
    MkBalancedOK(e, sub.w, To(t), left, right);
    UpOK(e, w, v, sub.w, m.w, t, d);
    if m.o.Ok? && m.o.v.To? {
      InsertTree(e, w, v, t, k, x, d, sub, m, left.t, right.t);
    }
  }

  /** Lists and shields at the end of a recursive builder. */
  lemma {:induction false} UpOK(e: Env, w: Work, v: Work, w1: Work, w2: Work, t: Tree, d: Side)
    requires t.Node? && Opened(w, v) && Grows(e, v, w1) && Grows(e, w1, w2) && |w1.held| == |v.held|
    requires Within(v, w1, 2 * Height(Child(t, d)) + 4) && Within(w1, w2, 4)
    ensures Grows(e, w, Close(w2, w)) && Within(w, Close(w2, w), 2 * Height(t) + 4)
  {
    HeightUp(t, d);
    GrowsPeak(e, v, w1);
    GrowsPeak(e, w1, w2);
    WithinMore(w1, w2);
    GrowsUp(e, w, v, w1, w2);
    hide Grows, Opened, Height;
    ShieldsUp(w, v, w1, w2, Height(Child(t, d)), Height(t));
  }

  lemma {:induction false} InsertUpSmooth(e: Env, v: Work, t: Tree, left: Ref, right: Ref)
    requires t.Node? && Clear(e, t) && Undisturbed(e) && left.To? && right.To? && Clear(e, left.t) && Clear(e, right.t)
    requires Sized(left.t) && Sized(right.t)
    ensures Smooth(e, MkBalanced(e, v, To(t), left, right))
  {
    hide Undisturbed, MkBalanced, Grows, Within, Built, Sized, Items, Nodes, Clear;
    MkBalancedOK(e, v, To(t), left, right);
  }

  lemma {:induction false} FormedSized(t: Tree)
    requires WellFormed(t)
    ensures Sized(t)
  {
  }

  lemma {:induction false} NodesSplit(t: Tree, r: Tree, d: Side)
    requires t.Node?
    ensures var other := if d.L? then t.right else t.left;
            && Nodes(t) == Nodes(Child(t, d)) + (Nodes(other) + multiset{t.a})
            && (if d.L? then Nodes(r) + Nodes(other) + multiset{t.a} else Nodes(other) + Nodes(r) + multiset{t.a})
               == Nodes(r) + (Nodes(other) + multiset{t.a})
  {
    assert Nodes(t) == Nodes(t.left) + multiset{t.a} + Nodes(t.right);
    hide Nodes;
    if d.L? {
      assert Nodes(r) + Nodes(t.right) + multiset{t.a} == Nodes(r) + (Nodes(t.right) + multiset{t.a});
    } else {
      assert Nodes(t.left) + Nodes(r) + multiset{t.a} == Nodes(r) + (Nodes(t.left) + multiset{t.a});
    }
  }

  lemma {:induction false} WithinMore(w: Work, w': Work)
    requires Within(w, w', 4)
    ensures Within(w, w', 5)
  {
  }

  lemma {:induction false} GrowsPeak(e: Env, w: Work, w': Work)
    requires Grows(e, w, w')
    ensures w.peak <= w'.peak
  {
  }

  lemma {:induction false} HeightUp(t: Tree, d: Side)
    requires t.Node?
    ensures Height(Child(t, d)) + 1 <= Height(t)
  {
  }

  lemma {:induction false} InsertTree(e: Env, w: Work, v: Work, t: Tree, k: int, x: V, d: Side, sub: Made<InsertRes>,
      m: Made<Ref>, l: Tree, q: Tree)
    requires t.Node? && WellFormed(t) && Opened(w, v) && Inserts(e, v, sub, Child(t, d), k, x) && sub.o.Ok?
      && sub.o.v.r.To?
    requires if d.L? then k < t.key && l == sub.o.v.r.t && q == t.right
      else t.key < k && l == t.left && q == sub.o.v.r.t
    requires Built(e, sub.w, m, Nodes(l) + Nodes(q) + multiset{t.a}, Items(l) + [Item(t.key, t.value)] + Items(q))
    requires m.o.Ok? && m.o.v.To? && Grows(e, v, sub.w)
    ensures Sized(m.o.v.t) && Items(m.o.v.t) == Put(Items(t), k, x)
      && Ledger(w, Close(m.w, w), Nodes(t), Nodes(m.o.v.t))
    ensures RootCreated(w, m.w, m.o.v.t)
  {
    var r := sub.o.v.r.t;
    var other := if d.L? then t.right else t.left;
    var y := Item(t.key, t.value);
    BuiltParts(e, sub.w, m, Nodes(l) + Nodes(q) + multiset{t.a}, Items(l) + [y] + Items(q));
    WhichSide(t, k);
    hide Grows, Within, Ledger, Built, Put, Sized, Sorted, Has;
    assert Items(t) == Items(t.left) + [y] + Items(t.right);
    NodesSplit(t, r, d);
    hide Items, Nodes;
    if d.L? {
      PutLeft(Items(t.left), y, Items(t.right), k, x);
    } else {
      PutRight(Items(t.left), y, Items(t.right), k, x);
    }
    var pre1 := Nodes(l) + Nodes(q) + multiset{t.a};
    LedgerUp(w, v, sub.w, m.w, Close(m.w, w), Nodes(Child(t, d)), Nodes(r), Nodes(other), t.a, Nodes(m.o.v.t), pre1,
      Nodes(t));
    CreatedMore(e, v, sub.w);
  }

  lemma {:induction false} CreatedMore(e: Env, w: Work, w': Work)
    requires Grows(e, w, w')
    ensures |w.created| <= |w'.created|
  {
  }

  lemma {:induction false} MakeLeaf(e: Env, w: Work, k: int, x: V)
    ensures var m := MkNode(e, w, To(Nil), To(Nil), k, x);
            && m.o.v.To? && m.o.v.t == Node(e.alloc(|w.created|), k, x, 1, Nil, Nil) && Sized(m.o.v.t)
              && Items(m.o.v.t) == [Item(k, x)]
            && Nodes(m.o.v.t) == multiset{m.o.v.t.a}
            && m.w == w.(created := w.created + [m.o.v.t.a]) && Grows(e, w, m.w)
              && Ledger(w, m.w, multiset{}, Nodes(m.o.v.t))
            && (Undisturbed(e) ==> Clear(e, m.o.v.t))
  {
    var m := MkNode(e, w, To(Nil), To(Nil), k, x);
    assert Nodes(m.o.v.t) == multiset{m.o.v.t.a};
    LedgerMake(w, m.w, m.o.v.t);
    assert Nodes(Nil) + Nodes(Nil) == multiset{};
  }

  /**
    `do_insert` under any interference: it never dereferences null; the list of new nodes holds exactly
    what it allocated; it holds at most twice the height plus four shields; and unless it reports a stamp
    or an ejection, the result is the search tree with exact sizes that has the new binding if the key was
    absent and the same bindings otherwise, with all nodes accounted for.
   */
  lemma {:induction false} DoInsertOK(e: Env, w: Work, t: Tree, k: int, x: V)
    requires WellFormed(t)
    ensures Inserts(e, w, DoInsert(e, w, To(t), k, x), t, k, x)
    ensures Clear(e, t) && Undisturbed(e) ==> SmoothInsert(e, DoInsert(e, w, To(t), k, x))
    decreases t
  {
    hide Spot, Spots, DefendTwo, Peek, Loads, Tick, Undisturbed, MkBalanced, Grows, Within, Ledger, Put, Sized, Sorted,
      Has, Opened, Items, Nodes, Height, Clear, WellFormed, Inserts, MkNode;
    var m := DoInsert(e, w, To(t), k, x);
    if t.Nil? {
      InsertLeaf(e, w, k, x);
    } else {
      WhichSide(t, k);
      ChildrenClear(e, t);
      var c := Spot(e, w, To(t));
      var left, right := Peek(e, c.w, t, L), Peek(e, Tick(c.w, t), t, R);
      var d := DefendTwo(e, Loads(c.w, t), left, right);
      var s := Spots(e, d.w, left, right);
      SpotOK(e, w, To(t));
      OpeningOK(e, w, t, left, right, c, d, s);
      if c.bad {
        InsertNothing(e, w, c.w, m, t, k, x);
      } else if d.bad {
        InsertNothing(e, w, d.w, m, t, k, x);
      } else if s.bad {
        InsertNothing(e, w, s.w, m, t, k, x);
      } else if t.key == k {
        InsertSame(e, w, s.w, m, t, x);
      } else {
        var side := if k < t.key then L else R;
        var sub := DoInsert(e, s.w, if k < t.key then left else right, k, x);
        DoInsertOK(e, s.w, Child(t, side), k, x);
        if sub.o.Ok? {
          InsertUp(e, w, s.w, t, k, x, side, sub, if k < t.key then sub.o.v.r else left, if k < t.key then right
            else sub.o.v.r);
          if Clear(e, t) && Undisturbed(e) {
            InsertSized(e, s.w, sub, Child(t, side), k, x);
            FormedSized(t.left);
            FormedSized(t.right);
            InsertUpSmooth(e, sub.w, t, if k < t.key then sub.o.v.r else left, if k < t.key then right else sub.o.v.r);
          }
        } else {
          InsertFails(e, w, s.w, sub, t, k, x, side);
        }
      }
    }
  }

  lemma {:induction false} InsertSized(e: Env, w: Work, m: Made<InsertRes>, t: Tree, k: int, x: V)
    requires Inserts(e, w, m, t, k, x) && m.o.Ok? && m.o.v.r.To?
    ensures Sized(m.o.v.r.t)
  {
  }

  lemma {:induction false} InsertLeaf(e: Env, w: Work, k: int, x: V)
    ensures Inserts(e, w, DoInsert(e, w, To(Nil), k, x), Nil, k, x)
    ensures Undisturbed(e) ==> SmoothInsert(e, DoInsert(e, w, To(Nil), k, x))
  {
    MakeLeaf(e, w, k, x);
    hide MkNode, Grows, Ledger, Undisturbed, Sized;
  }

  lemma {:induction false} InsertNothing(e: Env, w: Work, v: Work, m: Made<InsertRes>, t: Tree, k: int, x: V)
    requires t.Node? && Opened(w, v) && SameLists(m.w, v) && |m.w.held| == |w.held|
    requires !m.o.Fault? && (m.o.Ok? ==> m.o.v.r.Stamp?)
    ensures Inserts(e, w, m, t, k, x)
  {
    OpenedGrows(e, w, v, t);
  }

  lemma {:induction false} InsertSame(e: Env, w: Work, v: Work, m: Made<InsertRes>, t: Tree, x: V)
    requires t.Node? && WellFormed(t) && Opened(w, v) && m == Made(Ok(InsertRes(To(t), false)), Close(v, w))
    ensures Inserts(e, w, m, t, t.key, x)
  {
    OpenedGrows(e, w, v, t);
    WhichSide(t, t.key);
    PutHere(Items(t.left), Item(t.key, t.value), Items(t.right), x);
    LedgerNone(w, m.w, Nodes(t));
  }

  /** An ejection in the subtree ends the update. */
  lemma {:induction false} InsertFails(e: Env, w: Work, v: Work, sub: Made<InsertRes>, t: Tree, k: int, x: V, d: Side)
    requires t.Node? && Opened(w, v) && Inserts(e, v, sub, Child(t, d), k, x) && !sub.o.Ok?
    ensures Inserts(e, w, Leave(sub, w), t, k, x)
  {
    EndOK(e, w, v, sub.w, t, d);
  }

  lemma {:induction false} EndOK(e: Env, w: Work, v: Work, w1: Work, t: Tree, d: Side)
    requires t.Node? && Opened(w, v) && Grows(e, v, w1) && |w1.held| == |v.held|
      && Within(v, w1, 2 * Height(Child(t, d)) + 4)
    ensures Grows(e, w, Close(w1, w)) && Within(w, Close(w1, w), 2 * Height(t) + 4)
  {
    GrowsQuiet(e, w1, w1);
    UpOK(e, w, v, w1, w1, t, d);
  }

  // ---------------------------------------------------------------- pulls

  /** The bindings of a tree from which the first (`d` left) or last (`d` right) one was pulled out. */
  ghost function Rejoined(succ: Tree, rest: Tree, d: Side): seq<Item>
    requires succ.Node?
  {
    if d.L? then [Item(succ.key, succ.value)] + Items(rest) else Items(rest) + [Item(succ.key, succ.value)]
  }

  /** What a pull of the outermost node on side `d` promises about `t`, whatever other threads do. */
  ghost predicate Pulls(e: Env, w: Work, m: Made<PullRes>, t: Tree, d: Side) {
    && !m.o.Fault? && Grows(e, w, m.w) && |m.w.held| == |w.held| && Within(w, m.w, 2 * Height(t) + 4)
    && (m.o.Ok? ==> (m.o.v.rest.To? ==> Sized(m.o.v.rest.t)) && (m.o.v.succ.To? ==> m.o.v.succ.t.Node?))
    && (m.o.Ok? && m.o.v.rest.To? && m.o.v.succ.To? ==>
          && Items(t) == Rejoined(m.o.v.succ.t, m.o.v.rest.t, d) && m.o.v.succ.t.left.Nil? && m.o.v.succ.t.right.Nil?
          && Ledger(w, m.w, Nodes(t), Nodes(m.o.v.rest.t) + multiset{m.o.v.succ.t.a}))
  }

  ghost predicate SmoothPull(e: Env, m: Made<PullRes>) {
    m.o.Ok? && m.o.v.rest.To? && m.o.v.succ.To? && Clear(e, m.o.v.rest.t) && Clear(e, m.o.v.succ.t)
  }

  lemma {:induction false} PullNothing(e: Env, w: Work, v: Work, m: Made<PullRes>, t: Tree, d: Side)
    requires t.Node? && Opened(w, v) && SameLists(m.w, v) && |m.w.held| == |w.held|
    requires !m.o.Fault? && (m.o.Ok? ==> m.o.v.rest.Stamp? && m.o.v.succ.Stamp?)
    ensures Pulls(e, w, m, t, d)
  {
    OpenedGrows(e, w, v, t);
  }

  /** A shield for the rebuilt subtree, or an ejection. */
  lemma {:induction false} ShieldSub(e: Env, w: Work, v: Work, w1: Work, r: Ref, n: Checked, t: Tree, d: Side)
    requires t.Node? && Opened(w, v) && Grows(e, v, w1) && |w1.held| == |v.held|
      && Within(v, w1, 2 * Height(Child(t, d)) + 4)
    requires n == Defend(e, w1, r)
    ensures n.w.created == w1.created && n.w.retired == w1.retired && Grows(e, w1, n.w) && |n.w.held| <= |w1.held| + 1
      && w1.peak <= n.w.peak
    ensures Within(w1, n.w, 1) && Grows(e, w, Close(n.w, w)) && Within(w, Close(n.w, w), 2 * Height(t) + 4)
  {
    DefendOK(e, w1, r);
    GrowsQuiet(e, w1, n.w);
    UpOK(e, w, v, w1, n.w, t, d);
  }

  /** Lists and shields at the end of a builder that has shielded a rebuilt, non-empty subtree. */
  lemma {:induction false} UpShieldedOK(e: Env, w: Work, v: Work, w1: Work, w2: Work, w3: Work, t: Tree, d: Side)
    requires t.Node? && Opened(w, v) && Grows(e, v, w1) && Grows(e, w1, w2) && Grows(e, w2, w3) && |w1.held| == |v.held|
    requires Within(v, w1, 2 * Height(Child(t, d)) + 4) && Within(w1, w2, 1) && |w2.held| <= |w1.held| + 1
      && Within(w2, w3, 4)
    requires Child(t, d).Node?
    ensures Grows(e, w, Close(w3, w)) && Within(w, Close(w3, w), 2 * Height(t) + 4)
  {
    HeightUp(t, d);
    assert Height(Child(t, d)) >= 1;
    GrowsPeak(e, v, w1);
    GrowsPeak(e, w1, w2);
    GrowsPeak(e, w2, w3);
    GrowsTrans(e, w1, w2, w3);
    GrowsUp(e, w, v, w1, w3);
    hide Grows, Height;
    assert Within(w1, w3, 5);
    hide Opened;
    ShieldsUp(w, v, w1, w3, Height(Child(t, d)), Height(t));
  }

  /** The outermost node: its other child takes its place. */
  lemma {:induction false} PullEnd(e: Env, w: Work, v: Work, t: Tree, d: Side, other: Tree)
    requires t.Node? && WellFormed(t) && Opened(w, v) && Child(t, d).Nil? && other == if d.L? then t.right else t.left
    ensures var m := MkNode(e, v, To(Nil), To(Nil), t.key, t.value);
            var res := Leave(Made(Ok(PullRes(To(other), m.o.v)), Retire(m.w, t)), w);
            && Pulls(e, w, res, t, d) && (Clear(e, t) && Undisturbed(e) ==> SmoothPull(e, res))
  {
    hide MkNode, Undisturbed, Ledger, Grows, Items, Nodes, Height, Opened, Sorted;
    MakeLeaf(e, v, t.key, t.value);
    var m := MkNode(e, v, To(Nil), To(Nil), t.key, t.value);
    ChildrenClear(e, t);
    OpenedLists(w, v);
    PullEndTree(t, d, other, m.o.v.t);
    LedgerRetire(v, m.w, multiset{}, Nodes(m.o.v.t), t);
    PullLedger(w, v, m.w, t, m.o.v.t, other);
    PullEndGrows(e, w, v, m.w, t);
  }

  lemma {:induction false} PullEndTree(t: Tree, d: Side, other: Tree, succ: Tree)
    requires t.Node? && Child(t, d).Nil? && other == (if d.L? then t.right else t.left)
    requires succ.Node? && succ.key == t.key && succ.value == t.value
    ensures Items(t) == Rejoined(succ, other, d) && Nodes(t) == Nodes(other) + multiset{t.a}
  {
  }

  lemma {:induction false} PullEndGrows(e: Env, w: Work, v: Work, v': Work, t: Tree)
    requires t.Node? && Opened(w, v) && Grows(e, v, v') && v' == v.(created := v'.created)
    ensures Grows(e, w, Close(Retire(v', t), w)) && Within(w, Close(Retire(v', t), w), 2 * Height(t) + 4)
  {
  }

  lemma {:induction false} PullLedger(w: Work, v: Work, v': Work, t: Tree, succ: Tree, other: Tree)
    requires t.Node? && succ.Node? && Nodes(succ) == multiset{succ.a} && v.created == w.created
      && v.retired == w.retired
    requires Ledger(v, Retire(v', t), multiset{} + multiset{t.a}, Nodes(succ))
    ensures Ledger(w, Close(Retire(v', t), w), Nodes(other) + multiset{t.a}, Nodes(other) + multiset{succ.a})
  {
    hide Nodes;
    assert multiset{} + multiset{t.a} == multiset{t.a};
    var w' := Retire(v', t);
    assert multiset{t.a} + multiset(w'.created) + multiset(v.retired)
      == multiset{succ.a} + multiset(w'.retired) + multiset(v.created);
    forall a ensures (Nodes(other) + multiset{t.a} + multiset(w'.created) + multiset(v.retired))[a]
        == (Nodes(other) + multiset{succ.a} + multiset(w'.retired) + multiset(v.created))[a] {
      assert (multiset{t.a} + multiset(w'.created) + multiset(v.retired))[a]
        == (multiset{succ.a} + multiset(w'.retired) + multiset(v.created))[a];
    }
    assert Nodes(other) + multiset{t.a} + multiset(w'.created) + multiset(v.retired)
        == Nodes(other) + multiset{succ.a} + multiset(w'.retired) + multiset(v.created);
  }

  lemma {:induction false} LedgerFrame(w: Work, w': Work, pre: multiset<Addr>, post: multiset<Addr>, x: multiset<Addr>)
    requires Ledger(w, w', pre, post)
    ensures Ledger(w, w', pre + x, post + x)
  {
    assert pre + x + multiset(w'.created) + multiset(w.retired) == pre + multiset(w'.created) + multiset(w.retired) + x;
    assert post + x + multiset(w'.retired) + multiset(w.created)
      == post + multiset(w'.retired) + multiset(w.created) + x;
  }

  /** The tree above the pulled subtree. */
  lemma {:induction false} PullTree(t: Tree, d: Side, rest: Tree, succ: Tree, t': Tree, l: Tree, q: Tree)
    requires t.Node? && succ.Node? && Items(Child(t, d)) == Rejoined(succ, rest, d)
    requires if d.L? then l == rest && q == t.right else l == t.left && q == rest
    requires Items(t') == Items(l) + [Item(t.key, t.value)] + Items(q)
    ensures Items(t) == Rejoined(succ, t', d)
  {
    var x, y := Item(succ.key, succ.value), Item(t.key, t.value);
    if d.L? {
      PullFirst(x, Items(rest), y, Items(t.right));
    } else {
      PullLast(Items(t.left), y, Items(rest), x);
    }
  }

  lemma {:induction false} PullFirst(x: Item, a: seq<Item>, y: Item, b: seq<Item>)
    ensures [x] + a + [y] + b == [x] + (a + [y] + b)
  {
  }

  lemma {:induction false} PullLast(a: seq<Item>, y: Item, b: seq<Item>, x: Item)
    ensures a + [y] + (b + [x]) == a + [y] + b + [x]
  {
  }

  lemma {:induction false} PullRegroup(rest: multiset<Addr>, x: multiset<Addr>, s: multiset<Addr>)
    ensures rest + x + s == (rest + s) + x
  {
  }

  lemma {:induction false} PullUpLedger(w: Work, v: Work, w1: Work, w2: Work, w3: Work, w': Work, t: Tree, d: Side,
      rest: Tree, s: Addr, l: Tree, q: Tree, post: multiset<Addr>)
    requires t.Node? && v.created == w.created && v.retired == w.retired
    requires w2.created == w1.created && w2.retired == w1.retired && w'.created == w3.created
      && w'.retired == w3.retired
    requires Ledger(v, w1, Nodes(Child(t, d)), Nodes(rest) + multiset{s})
      && Ledger(w2, w3, Nodes(l) + Nodes(q) + multiset{t.a}, post)
    requires if d.L? then l == rest && q == t.right else l == t.left && q == rest
    ensures Ledger(w, w', Nodes(t), post + multiset{s})
  {
    hide Ledger, Nodes;
    var other := if d.L? then t.right else t.left;
    NodesSplit(t, rest, d);
    LedgerFrame(w2, w3, Nodes(l) + Nodes(q) + multiset{t.a}, post, multiset{s});
    PullRegroup(Nodes(rest), Nodes(other) + multiset{t.a}, multiset{s});
    LedgerLists(w2, w3, w1, w3, (Nodes(rest) + multiset{s}) + (Nodes(other) + multiset{t.a}), post + multiset{s});
    LedgerUp(w, v, w1, w3, w', Nodes(Child(t, d)), Nodes(rest) + multiset{s}, Nodes(other), t.a, post + multiset{s},
             (Nodes(rest) + multiset{s}) + (Nodes(other) + multiset{t.a}), Nodes(t));
  }

  lemma {:induction false} ShieldedUp(e: Env, w: Work, v: Work, w1: Work, r: Ref, n: Checked, w3: Work, t: Tree,
      d: Side)
    requires t.Node? && Opened(w, v) && Child(t, d).Node? && Grows(e, v, w1) && |w1.held| == |v.held|
    requires Within(v, w1, 2 * Height(Child(t, d)) + 4) && n == Defend(e, w1, r) && Grows(e, n.w, w3)
      && Within(n.w, w3, 4)
    ensures Grows(e, w, Close(w3, w)) && Within(w, Close(w3, w), 2 * Height(t) + 4)
    ensures n.w.created == w1.created && n.w.retired == w1.retired
  {
    hide Grows, Within, Opened, Defend, Height;
    ShieldSub(e, w, v, w1, r, n, t, d);
    UpShieldedOK(e, w, v, w1, n.w, w3, t, d);
  }

  /** The step of a pull above the recursive call. */
  lemma {:induction false} PullUp(e: Env, w: Work, v: Work, t: Tree, d: Side, sub: Made<PullRes>, n: Checked, left: Ref,
      right: Ref)
    requires t.Node? && WellFormed(t) && Opened(w, v) && Child(t, d).Node? && Pulls(e, v, sub, Child(t, d), d)
      && sub.o.Ok?
    requires n == Defend(e, sub.w, sub.o.v.rest) && !n.bad
    requires if d.L? then left == sub.o.v.rest && right == To(t.right) else left == To(t.left) && right == sub.o.v.rest
    ensures Pulls(e, w, Leave(PullDone(MkBalanced(e, n.w, To(t), left, right), sub.o.v.succ), w), t, d)
  {
    hide Undisturbed, MkBalanced, Grows, Within, Ledger, Built, Sized, Sorted, Has, Opened, Items, Nodes, Height, Clear,
      WellFormed, Defend, Rejoined;
    WhichSide(t, t.key);
    FormedSized(t.left);
    FormedSized(t.right);
    var m := MkBalanced(e, n.w, To(t), left, right);
    MkBalancedOK(e, n.w, To(t), left, right);
    ShieldedUp(e, w, v, sub.w, sub.o.v.rest, n, m.w, t, d);
    if m.o.Ok? && m.o.v.To? {
      PullUpTree(e, w, v, t, d, sub, n, m, left.t, right.t);
    }
  }

  lemma {:induction false} PullUpTree(e: Env, w: Work, v: Work, t: Tree, d: Side, sub: Made<PullRes>, n: Checked,
      m: Made<Ref>, l: Tree, q: Tree)
    requires t.Node? && Opened(w, v) && Pulls(e, v, sub, Child(t, d), d) && sub.o.Ok? && sub.o.v.rest.To?
    requires n.w.created == sub.w.created && n.w.retired == sub.w.retired
    requires if d.L? then l == sub.o.v.rest.t && q == t.right else l == t.left && q == sub.o.v.rest.t
    requires m.o.Ok? && m.o.v.To?
      && Built(e, n.w, m, Nodes(l) + Nodes(q) + multiset{t.a}, Items(l) + [Item(t.key, t.value)] + Items(q))
    ensures Sized(m.o.v.t)
    ensures sub.o.v.succ.To? ==>
              && Items(t) == Rejoined(sub.o.v.succ.t, m.o.v.t, d)
              && Ledger(w, Close(m.w, w), Nodes(t), Nodes(m.o.v.t) + multiset{sub.o.v.succ.t.a})
  {
    BuiltParts(e, n.w, m, Nodes(l) + Nodes(q) + multiset{t.a}, Items(l) + [Item(t.key, t.value)] + Items(q));
    OpenedLists(w, v);
    hide Built, Opened, Ledger, Items, Nodes, Grows, Within, Sized, Height, Rejoined;
    if sub.o.v.succ.To? {
      PullTree(t, d, sub.o.v.rest.t, sub.o.v.succ.t, m.o.v.t, l, q);
      PullUpLedger(w, v, sub.w, n.w, m.w, Close(m.w, w), t, d, sub.o.v.rest.t, sub.o.v.succ.t.a, l, q, Nodes(m.o.v.t));
    }
  }

  lemma {:induction false} OpenedLists(w: Work, v: Work)
    requires Opened(w, v)
    ensures v.created == w.created && v.retired == w.retired
  {
  }

  lemma {:induction false} PullFails(e: Env, w: Work, v: Work, sub: Made<PullRes>, t: Tree, d: Side)
    requires t.Node? && Opened(w, v) && Pulls(e, v, sub, Child(t, d), d) && !sub.o.Ok?
    ensures Pulls(e, w, Leave(sub, w), t, d)
  {
    EndOK(e, w, v, sub.w, t, d);
  }

  lemma {:induction false} PullEjected(e: Env, w: Work, v: Work, sub: Made<PullRes>, n: Checked, t: Tree, d: Side)
    requires t.Node? && Opened(w, v) && Pulls(e, v, sub, Child(t, d), d) && sub.o.Ok?
      && n == Defend(e, sub.w, sub.o.v.rest)
    ensures Pulls(e, w, Leave(Made(Ejected, n.w), w), t, d)
  {
    ShieldSub(e, w, v, sub.w, sub.o.v.rest, n, t, d);
  }

  lemma {:induction false} PullLeftmostOK(e: Env, w: Work, t: Tree)
    requires WellFormed(t) && t.Node?
    ensures Pulls(e, w, PullLeftmost(e, w, To(t)), t, L)
    ensures Clear(e, t) && Undisturbed(e) ==> SmoothPull(e, PullLeftmost(e, w, To(t)))
    decreases t
  {
    var m := PullLeftmost(e, w, To(t));
    WhichSide(t, t.key);
    assert Clear(e, t) ==> Clear(e, t.left) && Clear(e, t.right);
    hide Spot, Spots, DefendTwo, Defend, Peek, Undisturbed, MkBalanced, Grows, Within, Ledger, Sized, Sorted, Has,
      Opened, Items, Nodes, Height, Clear;
    hide Pulls, MkNode, WellFormed;
    var c := Spot(e, w, To(t));
    var left, right := Peek(e, c.w, t, L), Peek(e, Tick(c.w, t), t, R);
    var d := DefendTwo(e, Loads(c.w, t), left, right);
    var s := Spots(e, d.w, left, right);
    OpeningOK(e, w, t, left, right, c, d, s);
    if c.bad {
      PullNothing(e, w, c.w, m, t, L);
    } else if d.bad {
      PullNothing(e, w, d.w, m, t, L);
    } else if s.bad {
      PullNothing(e, w, s.w, m, t, L);
    } else if t.left.Nil? {
      PullEnd(e, w, s.w, t, L, t.right);
    } else {
      var sub := PullLeftmost(e, s.w, left);
      PullLeftmostOK(e, s.w, t.left);
      if sub.o.Ok? {
        var n := Defend(e, sub.w, sub.o.v.rest);
        DefendOK(e, sub.w, sub.o.v.rest);
        if n.bad {
          PullEjected(e, w, s.w, sub, n, t, L);
        } else {
          PullUp(e, w, s.w, t, L, sub, n, sub.o.v.rest, right);
        }
        if Clear(e, t) && Undisturbed(e) {
          PullSized(e, s.w, sub, t.left, L);
          FormedSized(t.right);
          InsertUpSmooth(e, n.w, t, sub.o.v.rest, right);
        }
      } else {
        PullFails(e, w, s.w, sub, t, L);
      }
    }
  }

  lemma {:induction false} PullSized(e: Env, w: Work, m: Made<PullRes>, t: Tree, d: Side)
    requires Pulls(e, w, m, t, d) && m.o.Ok? && m.o.v.rest.To?
    ensures Sized(m.o.v.rest.t)
  {
  }

  lemma {:induction false} PullRightmostOK(e: Env, w: Work, t: Tree)
    requires WellFormed(t) && t.Node?
    ensures Pulls(e, w, PullRightmost(e, w, To(t)), t, R)
    ensures Clear(e, t) && Undisturbed(e) ==> SmoothPull(e, PullRightmost(e, w, To(t)))
    decreases t
  {
    var m := PullRightmost(e, w, To(t));
    WhichSide(t, t.key);
    assert Clear(e, t) ==> Clear(e, t.left) && Clear(e, t.right);
    hide Spot, Spots, DefendTwo, Defend, Peek, Undisturbed, MkBalanced, Grows, Within, Ledger, Sized, Sorted, Has,
      Opened, Items, Nodes, Height, Clear;
    hide Pulls, MkNode, WellFormed;
    var c := Spot(e, w, To(t));
    var left, right := Peek(e, c.w, t, L), Peek(e, Tick(c.w, t), t, R);
    var d := DefendTwo(e, Loads(c.w, t), left, right);
    var s := Spots(e, d.w, left, right);
    OpeningOK(e, w, t, left, right, c, d, s);
    if c.bad {
      PullNothing(e, w, c.w, m, t, R);
    } else if d.bad {
      PullNothing(e, w, d.w, m, t, R);
    } else if s.bad {
      PullNothing(e, w, s.w, m, t, R);
    } else if t.right.Nil? {
      PullEnd(e, w, s.w, t, R, t.left);
    } else {
      var sub := PullRightmost(e, s.w, right);
      PullRightmostOK(e, s.w, t.right);
      if sub.o.Ok? {
        var n := Defend(e, sub.w, sub.o.v.rest);
        DefendOK(e, sub.w, sub.o.v.rest);
        if n.bad {
          PullEjected(e, w, s.w, sub, n, t, R);
        } else {
          PullUp(e, w, s.w, t, R, sub, n, left, sub.o.v.rest);
        }
        if Clear(e, t) && Undisturbed(e) {
          PullSized(e, s.w, sub, t.right, R);
          FormedSized(t.left);
          InsertUpSmooth(e, n.w, t, left, sub.o.v.rest);
        }
      } else {
        PullFails(e, w, s.w, sub, t, R);
      }
    }
  }

  // ---------------------------------------------------------------- remove

  /** What `do_remove` promises about the tree `t`, whatever other threads do. */
  ghost predicate Removes(e: Env, w: Work, m: Made<RemoveRes>, t: Tree, k: int) {
    && !m.o.Fault? && Grows(e, w, m.w) && |m.w.held| == |w.held| && Within(w, m.w, 2 * Height(t) + 4)
    && (m.o.Ok? && m.o.v.r.To? ==>
          && Sized(m.o.v.r.t) && Items(m.o.v.r.t) == Cut(Items(t), k) && m.o.v.value == Lookup(Contents(t), k)
          && Ledger(w, m.w, Nodes(t), Nodes(m.o.v.r.t))
          && (m.o.v.r.t.Nil? || RootCreated(w, m.w, m.o.v.r.t)))
  }

  ghost predicate SmoothRemove(e: Env, m: Made<RemoveRes>) {
    m.o.Ok? && m.o.v.r.To? && Clear(e, m.o.v.r.t)
  }

  /** In a search tree the value is found on the key's side. */
  lemma {:induction false} LookupSide(t: Tree, k: int)
    requires t.Node? && WellFormed(t)
    ensures WellFormed(t.left) && WellFormed(t.right)
    ensures Lookup(Contents(t), k) ==
              if t.key == k then Some(t.value) else if t.key < k then Lookup(Contents(t.right), k)
                else Lookup(Contents(t.left), k)
  {
    WhichSide(t, k);
    var a, x, b := Items(t.left), Item(t.key, t.value), Items(t.right);
    InMap(Items(t), k);
    InMap(a, k);
    InMap(b, k);
    LookupParts(a, x, b, k);
  }

  lemma {:induction false} LookupParts(a: seq<Item>, x: Item, b: seq<Item>, k: int)
    requires Sorted(a + [x] + b) && Sorted(a) && Sorted(b)
    ensures x.k == k ==> Lookup(MapOf(a + [x] + b), k) == Some(x.v)
    ensures x.k < k ==> Lookup(MapOf(a + [x] + b), k) == Lookup(MapOf(b), k)
    ensures k < x.k ==> Lookup(MapOf(a + [x] + b), k) == Lookup(MapOf(a), k)
  {
    var all := a + [x] + b;
    InMap(all, k);
    InMap(a, k);
    InMap(b, k);
    SplitSorted(a, x, b);
    assert forall i :: 0 <= i < |a| ==> all[i] == a[i];
    assert all[|a|] == x;
    assert forall i :: 0 <= i < |b| ==> all[|a| + 1 + i] == b[i];
  }

  /** `Cut` works on the key's side, and at the key it joins the two sides. */
  lemma {:induction false} CutSide(t: Tree, k: int)
    requires t.Node? && WellFormed(t)
    ensures t.key == k ==> Cut(Items(t), k) == Items(t.left) + Items(t.right)
    ensures t.key < k ==> Cut(Items(t), k) == Items(t.left) + [Item(t.key, t.value)] + Cut(Items(t.right), k)
    ensures k < t.key ==> Cut(Items(t), k) == Cut(Items(t.left), k) + [Item(t.key, t.value)] + Items(t.right)
  {
    var a, x, b := Items(t.left), Item(t.key, t.value), Items(t.right);
    SplitSorted(a, x, b);
    hide Items, Cut;
    if k < t.key {
      CutBefore(a, x, b, k);
    } else if t.key == k {
      CutAt(a, x, b);
    } else {
      CutAppend(a + [x], b, k);
    }
  }

  lemma {:induction false} CutBefore(a: seq<Item>, x: Item, b: seq<Item>, k: int)
    requires k < x.k && forall i :: 0 <= i < |b| ==> x.k < b[i].k
    ensures Cut(a + [x] + b, k) == Cut(a, k) + [x] + b
  {
    assert a + [x] + b == a + ([x] + b);
    CutFront(a, [x] + b, k);
    hide Cut;
    assert Cut(a, k) + ([x] + b) == Cut(a, k) + [x] + b;
  }

  lemma {:induction false} CutAt(a: seq<Item>, x: Item, b: seq<Item>)
    requires forall i :: 0 <= i < |a| ==> a[i].k < x.k
    ensures Cut(a + [x] + b, x.k) == a + b
  {
    assert a + [x] + b == a + ([x] + b);
    CutAppend(a, [x] + b, x.k);
    assert ([x] + b)[1..] == b;
  }

  lemma {:induction false} RemoveNothing(e: Env, w: Work, v: Work, m: Made<RemoveRes>, t: Tree, k: int)
    requires t.Node? && Opened(w, v) && SameLists(m.w, v) && |m.w.held| == |w.held|
    requires !m.o.Fault? && (m.o.Ok? ==> m.o.v.r.Stamp?)
    ensures Removes(e, w, m, t, k)
  {
    OpenedGrows(e, w, v, t);
  }

  lemma {:induction false} RemoveFails(e: Env, w: Work, v: Work, sub: Made<RemoveRes>, t: Tree, k: int, d: Side)
    requires t.Node? && Opened(w, v) && Removes(e, v, sub, Child(t, d), k) && !sub.o.Ok?
    ensures Removes(e, w, Leave(sub, w), t, k)
  {
    EndOK(e, w, v, sub.w, t, d);
  }

  /** The step of `do_remove` above the recursive call, on either side. */
  lemma {:induction false} RemoveUp(e: Env, w: Work, v: Work, t: Tree, k: int, d: Side, sub: Made<RemoveRes>, left: Ref,
      right: Ref)
    requires t.Node? && WellFormed(t) && Opened(w, v) && Removes(e, v, sub, Child(t, d), k) && sub.o.Ok?
    requires if d.L? then k < t.key && left == sub.o.v.r && right == To(t.right)
      else t.key < k && left == To(t.left) && right == sub.o.v.r
    ensures Removes(e, w, Leave(RemoveDone(MkBalanced(e, sub.w, To(t), left, right), sub.o.v.value), w), t, k)
  {
    hide Undisturbed, MkBalanced, Grows, Within, Ledger, Built, Cut, Sized, Sorted, Opened, Items, Nodes, Height, Clear,
      WellFormed, Contents;
    var m := MkBalanced(e, sub.w, To(t), left, right);
    LookupSide(t, k);
    FormedSized(t.left);
    FormedSized(t.right);
    MkBalancedOK(e, sub.w, To(t), left, right);
    UpOK(e, w, v, sub.w, m.w, t, d);
    if m.o.Ok? && m.o.v.To? {
      RemoveTree(e, w, v, t, k, d, sub, m, left.t, right.t);
    }
  }

  lemma {:induction false} RemoveTree(e: Env, w: Work, v: Work, t: Tree, k: int, d: Side, sub: Made<RemoveRes>,
      m: Made<Ref>, l: Tree, q: Tree)
    requires t.Node? && WellFormed(t) && Opened(w, v) && Removes(e, v, sub, Child(t, d), k) && sub.o.Ok?
      && sub.o.v.r.To?
    requires if d.L? then k < t.key && l == sub.o.v.r.t && q == t.right
      else t.key < k && l == t.left && q == sub.o.v.r.t
    requires Built(e, sub.w, m, Nodes(l) + Nodes(q) + multiset{t.a}, Items(l) + [Item(t.key, t.value)] + Items(q))
    requires m.o.Ok? && m.o.v.To? && Grows(e, v, sub.w)
    ensures Sized(m.o.v.t) && Items(m.o.v.t) == Cut(Items(t), k) && Ledger(w, Close(m.w, w), Nodes(t), Nodes(m.o.v.t))
    ensures RootCreated(w, m.w, m.o.v.t)
  {
    BuiltParts(e, sub.w, m, Nodes(l) + Nodes(q) + multiset{t.a}, Items(l) + [Item(t.key, t.value)] + Items(q));
    CreatedMore(e, v, sub.w);
    OpenedLists(w, v);
    CutSide(t, k);
    hide Grows, Within, Ledger, Built, Cut, Sized, Opened, Items, Nodes, Height, WellFormed, Contents;
    var r := sub.o.v.r.t;
    var other := if d.L? then t.right else t.left;
    NodesSplit(t, r, d);
    LedgerUp(w, v, sub.w, m.w, Close(m.w, w), Nodes(Child(t, d)), Nodes(r), Nodes(other), t.a, Nodes(m.o.v.t),
             Nodes(l) + Nodes(q) + multiset{t.a}, Nodes(t));
  }

  // ---------------------------------------------------------------- removing the node itself

  /**
    The last binding of the left subtree, or the first one of the right subtree, takes the place of the removed
    one.
   */
  lemma {:induction false} HereItems(t: Tree, d: Side, rest: Tree, succ: Tree, l: Tree, q: Tree)
    requires t.Node? && WellFormed(t) && succ.Node?
    requires if d.L? then Items(t.left) == Rejoined(succ, rest, R) && l == rest && q == t.right
             else t.left.Nil? && Items(t.right) == Rejoined(succ, rest, L) && l == t.left && q == rest
    ensures Items(l) + [Item(succ.key, succ.value)] + Items(q) == Cut(Items(t), t.key)
  {
    CutSide(t, t.key);
  }

  lemma {:induction false} HereRegroup(rest: multiset<Addr>, other: multiset<Addr>, child: multiset<Addr>,
      s: multiset<Addr>, a: multiset<Addr>)
    ensures rest + other + s == (rest + s) + other && other + rest + s == (rest + s) + other
    ensures multiset{} + (child + other) == child + other
    ensures multiset{} + a + (child + other) == child + (other + a)
  {
  }

  lemma {:induction false} HereLedger(w: Work, v: Work, w1: Work, w2: Work, w3: Work, w': Work, t: Tree, d: Side,
      rest: Tree, s: Addr, l: Tree, q: Tree, post: multiset<Addr>)
    requires t.Node? && v.created == w.created && v.retired == w.retired
    requires w2.created == w1.created && w2.retired == w1.retired && w'.created == w3.created
      && w'.retired == w3.retired
    requires Ledger(Retire(v, t), w1, Nodes(Child(t, d)), Nodes(rest) + multiset{s})
      && Ledger(w2, w3, Nodes(l) + Nodes(q) + multiset{s}, post)
    requires if d.L? then l == rest && q == t.right else l == t.left && q == rest
    ensures Ledger(w, w', Nodes(t), post)
  {
    var other := if d.L? then t.right else t.left;
    NodesSplit(t, rest, d);
    LedgerNone(v, v, multiset{});
    hide Ledger, Nodes;
    LedgerRetire(v, v, multiset{}, multiset{}, t);
    HereRegroup(Nodes(rest), Nodes(other), Nodes(Child(t, d)), multiset{s}, multiset{t.a});
    LedgerLists(w2, w3, w1, w3, (Nodes(rest) + multiset{s}) + Nodes(other), post);
    LedgerTrans(Retire(v, t), w1, w3, Nodes(Child(t, d)), Nodes(rest) + multiset{s}, Nodes(other), post);
    LedgerTrans(v, Retire(v, t), w3, multiset{} + multiset{t.a}, multiset{}, Nodes(Child(t, d)) + Nodes(other), post);
    LedgerLists(v, w3, w, w', Nodes(t), post);
  }

  lemma {:induction false} HereTree(e: Env, w: Work, v: Work, t: Tree, d: Side, sub: Made<PullRes>, n: Checked,
      m: Made<Ref>, l: Tree, q: Tree)
    requires t.Node? && WellFormed(t) && Opened(w, v) && sub.o.Ok? && sub.o.v.rest.To? && sub.o.v.succ.To?
    requires Pulls(e, Retire(v, t), sub, Child(t, d), if d.L? then R else L)
    requires n.w.created == sub.w.created && n.w.retired == sub.w.retired && |w.created| <= |n.w.created|
    requires if d.L? then l == sub.o.v.rest.t && q == t.right else t.left.Nil? && l == t.left && q == sub.o.v.rest.t
    requires m.o.Ok? && m.o.v.To?
    requires Built(e, n.w, m, Nodes(l) + Nodes(q) + multiset{sub.o.v.succ.t.a},
      Items(l) + [Item(sub.o.v.succ.t.key, sub.o.v.succ.t.value)] + Items(q))
    ensures Sized(m.o.v.t) && Items(m.o.v.t) == Cut(Items(t), t.key)
      && Ledger(w, Close(m.w, w), Nodes(t), Nodes(m.o.v.t))
    ensures RootCreated(w, m.w, m.o.v.t)
  {
    var succ := sub.o.v.succ.t;
    BuiltParts(e, n.w, m, Nodes(l) + Nodes(q) + multiset{succ.a}, Items(l) + [Item(succ.key, succ.value)] + Items(q));
    OpenedLists(w, v);
    hide Grows, Within, Ledger, Built, Cut, Sized, Opened, Items, Nodes, Height, WellFormed, Rejoined;
    HereItems(t, d, sub.o.v.rest.t, succ, l, q);
    HereLedger(w, v, sub.w, n.w, m.w, Close(m.w, w), t, d, sub.o.v.rest.t, succ.a, l, q, Nodes(m.o.v.t));
  }

  /** Retiring the node does not count as progress of the shields. */
  lemma {:induction false} HereUp(e: Env, w: Work, v: Work, w1: Work, r: Ref, n: Checked, w3: Work, t: Tree, d: Side)
    requires t.Node? && Opened(w, v) && Child(t, d).Node? && Grows(e, Retire(v, t), w1) && |w1.held| == |v.held|
    requires Within(Retire(v, t), w1, 2 * Height(Child(t, d)) + 4) && n == Defend(e, w1, r) && Grows(e, n.w, w3)
      && Within(n.w, w3, 4)
    ensures Grows(e, w, Close(w3, w)) && Within(w, Close(w3, w), 2 * Height(t) + 4)
    ensures n.w.created == w1.created && n.w.retired == w1.retired && |w.created| <= |n.w.created|
  {
    RetireGrows(e, v, t, w1);
    OpenedLists(w, v);
    CreatedMore(e, v, w1);
    hide Grows, Opened, Defend, Height;
    assert Within(v, w1, 2 * Height(Child(t, d)) + 4);
    ShieldedUp(e, w, v, w1, r, n, w3, t, d);
  }

  lemma {:induction false} RetireGrows(e: Env, v: Work, t: Tree, w1: Work)
    requires t.Node? && Grows(e, Retire(v, t), w1)
    ensures Grows(e, v, w1)
  {
    GrowsQuiet(e, v, v);
    GrowsRetire(e, v, v, t);
    GrowsTrans(e, v, Retire(v, t), w1);
  }

  lemma {:induction false} HereEnd(e: Env, w: Work, v: Work, w1: Work, r: Ref, n: Checked, t: Tree, d: Side)
    requires t.Node? && Opened(w, v) && Child(t, d).Node? && Grows(e, Retire(v, t), w1) && |w1.held| == |v.held|
    requires Within(Retire(v, t), w1, 2 * Height(Child(t, d)) + 4) && n == Defend(e, w1, r)
    ensures Grows(e, w, Close(w1, w)) && Within(w, Close(w1, w), 2 * Height(t) + 4)
    ensures Grows(e, w, Close(n.w, w)) && Within(w, Close(n.w, w), 2 * Height(t) + 4)
  {
    RetireGrows(e, v, t, w1);
    hide Grows, Opened, Defend, Height;
    assert Within(v, w1, 2 * Height(Child(t, d)) + 4);
    EndOK(e, w, v, w1, t, d);
    ShieldSub(e, w, v, w1, r, n, t, d);
  }

  lemma {:induction false} HereAlone(e: Env, w: Work, v: Work, t: Tree)
    requires t.Node? && WellFormed(t) && Opened(w, v) && t.size == 1
    ensures Removes(e, w, Leave(Made(Ok(RemoveRes(To(Nil), Some(t.value))), Retire(v, t)), w), t, t.key)
  {
    LookupSide(t, t.key);
    CutSide(t, t.key);
    assert |Items(t)| == |Items(t.left)| + 1 + |Items(t.right)|;
    assert t.left.Nil? && t.right.Nil?;
    assert Nodes(t) == multiset{} + multiset{t.a};
    OpenedGrows(e, w, v, t);
    GrowsRetire(e, w, Close(v, w), t);
    LedgerNone(w, v, multiset{});
    hide Ledger;
    LedgerRetire(w, v, multiset{}, multiset{}, t);
    LedgerLists(w, Retire(v, t), w, Close(Retire(v, t), w), Nodes(t), multiset{});
  }

  /** The node gives way to its neighbour, pulled out of the subtree on side `d`. */
  lemma {:induction false} HerePulled(e: Env, w: Work, v: Work, t: Tree, d: Side, sub: Made<PullRes>, n: Checked,
      left: Ref, right: Ref)
    requires t.Node? && WellFormed(t) && Opened(w, v) && Child(t, d).Node? && sub.o.Ok?
    requires Pulls(e, Retire(v, t), sub, Child(t, d), if d.L? then R else L)
      && n == Defend(e, sub.w, sub.o.v.rest) && !n.bad
    requires if d.L? then left == sub.o.v.rest && right == To(t.right)
      else t.left.Nil? && left == To(t.left) && right == sub.o.v.rest
    ensures Removes(e, w, Leave(RemoveDone(MkBalanced(e, n.w, sub.o.v.succ, left, right), Some(t.value)), w), t, t.key)
  {
    hide Undisturbed, MkBalanced, Grows, Within, Ledger, Built, Cut, Sized, Sorted, Opened, Items, Nodes, Height, Clear,
      WellFormed, Contents, Defend, Rejoined, Lookup;
    LookupSide(t, t.key);
    FormedSized(t.left);
    FormedSized(t.right);
    var m := MkBalanced(e, n.w, sub.o.v.succ, left, right);
    MkBalancedOK(e, n.w, sub.o.v.succ, left, right);
    HereUp(e, w, v, sub.w, sub.o.v.rest, n, m.w, t, d);
    if m.o.Ok? && m.o.v.To? {
      HereTree(e, w, v, t, d, sub, n, m, left.t, right.t);
    }
  }

  /** One of the two pulls of `do_remove`, and what follows it. */
  lemma {:induction false} HereSide(e: Env, w: Work, v: Work, t: Tree, d: Side, sub: Made<PullRes>, r: Ref,
      n: Checked, m: Made<RemoveRes>, left: Ref, right: Ref)
    requires t.Node? && WellFormed(t) && Opened(w, v) && Child(t, d).Node?
    requires Pulls(e, Retire(v, t), sub, Child(t, d), if d.L? then R else L) && n == Defend(e, sub.w, r)
      && (sub.o.Ok? ==> r == sub.o.v.rest)
    requires Clear(e, t) && Undisturbed(e) ==> SmoothPull(e, sub)
    requires sub.o.Ok? ==> if d.L? then left == sub.o.v.rest && right == To(t.right)
      else t.left.Nil? && left == To(t.left) && right == sub.o.v.rest
    requires match sub.o
             case Ejected => m == Made(Ejected, sub.w)
             case Fault => m == Made(Fault, sub.w)
             case Ok(p) => m == if n.bad then Made(Ejected, n.w)
               else RemoveDone(MkBalanced(e, n.w, p.succ, left, right), Some(t.value))
    ensures Removes(e, w, Leave(m, w), t, t.key)
    ensures Clear(e, t) && Undisturbed(e) ==> SmoothRemove(e, m)
  {
    hide Undisturbed, MkBalanced, Grows, Within, Ledger, Built, Cut, Sized, Opened, Items, Nodes, Height, Clear,
      WellFormed, Contents, Defend, Rejoined;
    HereEnd(e, w, v, sub.w, r, n, t, d);
    if sub.o.Ok? && !n.bad {
      HerePulled(e, w, v, t, d, sub, n, left, right);
    }
    if Clear(e, t) && Undisturbed(e) {
      DefendOK(e, sub.w, r);
      ChildrenClear(e, t);
      MkBalancedOK(e, n.w, sub.o.v.succ, left, right);
    }
  }

  lemma {:induction false} ChildrenClear(e: Env, t: Tree)
    requires t.Node?
    ensures Clear(e, t) ==> Clear(e, t.left) && Clear(e, t.right)
    ensures WellFormed(t) ==> Sized(t.left) && Sized(t.right)
  {
  }

  lemma {:induction false} RemoveHereOK(e: Env, w: Work, v: Work, t: Tree)
    requires t.Node? && WellFormed(t) && Opened(w, v)
    ensures Removes(e, w, Leave(RemoveHere(e, v, t, t.left, t.right), w), t, t.key)
    ensures Clear(e, t) && Undisturbed(e) ==> SmoothRemove(e, RemoveHere(e, v, t, t.left, t.right))
  {
    WhichSide(t, t.key);
    ChildrenClear(e, t);
    if t.size == 1 {
      HereAlone(e, w, v, t);
    } else {
      assert t.left.Nil? ==> t.right.Node?;
      hide Undisturbed, MkBalanced, Removes, Pulls, Sized, Opened, Items, Height, Clear, WellFormed, Defend,
        PullRightmost, PullLeftmost, Sorted, Has;
      var m := RemoveHere(e, v, t, t.left, t.right);
      if t.left.Node? {
        var sub := PullRightmost(e, Retire(v, t), To(t.left));
        PullRightmostOK(e, Retire(v, t), t.left);
        var r := if sub.o.Ok? then sub.o.v.rest else Stamp;
        HereSide(e, w, v, t, L, sub, r, Defend(e, sub.w, r), m, r, To(t.right));
      } else {
        var sub := PullLeftmost(e, Retire(v, t), To(t.right));
        PullLeftmostOK(e, Retire(v, t), t.right);
        var r := if sub.o.Ok? then sub.o.v.rest else Stamp;
        HereSide(e, w, v, t, R, sub, r, Defend(e, sub.w, r), m, To(t.left), r);
      }
    }
  }

  /**
    `do_remove` under any interference: it never dereferences null; the list of new nodes holds exactly
    what it allocated; it holds at most twice the height plus four shields; and unless it reports a stamp
    or an ejection, the result is the search tree with exact sizes without the key, with the value that was
    there, and with all nodes accounted for.
   */
  lemma {:induction false} DoRemoveOK(e: Env, w: Work, t: Tree, k: int)
    requires WellFormed(t)
    ensures Removes(e, w, DoRemove(e, w, To(t), k), t, k)
    ensures Clear(e, t) && Undisturbed(e) ==> SmoothRemove(e, DoRemove(e, w, To(t), k))
    decreases t
  {
    var m := DoRemove(e, w, To(t), k);
    if t.Nil? {
      GrowsQuiet(e, w, m.w);
      LedgerNone(w, m.w, Nodes(t));
    } else {
      WhichSide(t, k);
      ChildrenClear(e, t);
      hide Spot, Spots, DefendTwo, Peek, Undisturbed, MkBalanced, Grows, Within, Ledger, Cut, Sized, Sorted, Has,
        Opened, Items, Nodes, Height, Clear, WellFormed;
      hide Removes, MkNode, RemoveHere, Contents;
      var c := Spot(e, w, To(t));
      var left, right := Peek(e, c.w, t, L), Peek(e, Tick(c.w, t), t, R);
      var d := DefendTwo(e, Loads(c.w, t), left, right);
      var s := Spots(e, d.w, left, right);
      OpeningOK(e, w, t, left, right, c, d, s);
      if c.bad {
        RemoveNothing(e, w, c.w, m, t, k);
      } else if d.bad {
        RemoveNothing(e, w, d.w, m, t, k);
      } else if s.bad {
        RemoveNothing(e, w, s.w, m, t, k);
      } else if t.key == k {
        RemoveHereOK(e, w, s.w, t);
      } else {
        var side := if k < t.key then L else R;
        var sub := DoRemove(e, s.w, if k < t.key then left else right, k);
        DoRemoveOK(e, s.w, Child(t, side), k);
        if sub.o.Ok? {
          RemoveUp(e, w, s.w, t, k, side, sub, if k < t.key then sub.o.v.r else left, if k < t.key then right
            else sub.o.v.r);
          if Clear(e, t) && Undisturbed(e) {
            RemoveSized(e, s.w, sub, Child(t, side), k);
            InsertUpSmooth(e, sub.w, t, if k < t.key then sub.o.v.r else left, if k < t.key then right else sub.o.v.r);
          }
        } else {
          RemoveFails(e, w, s.w, sub, t, k, side);
        }
      }
    }
  }

  lemma {:induction false} RemoveSized(e: Env, w: Work, m: Made<RemoveRes>, t: Tree, k: int)
    requires Removes(e, w, m, t, k) && m.o.Ok? && m.o.v.r.To?
    ensures Sized(m.o.v.r.t)
  {
  }
}
