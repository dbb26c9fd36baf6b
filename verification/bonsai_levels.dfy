/**
  The shape of the tree after an update of the Bonsai tree: on the way to the key every node is rebalanced, and
  what this does for the factor-2 test.
 */
module BonsaiLevels {
  import opened BonsaiTree
  import opened BonsaiBuild
  import opened BonsaiBalance
  import opened BonsaiUpdate
  import opened BonsaiSizes

  // ---------------------------------------------------------------- the shape after an update

  /** If a double rotation is due on `l` and `r`, the four subtrees it joins fit. */
  ghost predicate Joined(l: Tree, r: Tree) {
    && (!Fits(NodeSize(r), NodeSize(l)) && r.Node? && r.left.Node? && !(NodeSize(r.left) < NodeSize(r.right)) ==>
          Joins(l, r.left.left, r.left.right, r.right))
    && (!Fits(NodeSize(l), NodeSize(r)) && l.Node? && l.right.Node? && !(NodeSize(l.right) < NodeSize(l.left)) ==>
          Joins(r, l.right.right, l.right.left, l.left))
  }

  /** The node with the binding `x` is rebalanced above `l` and `r`; if `strict`, no double rotation fails to fit. */
  ghost predicate Stacked(x: Item, l: Tree, r: Tree, m: Tree, strict: bool) {
    Sized(l) && Sized(r) && Rebalanced(x, l, r, m) && (strict ==> Joined(l, r))
  }

  ghost function BindingOf(t: Tree): Item
    requires t.Node?
  {
    Item(t.key, t.value)
  }

  /** The child on side `d` becomes `c`. */
  ghost predicate StackedOn(t: Tree, d: Side, c: Tree, x: Item, m: Tree, strict: bool)
    requires t.Node?
  {
    Stacked(x, if d.L? then c else t.left, if d.L? then t.right else c, m, strict)
  }

  /** `m` is `t` with the key `k` inserted: a leaf at the end of the search path, and every node on it rebalanced. */
  ghost predicate Grown(t: Tree, k: int, v: V, m: Tree, strict: bool) {
    if t.Nil? then m.Node? && BindingOf(m) == Item(k, v) && m.left.Nil? && m.right.Nil?
    else if k == t.key then m == t
    else
      var d := if k < t.key then L else R;
      exists c: Tree :: Grown(Child(t, d), k, v, c, strict) && StackedOn(t, d, c, BindingOf(t), m, strict)
        && NodeSize(Child(t, d)) <= NodeSize(c) <= NodeSize(Child(t, d)) + 1
  }

  /** `m` is `t` without its last node on side `d`, and every node on the way to it rebalanced. */
  ghost predicate Pulled(t: Tree, d: Side, m: Tree, strict: bool)
    requires t.Node?
  {
    if Child(t, d).Nil? then m == Child(t, if d.L? then R else L)
    else
      exists c: Tree :: Pulled(Child(t, d), d, c, strict) && StackedOn(t, d, c, BindingOf(t), m, strict)
        && NodeSize(c) + 1 == NodeSize(Child(t, d))
  }

  /** `m` is `t` without its root: a neighbour is pulled out of a subtree and takes its place. */
  ghost predicate Vacated(t: Tree, m: Tree, strict: bool)
    requires t.Node?
  {
    if t.left.Nil? && t.right.Nil? then m.Nil?
    else
      var d := if t.left.Node? then L else R;
      exists c: Tree, x: Item :: Pulled(Child(t, d), if d.L? then R else L, c, strict)
        && StackedOn(t, d, c, x, m, strict) && NodeSize(c) + 1 == NodeSize(Child(t, d))
  }

  /** `m` is `t` with the key `k` removed. */
  ghost predicate Shrunk(t: Tree, k: int, m: Tree, strict: bool) {
    if t.Nil? then m.Nil?
    else if k == t.key then Vacated(t, m, strict)
    else
      var d := if k < t.key then L else R;
      exists c: Tree :: Shrunk(Child(t, d), k, c, strict) && StackedOn(t, d, c, BindingOf(t), m, strict)
        && NodeSize(c) <= NodeSize(Child(t, d)) <= NodeSize(c) + 1
  }

  // ---------------------------------------------------------------- what the builders make

  lemma {:induction false} PutSize(s: seq<Item>, k: int, v: V)
    ensures |s| <= |Put(s, k, v)| <= |s| + 1
    decreases |s|
  {
    if s != [] {
      PutSize(s[1..], k, v);
    }
  }

  lemma {:induction false} CutSize(s: seq<Item>, k: int)
    ensures |Cut(s, k)| <= |s| <= |Cut(s, k)| + 1
    decreases |s|
  {
    if s != [] {
      CutSize(s[1..], k);
    }
  }

  /** `mk_balanced` of a node of which one child has been rebuilt. */
  lemma {:induction false} UpStacked(e: Env, w: Work, cur: Ref, x: Item, t: Tree, d: Side, c: Ref)
    requires t.Node? && Sized(t) && (c.To? ==> Sized(c.t)) && (cur.To? ==> cur.t.Node? && BindingOf(cur.t) == x)
    ensures var m := MkBalanced(e, w, cur, if d.L? then c else To(t.left), if d.L? then To(t.right) else c);
            m.o.Ok? && m.o.v.To? ==> c.To? && cur.To? && StackedOn(t, d, c.t, x, m.o.v.t, false)
  {
    hide MkBalanced, Rebalanced;
    var l, r := if d.L? then c else To(t.left), if d.L? then To(t.right) else c;
    if c.To? && cur.To? {
      MkBalancedLevel(e, w, cur.t, l.t, r.t);
    }
    NeedsAll(e, w, cur, l, r);
  }

  lemma {:induction false} NeedsAll(e: Env, w: Work, cur: Ref, left: Ref, right: Ref)
    ensures var m := MkBalanced(e, w, cur, left, right);
            m.o.Ok? && m.o.v.To? ==> cur.To? && left.To? && right.To?
  {
    hide MkBalancedLeft, MkBalancedRight, MkNode;
  }

  /** The tree that `do_insert` makes, whatever other threads do. */
  lemma {:induction false} InsertGrown(e: Env, w: Work, t: Tree, k: int, v: V)
    requires WellFormed(t)
    ensures var m := DoInsert(e, w, To(t), k, v);
            m.o.Ok? && m.o.v.r.To? ==> Grown(t, k, v, m.o.v.r.t, false)
    decreases t
  {
    hide Spot, Spots, DefendTwo, Peek, Loads, Tick, MkBalanced, MkNode, Grown, StackedOn, Sized, Sorted, Items,
      WellFormed, Has, Opened, Clear, Undisturbed;
    var m := DoInsert(e, w, To(t), k, v);
    if t.Nil? {
      LeafGrown(e, w, k, v);
    } else if m.o.Ok? && m.o.v.r.To? {
      WhichSide(t, k);
      FormedSized(t);
      var c := Spot(e, w, To(t));
      var left, right := Peek(e, c.w, t, L), Peek(e, Tick(c.w, t), t, R);
      var d := DefendTwo(e, Loads(c.w, t), left, right);
      var s := Spots(e, d.w, left, right);
      OpeningOK(e, w, t, left, right, c, d, s);
      if t.key == k {
        GrownSame(t, v);
      } else {
        var side := if k < t.key then L else R;
        var sub := DoInsert(e, s.w, To(Child(t, side)), k, v);
        InsertSub(e, s.w, Child(t, side), k, v);
        InsertGrown(e, s.w, Child(t, side), k, v);
        UpStacked(e, sub.w, To(t), BindingOf(t), t, side, sub.o.v.r);
        GrownUp(t, k, v, sub.o.v.r.t, m.o.v.r.t);
      }
    }
  }

  lemma {:induction false} LeafGrown(e: Env, w: Work, k: int, v: V)
    ensures var m := DoInsert(e, w, To(Nil), k, v);
            m.o.Ok? && m.o.v.r.To? ==> Grown(Nil, k, v, m.o.v.r.t, false)
  {
    hide MkNode;
    assert Spot(e, w, To(Nil)) == Checked(false, w);
    MakeLeaf(e, w, k, v);
  }

  lemma {:induction false} InsertSub(e: Env, w: Work, t: Tree, k: int, v: V)
    requires WellFormed(t)
    ensures var m := DoInsert(e, w, To(t), k, v);
            m.o.Ok? && m.o.v.r.To? ==> Sized(m.o.v.r.t) && NodeSize(t) <= NodeSize(m.o.v.r.t) <= NodeSize(t) + 1
  {
    hide DoInsert, Put;
    var m := DoInsert(e, w, To(t), k, v);
    DoInsertOK(e, w, t, k, v);
    PutSize(Items(t), k, v);
    FormedSized(t);
  }

  lemma {:induction false} GrownSame(t: Tree, v: V)
    requires t.Node?
    ensures Grown(t, t.key, v, t, false)
  {
  }

  lemma {:induction false} GrownUp(t: Tree, k: int, v: V, c: Tree, m: Tree)
    requires t.Node? && k != t.key
    requires var d := if k < t.key then L else R;
             && Grown(Child(t, d), k, v, c, false) && StackedOn(t, d, c, BindingOf(t), m, false)
             && NodeSize(Child(t, d)) <= NodeSize(c) <= NodeSize(Child(t, d)) + 1
    ensures Grown(t, k, v, m, false)
  {
    hide StackedOn;
  }

  lemma {:induction false} PulledEnd(t: Tree, d: Side)
    requires t.Node? && Child(t, d).Nil?
    ensures Pulled(t, d, Child(t, if d.L? then R else L), false)
  {
  }

  lemma {:induction false} PulledUp(t: Tree, d: Side, c: Tree, m: Tree)
    requires t.Node? && Child(t, d).Node? && Pulled(Child(t, d), d, c, false)
    requires StackedOn(t, d, c, BindingOf(t), m, false) && NodeSize(c) + 1 == NodeSize(Child(t, d))
    ensures Pulled(t, d, m, false)
  {
    hide StackedOn;
  }

  lemma {:induction false} LeftmostPulled(e: Env, w: Work, t: Tree)
    requires WellFormed(t) && t.Node?
    ensures var m := PullLeftmost(e, w, To(t));
            m.o.Ok? && m.o.v.rest.To? ==> m.o.v.succ.To? && Pulled(t, L, m.o.v.rest.t, false)
    decreases t
  {
    hide Spot, Spots, DefendTwo, Peek, Loads, Tick, MkBalanced, MkNode, Pulled, StackedOn, Sized, Sorted, Items,
      WellFormed, Has, Opened, Clear, Undisturbed;
    var m := PullLeftmost(e, w, To(t));
    if m.o.Ok? && m.o.v.rest.To? {
      WhichSide(t, t.key);
      FormedSized(t);
      var c := Spot(e, w, To(t));
      var left, right := Peek(e, c.w, t, L), Peek(e, Tick(c.w, t), t, R);
      var d := DefendTwo(e, Loads(c.w, t), left, right);
      var s := Spots(e, d.w, left, right);
      OpeningOK(e, w, t, left, right, c, d, s);
      if t.left.Nil? {
        MakeLeaf(e, s.w, t.key, t.value);
        PulledEnd(t, L);
      } else {
        var sub := PullLeftmost(e, s.w, To(t.left));
        LeftmostSub(e, s.w, t.left);
        LeftmostPulled(e, s.w, t.left);
        UpStacked(e, Defend(e, sub.w, sub.o.v.rest).w, To(t), BindingOf(t), t, L, sub.o.v.rest);
        PulledUp(t, L, sub.o.v.rest.t, m.o.v.rest.t);
      }
    }
  }

  lemma {:induction false} LeftmostSub(e: Env, w: Work, t: Tree)
    requires WellFormed(t) && t.Node?
    ensures var m := PullLeftmost(e, w, To(t));
            m.o.Ok? ==>
              && (m.o.v.rest.To? ==> Sized(m.o.v.rest.t)) && (m.o.v.succ.To? ==> m.o.v.succ.t.Node?)
              && (m.o.v.rest.To? && m.o.v.succ.To? ==> NodeSize(m.o.v.rest.t) + 1 == NodeSize(t))
  {
    hide PullLeftmost;
    PullLeftmostOK(e, w, t);
    FormedSized(t);
  }

  lemma {:induction false} RightmostPulled(e: Env, w: Work, t: Tree)
    requires WellFormed(t) && t.Node?
    ensures var m := PullRightmost(e, w, To(t));
            m.o.Ok? && m.o.v.rest.To? ==> m.o.v.succ.To? && Pulled(t, R, m.o.v.rest.t, false)
    decreases t
  {
    hide Spot, Spots, DefendTwo, Peek, Loads, Tick, MkBalanced, MkNode, Pulled, StackedOn, Sized, Sorted, Items,
      WellFormed, Has, Opened, Clear, Undisturbed;
    var m := PullRightmost(e, w, To(t));
    if m.o.Ok? && m.o.v.rest.To? {
      WhichSide(t, t.key);
      FormedSized(t);
      var c := Spot(e, w, To(t));
      var left, right := Peek(e, c.w, t, L), Peek(e, Tick(c.w, t), t, R);
      var d := DefendTwo(e, Loads(c.w, t), left, right);
      var s := Spots(e, d.w, left, right);
      OpeningOK(e, w, t, left, right, c, d, s);
      if t.right.Nil? {
        MakeLeaf(e, s.w, t.key, t.value);
        PulledEnd(t, R);
      } else {
        var sub := PullRightmost(e, s.w, To(t.right));
        RightmostSub(e, s.w, t.right);
        RightmostPulled(e, s.w, t.right);
        UpStacked(e, Defend(e, sub.w, sub.o.v.rest).w, To(t), BindingOf(t), t, R, sub.o.v.rest);
        PulledUp(t, R, sub.o.v.rest.t, m.o.v.rest.t);
      }
    }
  }

  lemma {:induction false} RightmostSub(e: Env, w: Work, t: Tree)
    requires WellFormed(t) && t.Node?
    ensures var m := PullRightmost(e, w, To(t));
            m.o.Ok? ==>
              && (m.o.v.rest.To? ==> Sized(m.o.v.rest.t)) && (m.o.v.succ.To? ==> m.o.v.succ.t.Node?)
              && (m.o.v.rest.To? && m.o.v.succ.To? ==> NodeSize(m.o.v.rest.t) + 1 == NodeSize(t))
  {
    hide PullRightmost;
    PullRightmostOK(e, w, t);
    FormedSized(t);
  }

  /** The tree that `do_remove` makes of a node whose key is removed. */
  lemma {:induction false} HereVacated(e: Env, v: Work, t: Tree)
    requires t.Node? && WellFormed(t)
    ensures var m := RemoveHere(e, v, t, t.left, t.right);
            m.o.Ok? && m.o.v.r.To? ==> Vacated(t, m.o.v.r.t, false)
  {
    hide MkBalanced, PullLeftmost, PullRightmost, Defend, Pulled, StackedOn, Sized, Sorted, Items, WellFormed, Has;
    WhichSide(t, t.key);
    FormedSized(t);
    AloneIs(t);
    var m := RemoveHere(e, v, t, t.left, t.right);
    if t.size != 1 && m.o.Ok? && m.o.v.r.To? {
      var d := if t.left.Node? then L else R;
      var w := Retire(v, t);
      var sub := if t.left.Node? then PullRightmost(e, w, To(t.left)) else PullLeftmost(e, w, To(t.right));
      if t.left.Node? {
        RightmostSub(e, w, t.left);
        RightmostPulled(e, w, t.left);
      } else {
        LeftmostSub(e, w, t.right);
        LeftmostPulled(e, w, t.right);
      }
      var p := sub.o.v;
      var x := if p.succ.To? then BindingOf(p.succ.t) else BindingOf(t);
      UpStacked(e, Defend(e, sub.w, p.rest).w, p.succ, x, t, d, p.rest);
      VacatedBy(t, d, p.rest.t, x, m.o.v.r.t);
    }
  }

  lemma {:induction false} AloneIs(t: Tree)
    requires t.Node? && Sized(t)
    ensures t.size == 1 <==> t.left.Nil? && t.right.Nil?
  {
    assert |Items(t)| == |Items(t.left)| + 1 + |Items(t.right)|;
  }

  lemma {:induction false} VacatedBy(t: Tree, d: Side, c: Tree, x: Item, m: Tree)
    requires t.Node? && d == (if t.left.Node? then L else R) && Child(t, d).Node?
    requires Pulled(Child(t, d), if d.L? then R else L, c, false) && StackedOn(t, d, c, x, m, false)
      && NodeSize(c) + 1 == NodeSize(Child(t, d))
    ensures Vacated(t, m, false)
  {
    hide StackedOn, Pulled;
  }

  /** The tree that `do_remove` makes, whatever other threads do. */
  lemma {:induction false} RemoveShrunk(e: Env, w: Work, t: Tree, k: int)
    requires WellFormed(t)
    ensures var m := DoRemove(e, w, To(t), k);
            m.o.Ok? && m.o.v.r.To? ==> Shrunk(t, k, m.o.v.r.t, false)
    decreases t
  {
    hide Spot, Spots, DefendTwo, Peek, Loads, Tick, MkBalanced, RemoveHere, Shrunk, Vacated, StackedOn, Sized, Sorted,
      Items, WellFormed, Has, Opened, Clear, Undisturbed;
    var m := DoRemove(e, w, To(t), k);
    if m.o.Ok? && m.o.v.r.To? {
      if t.Nil? {
        ShrunkNone(k);
      } else {
        WhichSide(t, k);
        FormedSized(t);
        var c := Spot(e, w, To(t));
        var left, right := Peek(e, c.w, t, L), Peek(e, Tick(c.w, t), t, R);
        var d := DefendTwo(e, Loads(c.w, t), left, right);
        var s := Spots(e, d.w, left, right);
        OpeningOK(e, w, t, left, right, c, d, s);
        if t.key == k {
          HereVacated(e, s.w, t);
          ShrunkHere(t, m.o.v.r.t);
        } else {
          var side := if k < t.key then L else R;
          var sub := DoRemove(e, s.w, To(Child(t, side)), k);
          RemoveSub(e, s.w, Child(t, side), k);
          RemoveShrunk(e, s.w, Child(t, side), k);
          UpStacked(e, sub.w, To(t), BindingOf(t), t, side, sub.o.v.r);
          ShrunkUp(t, k, sub.o.v.r.t, m.o.v.r.t);
        }
      }
    }
  }

  lemma {:induction false} RemoveSub(e: Env, w: Work, t: Tree, k: int)
    requires WellFormed(t)
    ensures var m := DoRemove(e, w, To(t), k);
            m.o.Ok? && m.o.v.r.To? ==> Sized(m.o.v.r.t) && NodeSize(m.o.v.r.t) <= NodeSize(t) <= NodeSize(m.o.v.r.t) + 1
  {
    hide DoRemove, Cut;
    DoRemoveOK(e, w, t, k);
    CutSize(Items(t), k);
    FormedSized(t);
  }

  lemma {:induction false} ShrunkNone(k: int)
    ensures Shrunk(Nil, k, Nil, false)
  {
  }

  lemma {:induction false} ShrunkHere(t: Tree, m: Tree)
    requires t.Node? && Vacated(t, m, false)
    ensures Shrunk(t, t.key, m, false)
  {
    hide Vacated;
  }

  lemma {:induction false} ShrunkUp(t: Tree, k: int, c: Tree, m: Tree)
    requires t.Node? && k != t.key
    requires var d := if k < t.key then L else R;
             && Shrunk(Child(t, d), k, c, false) && StackedOn(t, d, c, BindingOf(t), m, false)
             && NodeSize(c) <= NodeSize(Child(t, d)) <= NodeSize(c) + 1
    ensures Shrunk(t, k, m, false)
  {
    hide StackedOn;
  }

  // ---------------------------------------------------------------- the test after an update

  /** A node whose child on side `d` has grown or shrunk by one at most. */
  lemma {:induction false} StackedLevel(t: Tree, d: Side, c: Tree, x: Item, m: Tree)
    requires t.Node? && Sized(t) && LevelAt(t) && AllLevel(t.left) && AllLevel(t.right) && AllLevel(c)
    requires NodeSize(Child(t, d)) <= NodeSize(c) + 1 && NodeSize(c) <= NodeSize(Child(t, d)) + 1
    requires StackedOn(t, d, c, x, m, true)
    ensures AllLevel(m)
  {
    hide Sized, Items;
    var l, r := if d.L? then c else t.left, if d.L? then t.right else c;
    Changed(NodeSize(t.left), NodeSize(t.right), NodeSize(l), NodeSize(r));
    if Level(NodeSize(l), NodeSize(r)) {
    } else if !Fits(NodeSize(r), NodeSize(l)) {
      RotatedLevel(l, r, R, m);
    } else {
      RotatedLevel(r, l, L, m);
    }
  }

  lemma {:induction false} Changed(x: nat, y: nat, x': nat, y': nat)
    requires Level(x, y) && (x' == x || y' == y) && x <= x' + 1 && x' <= x + 1 && y <= y' + 1 && y' <= y + 1
    ensures !Fits(y', x') ==> OverByOne(x', y')
    ensures !Fits(x', y') ==> OverByOne(y', x')
  {
  }

  lemma {:induction false} RotatedLevel(other: Tree, t: Tree, d: Side, m: Tree)
    requires t.Node? && AllLevel(t) && AllLevel(other) && OverByOne(NodeSize(other), NodeSize(t))
    requires Rotated(other, t, d, m) && (if d.R? then Joined(other, t) else Joined(t, other))
    ensures AllLevel(m)
  {
  }

  /** If no double rotation on the path fails to fit, an insertion keeps the test at every node. */
  lemma {:induction false} GrownLevel(t: Tree, k: int, v: V, m: Tree)
    requires Sized(t) && AllLevel(t) && Grown(t, k, v, m, true)
    ensures AllLevel(m)
    decreases t
  {
    hide StackedOn;
    if t.Nil? {
      assert AllLevel(m.left) && AllLevel(m.right);
    } else if k != t.key {
      var d := if k < t.key then L else R;
      var c: Tree :| Grown(Child(t, d), k, v, c, true) && StackedOn(t, d, c, BindingOf(t), m, true)
        && NodeSize(Child(t, d)) <= NodeSize(c) <= NodeSize(Child(t, d)) + 1;
      GrownLevel(Child(t, d), k, v, c);
      StackedLevel(t, d, c, BindingOf(t), m);
    }
  }

  lemma {:induction false} PulledLevel(t: Tree, d: Side, m: Tree)
    requires t.Node? && Sized(t) && AllLevel(t) && Pulled(t, d, m, true)
    ensures AllLevel(m)
    decreases t
  {
    hide StackedOn;
    if Child(t, d).Node? {
      var c: Tree :| Pulled(Child(t, d), d, c, true) && StackedOn(t, d, c, BindingOf(t), m, true)
        && NodeSize(c) + 1 == NodeSize(Child(t, d));
      PulledLevel(Child(t, d), d, c);
      StackedLevel(t, d, c, BindingOf(t), m);
    }
  }

  /** If no double rotation on the path fails to fit, a removal keeps the test at every node. */
  lemma {:induction false} ShrunkLevel(t: Tree, k: int, m: Tree)
    requires Sized(t) && AllLevel(t) && Shrunk(t, k, m, true)
    ensures AllLevel(m)
    decreases t
  {
    hide StackedOn, Pulled;
    if t.Node? {
      if k != t.key {
        var d := if k < t.key then L else R;
        var c: Tree :| Shrunk(Child(t, d), k, c, true) && StackedOn(t, d, c, BindingOf(t), m, true)
          && NodeSize(c) <= NodeSize(Child(t, d)) <= NodeSize(c) + 1;
        ShrunkLevel(Child(t, d), k, c);
        StackedLevel(t, d, c, BindingOf(t), m);
      } else if t.left.Node? || t.right.Node? {
        var d := if t.left.Node? then L else R;
        var c: Tree, x: Item :| Pulled(Child(t, d), if d.L? then R else L, c, true)
          && StackedOn(t, d, c, x, m, true) && NodeSize(c) + 1 == NodeSize(Child(t, d));
        PulledLevel(Child(t, d), if d.L? then R else L, c);
        StackedLevel(t, d, c, x, m);
      }
    }
  }
}
