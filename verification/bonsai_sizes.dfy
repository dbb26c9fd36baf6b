/**
  What the rotations of the Bonsai tree do for the factor-2 test.
 */
module BonsaiSizes {
  import opened BonsaiTree
  import opened BonsaiBuild
  import opened BonsaiBalance

  /** Side `x` is at most twice side `y`, where an empty side counts as one. */
  predicate Fits(x: nat, y: nat) {
    x <= 2 * (if y == 0 then 1 else y)
  }

  /** The factor-2 test, in terms of the two sizes. */
  predicate Level(x: nat, y: nat) {
    Fits(x, y) && Fits(y, x)
  }

  /** It is the test that `mk_balanced` makes. */
  lemma {:induction false} LevelTest(x: nat, y: nat)
    ensures Heavy(x, y) <==> !Fits(x, y)
    ensures Level(x, y) <==> !Heavy(x, y) && !Heavy(y, x)
  {
  }

  ghost predicate LevelAt(t: Tree) {
    t.Node? ==> Level(NodeSize(t.left), NodeSize(t.right))
  }

  /** Side `y` is too large for `x`, by one insertion into `y` or one deletion from `x`. */
  predicate OverByOne(x: nat, y: nat) {
    y > 0 && !Fits(y, x) && (Level(x, y - 1) || Level(x + 1, y))
  }

  /** A single rotation, to either side: both nodes it makes meet the test. */
  lemma {:induction false} SingleLevel(outer: nat, inner: nat, far: nat)
    requires Level(inner, far) && OverByOne(outer, 1 + inner + far) && inner < far
    ensures Level(outer, inner) && Level(outer + 1 + inner, far)
  {
  }

  /**
    A double rotation, under the same hypotheses: its three nodes meet the test if and only if neither
    outer subtree outweighs the half of the inner grandchild that it is joined with, and the far side is
    not empty unless the near side is.
   */
  lemma {:induction false} DoubleLevel(outer: nat, near: nat, back: nat, far: nat)
    requires Level(near, back) && Level(1 + near + back, far) && OverByOne(outer, 2 + near + back + far)
    requires !(1 + near + back < far)
    ensures Level(outer, near) && Level(back, far) && Level(outer + 1 + near, back + 1 + far)
       <==> Fits(outer, near) && Fits(far, back) && (back + far == 0 ==> outer == 0)
  {
  }

  /** When the double rotation leaves three nodes that meet the test, in terms of the four subtrees it joins. */
  ghost predicate Joins(outer: Tree, near: Tree, back: Tree, far: Tree) {
    && Fits(NodeSize(outer), NodeSize(near)) && Fits(NodeSize(far), NodeSize(back))
    && (NodeSize(back) + NodeSize(far) == 0 ==> NodeSize(outer) == 0)
  }

  ghost predicate LevelAround(t: Tree) {
    t.Node? && LevelAt(t) && LevelAt(t.left) && LevelAt(t.right)
  }

  /** The outer of two children of `t`, away from side `d`, goes up by one, and the other one comes under it. */
  ghost predicate SingleShape(other: Tree, t: Tree, d: Side, m: Tree)
    requires t.Node?
  {
    if d.L? then m.Node? && m.left.Node? && m.left.left == other && m.left.right == t.left && m.right == t.right
    else m.Node? && m.right.Node? && m.right.right == other && m.right.left == t.right && m.left == t.left
  }

  /** The inner grandchild goes up, and its two halves go to the two sides. */
  ghost predicate DoubleShape(other: Tree, t: Tree, d: Side, m: Tree)
    requires t.Node?
  {
    && m.Node? && m.left.Node? && m.right.Node?
    && (if d.L? then
          t.left.Node? && m.left.left == other && m.left.right == t.left.left && m.right.left == t.left.right
          && m.right.right == t.right
        else
          t.right.Node? && m.right.right == other && m.right.left == t.right.right && m.left.right == t.right.left
          && m.left.left == t.left)
  }

  /** A new node carries the exact size of its subtrees. */
  ghost predicate Summed(t: Tree) {
    t.Node? && t.size == NodeSize(t.left) + NodeSize(t.right) + 1
  }

  lemma {:induction false} LeftShape(e: Env, w: Work, left: Tree, right: Tree, key: int, value: V)
    requires right.Node?
    ensures var m := MkBalancedLeft(e, w, left, right, key, value);
            m.o.Ok? && m.o.v.To? ==>
              var t := m.o.v.t;
              if NodeSize(right.left) < NodeSize(right.right) then SingleShape(left, right, L, t) && Summed(t.left)
              else DoubleShape(left, right, L, t) && Summed(t.left) && Summed(t.right)
  {
    hide Spots, DefendTwo;
  }

  lemma {:induction false} RightShape(e: Env, w: Work, left: Tree, right: Tree, key: int, value: V)
    requires left.Node?
    ensures var m := MkBalancedRight(e, w, left, right, key, value);
            m.o.Ok? && m.o.v.To? ==>
              var t := m.o.v.t;
              if NodeSize(left.right) < NodeSize(left.left) then SingleShape(right, left, R, t) && Summed(t.right)
              else DoubleShape(right, left, R, t) && Summed(t.left) && Summed(t.right)
  {
    hide Spots, DefendTwo;
  }

  /** What a single rotation to side `d` does for the test. */
  lemma {:induction false} SingleShapeLevel(other: Tree, t: Tree, d: Side, m: Tree)
    requires t.Node? && Sized(t) && LevelAt(t) && OverByOne(NodeSize(other), NodeSize(t)) && SingleShape(other, t, d, m)
    requires if d.L? then NodeSize(t.left) < NodeSize(t.right) && Summed(m.left)
             else NodeSize(t.right) < NodeSize(t.left) && Summed(m.right)
    ensures LevelAt(m) && (if d.L? then LevelAt(m.left) else LevelAt(m.right))
  {
    hide Fits;
    SizedIs(t);
    SizedIs(t.left);
    SizedIs(t.right);
    if d.L? {
      SingleLevel(NodeSize(other), NodeSize(t.left), NodeSize(t.right));
    } else {
      SingleLevel(NodeSize(other), NodeSize(t.right), NodeSize(t.left));
    }
  }

  lemma {:induction false} DoubleShapeLevel(other: Tree, t: Tree, d: Side, m: Tree)
    requires t.Node? && Sized(t) && LevelAt(t) && OverByOne(NodeSize(other), NodeSize(t)) && DoubleShape(other, t, d, m)
    requires Summed(m.left) && Summed(m.right)
    requires if d.L? then !(NodeSize(t.left) < NodeSize(t.right)) && LevelAt(t.left)
             else !(NodeSize(t.right) < NodeSize(t.left)) && LevelAt(t.right)
    ensures LevelAround(m) <==> if d.L? then Joins(other, t.left.left, t.left.right, t.right)
                                else Joins(other, t.right.right, t.right.left, t.left)
  {
    hide Fits;
    SizedIs(t);
    SizedIs(t.left);
    SizedIs(t.right);
    var c := if d.L? then t.left else t.right;
    SizedIs(c.left);
    SizedIs(c.right);
    if d.L? {
      DoubleLevel(NodeSize(other), NodeSize(c.left), NodeSize(c.right), NodeSize(t.right));
    } else {
      DoubleLevel(NodeSize(other), NodeSize(c.right), NodeSize(c.left), NodeSize(t.left));
    }
  }

  lemma {:induction false} SingleLeftLevel(e: Env, w: Work, left: Tree, right: Tree, key: int, value: V)
    requires right.Node? && Sized(right) && LevelAt(right) && OverByOne(NodeSize(left), NodeSize(right))
    requires NodeSize(right.left) < NodeSize(right.right)
    ensures var m := MkBalancedLeft(e, w, left, right, key, value);
            m.o.Ok? && m.o.v.To? ==> m.o.v.t.Node? && LevelAt(m.o.v.t) && LevelAt(m.o.v.t.left)
  {
    hide MkBalancedLeft, OverByOne, LevelAt, Sized;
    var m := MkBalancedLeft(e, w, left, right, key, value);
    LeftShape(e, w, left, right, key, value);
    if m.o.Ok? && m.o.v.To? {
      SingleShapeLevel(left, right, L, m.o.v.t);
    }
  }

  lemma {:induction false} SingleRightLevel(e: Env, w: Work, left: Tree, right: Tree, key: int, value: V)
    requires left.Node? && Sized(left) && LevelAt(left) && OverByOne(NodeSize(right), NodeSize(left))
    requires NodeSize(left.right) < NodeSize(left.left)
    ensures var m := MkBalancedRight(e, w, left, right, key, value);
            m.o.Ok? && m.o.v.To? ==> m.o.v.t.Node? && LevelAt(m.o.v.t) && LevelAt(m.o.v.t.right)
  {
    hide MkBalancedRight, OverByOne, LevelAt, Sized;
    var m := MkBalancedRight(e, w, left, right, key, value);
    RightShape(e, w, left, right, key, value);
    if m.o.Ok? && m.o.v.To? {
      SingleShapeLevel(right, left, R, m.o.v.t);
    }
  }

  lemma {:induction false} DoubleLeftLevel(e: Env, w: Work, left: Tree, right: Tree, key: int, value: V)
    requires right.Node? && Sized(right) && LevelAt(right) && LevelAt(right.left)
    requires OverByOne(NodeSize(left), NodeSize(right)) && !(NodeSize(right.left) < NodeSize(right.right))
    ensures right.left.Node?
    ensures var m := MkBalancedLeft(e, w, left, right, key, value);
            m.o.Ok? && m.o.v.To? ==>
              (LevelAround(m.o.v.t) <==> Joins(left, right.left.left, right.left.right, right.right))
  {
    hide MkBalancedLeft, OverByOne, LevelAt, Sized, Joins;
    var m := MkBalancedLeft(e, w, left, right, key, value);
    OverHeavy(NodeSize(left), NodeSize(right));
    InnerThere(NodeSize(left), right);
    LeftShape(e, w, left, right, key, value);
    if m.o.Ok? && m.o.v.To? {
      DoubleShapeLevel(left, right, L, m.o.v.t);
    }
  }

  lemma {:induction false} DoubleRightLevel(e: Env, w: Work, left: Tree, right: Tree, key: int, value: V)
    requires left.Node? && Sized(left) && LevelAt(left) && LevelAt(left.right)
    requires OverByOne(NodeSize(right), NodeSize(left)) && !(NodeSize(left.right) < NodeSize(left.left))
    ensures left.right.Node?
    ensures var m := MkBalancedRight(e, w, left, right, key, value);
            m.o.Ok? && m.o.v.To? ==>
              (LevelAround(m.o.v.t) <==> Joins(right, left.right.right, left.right.left, left.left))
  {
    hide MkBalancedRight, OverByOne, LevelAt, Sized, Joins;
    var m := MkBalancedRight(e, w, left, right, key, value);
    OverHeavy(NodeSize(right), NodeSize(left));
    InnerThere(NodeSize(right), left);
    RightShape(e, w, left, right, key, value);
    if m.o.Ok? && m.o.v.To? {
      DoubleShapeLevel(right, left, R, m.o.v.t);
    }
  }

  lemma {:induction false} OverHeavy(x: nat, y: nat)
    requires OverByOne(x, y)
    ensures Heavy(y, x) && !Heavy(x, y)
  {
    LevelTest(x, y);
  }

  // ---------------------------------------------------------------- mk_balanced

  /**
    Side `d`, `t`, is too large: a rotation takes place. It is single if the inner grandchild is smaller than the
    outer one, and double otherwise. If `t` was over by one, the two nodes made by a single rotation meet the test, and
    the three made by a double rotation meet it if and only if `Joins`.
   */
  ghost predicate Rotated(other: Tree, t: Tree, d: Side, m: Tree)
    requires t.Node?
  {
    var inner, outer := if d.R? then t.left else t.right, if d.R? then t.right else t.left;
    if NodeSize(inner) < NodeSize(outer) then
      && SingleShape(other, t, if d.R? then L else R, m)
      && (OverByOne(NodeSize(other), NodeSize(t)) && LevelAt(t) ==>
            LevelAt(m) && LevelAt(if d.R? then m.left else m.right))
    else
      && inner.Node? && DoubleShape(other, t, if d.R? then L else R, m)
      && (OverByOne(NodeSize(other), NodeSize(t)) && LevelAt(t) && LevelAt(inner) ==>
            (LevelAround(m) <==> if d.R? then Joins(other, inner.left, inner.right, outer)
                                 else Joins(other, inner.right, inner.left, outer)))
  }

  /** What `mk_balanced` makes of `l` and `r`, in terms of their sizes. */
  ghost predicate Rebalanced(x: Item, l: Tree, r: Tree, m: Tree) {
    && (Level(NodeSize(l), NodeSize(r)) ==> m.Node? && Item(m.key, m.value) == x && m.left == l && m.right == r)
    && (!Fits(NodeSize(r), NodeSize(l)) ==> r.Node? && Rotated(l, r, R, m))
    && (!Fits(NodeSize(l), NodeSize(r)) ==> l.Node? && Rotated(r, l, L, m))
  }

  /**
    `mk_balanced` on both sides, whatever other threads do: unless it reports a stamp or an ejection, it leaves two
    level subtrees as they are, and rotates if one side is too large.
   */
  lemma {:induction false} MkBalancedLevel(e: Env, w: Work, cur: Tree, l: Tree, r: Tree)
    requires cur.Node? && Sized(l) && Sized(r)
    ensures var m := MkBalanced(e, w, To(cur), To(l), To(r));
            m.o.Ok? && m.o.v.To? ==> Rebalanced(Item(cur.key, cur.value), l, r, m.o.v.t)
  {
    hide Spot, Spots, MkBalancedLeft, MkBalancedRight, Heavy, OverByOne, LevelAt, Sized, Joins, Level, Fits,
      SingleShape, DoubleShape, LevelAround;
    var c := Spot(e, w, To(cur));
    var d := if c.bad then c else Spots(e, c.w, To(l), To(r));
    LevelTest(NodeSize(l), NodeSize(r));
    LevelTest(NodeSize(r), NodeSize(l));
    if !d.bad {
      if !Fits(NodeSize(r), NodeSize(l)) {
        InnerThere(NodeSize(l), r);
        LeftRotated(e, d.w, l, r, cur.key, cur.value);
      }
      if !Fits(NodeSize(l), NodeSize(r)) {
        OneSide(NodeSize(l), NodeSize(r));
        InnerThere(NodeSize(r), l);
        RightRotated(e, d.w, l, r, cur.key, cur.value);
      }
    }
  }

  lemma {:induction false} OneSide(x: nat, y: nat)
    requires !Fits(x, y)
    ensures Fits(y, x)
  {
  }

  lemma {:induction false} LeftRotated(e: Env, w: Work, l: Tree, r: Tree, key: int, value: V)
    requires r.Node? && Sized(r) && Heavy(NodeSize(r), NodeSize(l))
    ensures var m := MkBalancedLeft(e, w, l, r, key, value);
            m.o.Ok? && m.o.v.To? ==> Rotated(l, r, R, m.o.v.t)
  {
    hide MkBalancedLeft, OverByOne, LevelAt, Sized, Joins, SingleShape, DoubleShape, LevelAround;
    LeftShape(e, w, l, r, key, value);
    InnerThere(NodeSize(l), r);
    if !OverByOne(NodeSize(l), NodeSize(r)) || !LevelAt(r) {
    } else if NodeSize(r.left) < NodeSize(r.right) {
      SingleLeftLevel(e, w, l, r, key, value);
    } else if LevelAt(r.left) {
      DoubleLeftLevel(e, w, l, r, key, value);
    }
  }

  lemma {:induction false} RightRotated(e: Env, w: Work, l: Tree, r: Tree, key: int, value: V)
    requires l.Node? && Sized(l) && Heavy(NodeSize(l), NodeSize(r))
    ensures var m := MkBalancedRight(e, w, l, r, key, value);
            m.o.Ok? && m.o.v.To? ==> Rotated(r, l, L, m.o.v.t)
  {
    hide MkBalancedRight, OverByOne, LevelAt, Sized, Joins, SingleShape, DoubleShape, LevelAround;
    RightShape(e, w, l, r, key, value);
    InnerThere(NodeSize(r), l);
    if !OverByOne(NodeSize(r), NodeSize(l)) || !LevelAt(l) {
    } else if NodeSize(l.right) < NodeSize(l.left) {
      SingleRightLevel(e, w, l, r, key, value);
    } else if LevelAt(l.right) {
      DoubleRightLevel(e, w, l, r, key, value);
    }
  }

  // ---------------------------------------------------------------- the condition fails

  /** Every node of the tree meets the test. */
  ghost predicate AllLevel(t: Tree) {
    t.Node? ==> LevelAt(t) && AllLevel(t.left) && AllLevel(t.right)
  }

  /** No other thread interferes. */
  ghost predicate Alone(e: Env) {
    forall n :: e.view(n) == {} && !e.eject(n)
  }

  function Leaf(a: Addr, k: int, v: V): Tree {
    Node(a, k, v, 1, Nil, Nil)
  }

  lemma {:induction false} AloneSpot(e: Env, w: Work, t: Tree)
    requires Alone(e)
    ensures var c := Spot(e, w, To(t)); c == Checked(false, w.(clock := c.w.clock, safe := c.w.safe))
  {
  }

  lemma {:induction false} AloneMkNode(e: Env, w: Work, l: Tree, r: Tree, k: int, v: V) returns (t: Tree)
    requires Alone(e)
    ensures MkNode(e, w, To(l), To(r), k, v).o == Ok(To(t)) && t.Node?
    ensures t == Node(t.a, k, v, NodeSize(l) + NodeSize(r) + 1, l, r)
  {
    AloneSpot(e, w, l);
    AloneSpot(e, Spot(e, w, To(l)).w, r);
    t := MkNode(e, w, To(l), To(r), k, v).o.v.t;
  }

  /** No rotation is due. */
  lemma {:induction false} AlonePlain(e: Env, w: Work, cur: Tree, l: Tree, r: Tree) returns (t: Tree)
    requires Alone(e) && cur.Node? && Level(NodeSize(l), NodeSize(r))
    ensures MkBalanced(e, w, To(cur), To(l), To(r)).o == Ok(To(t)) && t.Node?
    ensures t == Node(t.a, cur.key, cur.value, NodeSize(l) + NodeSize(r) + 1, l, r)
  {
    hide MkNode, MkBalancedLeft, MkBalancedRight;
    AloneSpot(e, w, cur);
    var c := Spot(e, w, To(cur));
    AloneSpot(e, c.w, l);
    AloneSpot(e, Spot(e, c.w, To(l)).w, r);
    t := AloneMkNode(e, Spots(e, c.w, To(l), To(r)).w, l, r, cur.key, cur.value);
  }

  /** A double rotation to the left: the inner grandchild comes up, its halves go to the two sides. */
  lemma {:induction false} AloneDouble(e: Env, w: Work, cur: Tree, l: Tree, r: Tree) returns (t: Tree)
    requires Alone(e) && cur.Node? && r.Node? && r.left.Node? && Sized(l) && Sized(r)
    requires Heavy(NodeSize(r), NodeSize(l)) && !(NodeSize(r.left) < NodeSize(r.right))
    ensures MkBalanced(e, w, To(cur), To(l), To(r)).o == Ok(To(t)) && t.Node?
    ensures NodeSize(t.left) == NodeSize(l) + NodeSize(r.left.left) + 1
    ensures NodeSize(t.right) == NodeSize(r.left.right) + NodeSize(r.right) + 1
  {
    hide MkNode, Spot, Spots, DefendTwo, Peek, SingleLeft, MkBalancedRight, Sized, Heavy;
    AloneSpot(e, w, cur);
    var c := Spot(e, w, To(cur));
    var d := AloneSpots(e, c.w, l, r);
    var p := AloneLoads(e, d, r);
    var q := AloneLoads(e, p, r.left);
    var n := MkNode(e, q, To(l), To(r.left.left), cur.key, cur.value);
    var nl := AloneMkNode(e, q, l, r.left.left, cur.key, cur.value);
    var nr := AloneMkNode(e, n.w, r.left.right, r.right, r.key, r.value);
    var m := MkNode(e, n.w, To(r.left.right), To(r.right), r.key, r.value);
    t := AloneMkNode(e, m.w, nl, nr, r.left.key, r.left.value);
  }

  lemma {:induction false} AloneSpots(e: Env, w: Work, l: Tree, r: Tree) returns (v: Work)
    requires Alone(e)
    ensures Spots(e, w, To(l), To(r)) == Checked(false, v)
  {
    AloneSpot(e, w, l);
    AloneSpot(e, Spot(e, w, To(l)).w, r);
    v := Spots(e, w, To(l), To(r)).w;
  }

  /** Loading, shielding and checking the two children of a node. */
  lemma {:induction false} AloneLoads(e: Env, w: Work, t: Tree) returns (v: Work)
    requires Alone(e) && t.Node?
    ensures Peek(e, w, t, L) == To(t.left) && Peek(e, Tick(w, t), t, R) == To(t.right)
    ensures var d := DefendTwo(e, Loads(w, t), To(t.left), To(t.right));
            !d.bad && Spots(e, d.w, To(t.left), To(t.right)) == Checked(false, v)
  {
    v := AloneSpots(e, DefendTwo(e, Loads(w, t), To(t.left), To(t.right)).w, t.left, t.right);
  }

  lemma {:induction false} AloneInsertLeaf(e: Env, w: Work, k: int, v: V) returns (t: Tree)
    requires Alone(e)
    ensures DoInsert(e, w, To(Nil), k, v).o == Ok(InsertRes(To(t), true)) && t == Leaf(t.a, k, v)
  {
    hide MkNode;
    t := AloneMkNode(e, w, Nil, Nil, k, v);
  }

  /** Above the recursive call, `do_insert` only balances. */
  lemma {:induction false} AloneStep(e: Env, w: Work, t: Tree, k: int, v: V) returns (u: Work)
    requires Alone(e) && t.Node? && k != t.key
    ensures var sub := DoInsert(e, u, To(if k < t.key then t.left else t.right), k, v);
            sub.o.Ok? ==>
              DoInsert(e, w, To(t), k, v).o ==
                InsertDone(if k < t.key then MkBalanced(e, sub.w, To(t), sub.o.v.r, To(t.right))
                           else MkBalanced(e, sub.w, To(t), To(t.left), sub.o.v.r), sub.o.v.inserted).o
  {
    hide MkNode, Spots, DefendTwo, Peek, MkBalanced;
    AloneSpot(e, w, t);
    u := AloneLoads(e, Spot(e, w, To(t)).w, t);
  }

  /** `do_insert` puts the new key into a subtree, and the node above it needs no rotation. */
  lemma {:induction false} AloneUp(e: Env, w: Work, u: Work, t: Tree, k: int, v: V, c: Tree) returns (t': Tree)
    requires Alone(e) && t.Node? && k != t.key
    requires DoInsert(e, u, To(if k < t.key then t.left else t.right), k, v).o == Ok(InsertRes(To(c), true))
    requires var sub := DoInsert(e, u, To(if k < t.key then t.left else t.right), k, v);
             DoInsert(e, w, To(t), k, v).o ==
               InsertDone(if k < t.key then MkBalanced(e, sub.w, To(t), sub.o.v.r, To(t.right))
                          else MkBalanced(e, sub.w, To(t), To(t.left), sub.o.v.r), true).o
    requires Level(NodeSize(if k < t.key then c else t.left), NodeSize(if k < t.key then t.right else c))
    ensures DoInsert(e, w, To(t), k, v).o == Ok(InsertRes(To(t'), true))
    ensures var l, r := if k < t.key then c else t.left, if k < t.key then t.right else c;
            t'.Node? && t' == Node(t'.a, t.key, t.value, NodeSize(l) + NodeSize(r) + 1, l, r)
  {
    hide DoInsert, MkBalanced;
    var sub := DoInsert(e, u, To(if k < t.key then t.left else t.right), k, v);
    t' := AlonePlain(e, sub.w, t, if k < t.key then c else t.left, if k < t.key then t.right else c);
  }

  ghost predicate IsLeaf(t: Tree, k: int) {
    t.Node? && t.key == k && t.size == 1 && t.left.Nil? && t.right.Nil?
  }

  /** A node above two given subtrees, with its exact size. */
  ghost predicate IsNode(t: Tree, k: int, l: Tree, r: Tree) {
    t.Node? && t.key == k && t.size == NodeSize(l) + NodeSize(r) + 1 && t.left == l && t.right == r
  }

  /** One insertion into a node whose child on that side is null. */
  lemma {:induction false} InsertBelow(e: Env, w: Work, t: Tree, k: int, v: V) returns (t': Tree)
    requires Alone(e) && t.Node? && k != t.key && (if k < t.key then t.left else t.right).Nil?
    requires NodeSize(if k < t.key then t.right else t.left) <= 2
    ensures DoInsert(e, w, To(t), k, v).o == Ok(InsertRes(To(t'), true))
    ensures k < t.key ==> t'.Node? && IsNode(t', t.key, t'.left, t.right) && IsLeaf(t'.left, k)
    ensures t.key < k ==> t'.Node? && IsNode(t', t.key, t.left, t'.right) && IsLeaf(t'.right, k)
  {
    hide DoInsert, MkBalanced;
    var u := AloneStep(e, w, t, k, v);
    var c := AloneInsertLeaf(e, u, k, v);
    t' := AloneUp(e, w, u, t, k, v, c);
  }

  /** An undisturbed `do_insert` of a new key turns `t` into `t'`. */
  ghost predicate InsertGives(e: Env, t: Tree, k: int, v: V, t': Tree) {
    DoInsert(e, Start(t), To(t), k, v).o == Ok(InsertRes(To(t'), true))
  }

  /** 10 above 5 and above 20, which has 15 on its left. */
  ghost predicate IsFour(t: Tree) {
    && t.Node? && t.right.Node? && IsNode(t, 10, t.left, t.right) && IsLeaf(t.left, 5)
    && IsNode(t.right, 20, t.right.left, Nil) && IsLeaf(t.right.left, 15)
  }

  lemma {:induction false} InsertFour(es: seq<Env>, v: V) returns (ts: seq<Tree>)
    requires |es| == 4 && forall i :: 0 <= i < 4 ==> Alone(es[i])
    ensures |ts| == 5 && ts[0] == Nil && IsFour(ts[4])
    ensures InsertGives(es[0], ts[0], 10, v, ts[1]) && InsertGives(es[1], ts[1], 5, v, ts[2])
    ensures InsertGives(es[2], ts[2], 20, v, ts[3]) && InsertGives(es[3], ts[3], 15, v, ts[4])
  {
    hide DoInsert, MkBalanced;
    var a := AloneInsertLeaf(es[0], Start(Nil), 10, v);
    var b := InsertBelow(es[1], Start(a), a, 5, v);
    var c := InsertBelow(es[2], Start(b), b, 20, v);
    var u := AloneStep(es[3], Start(c), c, 15, v);
    var s := InsertBelow(es[3], u, c.right, 15, v);
    var d := AloneUp(es[3], Start(c), u, c, 15, v, s);
    ts := [Nil, a, b, c, d];
  }

  /** The insertion of 12 puts three nodes to the right of 10 and one to its left: a double rotation. */
  lemma {:induction false} InsertFifth(e: Env, t: Tree, v: V) returns (t': Tree)
    requires Alone(e) && IsFour(t)
    ensures InsertGives(e, t, 12, v, t') && t'.Node? && NodeSize(t'.left) == 3 && NodeSize(t'.right) == 1
  {
    hide DoInsert, MkBalanced;
    var u := AloneStep(e, Start(t), t, 12, v);
    var x := AloneStep(e, u, t.right, 12, v);
    var c := InsertBelow(e, x, t.right.left, 12, v);
    var s := AloneUp(e, u, x, t.right, 12, v, c);
    FifthSized(t, s, c);
    t' := AloneDouble(e, DoInsert(e, u, To(t.right), 12, v).w, t, t.left, s);
  }

  lemma {:induction false} FourLevel(t: Tree)
    requires IsFour(t)
    ensures AllLevel(t)
  {
    assert AllLevel(Nil);
    var l, r, m := t.left, t.right, t.right.left;
    assert l.left == Nil && l.right == Nil && AllLevel(l);
    assert m.left == Nil && m.right == Nil && AllLevel(m);
    assert r.right == Nil && AllLevel(r);
  }

  lemma {:induction false} FifthSized(t: Tree, s: Tree, c: Tree)
    requires IsFour(t) && s.Node? && IsNode(s, 20, c, Nil) && c.Node? && IsNode(c, 15, c.left, Nil)
      && IsLeaf(c.left, 12)
    ensures Sized(t.left) && Sized(s) && NodeSize(s) == 3 && NodeSize(t.left) == 1
  {
    assert Sized(c.left) && |Items(c.left)| == 1;
    assert Sized(c) && |Items(c)| == 2;
  }

  /**
    The condition fails of a map that five inserts build: 10, 5, 20, 15 and 12, each of them undisturbed, turn
    the empty tree into one whose root has children of sizes 3 and 1, although every node met the test before
    the last insert.
   */
  lemma {:induction false} DoubleUnlevel(es: seq<Env>, v: V) returns (ts: seq<Tree>)
    requires |es| == 5 && forall i :: 0 <= i < 5 ==> Alone(es[i])
    ensures |ts| == 6 && ts[0] == Nil
    ensures forall i :: 0 <= i < 5 ==> InsertGives(es[i], ts[i], [10, 5, 20, 15, 12][i], v, ts[i + 1])
    ensures AllLevel(ts[4]) && ts[5].Node? && NodeSize(ts[5].left) == 3 && NodeSize(ts[5].right) == 1 && !LevelAt(ts[5])
  {
    hide DoInsert, InsertGives;
    var fs := es[..4];
    var us := InsertFour(fs, v);
    var t := InsertFifth(es[4], us[4], v);
    ts := us + [t];
    FourLevel(us[4]);
  }
}
