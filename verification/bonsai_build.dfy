/**
  The builders of the Bonsai tree: the recursive functions that make the updated tree out of fresh nodes.

  Everything outside the builder's control is a parameter: what every single load finds stamped by other
  threads at that moment, the address of every allocation, and whether every attempt to defend a pointer
  is ejected. The tree of src/ebr is the case in which no defend is ever ejected.
 */
module BonsaiBuild {
  import opened BonsaiTree
  import ShieldPools

  const WEIGHT: nat := 2

  datatype Side = L | R

  /** A child pointer of a node. */
  datatype Edge = Edge(a: Addr, side: Side)

  /**
    `view(n)`: the stamped child pointers at the n-th load; `alloc(n)`: the n-th new node; `eject(n)`: whether
    the n-th defend fails.
   */
  datatype Env = Env(view: nat -> set<Edge>, alloc: nat -> Addr, eject: nat -> bool)

  /**
    The state of an update: the two lists of the source, the counters of its oracles, the pointer behind the root
    shield, the pointers behind the shields that it holds from the pool, how many of these it has held at most, what
    it has asked of the pool so far, and whether every node that it has read was guarded at that moment.
   */
  datatype Work = Work(clock: nat, defends: nat, root: Ref, held: seq<Ref>, peak: nat, log: seq<ShieldPools.Event>,
                       safe: bool, created: seq<Addr>, retired: seq<Addr>)

  /** An update of the tree `root`, which the root shield protects. */
  function Start(root: Tree): Work {
    Work(0, 0, To(root), [], 0, [], true, [], [])
  }

  /** `Fault` is a dereference of null. */
  datatype Outcome<T> = Ok(v: T) | Ejected | Fault

  datatype Made<T> = Made(o: Outcome<T>, w: Work)

  datatype Checked = Checked(bad: bool, w: Work)

  // ---------------------------------------------------------------- loads, shields, lists

  function Child(t: Tree, d: Side): Tree
    requires t.Node?
  {
    if d.L? then t.left else t.right
  }

  /** What a load of a child pointer returns at the present moment. */
  function Peek(e: Env, w: Work, t: Tree, d: Side): (r: Ref)
    requires t.Node?
    ensures r.To? ==> r.t == Child(t, d)
  {
    if Edge(t.a, d) in e.view(w.clock) then Stamp else To(Child(t, d))
  }

  /** The node is protected by a shield, or it is a new one that no other thread knows of. */
  predicate Guarded(w: Work, t: Tree) {
    t.Nil? || To(t) == w.root || To(t) in w.held || t.a in w.created
  }

  /** A child pointer of the node has been loaded. */
  function Tick(w: Work, t: Tree): Work {
    w.(clock := w.clock + 1, safe := w.safe && Guarded(w, t))
  }

  /** Both child pointers of the node have been loaded. */
  function Loads(w: Work, t: Tree): Work {
    Tick(Tick(w, t), t)
  }

  /** `is_retired_spot`: the pointer is the stamp, or one of its node's child pointers is. */
  function Spot(e: Env, w: Work, r: Ref): (c: Checked)
    ensures !c.bad ==> r.To?
  {
    if r.Stamp? then Checked(true, w)
    else if r.t.Nil? then Checked(false, w)
    else if Peek(e, w, r.t, L).Stamp? then Checked(true, Tick(w, r.t))
    else Checked(Peek(e, Tick(w, r.t), r.t, R).Stamp?, Loads(w, r.t))
  }

  function Spots(e: Env, w: Work, r: Ref, q: Ref): (c: Checked)
    ensures !c.bad ==> r.To? && q.To?
  {
    var c := Spot(e, w, r);
    if c.bad then c else Spot(e, c.w, q)
  }

  function NodeSize(t: Tree): nat {
    if t.Nil? then 0 else t.size
  }

  function Retire(w: Work, t: Tree): Work
    requires t.Node?
  {
    w.(retired := w.retired + [t.a])
  }

  /** A shield taken from the pool for the pointer `r`, or an ejection. */
  function Defend(e: Env, w: Work, r: Ref): Checked {
    var v := w.(defends := w.defends + 1, log := w.log + [ShieldPools.Take(e.eject(w.defends))]);
    if e.eject(w.defends) then Checked(true, v)
    else
      var held := w.held + [r];
      Checked(false, v.(held := held, peak := if w.peak < |held| then |held| else w.peak))
  }

  /** Two shields in a row, the second only if the first was not ejected. */
  function DefendTwo(e: Env, w: Work, r: Ref, q: Ref): Checked {
    var c := Defend(e, w, r);
    if c.bad then c else Defend(e, c.w, q)
  }

  /** Leaving a scope, entered with `w`, gives back the shields taken in it, the last one first. */
  function Close(v: Work, w: Work): Work {
    v.(held := w.held, log := v.log + ShieldPools.Gives(if |w.held| < |v.held| then |v.held| - |w.held| else 0))
  }

  function Leave<T>(m: Made<T>, w: Work): Made<T> {
    m.(w := Close(m.w, w))
  }

  // ---------------------------------------------------------------- nodes and rotations

  function MkNode(e: Env, w: Work, left: Ref, right: Ref, key: int, value: V): (m: Made<Ref>)
    ensures m.o.Ok?
  {
    var c := Spots(e, w, left, right);
    if c.bad then Made(Ok(Stamp), c.w)
    else
      var a := e.alloc(|c.w.created|);
      Made(Ok(To(Node(a, key, value, NodeSize(left.t) + NodeSize(right.t) + 1, left.t, right.t))),
           c.w.(created := c.w.created + [a]))
  }

  function SingleLeft(e: Env, w: Work, left: Tree, right: Tree, rightLeft: Tree, rightRight: Tree, key: int,
      value: V): Made<Ref>
    requires right.Node?
  {
    var newLeft := MkNode(e, w, To(left), To(rightLeft), key, value);
    var res := MkNode(e, newLeft.w, newLeft.o.v, To(rightRight), right.key, right.value);
    res.(w := Retire(res.w, right))
  }

  function DoubleLeft(e: Env, w: Work, left: Tree, right: Tree, rightLeft: Tree, rightRight: Tree, key: int,
      value: V): Made<Ref>
    requires right.Node?
  {
    if rightLeft.Nil? then Made(Fault, w)
    else
      var rll := Peek(e, w, rightLeft, L);
      var rlr := Peek(e, Tick(w, rightLeft), rightLeft, R);
      var d := DefendTwo(e, Loads(w, rightLeft), rll, rlr);
      if d.bad then Leave(Made(Ejected, d.w), w)
      else
        var c := Spots(e, d.w, rll, rlr);
        if c.bad then Leave(Made(Ok(Stamp), c.w), w)
        else
          var newLeft := MkNode(e, c.w, To(left), rll, key, value);
          var newRight := MkNode(e, newLeft.w, rlr, To(rightRight), right.key, right.value);
          var res := MkNode(e, newRight.w, newLeft.o.v, newRight.o.v, rightLeft.key, rightLeft.value);
          Leave(res.(w := Retire(Retire(res.w, rightLeft), right)), w)
  }

  function MkBalancedLeft(e: Env, w: Work, left: Tree, right: Tree, key: int, value: V): Made<Ref> {
    if right.Nil? then Made(Fault, w)
    else
      var rl := Peek(e, w, right, L);
      var rr := Peek(e, Tick(w, right), right, R);
      var d := DefendTwo(e, Loads(w, right), rl, rr);
      if d.bad then Leave(Made(Ejected, d.w), w)
      else
        var c := Spots(e, d.w, rl, rr);
        if c.bad then Leave(Made(Ok(Stamp), c.w), w)
        else if NodeSize(rl.t) < NodeSize(rr.t) then Leave(SingleLeft(e, c.w, left, right, rl.t, rr.t, key, value), w)
        else Leave(DoubleLeft(e, c.w, left, right, rl.t, rr.t, key, value), w)
  }

  function SingleRight(e: Env, w: Work, left: Tree, right: Tree, leftRight: Tree, leftLeft: Tree, key: int,
      value: V): Made<Ref>
    requires left.Node?
  {
    var newRight := MkNode(e, w, To(leftRight), To(right), key, value);
    var res := MkNode(e, newRight.w, To(leftLeft), newRight.o.v, left.key, left.value);
    res.(w := Retire(res.w, left))
  }

  function DoubleRight(e: Env, w: Work, left: Tree, right: Tree, leftRight: Tree, leftLeft: Tree, key: int,
      value: V): Made<Ref>
    requires left.Node?
  {
    if leftRight.Nil? then Made(Fault, w)
    else
      var lrl := Peek(e, w, leftRight, L);
      var lrr := Peek(e, Tick(w, leftRight), leftRight, R);
      var d := DefendTwo(e, Loads(w, leftRight), lrl, lrr);
      if d.bad then Leave(Made(Ejected, d.w), w)
      else
        var c := Spots(e, d.w, lrl, lrr);
        if c.bad then Leave(Made(Ok(Stamp), c.w), w)
        else
          var newLeft := MkNode(e, c.w, To(leftLeft), lrl, left.key, left.value);
          var newRight := MkNode(e, newLeft.w, lrr, To(right), key, value);
          var res := MkNode(e, newRight.w, newLeft.o.v, newRight.o.v, leftRight.key, leftRight.value);
          Leave(res.(w := Retire(Retire(res.w, leftRight), left)), w)
  }

  function MkBalancedRight(e: Env, w: Work, left: Tree, right: Tree, key: int, value: V): Made<Ref> {
    if left.Nil? then Made(Fault, w)
    else
      var lr := Peek(e, w, left, R);
      var ll := Peek(e, Tick(w, left), left, L);
      var d := DefendTwo(e, Loads(w, left), ll, lr);
      if d.bad then Leave(Made(Ejected, d.w), w)
      else
        var c := Spots(e, d.w, lr, ll);
        if c.bad then Leave(Made(Ok(Stamp), c.w), w)
        else if NodeSize(lr.t) < NodeSize(ll.t) then Leave(SingleRight(e, c.w, left, right, lr.t, ll.t, key, value), w)
        else Leave(DoubleRight(e, c.w, left, right, lr.t, ll.t, key, value), w)
  }

  /** The test that calls for a rotation: side `x` outweighs side `y`. */
  predicate Heavy(x: nat, y: nat) {
    x > 0 && ((y > 0 && x > WEIGHT * y) || (y == 0 && x > WEIGHT))
  }

  function MkBalanced(e: Env, w: Work, cur: Ref, left: Ref, right: Ref): Made<Ref> {
    var c := Spot(e, w, cur);
    var d := if c.bad then c else Spots(e, c.w, left, right);
    if d.bad then Made(Ok(Stamp), d.w)
    else if cur.t.Nil? then Made(Fault, d.w)
    else
      var l, r := NodeSize(left.t), NodeSize(right.t);
      var res :=
        if Heavy(r, l) then MkBalancedLeft(e, d.w, left.t, right.t, cur.t.key, cur.t.value)
        else if Heavy(l, r) then MkBalancedRight(e, d.w, left.t, right.t, cur.t.key, cur.t.value)
        else MkNode(e, d.w, left, right, cur.t.key, cur.t.value);
      res.(w := Retire(res.w, cur.t))
  }

  // ---------------------------------------------------------------- insert

  datatype InsertRes = InsertRes(r: Ref, inserted: bool)

  function DoInsert(e: Env, w: Work, node: Ref, key: int, value: V): Made<InsertRes>
    decreases if node.To? then node.t else Nil
  {
    var c := Spot(e, w, node);
    if c.bad then Made(Ok(InsertRes(Stamp, false)), c.w)
    else if node.t.Nil? then
      var m := MkNode(e, c.w, To(Nil), To(Nil), key, value);
      Made(Ok(InsertRes(m.o.v, true)), m.w)
    else
      var left := Peek(e, c.w, node.t, L);
      var right := Peek(e, Tick(c.w, node.t), node.t, R);
      var d := DefendTwo(e, Loads(c.w, node.t), left, right);
      if d.bad then Leave(Made(Ejected, d.w), w)
      else
        var s := Spots(e, d.w, left, right);
        if s.bad then Leave(Made(Ok(InsertRes(Stamp, false)), s.w), w)
        else if node.t.key == key then Leave(Made(Ok(InsertRes(node, false)), s.w), w)
        else if node.t.key < key then
          var sub := DoInsert(e, s.w, right, key, value);
          if !sub.o.Ok? then Leave(sub, w)
          else
            var m := MkBalanced(e, sub.w, node, left, sub.o.v.r);
            Leave(InsertDone(m, sub.o.v.inserted), w)
        else
          var sub := DoInsert(e, s.w, left, key, value);
          if !sub.o.Ok? then Leave(sub, w)
          else
            var m := MkBalanced(e, sub.w, node, sub.o.v.r, right);
            Leave(InsertDone(m, sub.o.v.inserted), w)
  }

  function InsertDone(m: Made<Ref>, inserted: bool): Made<InsertRes> {
    Made(match m.o case Ok(r) => Ok(InsertRes(r, inserted)) case Ejected => Ejected case Fault => Fault, m.w)
  }

  // ---------------------------------------------------------------- remove

  datatype PullRes = PullRes(rest: Ref, succ: Ref)

  function PullDone(m: Made<Ref>, succ: Ref): Made<PullRes> {
    Made(match m.o case Ok(r) => Ok(PullRes(r, succ)) case Ejected => Ejected case Fault => Fault, m.w)
  }

  function PullLeftmost(e: Env, w: Work, node: Ref): Made<PullRes>
    decreases if node.To? then node.t else Nil
  {
    var c := Spot(e, w, node);
    if c.bad then Made(Ok(PullRes(Stamp, Stamp)), c.w)
    else if node.t.Nil? then Made(Fault, c.w)
    else
      var left := Peek(e, c.w, node.t, L);
      var right := Peek(e, Tick(c.w, node.t), node.t, R);
      var d := DefendTwo(e, Loads(c.w, node.t), left, right);
      if d.bad then Leave(Made(Ejected, d.w), w)
      else
        var s := Spots(e, d.w, left, right);
        if s.bad then Leave(Made(Ok(PullRes(Stamp, Stamp)), s.w), w)
        else if left.t.Node? then
          var sub := PullLeftmost(e, s.w, left);
          if !sub.o.Ok? then Leave(sub, w)
          else
            var n := Defend(e, sub.w, sub.o.v.rest);
            if n.bad then Leave(Made(Ejected, n.w), w)
            else Leave(PullDone(MkBalanced(e, n.w, node, sub.o.v.rest, right), sub.o.v.succ), w)
        else
          var m := MkNode(e, s.w, To(Nil), To(Nil), node.t.key, node.t.value);
          Leave(Made(Ok(PullRes(right, m.o.v)), Retire(m.w, node.t)), w)
  }

  function PullRightmost(e: Env, w: Work, node: Ref): Made<PullRes>
    decreases if node.To? then node.t else Nil
  {
    var c := Spot(e, w, node);
    if c.bad then Made(Ok(PullRes(Stamp, Stamp)), c.w)
    else if node.t.Nil? then Made(Fault, c.w)
    else
      var left := Peek(e, c.w, node.t, L);
      var right := Peek(e, Tick(c.w, node.t), node.t, R);
      var d := DefendTwo(e, Loads(c.w, node.t), left, right);
      if d.bad then Leave(Made(Ejected, d.w), w)
      else
        var s := Spots(e, d.w, left, right);
        if s.bad then Leave(Made(Ok(PullRes(Stamp, Stamp)), s.w), w)
        else if right.t.Node? then
          var sub := PullRightmost(e, s.w, right);
          if !sub.o.Ok? then Leave(sub, w)
          else
            var n := Defend(e, sub.w, sub.o.v.rest);
            if n.bad then Leave(Made(Ejected, n.w), w)
            else Leave(PullDone(MkBalanced(e, n.w, node, left, sub.o.v.rest), sub.o.v.succ), w)
        else
          var m := MkNode(e, s.w, To(Nil), To(Nil), node.t.key, node.t.value);
          Leave(Made(Ok(PullRes(left, m.o.v)), Retire(m.w, node.t)), w)
  }

  datatype RemoveRes = RemoveRes(r: Ref, value: Option<V>)

  function RemoveDone(m: Made<Ref>, value: Option<V>): Made<RemoveRes> {
    Made(match m.o case Ok(r) => Ok(RemoveRes(r, value)) case Ejected => Ejected case Fault => Fault, m.w)
  }

  /** The case of `do_remove` in which the key is found: the node gives way to its neighbour in key order. */
  function RemoveHere(e: Env, w: Work, node: Tree, left: Tree, right: Tree): Made<RemoveRes>
    requires node.Node?
  {
    var value := Some(node.value);
    var w1 := Retire(w, node);
    if node.size == 1 then Made(Ok(RemoveRes(To(Nil), value)), w1)
    else if left.Node? then
      var sub := PullRightmost(e, w1, To(left));
      match sub.o
      case Ejected => Made(Ejected, sub.w)
      case Fault => Made(Fault, sub.w)
      case Ok(p) =>
        var n := Defend(e, sub.w, p.rest);
        if n.bad then Made(Ejected, n.w)
        else RemoveDone(MkBalanced(e, n.w, p.succ, p.rest, To(right)), value)
    else
      var sub := PullLeftmost(e, w1, To(right));
      match sub.o
      case Ejected => Made(Ejected, sub.w)
      case Fault => Made(Fault, sub.w)
      case Ok(p) =>
        var n := Defend(e, sub.w, p.rest);
        if n.bad then Made(Ejected, n.w)
        else RemoveDone(MkBalanced(e, n.w, p.succ, To(left), p.rest), value)
  }

  function DoRemove(e: Env, w: Work, node: Ref, key: int): Made<RemoveRes>
    decreases if node.To? then node.t else Nil
  {
    var c := Spot(e, w, node);
    if c.bad then Made(Ok(RemoveRes(Stamp, None)), c.w)
    else if node.t.Nil? then Made(Ok(RemoveRes(To(Nil), None)), c.w)
    else
      var left := Peek(e, c.w, node.t, L);
      var right := Peek(e, Tick(c.w, node.t), node.t, R);
      var d := DefendTwo(e, Loads(c.w, node.t), left, right);
      if d.bad then Leave(Made(Ejected, d.w), w)
      else
        var s := Spots(e, d.w, left, right);
        if s.bad then Leave(Made(Ok(RemoveRes(Stamp, None)), s.w), w)
        else if node.t.key == key then Leave(RemoveHere(e, s.w, node.t, left.t, right.t), w)
        else if node.t.key < key then
          var sub := DoRemove(e, s.w, right, key);
          if !sub.o.Ok? then Leave(sub, w)
          else Leave(RemoveDone(MkBalanced(e, sub.w, node, left, sub.o.v.r), sub.o.v.value), w)
        else
          var sub := DoRemove(e, s.w, left, key);
          if !sub.o.Ok? then Leave(sub, w)
          else Leave(RemoveDone(MkBalanced(e, sub.w, node, sub.o.v.r, right), sub.o.v.value), w)
  }
}
