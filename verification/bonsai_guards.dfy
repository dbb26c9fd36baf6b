/**
  What the shields of the Bonsai tree are for: a build never reads a node that no shield protects, unless it has
  made the node itself, and it is ejected exactly if one of its defends is.
 */
module BonsaiGuards {
  import opened BonsaiTree
  import opened BonsaiBuild
  import opened BonsaiModel

  ghost predicate GuardedRef(w: Work, r: Ref) {
    r.To? ==> Guarded(w, r.t)
  }

  /** One of the defends between `w` and `v` was ejected. */
  ghost predicate AnyEjected(e: Env, w: Work, v: Work) {
    exists n: nat :: w.defends <= n < v.defends && e.eject(n)
  }

  /** A part of the work that has read guarded nodes only, and has been ejected exactly if `bad`. */
  ghost predicate Careful(e: Env, w: Work, v: Work, bad: bool) {
    && v.root == w.root && w.held <= v.held && (forall a :: a in w.created ==> a in v.created)
    && (w.safe ==> v.safe) && w.defends <= v.defends && (bad <==> AnyEjected(e, w, v))
  }

  lemma {:induction false} CarefulThen(e: Env, w: Work, v: Work, u: Work, bad: bool)
    requires Careful(e, w, v, false) && Careful(e, v, u, bad)
    ensures Careful(e, w, u, bad)
  {
    if AnyEjected(e, w, u) {
      var n: nat :| w.defends <= n < u.defends && e.eject(n);
      assert v.defends <= n;
    }
  }

  /** Changes to the lists of nodes only. */
  lemma {:induction false} CarefulLists(e: Env, w: Work, v: Work)
    requires v == w.(created := v.created, retired := v.retired) && forall a :: a in w.created ==> a in v.created
    ensures Careful(e, w, v, false)
  {
  }

  lemma {:induction false} StillGuarded(e: Env, w: Work, v: Work, bad: bool, r: Ref)
    requires Careful(e, w, v, bad) && GuardedRef(w, r)
    ensures GuardedRef(v, r)
  {
    if r.To? && r in w.held {
      var i :| 0 <= i < |w.held| && w.held[i] == r;
      assert v.held[i] == r;
    }
  }

  /** Leaving a scope. */
  lemma {:induction false} CarefulClose(e: Env, w: Work, v: Work, bad: bool)
    requires Careful(e, w, v, bad)
    ensures Careful(e, w, Close(v, w), bad) && Close(v, w).held == w.held
  {
    assert AnyEjected(e, w, v) <==> AnyEjected(e, w, Close(v, w));
  }

  // ---------------------------------------------------------------- loads and shields

  lemma {:induction false} LoadsCareful(e: Env, w: Work, t: Tree)
    requires Guarded(w, t)
    ensures Careful(e, w, Tick(w, t), false) && Careful(e, w, Loads(w, t), false)
    ensures Tick(w, t).held == w.held && Loads(w, t).held == w.held
  {
  }

  lemma {:induction false} SpotCareful(e: Env, w: Work, r: Ref)
    requires GuardedRef(w, r)
    ensures Careful(e, w, Spot(e, w, r).w, false) && Spot(e, w, r).w.held == w.held
  {
    hide Loads, Tick, Peek;
    if r.To? {
      LoadsCareful(e, w, r.t);
    }
  }

  lemma {:induction false} SpotsCareful(e: Env, w: Work, r: Ref, q: Ref)
    requires GuardedRef(w, r) && GuardedRef(w, q)
    ensures Careful(e, w, Spots(e, w, r, q).w, false) && Spots(e, w, r, q).w.held == w.held
  {
    hide Spot, Careful, GuardedRef;
    var c := Spot(e, w, r);
    SpotCareful(e, w, r);
    StillGuarded(e, w, c.w, false, q);
    SpotCareful(e, c.w, q);
    if !c.bad {
      CarefulThen(e, w, c.w, Spot(e, c.w, q).w, false);
    }
  }

  lemma {:induction false} DefendCareful(e: Env, w: Work, r: Ref)
    ensures var c := Defend(e, w, r);
            Careful(e, w, c.w, c.bad) && (!c.bad ==> GuardedRef(c.w, r))
  {
    var c := Defend(e, w, r);
    if c.bad {
      assert w.defends <= w.defends < c.w.defends && e.eject(w.defends);
    }
    assert !c.bad ==> c.w.held[|w.held|] == r;
  }

  lemma {:induction false} DefendTwoCareful(e: Env, w: Work, r: Ref, q: Ref)
    ensures var c := DefendTwo(e, w, r, q);
            Careful(e, w, c.w, c.bad) && (!c.bad ==> GuardedRef(c.w, r) && GuardedRef(c.w, q))
  {
    hide Defend, Careful, GuardedRef;
    var c := Defend(e, w, r);
    DefendCareful(e, w, r);
    if !c.bad {
      var d := Defend(e, c.w, q);
      DefendCareful(e, c.w, q);
      CarefulThen(e, w, c.w, d.w, d.bad);
      StillGuarded(e, c.w, d.w, d.bad, r);
    }
  }

  /** The children of a guarded node are loaded, shielded and checked. */
  lemma {:induction false} ChildrenCareful(e: Env, w: Work, t: Tree, x: Ref, y: Ref, r: Ref, q: Ref)
    requires Guarded(w, t) && ((r == x && q == y) || (r == y && q == x))
    ensures var d := DefendTwo(e, Loads(w, t), x, y); var s := Spots(e, d.w, r, q);
            && Careful(e, w, d.w, d.bad)
            && (!d.bad ==> Careful(e, w, s.w, false) && GuardedRef(s.w, x) && GuardedRef(s.w, y))
  {
    hide DefendTwo, Spots, Careful, GuardedRef, Guarded, Loads;
    var v := Loads(w, t);
    var d := DefendTwo(e, v, x, y);
    LoadsCareful(e, w, t);
    DefendTwoCareful(e, v, x, y);
    CarefulThen(e, w, v, d.w, d.bad);
    if !d.bad {
      var s := Spots(e, d.w, r, q);
      SpotsCareful(e, d.w, r, q);
      CarefulThen(e, w, d.w, s.w, false);
      StillGuarded(e, d.w, s.w, false, x);
      StillGuarded(e, d.w, s.w, false, y);
    }
  }

  // ---------------------------------------------------------------- nodes and rotations

  /** A finished part of the work: the shields are given back, and its result is a new node or null, if any. */
  ghost predicate Makes(e: Env, w: Work, m: Made<Ref>) {
    && Careful(e, w, m.w, m.o.Ejected?) && m.w.held == w.held
    && (m.o.Ok? && m.o.v.To? ==> m.o.v.t.Nil? || m.o.v.t.a in m.w.created)
  }

  lemma {:induction false} MkNodeCareful(e: Env, w: Work, l: Ref, r: Ref, key: int, value: V)
    requires GuardedRef(w, l) && GuardedRef(w, r)
    ensures var m := MkNode(e, w, l, r, key, value);
            Makes(e, w, m) && GuardedRef(m.w, m.o.v)
  {
    hide Spots, Careful, Guarded;
    var c := Spots(e, w, l, r);
    SpotsCareful(e, w, l, r);
    if !c.bad {
      var m := MkNode(e, w, l, r, key, value);
      CarefulLists(e, c.w, m.w);
      CarefulThen(e, w, c.w, m.w, false);
      NewGuarded(m.w, m.o.v.t);
    }
  }

  lemma {:induction false} NewGuarded(w: Work, t: Tree)
    requires t.Nil? || t.a in w.created
    ensures Guarded(w, t)
  {
  }

  lemma {:induction false} RetireCareful(e: Env, w: Work, m: Made<Ref>, t: Tree)
    requires Makes(e, w, m) && t.Node?
    ensures Makes(e, w, m.(w := Retire(m.w, t)))
  {
    assert AnyEjected(e, w, m.w) <==> AnyEjected(e, w, Retire(m.w, t));
  }

  /** Work in an inner scope. */
  lemma {:induction false} LeaveCareful(e: Env, w: Work, v: Work, m: Made<Ref>)
    requires Careful(e, w, v, false) && Makes(e, v, m)
    ensures Makes(e, w, Leave(m, w))
  {
    hide Careful;
    CarefulThen(e, w, v, m.w, m.o.Ejected?);
    CarefulClose(e, w, m.w, m.o.Ejected?);
  }

  /** A second node on top of a new one. */
  lemma {:induction false} TwoCareful(e: Env, w: Work, a: Ref, b: Ref, c: Ref, first: bool, x: Item, y: Item)
    requires GuardedRef(w, a) && GuardedRef(w, b) && GuardedRef(w, c)
    ensures var n := MkNode(e, w, a, b, x.k, x.v);
            Makes(e, w, if first then MkNode(e, n.w, n.o.v, c, y.k, y.v) else MkNode(e, n.w, c, n.o.v, y.k, y.v))
  {
    hide MkNode, Careful, GuardedRef;
    var n := MkNode(e, w, a, b, x.k, x.v);
    MkNodeCareful(e, w, a, b, x.k, x.v);
    StillGuarded(e, w, n.w, false, c);
    var m := if first then MkNode(e, n.w, n.o.v, c, y.k, y.v) else MkNode(e, n.w, c, n.o.v, y.k, y.v);
    if first {
      MkNodeCareful(e, n.w, n.o.v, c, y.k, y.v);
    } else {
      MkNodeCareful(e, n.w, c, n.o.v, y.k, y.v);
    }
    CarefulThen(e, w, n.w, m.w, false);
  }

  lemma {:induction false} ThreeCareful(e: Env, w: Work, a: Ref, b: Ref, c: Ref, d: Ref, x: Item, y: Item, z: Item)
    requires GuardedRef(w, a) && GuardedRef(w, b) && GuardedRef(w, c) && GuardedRef(w, d)
    ensures var n := MkNode(e, w, a, b, x.k, x.v); var p := MkNode(e, n.w, c, d, z.k, z.v);
            Makes(e, w, MkNode(e, p.w, n.o.v, p.o.v, y.k, y.v))
  {
    hide MkNode, Careful, GuardedRef;
    var n := MkNode(e, w, a, b, x.k, x.v);
    MkNodeCareful(e, w, a, b, x.k, x.v);
    StillGuarded(e, w, n.w, false, c);
    StillGuarded(e, w, n.w, false, d);
    var p := MkNode(e, n.w, c, d, z.k, z.v);
    MkNodeCareful(e, n.w, c, d, z.k, z.v);
    StillGuarded(e, n.w, p.w, false, n.o.v);
    MkNodeCareful(e, p.w, n.o.v, p.o.v, y.k, y.v);
    CarefulThen(e, w, n.w, p.w, false);
    CarefulThen(e, w, p.w, MkNode(e, p.w, n.o.v, p.o.v, y.k, y.v).w, false);
  }

  /** An early end of a scope: a stamp or an ejection. */
  lemma {:induction false} StopCareful(e: Env, w: Work, v: Work, m: Made<Ref>)
    requires Careful(e, w, v, m.o.Ejected?) && m.w == v && (m.o.Ok? ==> m.o.v.Stamp?)
    ensures Makes(e, w, Leave(m, w))
  {
    hide Careful;
    CarefulClose(e, w, v, m.o.Ejected?);
  }

  lemma {:induction false} DoubleLeftCareful(e: Env, w: Work, left: Tree, right: Tree, rl: Tree, rr: Tree, key: int,
      value: V)
    requires right.Node? && Guarded(w, left) && Guarded(w, rl) && Guarded(w, rr)
    ensures Makes(e, w, DoubleLeft(e, w, left, right, rl, rr, key, value))
  {
    hide MkNode, DefendTwo, Spots, Careful, Guarded, Makes, Close, Loads;
    if rl.Nil? {
      Idle(e, w, Fault);
    } else {
      var rll, rlr := Peek(e, w, rl, L), Peek(e, Tick(w, rl), rl, R);
      var d := DefendTwo(e, Loads(w, rl), rll, rlr);
      var c := Spots(e, d.w, rll, rlr);
      ChildrenCareful(e, w, rl, rll, rlr, rll, rlr);
      if d.bad {
        StopCareful(e, w, d.w, Made(Ejected, d.w));
      } else if c.bad {
        StopCareful(e, w, c.w, Made(Ok(Stamp), c.w));
      } else {
        StillGuarded(e, w, c.w, false, To(left));
        StillGuarded(e, w, c.w, false, To(rr));
        ThreeCareful(e, c.w, To(left), rll, rlr, To(rr), Item(key, value), Item(rl.key, rl.value),
          Item(right.key, right.value));
        var n := MkNode(e, c.w, To(left), rll, key, value);
        var p := MkNode(e, n.w, rlr, To(rr), right.key, right.value);
        var m := MkNode(e, p.w, n.o.v, p.o.v, rl.key, rl.value);
        RetireCareful(e, c.w, m, rl);
        RetireCareful(e, c.w, m.(w := Retire(m.w, rl)), right);
        LeaveCareful(e, w, c.w, m.(w := Retire(Retire(m.w, rl), right)));
      }
    }
  }

  lemma {:induction false} DoubleRightCareful(e: Env, w: Work, left: Tree, right: Tree, lr: Tree, ll: Tree, key: int,
      value: V)
    requires left.Node? && Guarded(w, right) && Guarded(w, lr) && Guarded(w, ll)
    ensures Makes(e, w, DoubleRight(e, w, left, right, lr, ll, key, value))
  {
    hide MkNode, DefendTwo, Spots, Careful, Guarded, Makes, Close, Loads;
    if lr.Nil? {
      Idle(e, w, Fault);
    } else {
      var lrl, lrr := Peek(e, w, lr, L), Peek(e, Tick(w, lr), lr, R);
      var d := DefendTwo(e, Loads(w, lr), lrl, lrr);
      var c := Spots(e, d.w, lrl, lrr);
      ChildrenCareful(e, w, lr, lrl, lrr, lrl, lrr);
      if d.bad {
        StopCareful(e, w, d.w, Made(Ejected, d.w));
      } else if c.bad {
        StopCareful(e, w, c.w, Made(Ok(Stamp), c.w));
      } else {
        StillGuarded(e, w, c.w, false, To(ll));
        StillGuarded(e, w, c.w, false, To(right));
        ThreeCareful(e, c.w, To(ll), lrl, lrr, To(right), Item(left.key, left.value), Item(lr.key, lr.value),
          Item(key, value));
        var n := MkNode(e, c.w, To(ll), lrl, left.key, left.value);
        var p := MkNode(e, n.w, lrr, To(right), key, value);
        var m := MkNode(e, p.w, n.o.v, p.o.v, lr.key, lr.value);
        RetireCareful(e, c.w, m, lr);
        RetireCareful(e, c.w, m.(w := Retire(m.w, lr)), left);
        LeaveCareful(e, w, c.w, m.(w := Retire(Retire(m.w, lr), left)));
      }
    }
  }

  lemma {:induction false} Idle(e: Env, w: Work, o: Outcome<Ref>)
    requires !o.Ejected? && (o.Ok? ==> o.v.Stamp?)
    ensures Makes(e, w, Made(o, w))
  {
  }

  lemma {:induction false} MkBalancedLeftCareful(e: Env, w: Work, left: Tree, right: Tree, key: int, value: V)
    requires Guarded(w, left) && Guarded(w, right)
    ensures Makes(e, w, MkBalancedLeft(e, w, left, right, key, value))
  {
    hide MkNode, DefendTwo, Spots, Careful, Guarded, Makes, Close, Loads, DoubleLeft;
    if right.Nil? {
      Idle(e, w, Fault);
    } else {
      var rl, rr := Peek(e, w, right, L), Peek(e, Tick(w, right), right, R);
      var d := DefendTwo(e, Loads(w, right), rl, rr);
      var c := Spots(e, d.w, rl, rr);
      ChildrenCareful(e, w, right, rl, rr, rl, rr);
      if d.bad {
        StopCareful(e, w, d.w, Made(Ejected, d.w));
      } else if c.bad {
        StopCareful(e, w, c.w, Made(Ok(Stamp), c.w));
      } else {
        StillGuarded(e, w, c.w, false, To(left));
        if NodeSize(rl.t) < NodeSize(rr.t) {
          var n := MkNode(e, c.w, To(left), rl, key, value);
          TwoCareful(e, c.w, To(left), rl, rr, true, Item(key, value), Item(right.key, right.value));
          RetireCareful(e, c.w, MkNode(e, n.w, n.o.v, rr, right.key, right.value), right);
          LeaveCareful(e, w, c.w, SingleLeft(e, c.w, left, right, rl.t, rr.t, key, value));
        } else {
          DoubleLeftCareful(e, c.w, left, right, rl.t, rr.t, key, value);
          LeaveCareful(e, w, c.w, DoubleLeft(e, c.w, left, right, rl.t, rr.t, key, value));
        }
      }
    }
  }

  lemma {:induction false} MkBalancedRightCareful(e: Env, w: Work, left: Tree, right: Tree, key: int, value: V)
    requires Guarded(w, left) && Guarded(w, right)
    ensures Makes(e, w, MkBalancedRight(e, w, left, right, key, value))
  {
    hide MkNode, DefendTwo, Spots, Careful, Guarded, Makes, Close, Loads, DoubleRight;
    if left.Nil? {
      Idle(e, w, Fault);
    } else {
      var lr, ll := Peek(e, w, left, R), Peek(e, Tick(w, left), left, L);
      var d := DefendTwo(e, Loads(w, left), ll, lr);
      var c := Spots(e, d.w, lr, ll);
      ChildrenCareful(e, w, left, ll, lr, lr, ll);
      if d.bad {
        StopCareful(e, w, d.w, Made(Ejected, d.w));
      } else if c.bad {
        StopCareful(e, w, c.w, Made(Ok(Stamp), c.w));
      } else {
        StillGuarded(e, w, c.w, false, To(right));
        if NodeSize(lr.t) < NodeSize(ll.t) {
          var n := MkNode(e, c.w, lr, To(right), key, value);
          TwoCareful(e, c.w, lr, To(right), ll, false, Item(key, value), Item(left.key, left.value));
          RetireCareful(e, c.w, MkNode(e, n.w, ll, n.o.v, left.key, left.value), left);
          LeaveCareful(e, w, c.w, SingleRight(e, c.w, left, right, lr.t, ll.t, key, value));
        } else {
          DoubleRightCareful(e, c.w, left, right, lr.t, ll.t, key, value);
          LeaveCareful(e, w, c.w, DoubleRight(e, c.w, left, right, lr.t, ll.t, key, value));
        }
      }
    }
  }

  /** `mk_balanced` of guarded nodes. */
  lemma {:induction false} MkBalancedCareful(e: Env, w: Work, cur: Ref, left: Ref, right: Ref)
    requires GuardedRef(w, cur) && GuardedRef(w, left) && GuardedRef(w, right)
    ensures Makes(e, w, MkBalanced(e, w, cur, left, right))
  {
    hide Spot, Spots, Careful, Guarded, MkNode, MkBalancedLeft, MkBalancedRight, Makes, Heavy;
    var c := Spot(e, w, cur);
    var d := if c.bad then c else Spots(e, c.w, left, right);
    SpotCareful(e, w, cur);
    StillGuarded(e, w, c.w, false, left);
    StillGuarded(e, w, c.w, false, right);
    SpotsCareful(e, c.w, left, right);
    if !c.bad {
      CarefulThen(e, w, c.w, d.w, false);
    }
    if d.bad || cur.t.Nil? {
      Stopped(e, w, d.w, MkBalanced(e, w, cur, left, right).o);
    } else {
      StillGuarded(e, w, d.w, false, left);
      StillGuarded(e, w, d.w, false, right);
      var l, r := NodeSize(left.t), NodeSize(right.t);
      var res :=
        if Heavy(r, l) then MkBalancedLeft(e, d.w, left.t, right.t, cur.t.key, cur.t.value)
        else if Heavy(l, r) then MkBalancedRight(e, d.w, left.t, right.t, cur.t.key, cur.t.value)
        else MkNode(e, d.w, left, right, cur.t.key, cur.t.value);
      MkBalancedLeftCareful(e, d.w, left.t, right.t, cur.t.key, cur.t.value);
      MkBalancedRightCareful(e, d.w, left.t, right.t, cur.t.key, cur.t.value);
      MkNodeCareful(e, d.w, left, right, cur.t.key, cur.t.value);
      RetireCareful(e, d.w, res, cur.t);
      MakesAfter(e, w, d.w, res.(w := Retire(res.w, cur.t)));
    }
  }

  lemma {:induction false} Stopped(e: Env, w: Work, v: Work, o: Outcome<Ref>)
    requires Careful(e, w, v, false) && v.held == w.held && !o.Ejected? && (o.Ok? ==> o.v.Stamp?)
    ensures Makes(e, w, Made(o, v))
  {
  }

  lemma {:induction false} MakesAfter(e: Env, w: Work, v: Work, m: Made<Ref>)
    requires Careful(e, w, v, false) && v.held == w.held && Makes(e, v, m)
    ensures Makes(e, w, m)
  {
    CarefulThen(e, w, v, m.w, m.o.Ejected?);
  }

  // ---------------------------------------------------------------- updates

  /** A finished update or pull. */
  ghost predicate Finished<T>(e: Env, w: Work, m: Made<T>) {
    Careful(e, w, m.w, m.o.Ejected?) && m.w.held == w.held
  }

  lemma {:induction false} FinishedLeave<T>(e: Env, w: Work, v: Work, m: Made<T>)
    requires Careful(e, w, v, false) && Careful(e, v, m.w, m.o.Ejected?)
    ensures Finished(e, w, Leave(m, w))
  {
    hide Careful;
    CarefulThen(e, w, v, m.w, m.o.Ejected?);
    CarefulClose(e, w, m.w, m.o.Ejected?);
  }

  lemma {:induction false} FinishedStop<T>(e: Env, w: Work, m: Made<T>)
    requires Careful(e, w, m.w, m.o.Ejected?)
    ensures Finished(e, w, Leave(m, w))
  {
    hide Careful;
    CarefulClose(e, w, m.w, m.o.Ejected?);
  }

  /** The common opening of the recursive builders. */
  ghost predicate OpensCareful(e: Env, w: Work, t: Tree, left: Ref, right: Ref, c: Checked, d: Checked, s: Checked) {
    && Careful(e, w, c.w, false) && c.w.held == w.held
    && (!c.bad ==> Careful(e, w, d.w, d.bad))
    && (!c.bad && !d.bad ==>
          && Careful(e, w, s.w, false) && Guarded(s.w, t) && GuardedRef(s.w, left) && GuardedRef(s.w, right))
  }

  lemma {:induction false} OpeningCareful(e: Env, w: Work, t: Tree)
    requires t.Node? && Guarded(w, t)
    ensures var c := Spot(e, w, To(t)); var left := Peek(e, c.w, t, L); var right := Peek(e, Tick(c.w, t), t, R);
            var d := DefendTwo(e, Loads(c.w, t), left, right);
            OpensCareful(e, w, t, left, right, c, d, Spots(e, d.w, left, right))
  {
    hide Spot, Spots, DefendTwo, Careful, Guarded, Loads, Tick, Peek;
    var c := Spot(e, w, To(t));
    var left, right := Peek(e, c.w, t, L), Peek(e, Tick(c.w, t), t, R);
    var d := DefendTwo(e, Loads(c.w, t), left, right);
    var s := Spots(e, d.w, left, right);
    SpotCareful(e, w, To(t));
    StillGuarded(e, w, c.w, false, To(t));
    ChildrenCareful(e, c.w, t, left, right, left, right);
    CarefulThen(e, w, c.w, d.w, d.bad);
    if !d.bad {
      CarefulThen(e, w, c.w, s.w, false);
      StillGuarded(e, w, s.w, false, To(t));
    }
  }

  /** After the recursive call, `mk_balanced` and the end of the scope. */
  lemma {:induction false} UpCareful(e: Env, w: Work, s: Work, v: Work, cur: Ref, left: Ref, right: Ref)
    requires Careful(e, w, s, false) && Careful(e, s, v, false)
    requires GuardedRef(v, cur) && GuardedRef(v, left) && GuardedRef(v, right)
    ensures var m := MkBalanced(e, v, cur, left, right);
            Makes(e, w, Leave(m, w))
  {
    hide Careful, MkBalanced, Makes;
    CarefulThen(e, w, s, v, false);
    MkBalancedCareful(e, v, cur, left, right);
    LeaveCareful(e, w, v, MkBalanced(e, v, cur, left, right));
  }

  /** The result is a new node, null or the given tree. */
  ghost predicate OwnOr(w: Work, r: Ref, t: Tree) {
    r.To? ==> r.t.Nil? || r.t == t || r.t.a in w.created
  }

  lemma {:induction false} OwnGuarded(w: Work, r: Ref, t: Tree)
    requires OwnOr(w, r, t) && Guarded(w, t)
    ensures GuardedRef(w, r)
  {
  }

  lemma {:induction false} DoInsertCareful(e: Env, w: Work, t: Tree, key: int, value: V)
    requires Guarded(w, t)
    ensures var m := DoInsert(e, w, To(t), key, value);
            Finished(e, w, m) && (m.o.Ok? ==> OwnOr(m.w, m.o.v.r, t))
    decreases t
  {
    hide Spot, Spots, DefendTwo, Peek, Careful, Guarded, Loads, Tick, MkBalanced, MkNode, Close;
    var m := DoInsert(e, w, To(t), key, value);
    var c := Spot(e, w, To(t));
    if t.Nil? {
      NilCareful(e, w, key, value);
    } else {
      var left, right := Peek(e, c.w, t, L), Peek(e, Tick(c.w, t), t, R);
      var d := DefendTwo(e, Loads(c.w, t), left, right);
      var s := Spots(e, d.w, left, right);
      OpeningCareful(e, w, t);
      if c.bad {
      } else if d.bad {
        var stop: Made<InsertRes> := Made(Ejected, d.w);
        FinishedStop(e, w, stop);
      } else if s.bad || t.key == key {
        FinishedStop(e, w, Made(Ok(InsertRes(if s.bad then Stamp else To(t), false)), s.w));
      } else {
        var child := if t.key < key then right else left;
        var sub := DoInsert(e, s.w, child, key, value);
        DoInsertCareful(e, s.w, child.t, key, value);
        if !sub.o.Ok? {
          FinishedLeave(e, w, s.w, sub);
        } else {
          StillGuarded(e, s.w, sub.w, false, To(t));
          StillGuarded(e, s.w, sub.w, false, left);
          StillGuarded(e, s.w, sub.w, false, right);
          OwnGuarded(sub.w, sub.o.v.r, child.t);
          UpCareful(e, w, s.w, sub.w, To(t), if t.key < key then left else sub.o.v.r,
            if t.key < key then sub.o.v.r else right);
        }
      }
    }
  }

  lemma {:induction false} NilCareful(e: Env, w: Work, key: int, value: V)
    ensures var m := DoInsert(e, w, To(Nil), key, value);
            Finished(e, w, m) && m.o.Ok? && OwnOr(m.w, m.o.v.r, Nil)
  {
    hide MkNode;
    assert Spot(e, w, To(Nil)) == Checked(false, w);
    MkNodeCareful(e, w, To(Nil), To(Nil), key, value);
  }

  /** The rest of a subtree is shielded again, `mk_balanced` follows, and the scope ends. */
  lemma {:induction false} ShieldedCareful(e: Env, w: Work, s: Work, v: Work, r: Ref, cur: Ref, left: Ref, right: Ref)
    requires Careful(e, w, s, false) && Careful(e, s, v, false) && GuardedRef(v, cur)
    requires (left == r || GuardedRef(s, left)) && (right == r || GuardedRef(s, right))
    ensures var n := Defend(e, v, r); var m := MkBalanced(e, n.w, cur, left, right);
            && (n.bad ==> Careful(e, w, n.w, true))
            && (!n.bad ==> Careful(e, w, m.w, m.o.Ejected?))
            && (!n.bad ==> Makes(e, w, Leave(m, w)) && CreatedMore(v, Leave(m, w).w))
            && CreatedMore(v, Close(n.w, w))
  {
    hide Careful, MkBalanced, Makes, GuardedRef, Defend;
    var n := Defend(e, v, r);
    DefendCareful(e, v, r);
    CarefulThen(e, w, s, v, false);
    CarefulThen(e, w, v, n.w, n.bad);
    CarefulMore(e, v, n.w, n.bad);
    if !n.bad {
      StillGuarded(e, v, n.w, false, cur);
      if left != r {
        StillGuarded(e, s, v, false, left);
        StillGuarded(e, v, n.w, false, left);
      }
      if right != r {
        StillGuarded(e, s, v, false, right);
        StillGuarded(e, v, n.w, false, right);
      }
      var m := MkBalanced(e, n.w, cur, left, right);
      MkBalancedCareful(e, n.w, cur, left, right);
      MakesCareful(e, n.w, m);
      CarefulThen(e, w, n.w, m.w, m.o.Ejected?);
      LeaveCareful(e, w, n.w, m);
      CarefulMore(e, n.w, m.w, m.o.Ejected?);
    }
  }

  ghost predicate CreatedMore(w: Work, v: Work) {
    forall a :: a in w.created ==> a in v.created
  }

  lemma {:induction false} CarefulMore(e: Env, w: Work, v: Work, bad: bool)
    requires Careful(e, w, v, bad)
    ensures CreatedMore(w, v)
  {
  }

  lemma {:induction false} MakesCareful(e: Env, w: Work, m: Made<Ref>)
    requires Makes(e, w, m)
    ensures Careful(e, w, m.w, m.o.Ejected?)
  {
  }

  lemma {:induction false} PullEndCareful(e: Env, w: Work, s: Work, t: Tree, rest: Ref)
    requires t.Node? && Careful(e, w, s, false)
    ensures var n := MkNode(e, s, To(Nil), To(Nil), t.key, t.value);
            var m := Leave(Made(Ok(PullRes(rest, n.o.v)), Retire(n.w, t)), w);
            Finished(e, w, m) && OwnOr(m.w, n.o.v, Nil)
  {
    hide Careful, MkNode;
    var n := MkNode(e, s, To(Nil), To(Nil), t.key, t.value);
    MkNodeCareful(e, s, To(Nil), To(Nil), t.key, t.value);
    RetireCareful(e, s, n, t);
    FinishedLeave(e, w, s, Made(Ok(PullRes(rest, n.o.v)), Retire(n.w, t)));
  }

  lemma {:induction false} OwnMore(w: Work, v: Work, r: Ref)
    requires OwnOr(w, r, Nil) && CreatedMore(w, v)
    ensures OwnOr(v, r, Nil)
  {
  }

  lemma {:induction false} PullLeftmostCareful(e: Env, w: Work, t: Tree)
    requires Guarded(w, t)
    ensures var m := PullLeftmost(e, w, To(t));
            Finished(e, w, m) && (m.o.Ok? ==> OwnOr(m.w, m.o.v.succ, Nil))
    decreases t
  {
    hide Spot, Spots, DefendTwo, Defend, Peek, Careful, Guarded, Loads, Tick, MkBalanced, MkNode, Close;
    var c := Spot(e, w, To(t));
    SpotCareful(e, w, To(t));
    if t.Node? {
      var left, right := Peek(e, c.w, t, L), Peek(e, Tick(c.w, t), t, R);
      var d := DefendTwo(e, Loads(c.w, t), left, right);
      var s := Spots(e, d.w, left, right);
      OpeningCareful(e, w, t);
      if c.bad {
      } else if d.bad || s.bad {
        var stop: Made<PullRes> := if d.bad then Made(Ejected, d.w) else Made(Ok(PullRes(Stamp, Stamp)), s.w);
        FinishedStop(e, w, stop);
      } else if left.t.Node? {
        var sub := PullLeftmost(e, s.w, left);
        PullLeftmostCareful(e, s.w, left.t);
        if !sub.o.Ok? {
          FinishedLeave(e, w, s.w, sub);
        } else {
          var r := sub.o.v.rest;
          StillGuarded(e, s.w, sub.w, false, To(t));
          ShieldedCareful(e, w, s.w, sub.w, r, To(t), r, right);
          if Defend(e, sub.w, r).bad {
            var stop: Made<PullRes> := Made(Ejected, Defend(e, sub.w, r).w);
            FinishedStop(e, w, stop);
          } else {
            OwnMore(sub.w, PullLeftmost(e, w, To(t)).w, sub.o.v.succ);
          }
        }
      } else {
        PullEndCareful(e, w, s.w, t, right);
      }
    }
  }

  lemma {:induction false} PullRightmostCareful(e: Env, w: Work, t: Tree)
    requires Guarded(w, t)
    ensures var m := PullRightmost(e, w, To(t));
            Finished(e, w, m) && (m.o.Ok? ==> OwnOr(m.w, m.o.v.succ, Nil))
    decreases t
  {
    hide Spot, Spots, DefendTwo, Defend, Peek, Careful, Guarded, Loads, Tick, MkBalanced, MkNode, Close;
    var c := Spot(e, w, To(t));
    SpotCareful(e, w, To(t));
    if t.Node? {
      var left, right := Peek(e, c.w, t, L), Peek(e, Tick(c.w, t), t, R);
      var d := DefendTwo(e, Loads(c.w, t), left, right);
      var s := Spots(e, d.w, left, right);
      OpeningCareful(e, w, t);
      if c.bad {
      } else if d.bad || s.bad {
        var stop: Made<PullRes> := if d.bad then Made(Ejected, d.w) else Made(Ok(PullRes(Stamp, Stamp)), s.w);
        FinishedStop(e, w, stop);
      } else if right.t.Node? {
        var sub := PullRightmost(e, s.w, right);
        PullRightmostCareful(e, s.w, right.t);
        if !sub.o.Ok? {
          FinishedLeave(e, w, s.w, sub);
        } else {
          var r := sub.o.v.rest;
          StillGuarded(e, s.w, sub.w, false, To(t));
          ShieldedCareful(e, w, s.w, sub.w, r, To(t), left, r);
          if Defend(e, sub.w, r).bad {
            var stop: Made<PullRes> := Made(Ejected, Defend(e, sub.w, r).w);
            FinishedStop(e, w, stop);
          } else {
            OwnMore(sub.w, PullRightmost(e, w, To(t)).w, sub.o.v.succ);
          }
        }
      } else {
        PullEndCareful(e, w, s.w, t, left);
      }
    }
  }

  lemma {:induction false} RemoveHereCareful(e: Env, w: Work, s: Work, t: Tree)
    requires t.Node? && Careful(e, w, s, false) && Guarded(s, t.left) && Guarded(s, t.right)
    ensures var m := Leave(RemoveHere(e, s, t, t.left, t.right), w);
            Finished(e, w, m) && (m.o.Ok? ==> OwnOr(m.w, m.o.v.r, Nil))
  {
    hide Careful, Guarded, Defend, MkBalanced, PullLeftmost, PullRightmost, Close;
    var v := Retire(s, t);
    CarefulLists(e, s, v);
    CarefulThen(e, w, s, v, false);
    StillGuarded(e, s, v, false, To(t.left));
    StillGuarded(e, s, v, false, To(t.right));
    if t.size == 1 {
      FinishedStop(e, w, Made(Ok(RemoveRes(To(Nil), Some(t.value))), v));
    } else {
      var sub := if t.left.Node? then PullRightmost(e, v, To(t.left)) else PullLeftmost(e, v, To(t.right));
      PullRightmostCareful(e, v, t.left);
      PullLeftmostCareful(e, v, t.right);
      if !sub.o.Ok? {
        var stop: Made<RemoveRes> := Made(if sub.o.Ejected? then Ejected else Fault, sub.w);
        FinishedLeave(e, w, v, stop);
      } else {
        var r := sub.o.v.rest;
        OwnGuardedNil(sub.w, sub.o.v.succ);
        ShieldedCareful(e, w, v, sub.w, r, sub.o.v.succ, if t.left.Node? then r else To(t.left),
          if t.left.Node? then To(t.right) else r);
        var n := Defend(e, sub.w, r);
        if n.bad {
          var stop: Made<RemoveRes> := Made(Ejected, n.w);
          FinishedStop(e, w, stop);
        }
      }
    }
  }

  lemma {:induction false} OwnGuardedNil(w: Work, r: Ref)
    requires OwnOr(w, r, Nil)
    ensures GuardedRef(w, r)
  {
  }

  lemma {:induction false} DoRemoveCareful(e: Env, w: Work, t: Tree, key: int)
    requires Guarded(w, t)
    ensures var m := DoRemove(e, w, To(t), key);
            Finished(e, w, m) && (m.o.Ok? ==> OwnOr(m.w, m.o.v.r, Nil))
    decreases t
  {
    hide Spot, Spots, DefendTwo, Peek, Careful, Guarded, Loads, Tick, MkBalanced, MkNode, Close, RemoveHere;
    var c := Spot(e, w, To(t));
    SpotCareful(e, w, To(t));
    if t.Node? {
      var left, right := Peek(e, c.w, t, L), Peek(e, Tick(c.w, t), t, R);
      var d := DefendTwo(e, Loads(c.w, t), left, right);
      var s := Spots(e, d.w, left, right);
      OpeningCareful(e, w, t);
      if c.bad {
      } else if d.bad || s.bad {
        var stop: Made<RemoveRes> := if d.bad then Made(Ejected, d.w) else Made(Ok(RemoveRes(Stamp, None)), s.w);
        FinishedStop(e, w, stop);
      } else if t.key == key {
        RemoveHereCareful(e, w, s.w, t);
      } else {
        var child := if t.key < key then right else left;
        var sub := DoRemove(e, s.w, child, key);
        DoRemoveCareful(e, s.w, child.t, key);
        if !sub.o.Ok? {
          FinishedLeave(e, w, s.w, sub);
        } else {
          StillGuarded(e, s.w, sub.w, false, To(t));
          StillGuarded(e, s.w, sub.w, false, left);
          StillGuarded(e, s.w, sub.w, false, right);
          OwnGuardedNil(sub.w, sub.o.v.r);
          UpCareful(e, w, s.w, sub.w, To(t), if t.key < key then left else sub.o.v.r,
            if t.key < key then sub.o.v.r else right);
        }
      }
    }
  }

  // ---------------------------------------------------------------- one build

  /**
    A build, under any interference: every node that it reads was protected at that moment by the root shield or by a
    shield it held, or was made by itself; it is ejected if and only if one of the defends it made was; and it holds no
    shield at its end.
   */
  lemma {:induction false} BuildGuarded(e: Env, job: Job, base: Tree)
    requires job.Insert? || job.Remove?
    ensures var b := BuildOf(e, job, base);
            && b.w.safe && b.w.held == []
            && (b.r.Ejected? <==> exists n: nat :: n < b.w.defends && e.eject(n))
  {
    hide DoInsert, DoRemove;
    var w := Start(base);
    if job.Insert? {
      DoInsertCareful(e, w, base, job.k, job.v);
    } else {
      DoRemoveCareful(e, w, base, job.k);
    }
  }
}
