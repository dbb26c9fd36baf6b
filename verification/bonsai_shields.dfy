/**
  The shields that Bonsai updates take from their pool: every builder leaves its scopes as it entered them, so
  the pool stays within the bound that the height of the trees gives.
 */
module BonsaiShields {
  import opened BonsaiTree
  import opened BonsaiBuild
  import opened BonsaiBalance
  import opened BonsaiUpdate
  import opened BonsaiModel
  import opened BonsaiInvariant
  import opened BonsaiGuards
  import ShieldPools

  /** The counters of shields held follow the events. */
  ghost predicate LogOK(w: Work) {
    && ShieldPools.Nested(w.log) && ShieldPools.LiveOf(w.log) == |w.held| && ShieldPools.PeakOf(w.log) == w.peak
  }

  /** A part of the work that holds at its end the shields it held at its start. */
  ghost predicate Balanced(w: Work, v: Work) {
    LogOK(w) ==> LogOK(v) && |v.held| == |w.held|
  }

  /** A part of the work that may still hold some of the shields it has taken. */
  ghost predicate Open(w: Work, v: Work) {
    LogOK(w) ==> LogOK(v) && |w.held| <= |v.held|
  }

  lemma {:induction false} Untouched(w: Work, v: Work)
    requires v.log == w.log && |v.held| == |w.held| && v.peak == w.peak
    ensures Balanced(w, v) && Open(w, v)
  {
  }

  lemma {:induction false} DefendLog(e: Env, w: Work, r: Ref)
    ensures Open(w, Defend(e, w, r).w)
  {
    var v := Defend(e, w, r).w;
    assert v.log[..|v.log| - 1] == w.log;
  }

  lemma {:induction false} DefendTwoLog(e: Env, w: Work, r: Ref, q: Ref)
    ensures Open(w, DefendTwo(e, w, r, q).w)
  {
    hide LogOK;
    DefendLog(e, w, r);
    DefendLog(e, Defend(e, w, r).w, q);
  }

  lemma {:induction false} GivesLog(log: seq<ShieldPools.Event>, n: nat)
    requires ShieldPools.Nested(log) && n <= ShieldPools.LiveOf(log)
    ensures var l := log + ShieldPools.Gives(n);
            && ShieldPools.Nested(l) && ShieldPools.LiveOf(l) == ShieldPools.LiveOf(log) - n
            && ShieldPools.PeakOf(l) == ShieldPools.PeakOf(log)
    decreases n
  {
    var l := log + ShieldPools.Gives(n);
    if n == 0 {
      assert l == log;
    } else {
      GivesLog(log, n - 1);
      assert l[..|l| - 1] == log + ShieldPools.Gives(n - 1);
      ShieldPools.PeakIsMost(log);
    }
  }

  /** Leaving a scope. */
  lemma {:induction false} CloseLog(v: Work, w: Work)
    requires Open(w, v)
    ensures Balanced(w, Close(v, w))
  {
    if LogOK(w) {
      GivesLog(v.log, |v.held| - |w.held|);
    }
  }

  lemma {:induction false} OpenThen(w: Work, v: Work, v': Work)
    requires Open(w, v) && (Balanced(v, v') || Open(v, v'))
    ensures Open(w, v')
  {
  }

  lemma {:induction false} SpotLog(e: Env, w: Work, r: Ref)
    ensures Balanced(w, Spot(e, w, r).w) && Open(w, Spot(e, w, r).w)
  {
    SpotOK(e, w, r);
  }

  lemma {:induction false} SpotsLog(e: Env, w: Work, r: Ref, q: Ref)
    ensures Balanced(w, Spots(e, w, r, q).w) && Open(w, Spots(e, w, r, q).w)
  {
    SpotsOK(e, w, r, q);
  }

  lemma {:induction false} MkNodeLog(e: Env, w: Work, left: Ref, right: Ref, key: int, value: V)
    ensures Balanced(w, MkNode(e, w, left, right, key, value).w)
  {
    SpotsOK(e, w, left, right);
    Untouched(w, MkNode(e, w, left, right, key, value).w);
  }

  // ---------------------------------------------------------------- rotations

  lemma {:induction false} SingleLog(e: Env, w: Work, left: Tree, right: Tree, key: int, value: V)
    ensures right.Node? ==> Balanced(w, SingleLeft(e, w, left, right, right.left, right.right, key, value).w)
    ensures left.Node? ==> Balanced(w, SingleRight(e, w, left, right, left.right, left.left, key, value).w)
  {
    hide MkNode;
    if right.Node? {
      var n := MkNode(e, w, To(left), To(right.left), key, value);
      MkNodeLog(e, w, To(left), To(right.left), key, value);
      MkNodeLog(e, n.w, n.o.v, To(right.right), right.key, right.value);
    }
    if left.Node? {
      var n := MkNode(e, w, To(left.right), To(right), key, value);
      MkNodeLog(e, w, To(left.right), To(right), key, value);
      MkNodeLog(e, n.w, To(left.left), n.o.v, left.key, left.value);
    }
  }

  /** Loading, defending and checking two children. */
  lemma {:induction false} LoadsLog(e: Env, w: Work, t: Tree, x: Ref, y: Ref, r: Ref, q: Ref)
    ensures var d := DefendTwo(e, Loads(w, t), x, y); Open(w, d.w) && Open(w, Spots(e, d.w, r, q).w)
  {
    hide LogOK, DefendTwo, Spots;
    var v := Loads(w, t);
    Untouched(w, v);
    DefendTwoLog(e, v, x, y);
    OpenThen(w, v, DefendTwo(e, v, x, y).w);
    SpotsLog(e, DefendTwo(e, v, x, y).w, r, q);
  }

  lemma {:induction false} ThreeLog(e: Env, w: Work, a: Ref, b: Ref, c: Ref, d: Ref, x: Item, y: Item, z: Item)
    ensures var n := MkNode(e, w, a, b, x.k, x.v); var p := MkNode(e, n.w, c, d, z.k, z.v);
            Balanced(w, MkNode(e, p.w, n.o.v, p.o.v, y.k, y.v).w)
  {
    hide MkNode, LogOK;
    var n := MkNode(e, w, a, b, x.k, x.v);
    var p := MkNode(e, n.w, c, d, z.k, z.v);
    MkNodeLog(e, w, a, b, x.k, x.v);
    MkNodeLog(e, n.w, c, d, z.k, z.v);
    MkNodeLog(e, p.w, n.o.v, p.o.v, y.k, y.v);
  }

  lemma {:induction false} DoubleLeftLog(e: Env, w: Work, left: Tree, right: Tree, rl: Tree, rr: Tree, key: int,
      value: V)
    requires right.Node?
    ensures Balanced(w, DoubleLeft(e, w, left, right, rl, rr, key, value).w)
  {
    hide MkNode, DefendTwo, Spots, LogOK, Close;
    if rl.Node? {
      var rll, rlr := Peek(e, w, rl, L), Peek(e, Tick(w, rl), rl, R);
      var d := DefendTwo(e, Loads(w, rl), rll, rlr);
      var c := Spots(e, d.w, rll, rlr);
      LoadsLog(e, w, rl, rll, rlr, rll, rlr);
      CloseLog(d.w, w);
      CloseLog(c.w, w);
      var n := MkNode(e, c.w, To(left), rll, key, value);
      var p := MkNode(e, n.w, rlr, To(rr), right.key, right.value);
      var m := MkNode(e, p.w, n.o.v, p.o.v, rl.key, rl.value);
      ThreeLog(e, c.w, To(left), rll, rlr, To(rr), Item(key, value), Item(rl.key, rl.value),
        Item(right.key, right.value));
      EndsLog(w, c.w, m.w, Retire(Retire(m.w, rl), right));
    } else {
      Untouched(w, w);
    }
  }

  lemma {:induction false} DoubleRightLog(e: Env, w: Work, left: Tree, right: Tree, lr: Tree, ll: Tree, key: int,
      value: V)
    requires left.Node?
    ensures Balanced(w, DoubleRight(e, w, left, right, lr, ll, key, value).w)
  {
    hide MkNode, DefendTwo, Spots, LogOK, Close;
    if lr.Node? {
      var lrl, lrr := Peek(e, w, lr, L), Peek(e, Tick(w, lr), lr, R);
      var d := DefendTwo(e, Loads(w, lr), lrl, lrr);
      var c := Spots(e, d.w, lrl, lrr);
      LoadsLog(e, w, lr, lrl, lrr, lrl, lrr);
      CloseLog(d.w, w);
      CloseLog(c.w, w);
      var n := MkNode(e, c.w, To(ll), lrl, left.key, left.value);
      var p := MkNode(e, n.w, lrr, To(right), key, value);
      var m := MkNode(e, p.w, n.o.v, p.o.v, lr.key, lr.value);
      ThreeLog(e, c.w, To(ll), lrl, lrr, To(right), Item(left.key, left.value), Item(lr.key, lr.value),
        Item(key, value));
      EndsLog(w, c.w, m.w, Retire(Retire(m.w, lr), left));
    } else {
      Untouched(w, w);
    }
  }

  /** Balanced work in a scope, then a change to the lists only, then the end of the scope. */
  lemma {:induction false} EndsLog(w: Work, c: Work, v: Work, v': Work)
    requires Open(w, c) && Balanced(c, v) && v'.log == v.log && |v'.held| == |v.held| && v'.peak == v.peak
    ensures Balanced(w, Close(v', w)) && Open(w, v')
  {
    Untouched(v, v');
    OpenThen(w, c, v);
    OpenThen(w, v, v');
    CloseLog(v', w);
  }

  lemma {:induction false} MkBalancedLeftLog(e: Env, w: Work, left: Tree, right: Tree, key: int, value: V)
    ensures Balanced(w, MkBalancedLeft(e, w, left, right, key, value).w)
  {
    hide DefendTwo, Spots, LogOK, Close, SingleLeft, DoubleLeft;
    Untouched(w, w);
    if right.Node? {
      var rl, rr := Peek(e, w, right, L), Peek(e, Tick(w, right), right, R);
      var d := DefendTwo(e, Loads(w, right), rl, rr);
      var c := Spots(e, d.w, rl, rr);
      LoadsLog(e, w, right, rl, rr, rl, rr);
      CloseLog(d.w, w);
      CloseLog(c.w, w);
      if !d.bad && !c.bad {
        SingleLog(e, c.w, left, right, key, value);
        DoubleLeftLog(e, c.w, left, right, rl.t, rr.t, key, value);
        var s, m := SingleLeft(e, c.w, left, right, rl.t, rr.t, key, value).w,
          DoubleLeft(e, c.w, left, right, rl.t, rr.t, key, value).w;
        EndsLog(w, c.w, s, s);
        EndsLog(w, c.w, m, m);
      }
    }
  }

  lemma {:induction false} MkBalancedRightLog(e: Env, w: Work, left: Tree, right: Tree, key: int, value: V)
    ensures Balanced(w, MkBalancedRight(e, w, left, right, key, value).w)
  {
    hide DefendTwo, Spots, LogOK, Close, SingleRight, DoubleRight;
    Untouched(w, w);
    if left.Node? {
      var lr, ll := Peek(e, w, left, R), Peek(e, Tick(w, left), left, L);
      var d := DefendTwo(e, Loads(w, left), ll, lr);
      var c := Spots(e, d.w, lr, ll);
      LoadsLog(e, w, left, ll, lr, lr, ll);
      CloseLog(d.w, w);
      CloseLog(c.w, w);
      if !d.bad && !c.bad {
        SingleLog(e, c.w, left, right, key, value);
        DoubleRightLog(e, c.w, left, right, lr.t, ll.t, key, value);
        var s, m := SingleRight(e, c.w, left, right, lr.t, ll.t, key, value).w,
          DoubleRight(e, c.w, left, right, lr.t, ll.t, key, value).w;
        EndsLog(w, c.w, s, s);
        EndsLog(w, c.w, m, m);
      }
    }
  }

  lemma {:induction false} MkBalancedLog(e: Env, w: Work, cur: Ref, left: Ref, right: Ref)
    ensures Balanced(w, MkBalanced(e, w, cur, left, right).w)
  {
    hide Spot, Spots, LogOK, MkNode, MkBalancedLeft, MkBalancedRight, Heavy;
    var c := Spot(e, w, cur);
    var d := if c.bad then c else Spots(e, c.w, left, right);
    SpotLog(e, w, cur);
    SpotsLog(e, c.w, left, right);
    if !d.bad && cur.t.Node? {
      MkBalancedLeftLog(e, d.w, left.t, right.t, cur.t.key, cur.t.value);
      MkBalancedRightLog(e, d.w, left.t, right.t, cur.t.key, cur.t.value);
      MkNodeLog(e, d.w, left, right, cur.t.key, cur.t.value);
      var l, r := NodeSize(left.t), NodeSize(right.t);
      var res :=
        if Heavy(r, l) then MkBalancedLeft(e, d.w, left.t, right.t, cur.t.key, cur.t.value)
        else if Heavy(l, r) then MkBalancedRight(e, d.w, left.t, right.t, cur.t.key, cur.t.value)
        else MkNode(e, d.w, left, right, cur.t.key, cur.t.value);
      Untouched(res.w, Retire(res.w, cur.t));
    }
  }

  // ---------------------------------------------------------------- updates

  /** The common opening of the recursive builders. */
  lemma {:induction false} OpeningLog(e: Env, w: Work, t: Tree, left: Ref, right: Ref, c: Checked, d: Checked,
      s: Checked)
    requires t.Node? && Opening(e, w, t, left, right, c, d, s)
    ensures Balanced(w, c.w) && Open(w, d.w) && Open(w, s.w)
    ensures Balanced(w, Close(d.w, w)) && Balanced(w, Close(s.w, w))
  {
    hide LogOK, Spot, Spots, DefendTwo, Close;
    SpotLog(e, w, To(t));
    LoadsLog(e, c.w, t, left, right, left, right);
    OpenThen(w, c.w, d.w);
    OpenThen(w, c.w, s.w);
    CloseLog(d.w, w);
    CloseLog(s.w, w);
  }

  /** A recursive call, then `mk_balanced`, then the end of the scope. */
  lemma {:induction false} UpLog(e: Env, w: Work, s: Work, v: Work, cur: Ref, left: Ref, right: Ref)
    requires Open(w, s) && Open(s, v)
    ensures Balanced(w, Close(MkBalanced(e, v, cur, left, right).w, w)) && Balanced(w, Close(v, w))
  {
    hide LogOK, MkBalanced, Close;
    MkBalancedLog(e, v, cur, left, right);
    OpenThen(w, s, v);
    CloseLog(v, w);
    OpenThen(w, v, MkBalanced(e, v, cur, left, right).w);
    CloseLog(MkBalanced(e, v, cur, left, right).w, w);
  }

  lemma {:induction false} Still(w: Work, v: Work)
    requires Balanced(w, v)
    ensures Open(w, v)
  {
  }

  lemma {:induction false} DoInsertLog(e: Env, w: Work, t: Tree, key: int, value: V)
    ensures Balanced(w, DoInsert(e, w, To(t), key, value).w)
    decreases t
  {
    hide LogOK, Spot, Spots, DefendTwo, Close, MkBalanced, MkNode;
    var c := Spot(e, w, To(t));
    SpotLog(e, w, To(t));
    if t.Nil? {
      MkNodeLog(e, c.w, To(Nil), To(Nil), key, value);
    } else {
      var left, right := Peek(e, c.w, t, L), Peek(e, Tick(c.w, t), t, R);
      var d := DefendTwo(e, Loads(c.w, t), left, right);
      var s := Spots(e, d.w, left, right);
      OpeningLog(e, w, t, left, right, c, d, s);
      if !c.bad && !d.bad && !s.bad && t.key != key {
        var sub := DoInsert(e, s.w, if t.key < key then right else left, key, value);
        DoInsertLog(e, s.w, if t.key < key then t.right else t.left, key, value);
        Still(s.w, sub.w);
        if sub.o.Ok? {
          UpLog(e, w, s.w, sub.w, To(t), if t.key < key then left else sub.o.v.r, if t.key < key then sub.o.v.r
            else right);
        } else {
          UpLog(e, w, s.w, sub.w, To(t), left, right);
        }
      }
    }
  }

  /** A shield for a rebuilt subtree, and what follows. */
  lemma {:induction false} ShieldedLog(e: Env, w: Work, s: Work, v: Work, r: Ref, cur: Ref, left: Ref, right: Ref)
    requires Open(w, s) && Balanced(s, v)
    ensures var n := Defend(e, v, r).w;
            Balanced(w, Close(MkBalanced(e, n, cur, left, right).w, w)) && Balanced(w, Close(n, w))
    ensures Balanced(w, Close(v, w))
  {
    hide LogOK, MkBalanced, Close, Defend;
    DefendLog(e, v, r);
    Still(s, v);
    OpenThen(s, v, Defend(e, v, r).w);
    UpLog(e, w, s, Defend(e, v, r).w, cur, left, right);
    UpLog(e, w, s, v, cur, left, right);
  }

  lemma {:induction false} PullEndLog(e: Env, w: Work, s: Work, t: Tree)
    requires t.Node? && Open(w, s)
    ensures Balanced(w, Close(Retire(MkNode(e, s, To(Nil), To(Nil), t.key, t.value).w, t), w))
  {
    hide LogOK, MkNode, Close;
    var m := MkNode(e, s, To(Nil), To(Nil), t.key, t.value);
    MkNodeLog(e, s, To(Nil), To(Nil), t.key, t.value);
    EndsLog(w, s, m.w, Retire(m.w, t));
  }

  lemma {:induction false} PullLeftmostLog(e: Env, w: Work, t: Tree)
    ensures Balanced(w, PullLeftmost(e, w, To(t)).w)
    decreases t
  {
    hide LogOK, Spot, Spots, DefendTwo, Defend, Close, MkBalanced, MkNode;
    var c := Spot(e, w, To(t));
    SpotLog(e, w, To(t));
    if t.Node? {
      var left, right := Peek(e, c.w, t, L), Peek(e, Tick(c.w, t), t, R);
      var d := DefendTwo(e, Loads(c.w, t), left, right);
      var s := Spots(e, d.w, left, right);
      OpeningLog(e, w, t, left, right, c, d, s);
      if !c.bad && !d.bad && !s.bad {
        PullEndLog(e, w, s.w, t);
        if t.left.Node? {
          var sub := PullLeftmost(e, s.w, left);
          PullLeftmostLog(e, s.w, t.left);
          var r := if sub.o.Ok? then sub.o.v.rest else Stamp;
          ShieldedLog(e, w, s.w, sub.w, r, To(t), r, right);
        }
      }
    }
  }

  lemma {:induction false} PullRightmostLog(e: Env, w: Work, t: Tree)
    ensures Balanced(w, PullRightmost(e, w, To(t)).w)
    decreases t
  {
    hide LogOK, Spot, Spots, DefendTwo, Defend, Close, MkBalanced, MkNode;
    var c := Spot(e, w, To(t));
    SpotLog(e, w, To(t));
    if t.Node? {
      var left, right := Peek(e, c.w, t, L), Peek(e, Tick(c.w, t), t, R);
      var d := DefendTwo(e, Loads(c.w, t), left, right);
      var s := Spots(e, d.w, left, right);
      OpeningLog(e, w, t, left, right, c, d, s);
      if !c.bad && !d.bad && !s.bad {
        PullEndLog(e, w, s.w, t);
        if t.right.Node? {
          var sub := PullRightmost(e, s.w, right);
          PullRightmostLog(e, s.w, t.right);
          var r := if sub.o.Ok? then sub.o.v.rest else Stamp;
          ShieldedLog(e, w, s.w, sub.w, r, To(t), left, r);
        }
      }
    }
  }

  lemma {:induction false} RemoveHereLog(e: Env, w: Work, s: Work, t: Tree)
    requires t.Node? && Open(w, s)
    ensures Balanced(w, Leave(RemoveHere(e, s, t, t.left, t.right), w).w)
  {
    hide LogOK, Defend, Close, MkBalanced, PullLeftmost, PullRightmost;
    var v := Retire(s, t);
    Untouched(s, v);
    OpenThen(w, s, v);
    CloseLog(v, w);
    if t.left.Node? {
      var sub := PullRightmost(e, v, To(t.left));
      PullRightmostLog(e, v, t.left);
      var p := if sub.o.Ok? then sub.o.v else PullRes(Stamp, Stamp);
      ShieldedLog(e, w, v, sub.w, p.rest, p.succ, p.rest, To(t.right));
    } else {
      var sub := PullLeftmost(e, v, To(t.right));
      PullLeftmostLog(e, v, t.right);
      var p := if sub.o.Ok? then sub.o.v else PullRes(Stamp, Stamp);
      ShieldedLog(e, w, v, sub.w, p.rest, p.succ, To(t.left), p.rest);
    }
  }

  lemma {:induction false} DoRemoveLog(e: Env, w: Work, t: Tree, key: int)
    ensures Balanced(w, DoRemove(e, w, To(t), key).w)
    decreases t
  {
    hide LogOK, Spot, Spots, DefendTwo, Close, MkBalanced, RemoveHere;
    var c := Spot(e, w, To(t));
    SpotLog(e, w, To(t));
    if t.Node? {
      var left, right := Peek(e, c.w, t, L), Peek(e, Tick(c.w, t), t, R);
      var d := DefendTwo(e, Loads(c.w, t), left, right);
      var s := Spots(e, d.w, left, right);
      OpeningLog(e, w, t, left, right, c, d, s);
      if !c.bad && !d.bad && !s.bad {
        if t.key == key {
          RemoveHereLog(e, w, s.w, t);
        } else {
          var sub := DoRemove(e, s.w, if t.key < key then right else left, key);
          DoRemoveLog(e, s.w, if t.key < key then t.right else t.left, key);
          Still(s.w, sub.w);
          if sub.o.Ok? {
            UpLog(e, w, s.w, sub.w, To(t), if t.key < key then left else sub.o.v.r, if t.key < key then sub.o.v.r
              else right);
          } else {
            UpLog(e, w, s.w, sub.w, To(t), left, right);
          }
        }
      }
    }
  }

  // ---------------------------------------------------------------- a sequence of updates with one pool

  /** One attempt of an update: its surroundings, its job and the tree it loaded. */
  datatype Turn = Turn(env: Env, job: Job, base: Tree)

  ghost predicate Proper(u: Turn) {
    (u.job.Insert? || u.job.Remove?) && WellFormed(u.base)
  }

  ghost function TurnLog(u: Turn): seq<ShieldPools.Event>
    requires Proper(u)
  {
    BuildOf(u.env, u.job, u.base).w.log
  }

  /** What a sequence of attempts, failed ones included, asks of the pool of their handle. */
  ghost function LogOf(us: seq<Turn>): seq<ShieldPools.Event>
    requires forall i :: 0 <= i < |us| ==> Proper(us[i])
  {
    if us == [] then [] else LogOf(us[..|us| - 1]) + TurnLog(us[|us| - 1])
  }

  /** Twice the greatest height, plus four. */
  ghost function Bound(us: seq<Turn>): nat {
    if us == [] then 0
    else
      var before, last := Bound(us[..|us| - 1]), 2 * Height(us[|us| - 1].base) + 4;
      if before < last then last else before
  }

  /**
    One update, from the first shield to the last: nested, nothing held at the end, within the bound, and enough of
    them to protect every node that it reads.
   */
  lemma {:induction false} TurnShields(u: Turn)
    requires Proper(u)
    ensures ShieldPools.Nested(TurnLog(u)) && ShieldPools.LiveOf(TurnLog(u)) == 0
    ensures ShieldPools.PeakOf(TurnLog(u)) <= 2 * Height(u.base) + 4
    ensures BuildOf(u.env, u.job, u.base).w.safe
  {
    hide DoInsert, DoRemove, WellFormed, Height;
    ShieldBound(u.env, u.job, u.base);
    BuildGuarded(u.env, u.job, u.base);
    if u.job.Insert? {
      DoInsertLog(u.env, Start(u.base), u.base, u.job.k, u.job.v);
    } else {
      DoRemoveLog(u.env, Start(u.base), u.base, u.job.k);
    }
  }

  lemma {:induction false} TurnsShields(us: seq<Turn>)
    requires forall i :: 0 <= i < |us| ==> Proper(us[i])
    ensures ShieldPools.Nested(LogOf(us)) && ShieldPools.LiveOf(LogOf(us)) == 0
      && ShieldPools.PeakOf(LogOf(us)) <= Bound(us)
    decreases |us|
  {
    hide Proper, TurnLog;
    if us != [] {
      var before, u := us[..|us| - 1], us[|us| - 1];
      TurnsShields(before);
      TurnShields(u);
      ShieldPools.LiveAppend(LogOf(before), TurnLog(u));
      ShieldPools.NestedAppend(LogOf(before), TurnLog(u));
    }
  }

  /**
    Over any sequence of updates with one handle, attempts that are ejected or given up included, the pool never
    drops a handle that is not live, holds at most twice the greatest height plus four shields and those lost by
    failed reuses, and has no live handle between updates.
   */
  lemma {:induction false} PoolWithin(us: seq<Turn>)
    requires forall i :: 0 <= i < |us| ==> Proper(us[i])
    ensures var u := ShieldPools.Replay(LogOf(us));
            && u.Some? && ShieldPools.After(u.value.ops) == ShieldPools.Some(u.value.books)
            && u.value.books.size <= Bound(us) + ShieldPools.FailedReuses(u.value.ops)
            && u.value.books.live == {}
  {
    hide Proper, LogOf, Bound;
    TurnsShields(us);
    ShieldPools.NestedPool(LogOf(us));
  }
}
