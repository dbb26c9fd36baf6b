/**
  A call on the Bonsai tree that nobody disturbs completes: a thread that alone takes steps, and whose defends are not
  ejected, can always go on to its reply.
 */
module BonsaiSolo {
  import opened BonsaiTree
  import opened BonsaiBuild
  import opened BonsaiModel
  import opened BonsaiInvariant
  import opened BonsaiRuns

  // ---------------------------------------------------------------- steps of one thread

  /** Thread `t` takes the step from `s` to `s'`. */
  ghost predicate StepBy(s: State, s': State, t: Tid) {
    exists o :: StepOf(s, s', t, o)
  }

  ghost predicate OwnMove(r: seq<State>, n: int, t: Tid) {
    0 <= n < |r| - 1 && StepBy(r[n], r[n + 1], t)
  }

  ghost predicate InCall(s: State, t: Tid) {
    t in s.threads && !s.threads[t].job.NoJob?
  }

  ghost function Last(r: seq<State>): State
    requires |r| > 0
  {
    r[|r| - 1]
  }

  /** `q` goes on from the end of the run `r` with steps of `t` only. */
  ghost predicate GoesOn(r: seq<State>, q: seq<State>, t: Tid) {
    && 0 < |r| <= |q| && q[..|r|] == r && IsRun(q)
    && forall n :: |r| - 1 <= n < |q| - 1 ==> OwnMove(q, n, t)
  }

  lemma {:induction false} GoesOnThen(r: seq<State>, q: seq<State>, p: seq<State>, t: Tid)
    requires GoesOn(r, q, t) && GoesOn(q, p, t)
    ensures GoesOn(r, p, t)
  {
    hide StepOf, Init, Next;
    assert p[..|r|] == p[..|q|][..|r|];
    forall n | |r| - 1 <= n < |p| - 1 ensures OwnMove(p, n, t) {
      if n < |q| - 1 {
        assert OwnMove(q, n, t);
        assert p[n] == p[..|q|][n] && p[n + 1] == p[..|q|][n + 1];
      }
    }
  }

  lemma {:induction false} Stay(r: seq<State>, t: Tid)
    requires IsRun(r)
    ensures GoesOn(r, r, t)
  {
    hide StepOf, Init, Next;
    assert r[..|r|] == r;
  }

  /** The state after a step. */
  ghost function After(s: State, t: Tid, o: Out): State {
    State(o.root, o.stamps, s.threads[t := o.th], s.retired + multiset(o.retired), s.freed + multiset(o.freed),
      s.versions + [o.root], Moved(t, s.place, o))
  }

  lemma {:induction false} Take(r: seq<State>, t: Tid, o: Out) returns (q: seq<State>)
    requires IsRun(r) && t in Last(r).threads
    requires Local(Last(r).root, Last(r).stamps, Last(r).place.Keys, Last(r).threads[t], o)
    ensures GoesOn(r, q, t) && |q| == |r| + 1 && Last(q) == After(Last(r), t, o)
  {
    hide Local, Moved, Init;
    var s' := After(Last(r), t, o);
    q := r + [s'];
    assert StepOf(Last(r), s', t, o);
    assert Next(Last(r), s');
    forall i | 0 <= i < |q| - 1 ensures Next(q[i], q[i + 1]) {
      if i < |r| - 1 {
        assert Next(r[i], r[i + 1]);
      }
    }
    assert OwnMove(q, |r| - 1, t);
  }

  // ---------------------------------------------------------------- the last part of an update

  lemma {:induction false} CommitEnds(r: seq<State>, t: Tid) returns (q: seq<State>)
    requires IsRun(r) && InCall(Last(r), t) && Last(r).threads[t].pc.Commit?
    requires Last(r).threads[t].job.Insert? || Last(r).threads[t].job.Remove?
    ensures GoesOn(r, q, t) && t in Last(q).threads && Last(q).threads[t].job == Last(r).threads[t].job
    ensures Last(q).threads[t].pc == Return(Last(r).threads[t].pc.reply)
    decreases |Last(r).threads[t].pc.todo|, if Last(r).threads[t].pc.half then 0 else 1
  {
    hide Init, Next, Finishes, Moved, GoesOn;
    var s := Last(r);
    var o := ExecCommit(s.root, s.stamps, s.threads[t]);
    var p := Take(r, t, o);
    RunOf(r, p, t);
    if s.threads[t].pc.todo == [] {
      q := p;
    } else {
      q := CommitEnds(p, t);
      GoesOnThen(r, p, q, t);
    }
  }

  lemma {:induction false} RunOf(r: seq<State>, q: seq<State>, t: Tid)
    requires GoesOn(r, q, t)
    ensures IsRun(q) && |q| >= |r| > 0
  {
    hide IsRun, OwnMove;
  }

  /** A compare-and-set on the root that is still the loaded one publishes the tree. */
  lemma {:induction false} CasEnds(r: seq<State>, t: Tid) returns (q: seq<State>)
    requires IsRun(r) && InCall(Last(r), t) && Last(r).threads[t].pc.Cas?
    requires Last(r).threads[t].job.Insert? || Last(r).threads[t].job.Remove?
    ensures GoesOn(r, q, t) && t in Last(q).threads && Last(q).threads[t].job == Last(r).threads[t].job
    ensures if Address(Last(r).root) == Address(Last(r).threads[t].base) then Last(q).threads[t].pc.Return?
            else Last(q).threads[t].pc.LoadRoot?
  {
    hide Init, Next, Finishes, Moved, GoesOn;
    var s := Last(r);
    var p := Take(r, t, ExecCas(s.root, s.stamps, s.threads[t]));
    RunOf(r, p, t);
    if Address(s.root) == Address(s.threads[t].base) {
      q := CommitEnds(p, t);
      GoesOnThen(r, p, q, t);
    } else {
      q := p;
    }
  }

  // ---------------------------------------------------------------- builds

  /** The surroundings `e` agree with what the build has loaded so far, and it has not yet made all its loads. */
  ghost predicate Possible(s: State, t: Tid, e: Env)
    requires t in s.threads && s.threads[t].pc.Build? && (s.threads[t].job.Insert? || s.threads[t].job.Remove?)
  {
    var th := s.threads[t];
    Oracles(e, th.pc.views, s.stamps, s.place.Keys) && |th.pc.views| <= BuildOf(e, th.job, th.base).w.clock
  }

  /** What a build in these surroundings leads to. */
  ghost predicate Leads(s: State, s': State, t: Tid, e: Env)
    requires t in s.threads && (s.threads[t].job.Insert? || s.threads[t].job.Remove?)
  {
    var b := BuildOf(e, s.threads[t].job, s.threads[t].base);
    && t in s'.threads && s'.threads[t].job == s.threads[t].job && s'.root == s.root
    && if b.r.Ok? && b.r.v.To? then s'.threads[t].pc.Cas? && s'.threads[t].base == s.threads[t].base
       else s'.threads[t].pc.LoadRoot?
  }

  lemma {:induction false} BuildEnds(r: seq<State>, t: Tid, e: Env) returns (q: seq<State>)
    requires IsRun(r) && t in Last(r).threads && Last(r).threads[t].pc.Build?
    requires Last(r).threads[t].job.Insert? || Last(r).threads[t].job.Remove?
    requires Possible(Last(r), t, e)
    ensures GoesOn(r, q, t) && Leads(Last(r), Last(q), t, e)
    decreases BuildOf(e, Last(r).threads[t].job, Last(r).threads[t].base).w.clock - |Last(r).threads[t].pc.views|
  {
    hide Init, Next, GoesOn, BuildOf, FreshAlloc, Inv;
    var s := Last(r);
    var th := s.threads[t];
    var b := BuildOf(e, th.job, th.base);
    if |th.pc.views| < b.w.clock {
      var p := Take(r, t, Goto(s.root, s.stamps, th, Build(th.pc.views + [s.stamps])));
      RunOf(r, p, t);
      SameKeys(s, t, Goto(s.root, s.stamps, th, Build(th.pc.views + [s.stamps])));
      q := BuildEnds(p, t, e);
      GoesOnThen(r, p, q, t);
    } else {
      RunInv(r, |r| - 1);
      var o := FinishOut(s, t, e);
      q := Take(r, t, o);
    }
  }

  /** A step that makes no node leaves the set of addresses used. */
  lemma {:induction false} SameKeys(s: State, t: Tid, o: Out)
    requires o.made == {}
    ensures Moved(t, s.place, o).Keys == s.place.Keys
  {
    hide Nodes;
  }

  lemma {:induction false} FinishOut(s: State, t: Tid, e: Env) returns (o: Out)
    requires Inv(s) && t in s.threads && s.threads[t].pc.Build?
    requires s.threads[t].job.Insert? || s.threads[t].job.Remove?
    requires Oracles(e, s.threads[t].pc.views, s.stamps, s.place.Keys)
    requires BuildOf(e, s.threads[t].job, s.threads[t].base).w.clock == |s.threads[t].pc.views|
    ensures Local(s.root, s.stamps, s.place.Keys, s.threads[t], o) && o.root == s.root
    ensures var b := BuildOf(e, s.threads[t].job, s.threads[t].base);
            && o.th.job == s.threads[t].job
            && if b.r.Ok? && b.r.v.To? then o.th.pc.Cas? && o.th.base == s.threads[t].base else o.th.pc.LoadRoot?
  {
    hide BuildOf, Oracles, Inv;
    var th := s.threads[t];
    var b := BuildOf(e, th.job, th.base);
    NoFault(s, t, e);
    var made := SetOf(b.w.created);
    o := match b.r
         case Fault => Goto(s.root, s.stamps, th, Crash)
         case Ejected => Out(s.root, s.stamps, th.(pc := LoadRoot), false, made, made, {})
         case Ok(Stamp) => Out(s.root, s.stamps, th.(pc := LoadRoot), false, made, made, {})
         case Ok(To(u)) =>
           Out(s.root, s.stamps, th.(pc := Cas(u, b.reply, b.w.created, b.w.retired)), false, made, {}, {});
    assert Finishes(s.root, s.stamps, s.place.Keys, th, e, o);
  }

  lemma {:induction false} NoFault(s: State, t: Tid, e: Env)
    requires Inv(s) && t in s.threads && (s.threads[t].job.Insert? || s.threads[t].job.Remove?)
    requires s.threads[t].pc.Build? && Oracles(e, s.threads[t].pc.views, s.stamps, s.place.Keys)
    ensures !BuildOf(e, s.threads[t].job, s.threads[t].base).r.Fault?
  {
    hide BuildOf, Inv, PcOK, Holdings, StampsOK, WellFormed;
    Facts(s, t);
    BuildOK(e, s.threads[t].job, s.threads[t].base, s.place.Keys);
  }

  // ---------------------------------------------------------------- from the root

  lemma {:induction false} Beyond(x: set<nat>) returns (n: nat)
    ensures n > 0 && forall a :: a in x ==> a < n
    decreases |x|
  {
    if x == {} {
      n := 1;
    } else {
      var a :| a in x;
      var m := Beyond(x - {a});
      n := if a < m then m else a + 1;
      forall b | b in x ensures b < n {
        assert b == a || b in x - {a};
      }
    }
  }

  /** Surroundings in which nothing more happens. */
  lemma {:induction false} CalmEnv(s: State) returns (e: Env)
    ensures Oracles(e, [], s.stamps, s.place.Keys) && forall n :: !e.eject(n)
  {
    var m := Beyond(s.place.Keys);
    e := Env((n: nat) => s.stamps, (n: nat) => m + n, (n: nat) => false);
  }

  lemma {:induction false} UpdateFromRoot(r: seq<State>, t: Tid) returns (q: seq<State>)
    requires IsRun(r) && t in Last(r).threads && Last(r).threads[t].pc.LoadRoot?
    requires Last(r).threads[t].job.Insert? || Last(r).threads[t].job.Remove?
    ensures GoesOn(r, q, t) && InCall(Last(q), t) && Last(q).threads[t].pc.Return?
  {
    hide Init, Next, GoesOn, BuildOf, Oracles, WellFormed, Nodes, Inv;
    var s := Last(r);
    var o := Goto(s.root, s.stamps, s.threads[t].(base := s.root), Build([]));
    var p := Take(r, t, o);
    RunOf(r, p, t);
    SameKeys(s, t, o);
    SnapshotClean(r, |r| - 1);
    RunInv(r, |r| - 1);
    Shared(s);
    var e := CalmEnv(s);
    ClearNow(s.root, [], s.stamps, s.place, e);
    CalmBuild(e, s.threads[t].job, s.root);
    var b := BuildEnds(p, t, e);
    RunOf(p, b, t);
    GoesOnThen(r, p, b, t);
    q := CasEnds(b, t);
    GoesOnThen(r, b, q, t);
  }

  // ---------------------------------------------------------------- get

  /** No child pointer of the tree is stamped. */
  ghost predicate Clean(stamps: set<Edge>, t: Tree) {
    forall a, d :: a in Nodes(t) ==> Edge(a, d) !in stamps
  }

  /** A get that walks comes to its reply, or to a stamp, which sends it back to the root. */
  lemma {:induction false} WalkEnds(r: seq<State>, t: Tid, u: Tree) returns (q: seq<State>)
    requires IsRun(r) && t in Last(r).threads && Last(r).threads[t].job.Get? && Last(r).threads[t].pc == Walk(To(u))
    ensures GoesOn(r, q, t) && InCall(Last(q), t)
    ensures Last(q).threads[t].pc.Return? || Last(q).threads[t].pc.LoadRoot?
    ensures Last(q).threads[t].job == Last(r).threads[t].job
    ensures Clean(Last(r).stamps, u) ==> Last(q).threads[t].pc.Return?
    decreases u
  {
    hide Init, Next, GoesOn, Moved;
    var s := Last(r);
    var th := s.threads[t];
    var p := Take(r, t, ExecGet(s.root, s.stamps, th));
    RunOf(r, p, t);
    if u.Nil? {
      q := p;
    } else if th.job.k == u.key {
      q := CheckEnds(r, p, t, u);
    } else {
      var d := if th.job.k < u.key then L else R;
      CleanKids(s.stamps, u);
      if ChildRef(s.stamps, u, d).Stamp? {
        var x := Take(p, t, Goto(s.root, s.stamps, Last(p).threads[t], LoadRoot));
        GoesOnThen(r, p, x, t);
        q := x;
      } else {
        q := WalkEnds(p, t, Child(u, d));
        GoesOnThen(r, p, q, t);
      }
    }
  }

  lemma {:induction false} CleanKids(stamps: set<Edge>, t: Tree)
    requires t.Node?
    ensures Clean(stamps, t) ==> Clean(stamps, t.left) && Clean(stamps, t.right)
    ensures Clean(stamps, t) ==> Edge(t.a, L) !in stamps && Edge(t.a, R) !in stamps
  {
    assert t.a in Nodes(t);
  }

  lemma {:induction false} CheckEnds(r: seq<State>, p: seq<State>, t: Tid, u: Tree) returns (q: seq<State>)
    requires IsRun(r) && t in Last(r).threads && Last(r).threads[t].job.Get? && u.Node? && IsRun(p) && GoesOn(r, p, t)
    requires t in Last(p).threads && Last(p).threads[t].job == Last(r).threads[t].job
    requires Last(p).stamps == Last(r).stamps
    requires Last(p).threads[t].pc == if Edge(u.a, L) in Last(r).stamps then LoadRoot else CheckRight(u)
    ensures GoesOn(r, q, t) && InCall(Last(q), t)
    ensures Last(q).threads[t].pc.Return? || Last(q).threads[t].pc.LoadRoot?
    ensures Last(q).threads[t].job == Last(r).threads[t].job
    ensures Clean(Last(r).stamps, u) ==> Last(q).threads[t].pc.Return?
  {
    hide Init, Next, GoesOn, Moved;
    CleanKids(Last(r).stamps, u);
    if Last(p).threads[t].pc.LoadRoot? {
      q := p;
    } else {
      var s := Last(p);
      q := Take(p, t, ExecGet(s.root, s.stamps, s.threads[t]));
      GoesOnThen(r, p, q, t);
    }
  }

  lemma {:induction false} GetFromRoot(r: seq<State>, t: Tid) returns (q: seq<State>)
    requires IsRun(r) && t in Last(r).threads && Last(r).threads[t].pc.LoadRoot? && Last(r).threads[t].job.Get?
    ensures GoesOn(r, q, t) && InCall(Last(q), t) && Last(q).threads[t].pc.Return?
  {
    hide Init, Next, GoesOn, Moved, WellFormed, Nodes;
    var s := Last(r);
    var p := Take(r, t, ExecGet(s.root, s.stamps, s.threads[t]));
    RunOf(r, p, t);
    SnapshotClean(r, |r| - 1);
    q := WalkEnds(p, t, s.root);
    GoesOnThen(r, p, q, t);
  }

  // ---------------------------------------------------------------- from anywhere

  lemma {:induction false} FromRoot(r: seq<State>, p: seq<State>, t: Tid) returns (q: seq<State>)
    requires GoesOn(r, p, t) && InCall(Last(p), t) && (Last(p).threads[t].pc.LoadRoot? || Last(p).threads[t].pc.Return?)
    ensures GoesOn(r, q, t) && InCall(Last(q), t) && Last(q).threads[t].pc.Return?
  {
    hide Init, Next, GoesOn;
    RunOf(r, p, t);
    if Last(p).threads[t].pc.Return? {
      q := p;
    } else {
      if Last(p).threads[t].job.Get? {
        q := GetFromRoot(p, t);
      } else {
        q := UpdateFromRoot(p, t);
      }
      GoesOnThen(r, p, q, t);
    }
  }

  /**
    An undisturbed call completes: from every reachable state, a thread inside a call can go on by its own steps to its
    reply. A build that is under way must be one that can still be finished: its loads so far are the first loads of
    `do_insert` or `do_remove` in some surroundings.
   */
  lemma {:induction false} SoloCompletes(r: seq<State>, t: Tid) returns (q: seq<State>)
    requires IsRun(r) && InCall(Last(r), t)
    requires Last(r).threads[t].pc.Build? && !Last(r).threads[t].job.Get? ==> exists e :: Possible(Last(r), t, e)
    ensures GoesOn(r, q, t) && InCall(Last(q), t) && Last(q).threads[t].pc.Return?
  {
    hide Init, Next, GoesOn, Moved, Possible, Inv;
    var s := Last(r);
    var th := s.threads[t];
    RunInv(r, |r| - 1);
    JobOf(s, t);
    Stay(r, t);
    var p := r;
    match th.pc {
      case Walk(at) =>
        if at.Stamp? {
          p := Take(r, t, ExecGet(s.root, s.stamps, th));
        } else {
          p := WalkEnds(r, t, at.t);
        }
      case CheckRight(_) =>
        p := Take(r, t, ExecGet(s.root, s.stamps, th));
      case Build(_) =>
        var e :| Possible(s, t, e);
        var b := BuildEnds(r, t, e);
        RunOf(r, b, t);
        if Last(b).threads[t].pc.Cas? {
          p := CasEnds(b, t);
          GoesOnThen(r, b, p, t);
        } else {
          p := b;
        }
      case Cas(_, _, _, _) =>
        p := CasEnds(r, t);
      case Commit(_, _, _) =>
        p := CommitEnds(r, t);
      case _ =>
    }
    q := FromRoot(r, p, t);
  }

  lemma {:induction false} JobOf(s: State, t: Tid)
    requires Inv(s) && InCall(s, t)
    ensures var th := s.threads[t];
            && !th.pc.Idle? && !th.pc.Crash? && (th.pc.Walk? || th.pc.CheckRight? ==> th.job.Get?)
            && (th.pc.CheckRight? ==> th.pc.found.Node?)
            && (th.pc.Build? || th.pc.Cas? || th.pc.Commit? ==> th.job.Insert? || th.job.Remove?)
  {
    hide Inv, Holdings, StampsOK, WellFormed, Contents;
    Facts(s, t);
  }

  // ---------------------------------------------------------------- why a call starts again

  /**
    The thread is at a stamped pointer or node, at the root shield, at the end of a build that gives no tree, or at a
    compare-and-set on a root that is no longer the loaded one.
   */
  ghost predicate Thrown(s: State, t: Tid, e: Env)
    requires t in s.threads
  {
    var th := s.threads[t];
    match th.pc
    case Walk(Stamp) => true
    case Walk(To(u)) => u.Node? && th.job == Get(u.key) && Edge(u.a, L) in s.stamps
    case CheckRight(u) => u.Node? && Edge(u.a, R) in s.stamps
    case Build(views) =>
      || views == []
      || (&& (th.job.Insert? || th.job.Remove?) && Oracles(e, views, s.stamps, s.place.Keys)
          && BuildOf(e, th.job, th.base).w.clock == |views|
          && var b := BuildOf(e, th.job, th.base).r;
             b.Ejected? || (b.Ok? && b.v.Stamp?))
    case Cas(_, _, _, _) => Address(s.root) != Address(th.base)
    case _ => false
  }

  /** Inside a call, a thread goes back to the root only for one of these reasons. */
  lemma {:induction false} RestartReason(r: seq<State>, j: nat, t: Tid) returns (e: Env)
    requires IsRun(r) && j + 1 < |r| && StepBy(r[j], r[j + 1], t) && InCall(r[j], t)
    requires r[j + 1].threads[t].pc.LoadRoot?
    ensures Thrown(r[j], t, e)
  {
    hide Init, Next, Moved, Inv, BuildOf, Oracles;
    var s := r[j];
    RunInv(r, j);
    JobOf(s, t);
    var o :| StepOf(s, r[j + 1], t, o);
    var th := s.threads[t];
    e := CalmEnv(s);
    if th.pc.Build? && th.pc.views != [] {
      e :| Finishes(s.root, s.stamps, s.place.Keys, th, e, o);
    }
  }
}
