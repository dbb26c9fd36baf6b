/**
  The walk after a splice: it ends after a bounded number of the walking thread's steps, whatever the other
  threads do, and retires exactly the nodes that the splice unlinked.
 */
module NMWalk {
  import opened NMShape
  import opened NMProtocol
  import opened NMInvariant
  import opened NMActions
  import opened NMSteps
  import opened NMPreservation
  import opened NMTheorems
  import opened NMRuns
  import opened NMReclaim

  // ---------------------------------------------------------------- a measure

  ghost function Weight(u: Tree): nat {
    match u
    case Nil => 1
    case T(_, l, r) => 2 + Weight(l) + Weight(r)
  }

  ghost function ForestWeight(f: seq<Tree>): nat {
    if f == [] then 0 else ForestWeight(f[..|f| - 1]) + Weight(f[|f| - 1])
  }

  /** The walk of thread `i` has `n` steps to go before its stack is empty. */
  ghost predicate WalkLeft(h: Heap, pl: map<Addr, Place>, i: Tid, pc: Pc, n: nat) {
    match pc
    case WalkPop(stack, sib) => exists f :: Forest(h, pl, i, stack, sib, f, {}) && ForestWeight(f) == n
    case WalkRight(stack, sib, x) =>
      && x in h
      && exists f, u :: Forest(h, pl, i, stack, sib, f, {x} + Addrs(u)) && CutRep(h, h[x].right.ptr, sib, u)
                        && Distinct(u) && x !in Addrs(u) && ForestWeight(f) + Weight(u) + 1 == n
    case _ => false
  }

  /** A walking thread always has a number of steps to go. */
  lemma {:induction false} WalkHasBound(h: Heap, pl: map<Addr, Place>, i: Tid, pc: Pc) returns (n: nat)
    requires WalkOK(h, pl, i, pc) && Walking(pc)
    ensures WalkLeft(h, pl, i, pc, n)
  {
    match pc {
      case WalkPop(stack, sib) =>
        var f :| Forest(h, pl, i, stack, sib, f, {});
        n := ForestWeight(f);
      case WalkRight(stack, sib, x) =>
        var f, u :| Forest(h, pl, i, stack, sib, f, {x} + Addrs(u)) && CutRep(h, h[x].right.ptr, sib, u)
                    && Distinct(u) && x !in Addrs(u);
        n := ForestWeight(f) + Weight(u) + 1;
    }
  }

  lemma {:induction false} WeightPush(f: seq<Tree>, u: Tree)
    ensures ForestWeight(f + [u]) == ForestWeight(f) + Weight(u)
  {
    assert (f + [u])[..|f|] == f;
  }

  /** Each of its own steps brings a walk one step closer to its end, which it reaches at zero. */
  lemma {:induction false} WalkAdvances(h: Heap, pl: map<Addr, Place>, i: Tid, th: Thread, n: nat)
    requires Walking(th.pc) && WalkLeft(h, pl, i, th.pc, n)
    ensures var o := ExecWalk(h, th);
            var pl' := if th.pc.WalkRight? then pl[th.pc.node := Retired] else pl;
            if th.pc.WalkPop? && th.pc.stack == [] then n == 0 && !Walking(o.th.pc)
            else n > 0 && WalkLeft(h, pl', i, o.th.pc, n - 1)
  {
    hide Forest, CutRep;
    match th.pc {
      case WalkPop(stack, sib) =>
        var f :| Forest(h, pl, i, stack, sib, f, {}) && ForestWeight(f) == n;
        if stack == [] {
          EmptyForest(h, pl, i, stack, sib, f);
        } else {
          PopAdvances(h, pl, i, stack, sib, f, n);
        }
      case WalkRight(stack, sib, x) =>
        var f, u :| Forest(h, pl, i, stack, sib, f, {x} + Addrs(u)) && CutRep(h, h[x].right.ptr, sib, u)
                    && Distinct(u) && x !in Addrs(u) && ForestWeight(f) + Weight(u) + 1 == n;
        RightAdvances(h, pl, i, stack, sib, x, f, u);
    }
  }

  lemma {:induction false} EmptyForest(h: Heap, pl: map<Addr, Place>, i: Tid, stack: seq<Addr>, sib: Addr, f: seq<Tree>)
    requires Forest(h, pl, i, stack, sib, f, {}) && stack == []
    ensures ForestWeight(f) == 0
  {
  }

  lemma {:induction false} RightAdvances(h: Heap, pl: map<Addr, Place>, i: Tid, stack: seq<Addr>, sib: Addr, x: Addr,
      f: seq<Tree>, u: Tree)
    requires x in h && Forest(h, pl, i, stack, sib, f, {x} + Addrs(u)) && CutRep(h, h[x].right.ptr, sib, u)
    requires Distinct(u) && x !in Addrs(u)
    ensures WalkLeft(h, pl[x := Retired], i, WalkPop(stack + [h[x].right.ptr], sib), ForestWeight(f) + Weight(u))
  {
    assert {x} + Addrs(u) == Addrs(u) + {x};
    ForestPush(h, pl, i, stack, sib, f, {x}, h[x].right.ptr, u);
    WeightPush(f, u);
    assert Forest(h, pl[x := Retired], i, stack + [h[x].right.ptr], sib, f + [u], {});
  }

  lemma {:induction false} ForestTop(h: Heap, pl: map<Addr, Place>, i: Tid, stack: seq<Addr>, sib: Addr, f: seq<Tree>)
    requires Forest(h, pl, i, stack, sib, f, {}) && stack != []
    ensures |f| == |stack| && ForestWeight(f) == ForestWeight(f[..|f| - 1]) + Weight(f[|f| - 1])
  {
  }

  lemma {:induction false} PopPushes(h: Heap, pl: map<Addr, Place>, i: Tid, rest: seq<Addr>, sib: Addr, g: seq<Tree>,
      x: Addr, u: Tree)
    requires Forest(h, pl, i, rest, sib, g, Addrs(u)) && CutRep(h, x, sib, u) && Distinct(u) && x != NULL && x != sib
    ensures x in h && u.T?
    ensures WalkLeft(h, pl, i, WalkRight(rest + [h[x].left.ptr], sib, x), ForestWeight(g) + Weight(u) - 1)
  {
    hide Forest;
    assert Addrs(u) == Addrs(u.l) + ({x} + Addrs(u.r));
    ForestPush(h, pl, i, rest, sib, g, {x} + Addrs(u.r), h[x].left.ptr, u.l);
    WeightPush(g, u.l);
  }

  lemma {:induction false} PopAdvances(h: Heap, pl: map<Addr, Place>, i: Tid, stack: seq<Addr>, sib: Addr, f: seq<Tree>,
      n: nat)
    requires Forest(h, pl, i, stack, sib, f, {}) && ForestWeight(f) == n && stack != []
    ensures var rest, x := stack[..|stack| - 1], stack[|stack| - 1];
            && n > 0
            && (x == NULL || x == sib ==> WalkLeft(h, pl, i, WalkPop(rest, sib), n - 1))
            && (x != NULL && x != sib ==>
              x in h && WalkLeft(h, pl, i, WalkRight(rest + [h[x].left.ptr], sib, x), n - 1))
  {
    hide Rep, Forest;
    ForestPop(h, pl, i, stack, sib, f);
    ForestTop(h, pl, i, stack, sib, f);
    var rest, x, u, g := stack[..|stack| - 1], stack[|stack| - 1], f[|f| - 1], f[..|f| - 1];
    if x == NULL || x == sib {
      assert Addrs(u) == {};
    } else {
      PopPushes(h, pl, i, rest, sib, g, x, u);
    }
  }

  /** Steps of other threads do not lengthen a walk. */
  lemma {:induction false} WalkUndisturbed(i: Tid, h: Heap, t: Tree, pl: map<Addr, Place>, h': Heap,
      pl': map<Addr, Place>, u: Tid, pc: Pc, n: nat)
    requires u != i && NodesOK(h) && PlacesOK(h, t, pl) && NodesEvolve(i, h, pl, h', pl') && pl'.Keys == h'.Keys
    requires WalkLeft(h, pl, u, pc, n)
    ensures WalkLeft(h', pl', u, pc, n)
  {
    match pc
    case WalkPop(stack, sib) =>
      var f :| Forest(h, pl, u, stack, sib, f, {}) && ForestWeight(f) == n;
      ForestStable(i, h, t, pl, h', pl', u, stack, sib, f, {});
    case WalkRight(stack, sib, x) =>
      var f, w :| Forest(h, pl, u, stack, sib, f, {x} + Addrs(w)) && CutRep(h, h[x].right.ptr, sib, w)
                  && Distinct(w) && x !in Addrs(w) && ForestWeight(f) + Weight(w) + 1 == n;
      RightStable(i, h, t, pl, h', pl', u, stack, sib, x, f, w);
  }

  // ---------------------------------------------------------------- steps of the system

  /** The nodes that `t` has unlinked and not yet retired. */
  ghost function Unretired(s: State, t: Tid): set<Addr> {
    set a | a in s.place && s.place[a] == Pending(t)
  }

  /** The walk of `t` has `n` steps to go. */
  ghost predicate StepsLeft(s: State, t: Tid, n: nat) {
    t in s.threads && Walking(s.threads[t].pc) && WalkLeft(s.heap, s.place, t, s.threads[t].pc, n)
  }

  lemma {:induction false} WalkPlaces(s: State, s': State, t: Tid, o: Out)
    requires Inv(s) && StepOf(s, s', t, o) && Walking(s.threads[t].pc)
    ensures !s.threads[t].job.NoJob? && o == ExecWalk(s.heap, s.threads[t]) && o.heap == s.heap
    ensures s.threads[t].pc.WalkRight? ==>
      && s.threads[t].pc.node in s.place && s.place[s.threads[t].pc.node] == Pending(t)
        && o.retired == {s.threads[t].pc.node}
      && s'.place == s.place[s.threads[t].pc.node := Retired]
    ensures s.threads[t].pc.WalkPop? ==> o.retired == {} && s'.place == s.place
  {
    hide ClaimsOK, OwnersOK, RetiredOK, PlacesOwned, SeenOK, PcOK, WalkOK, Watch, Moved, NodesOK, Addrs, Advanced,
      PrivateOK;
    hide Distinct, Full, Ordered, Sentinels, PurgeSeek, PurgeOK, Rep;
    TreeOf(s);
    var th := s.threads[t];
    assert ThreadOK(s.heap, Live(s), s.place, s.claimed, t, th, s.seen[t]);
    PointersValid(t, s.heap, Live(s), s.place, s.claimed, th, s.seen[t]);
    if th.pc.WalkRight? {
      WalkNode(s.heap, s.place, t, th.pc);
      var pl' := RetireStep(t, s.heap, Live(s), s.place, s.claimed, th, s.seen[t]);
      RetireMoves(t, s.heap, Live(s), s.place, o, th.pc.node);
    } else {
      PopStays(s.heap, s.place, t, th);
      PlacesSame(t, s.heap, Live(s), s.place, o);
    }
  }

  lemma {:induction false} PopStays(h: Heap, pl: map<Addr, Place>, t: Tid, th: Thread)
    requires th.pc.WalkPop? && WalkOK(h, pl, t, th.pc)
    ensures var o := ExecWalk(h, th); o.heap == h && o.retired == {} && o.freed == {}
  {
  }

  /**
    A step seen from a walking thread. Its own steps take one off the steps to go and retire only nodes it has
    unlinked; the steps of others change neither.
   */
  lemma {:induction false} WalkTurn(s: State, s': State, t: Tid, n: nat)
    requires Inv(s) && Next(s, s') && StepsLeft(s, t, n)
    ensures t in s'.threads && Unretired(s', t) <= Unretired(s, t)
    ensures s'.threads[t] == s.threads[t] ==> StepsLeft(s', t, n) && Unretired(s', t) == Unretired(s, t)
    ensures s'.threads[t] != s.threads[t] ==>
      && s'.retired == s.retired + multiset(Unretired(s, t) - Unretired(s', t))
      && (if n == 0 then !Walking(s'.threads[t].pc) else StepsLeft(s', t, n - 1))
  {
    hide Inv, Moved, Watch, Local, WalkLeft, ExecWalk, Walking;
    var i, o :| StepOf(s, s', i, o);
    if i == t {
      WalkPlaces(s, s', t, o);
      OwnTurn(s, s', t, o, n);
    } else {
      OtherTurn(s, s', i, o, t, n);
    }
  }

  lemma {:induction false} OwnTurn(s: State, s': State, t: Tid, o: Out, n: nat)
    requires StepOf(s, s', t, o) && StepsLeft(s, t, n) && o == ExecWalk(s.heap, s.threads[t]) && o.heap == s.heap
    requires s.threads[t].pc.WalkRight? ==>
      && s.threads[t].pc.node in s.place && s.place[s.threads[t].pc.node] == Pending(t)
        && o.retired == {s.threads[t].pc.node}
      && s'.place == s.place[s.threads[t].pc.node := Retired]
    requires s.threads[t].pc.WalkPop? ==> o.retired == {} && s'.place == s.place
    ensures s'.threads[t] != s.threads[t] && s'.retired == s.retired + multiset(Unretired(s, t) - Unretired(s', t))
    ensures Unretired(s', t) <= Unretired(s, t)
    ensures if n == 0 then !Walking(s'.threads[t].pc) else StepsLeft(s', t, n - 1)
  {
    hide Local, Moved, Watch, WalkLeft;
    WalkAdvances(s.heap, s.place, t, s.threads[t], n);
    assert Unretired(s, t) - Unretired(s', t) == o.retired;
    WalkAtEnd(s, t, n);
    if n > 0 {
      LeftWalks(s.heap, s'.place, t, o.th.pc, n - 1);
    }
  }

  lemma {:induction false} LeftWalks(h: Heap, pl: map<Addr, Place>, i: Tid, pc: Pc, n: nat)
    requires WalkLeft(h, pl, i, pc, n)
    ensures Walking(pc)
  {
  }

  lemma {:induction false} WalkAtEnd(s: State, t: Tid, n: nat)
    requires StepsLeft(s, t, n)
    ensures n == 0 <==> s.threads[t].pc.WalkPop? && s.threads[t].pc.stack == []
  {
    hide WalkLeft, Forest, CutRep;
    WalkAdvances(s.heap, s.place, t, s.threads[t], n);
  }

  lemma {:induction false} OtherTurn(s: State, s': State, i: Tid, o: Out, t: Tid, n: nat)
    requires Inv(s) && StepOf(s, s', i, o) && i != t && StepsLeft(s, t, n)
    ensures t in s'.threads && s'.threads[t] == s.threads[t] && StepsLeft(s', t, n)
      && Unretired(s', t) == Unretired(s, t)
  {
    hide ThreadsOK, ClaimsOK, OwnersOK, RetiredOK, PlacesOwned, PathsKept, FlagsKept, Effect, FlagEffect, Moved, Watch,
      Local;
    hide WalkLeft, Sentinels, Rep, Distinct, Full, Ordered, NodesOK, Addrs;
    StepFacts(s, s', i, o);
    WalkUndisturbed(i, s.heap, Live(s), s.place, s'.heap, s'.place, t, s.threads[t].pc, n);
    forall a ensures a in Unretired(s', t) <==> a in Unretired(s, t) {
      PendingSame(i, s.heap, s.place, s'.heap, s'.place, t, a);
    }
  }

  lemma {:induction false} PendingSame(i: Tid, h: Heap, pl: map<Addr, Place>, h': Heap, pl': map<Addr, Place>, u: Tid,
      a: Addr)
    requires u != i && NodesEvolve(i, h, pl, h', pl') && pl'.Keys == h'.Keys && pl.Keys == h.Keys
    ensures a in pl' && pl'[a] == Pending(u) <==> a in pl && pl[a] == Pending(u)
  {
    if a in h && pl[a] != Private(i) {
      assert PlaceStep(i, pl[a], pl'[a]);
    }
  }

  // ---------------------------------------------------------------- the walk in a run

  /** How often thread `t` has moved between two states. */
  ghost function Moves(r: seq<State>, i: nat, j: nat, t: Tid): nat
    requires i <= j < |r| && forall k :: i <= k <= j ==> t in r[k].threads
    decreases j
  {
    if i == j then 0 else Moves(r, i, j - 1, t) + if r[j].threads[t] != r[j - 1].threads[t] then 1 else 0
  }

  /** The nodes that the moves of thread `t` handed to the collector between two states. */
  ghost function Handed(r: seq<State>, i: nat, j: nat, t: Tid): multiset<Addr>
    requires i <= j < |r| && forall k :: i <= k <= j ==> t in r[k].threads
    decreases j
  {
    if i == j then multiset{}
    else Handed(r, i, j - 1, t) + if r[j].threads[t] != r[j - 1].threads[t] then r[j].retired - r[j - 1].retired
      else multiset{}
  }

  /** Thread `t` walks in all states from `i` up to but not including `j`. */
  ghost predicate WalksUntil(r: seq<State>, i: nat, j: nat, t: Tid) {
    && i <= j < |r| && (forall k :: i <= k <= j ==> t in r[k].threads)
    && forall k :: i <= k < j ==> Walking(r[k].threads[t].pc)
  }

  lemma {:induction false} WalkSoFar(r: seq<State>, i: nat, j: nat, t: Tid, n: nat)
    requires IsRun(r) && WalksUntil(r, i, j, t) && StepsLeft(r[i], t, n)
    ensures Moves(r, i, j, t) <= n + 1
    ensures Walking(r[j].threads[t].pc) ==> Moves(r, i, j, t) <= n && StepsLeft(r[j], t, n - Moves(r, i, j, t))
    ensures Handed(r, i, j, t) + multiset(Unretired(r[j], t)) == multiset(Unretired(r[i], t))
    decreases j
  {
    hide Inv, Init, Next, StepsLeft, Unretired, Walking, Moves, Handed;
    Unfolded(r, i, j, t);
    if i < j {
      WalkSoFar(r, i, j - 1, t, n);
      RunInv(r, j - 1);
      assert Next(r[j - 1], r[j - 1 + 1]);
      var m := n - Moves(r, i, j - 1, t);
      WalkTurn(r[j - 1], r[j], t, m);
      StillWalks(r[j], t);
      var a, b := Unretired(r[j - 1], t), Unretired(r[j], t);
      if r[j].threads[t] != r[j - 1].threads[t] {
        HandOver(r[j - 1].retired, r[j].retired, a, b);
      }
    }
  }

  lemma {:induction false} Unfolded(r: seq<State>, i: nat, j: nat, t: Tid)
    requires i <= j < |r| && forall k :: i <= k <= j ==> t in r[k].threads
    ensures i == j ==> Moves(r, i, j, t) == 0 && Handed(r, i, j, t) == multiset{}
    ensures i < j && r[j].threads[t] == r[j - 1].threads[t] ==>
              Moves(r, i, j, t) == Moves(r, i, j - 1, t) && Handed(r, i, j, t) == Handed(r, i, j - 1, t)
    ensures i < j && r[j].threads[t] != r[j - 1].threads[t] ==>
              && Moves(r, i, j, t) == Moves(r, i, j - 1, t) + 1
              && Handed(r, i, j, t) == Handed(r, i, j - 1, t) + (r[j].retired - r[j - 1].retired)
  {
  }

  lemma {:induction false} HandOver(before: multiset<Addr>, after: multiset<Addr>, a: set<Addr>, b: set<Addr>)
    requires b <= a && after == before + multiset(a - b)
    ensures after - before == multiset(a - b) && multiset(a - b) + multiset(b) == multiset(a)
  {
    assert a == (a - b) + b;
  }

  lemma {:induction false} StillWalks(s: State, t: Tid)
    ensures forall n :: StepsLeft(s, t, n) ==> t in s.threads && Walking(s.threads[t].pc)
  {
  }

  /** At the splice the thread comes to hold exactly the nodes that have just become unreachable. */
  lemma {:induction false} SpliceHolds(s: State, s': State, t: Tid)
    requires Inv(s) && Next(s, s') && t in s.threads && t in s'.threads
    requires s.threads[t].pc.CasSplice? && s'.threads[t].pc.WalkPop?
    ensures Unretired(s', t) == Addrs(Live(s)) - Addrs(Live(s'))
  {
    hide Inv, Next, Addrs;
    SpliceBefore(s, t);
    forall a ensures a in Unretired(s', t) <==> a in Addrs(Live(s)) && a !in Addrs(Live(s')) {
      if a in Addrs(Live(s)) && a !in Addrs(Live(s')) {
        SpliceHandsOver(s, s', t, a);
      } else if a in Unretired(s', t) {
        HeldWasInTree(s, s', t, a);
      }
    }
  }

  lemma {:induction false} SpliceBefore(s: State, t: Tid)
    requires Inv(s) && t in s.threads && s.threads[t].pc.CasSplice?
    ensures Unretired(s, t) == {}
  {
    hide HeapOK, ClaimsOK, OwnersOK, RetiredOK, PlacesOwned, SeenOK, PcOK, PurgeSeek, PurgeOK, PrivateOK;
    TreeOf(s);
    assert ThreadOK(s.heap, Live(s), s.place, s.claimed, t, s.threads[t], s.seen[t]);
    NoPending(s.heap, s.place, t, s.threads[t].pc);
  }

  /** A node comes to wait with a thread only by leaving the tree. */
  lemma {:induction false} HeldWasInTree(s: State, s': State, t: Tid, a: Addr)
    requires Inv(s) && Next(s, s') && a in Unretired(s', t) && a !in Unretired(s, t)
    ensures a in Addrs(Live(s)) && a !in Addrs(Live(s'))
  {
    hide ThreadsOK, ClaimsOK, OwnersOK, RetiredOK, PlacesOwned, PathsKept, FlagsKept, Effect, FlagEffect, Moved, Watch,
      Local;
    hide Sentinels, Rep, Distinct, Full, Ordered, NodesOK, Addrs;
    var i, o :| StepOf(s, s', i, o);
    StepFacts(s, s', i, o);
    if a in s.heap && s.place[a] != Private(i) {
      assert PlaceStep(i, s.place[a], s'.place[a]);
    }
  }

  /**
    The stack walk after a winning splice, in any interleaving: it ends within a number of the thread's own
    moves that is fixed when it starts, and when it has ended it has handed to the collector exactly the nodes
    that the splice made unreachable, each once.
   */
  lemma {:induction false} WalkRetiresExactly(r: seq<State>, i: nat, j: nat, t: Tid) returns (n: nat)
    requires IsRun(r) && i + 1 <= j && WalksUntil(r, i + 1, j, t) && t in r[i].threads
    requires r[i].threads[t].pc.CasSplice? && r[i + 1].threads[t].pc.WalkPop?
    ensures StepsLeft(r[i + 1], t, n) && Moves(r, i + 1, j, t) <= n + 1
    ensures !Walking(r[j].threads[t].pc) ==>
              Handed(r, i + 1, j, t) == multiset(Addrs(Live(r[i])) - Addrs(Live(r[i + 1])))
  {
    hide Inv, Init, Next, StepsLeft, Unretired, Addrs;
    RunInv(r, i);
    RunInv(r, i + 1);
    RunInv(r, j);
    assert Next(r[i], r[i + 1]);
    n := WalkStartsAt(r[i + 1], t);
    SpliceHolds(r[i], r[i + 1], t);
    WalkSoFar(r, i + 1, j, t, n);
    if !Walking(r[j].threads[t].pc) {
      NoneWaits(r[j], t);
      var none: set<Addr> := {};
      assert multiset(none) == multiset{};
    }
  }

  lemma {:induction false} WalkStartsAt(s: State, t: Tid) returns (n: nat)
    requires Inv(s) && t in s.threads && Walking(s.threads[t].pc)
    ensures StepsLeft(s, t, n)
  {
    hide HeapOK, ClaimsOK, OwnersOK, RetiredOK, PlacesOwned, SeenOK, PcOK, PurgeSeek, PurgeOK, PrivateOK, WalkOK,
      WalkLeft;
    TreeOf(s);
    assert ThreadOK(s.heap, Live(s), s.place, s.claimed, t, s.threads[t], s.seen[t]);
    n := WalkHasBound(s.heap, s.place, t, s.threads[t].pc);
  }

  lemma {:induction false} NoneWaits(s: State, t: Tid)
    requires Inv(s) && t in s.threads && !Walking(s.threads[t].pc)
    ensures Unretired(s, t) == {}
  {
    hide HeapOK, ClaimsOK, OwnersOK, RetiredOK, PlacesOwned, SeenOK, PcOK, PurgeSeek, PurgeOK, PrivateOK, WalkOK,
      ThreadOK;
    TreeOf(s);
    forall a | a in Unretired(s, t) ensures false {
      PendingWalks(s.heap, Live(s), s.place, s.claimed, t, s.threads[t], s.seen[t], a);
    }
  }
}
