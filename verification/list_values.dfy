/**
  Values in the list: every value handed to an insert is disposed of once, by the remove that returns it, by
  its own refused insert, or by the drop of the list.
 */
module ListValues {
  import opened ListModel
  import opened ListInvariant
  import opened ListActions
  import opened ListRuns

  // ---------------------------------------------------------------- who disposes of a value

  /** The remove of thread `t` marks node `a` and takes its value out. */
  ghost predicate Takes(s: State, s': State, t: Tid, a: Addr) {
    && t in s.threads && t in s'.threads && a in s.heap && s.heap[a].value.Some? && s'.spent == s.spent + multiset{a}
    && s.threads[t].job.Remove? && s.threads[t].pc.FetchOr? && s.threads[t].pc.curr == a
    && !s.heap[a].next.mark && a in s'.heap && s'.heap[a].next.mark
    && s'.threads[t].job == s.threads[t].job && s'.threads[t].pc.CasUnlink?
      && Some(s'.threads[t].pc.value) == s.heap[a].value
  }

  /** The insert of thread `t` is refused and drops the value of its own node `a`. */
  ghost predicate Refuses(s: State, s': State, t: Tid, a: Addr) {
    && t in s.threads && t in s'.threads && a in s.heap && s'.spent == s.spent + multiset{a}
    && s.threads[t].job.Insert? && s.threads[t].pc.Found? && s.threads[t].job.node == a
    && s.heap[a].value == Some(s.threads[t].job.v) && s'.threads[t].pc == Return(Inserted(false))
  }

  ghost predicate Disposes(s: State, s': State, t: Tid, a: Addr) {
    Takes(s, s', t, a) || Refuses(s, s', t, a)
  }

  ghost predicate ValuesStep(s: State, s': State) {
    s'.spent == s.spent || exists t, a :: Disposes(s, s', t, a)
  }

  /** A value is disposed of only by being moved out to a remove or by being dropped by its own refused insert. */
  lemma {:induction false} SpentBy(r: seq<State>, j: nat)
    requires IsRun(r) && j + 1 < |r|
    ensures ValuesStep(r[j], r[j + 1])
  {
    hide Inv, Init, StepOf, Disposes;
    RunInv(r, j);
    assert Next(r[j], r[j + 1]);
    var i, o :| StepOf(r[j], r[j + 1], i, o);
    SpentStep(r[j], r[j + 1], i, o);
  }

  lemma {:induction false} SpentStep(s: State, s': State, i: Tid, o: Out)
    requires Inv(s) && StepOf(s, s', i, o)
    ensures ValuesStep(s, s')
    ensures s.threads[i].pc.FetchOr? && o.th.pc.CasUnlink? ==> Takes(s, s', i, s.threads[i].pc.curr)
  {
    hide HeapOK, RetiredOK, SpentOK, PlacesOwned, ThreadOK, Moved, WatchNodes, WatchKey, Exec;
    ChainOf(s);
    var th := s.threads[i];
    PointersValid(i, s.heap, Live(s), s.place, th, s.seen[i], s.obs[i]);
    if Running(th) && Matches(th) && (o.spent != {} || (th.pc.FetchOr? && o.th.pc.CasUnlink?)) {
      SpentExec(s.heap, Live(s), s.place, i, th, s.seen[i], s.obs[i]);
      assert Disposes(s, s', i, if th.pc.FetchOr? then th.pc.curr else th.job.node);
    }
  }

  lemma {:induction false} SpentExec(h: Heap, c: seq<Addr>, pl: map<Addr, Place>, i: Tid, th: Thread, seen: set<Addr>,
                                     obs: set<Option<V>>)
    requires Running(th) && Matches(th) && ThreadOK(h, c, pl, i, th, seen, obs)
    requires Exec(h, th).spent != {} || (th.pc.FetchOr? && Exec(h, th).th.pc.CasUnlink?)
    ensures var o := Exec(h, th);
      || (&& th.pc.FetchOr? && th.job.Remove? && o.spent == {th.pc.curr} && th.pc.curr in h && h[th.pc.curr].value.Some?
          && !h[th.pc.curr].next.mark && th.pc.curr in o.heap && o.heap[th.pc.curr].next.mark && o.th.job == th.job
          && o.th.pc.CasUnlink? && Some(o.th.pc.value) == h[th.pc.curr].value)
      || (&& th.pc.Found? && th.job.Insert? && o.spent == {th.job.node} && th.job.node in h
          && h[th.job.node].value == Some(th.job.v) && o.th.pc == Return(Inserted(false)))
  {
    hide PendingOK, SeenOK, PcOK;
  }

  /** Only the thread that takes the step changes. */
  lemma {:induction false} OneActs(s: State, s': State, t: Tid, u: Tid)
    requires Next(s, s') && t in s.threads && t in s'.threads && u in s.threads && u in s'.threads
    requires s.threads[t] != s'.threads[t] && s.threads[u] != s'.threads[u]
    ensures t == u
  {
    hide Local, Moved, WatchNodes, WatchKey;
  }

  lemma {:induction false} SpentGrows(r: seq<State>, i: nat, j: nat)
    requires IsRun(r) && i <= j < |r|
    ensures r[i].spent <= r[j].spent
    decreases j
  {
    hide Init, Local, Moved, WatchNodes, WatchKey;
    if i < j {
      SpentGrows(r, i, j - 1);
      assert Next(r[j - 1], r[j - 1 + 1]);
    }
  }

  lemma {:induction false} SpentAtMostOnce(s: State, a: Addr)
    requires Inv(s)
    ensures s.spent[a] <= 1
  {
    hide ThreadsOK, RetiredOK, PlacesOwned, IsChain, NodeOK, NextOK;
    ChainOf(s);
    if a in s.spent {
      assert a in s.heap;
    }
  }

  /** No value is disposed of twice: at most one step of a run disposes of the value of a node. */
  lemma {:induction false} SpentOnce(r: seq<State>, i: nat, t: Tid, j: nat, u: Tid, a: Addr)
    requires IsRun(r) && i + 1 < |r| && j + 1 < |r| && Disposes(r[i], r[i + 1], t, a) && Disposes(r[j], r[j + 1], u, a)
    ensures i == j && t == u
  {
    hide Inv, Init, Next;
    assert Next(r[i], r[i + 1]) && Next(r[j], r[j + 1]);
    RunInv(r, i + 1);
    RunInv(r, j + 1);
    SpentAtMostOnce(r[i + 1], a);
    SpentAtMostOnce(r[j + 1], a);
    if i < j {
      SpentGrows(r, i + 1, j);
    } else if j < i {
      SpentGrows(r, j + 1, i);
    }
    OneActs(r[i], r[i + 1], t, u);
  }

  ghost predicate Quiescent(s: State) {
    forall t :: t in s.threads ==> s.threads[t].pc.Idle?
  }

  // ---------------------------------------------------------------- the remove that takes a value returns it

  lemma {:induction false} HolderStep(s: State, s': State, t: Tid, v: V)
    requires Inv(s) && Next(s, s') && t in s.threads && HasRemoved(s.threads[t], v)
    ensures t in s'.threads
    ensures if s.threads[t].pc.CasUnlink? then HasRemoved(s'.threads[t], v) && s'.threads[t].job == s.threads[t].job
            else s'.threads[t] == s.threads[t] || s'.threads[t] == Thread(NoJob, Idle)
  {
    hide ThreadOK, RetiredOK, SpentOK, PlacesOwned, HeapOK, Moved, WatchNodes, WatchKey;
    ChainOf(s);
    PointersValid(t, s.heap, Live(s), s.place, s.threads[t], s.seen[t], s.obs[t]);
    var i, o :| StepOf(s, s', i, o);
  }

  /**
    The remove that takes a value returns it: its call has no other reply, and if all calls have ended it did
    reply.
   */
  lemma {:induction false} TakenReturned(r: seq<State>, j: nat, t: Tid, v: V) returns (m: nat)
    requires IsRun(r) && j < |r| && t in r[j].threads && HasRemoved(r[j].threads[t], v)
    requires t in r[|r| - 1].threads && r[|r| - 1].threads[t].pc.Idle?
    ensures j <= m < |r| && t in r[m].threads
      && r[m].threads[t] == Thread(r[j].threads[t].job, Return(Removed(Some(v))))
    ensures forall x :: j <= x <= m ==>
      t in r[x].threads && HasRemoved(r[x].threads[t], v) && r[x].threads[t].job == r[j].threads[t].job
    decreases |r| - j
  {
    hide Inv, Init, Next;
    if r[j].threads[t].pc.Return? {
      m := j;
    } else {
      RunInv(r, j);
      assert Next(r[j], r[j + 1]);
      HolderStep(r[j], r[j + 1], t, v);
      m := TakenReturned(r, j + 1, t, v);
    }
  }

  lemma {:induction false} ThreadsStay(r: seq<State>, i: nat, j: nat, t: Tid)
    requires IsRun(r) && i <= j < |r| && t in r[i].threads
    ensures t in r[j].threads
    decreases j
  {
    hide Init, Local, Moved, WatchNodes, WatchKey;
    if i < j {
      ThreadsStay(r, i, j - 1, t);
      assert Next(r[j - 1], r[j - 1 + 1]);
    }
  }

  /** In a run at whose end all calls have returned, the remove that took the value of `a` replied with that value. */
  lemma {:induction false} TakerReturns(r: seq<State>, j: nat, t: Tid, a: Addr) returns (m: nat)
    requires IsRun(r) && j + 1 < |r| && Takes(r[j], r[j + 1], t, a) && Quiescent(r[|r| - 1])
    ensures j < m < |r| && t in r[m].threads
      && r[m].threads[t] == Thread(r[j].threads[t].job, Return(Removed(r[j].heap[a].value)))
    ensures forall x :: j < x <= m ==> t in r[x].threads && r[x].threads[t].job == r[j].threads[t].job
  {
    hide Init, Next;
    ThreadsStay(r, j + 1, |r| - 1, t);
    m := TakenReturned(r, j + 1, t, r[j + 1].threads[t].pc.value);
  }

  /** A value that a remove returns was taken by a step of the same call. */
  lemma {:induction false} ReturnedTaken(r: seq<State>, i: nat, j: nat, t: Tid, v: V) returns (m: nat)
    requires IsRun(r) && CallOf(r, i, j, t) && r[j].threads[t].pc == Return(Removed(Some(v)))
      && r[j].threads[t].job.Remove?
    ensures i < m < j && t in r[m].threads && r[m].threads[t].pc.FetchOr?
    ensures Takes(r[m], r[m + 1], t, r[m].threads[t].pc.curr) && r[m].heap[r[m].threads[t].pc.curr].value == Some(v)
  {
    hide Inv, Init, Next, Abs;
    m := FindRemove(r, i, j, t, v);
    RunInv(r, m);
    assert Next(r[m], r[m + 1]);
    TakesNow(r[m], r[m + 1], t);
  }

  lemma {:induction false} TakesNow(s: State, s': State, t: Tid)
    requires Inv(s) && Next(s, s') && t in s.threads && t in s'.threads && s.threads[t].pc.FetchOr?
      && s'.threads[t].pc.CasUnlink?
    ensures Takes(s, s', t, s.threads[t].pc.curr)
  {
    hide Inv, Local, Moved, WatchNodes, WatchKey, Takes, ValuesStep;
    var i, o :| StepOf(s, s', i, o);
    assert i == t;
    SpentStep(s, s', i, o);
  }

  // ---------------------------------------------------------------- a value stays in its node

  lemma {:induction false} StepKeeps(h: Heap, th: Thread, o: Out, a: Addr)
    requires Local(h, th, o) && a in h
    ensures a in o.heap && o.heap[a].key == h[a].key && o.heap[a].value == h[a].value
  {
  }

  /** The value that an insert put into its node stays there for the rest of the run. */
  lemma {:induction false} ValueStays(r: seq<State>, i: nat, j: nat, a: Addr)
    requires IsRun(r) && i <= j < |r| && a in r[i].heap
    ensures a in r[j].heap && r[j].heap[a].key == r[i].heap[a].key && r[j].heap[a].value == r[i].heap[a].value
    decreases j
  {
    hide Init, Local, Moved, WatchNodes, WatchKey;
    if i < j {
      ValueStays(r, i, j - 1, a);
      assert Next(r[j - 1], r[j - 1 + 1]);
      var t, o :| StepOf(r[j - 1], r[j], t, o);
      StepKeeps(r[j - 1].heap, r[j - 1].threads[t], o, a);
    }
  }

  /** An insert that begins hands its value over in a node of its own, which no other insert gets. */
  lemma {:induction false} HandedOver(r: seq<State>, i: nat, j: nat, t: Tid)
    requires IsRun(r) && i < j < |r| && t in r[i].threads && t in r[i + 1].threads
    requires r[i].threads[t].job.NoJob? && r[i + 1].threads[t].job.Insert?
    ensures var job := r[i + 1].threads[t].job;
            && job.node != HEAD && job.node !in r[i].heap && job.node in r[j].heap
              && r[j].heap[job.node].value == Some(job.v)
  {
    hide Inv, Init, Next;
    RunInv(r, i);
    assert Next(r[i], r[i + 1]);
    InsertBegins(r[i], r[i + 1], t);
    ValueStays(r, i + 1, j, r[i + 1].threads[t].job.node);
  }

  lemma {:induction false} InsertBegins(s: State, s': State, t: Tid)
    requires Inv(s) && Next(s, s') && t in s.threads && t in s'.threads && s.threads[t].job.NoJob?
      && s'.threads[t].job.Insert?
    ensures var job := s'.threads[t].job;
            job.node != HEAD && job.node !in s.heap && job.node in s'.heap && s'.heap[job.node].value == Some(job.v)
  {
    hide ThreadOK, RetiredOK, SpentOK, PlacesOwned, NodeOK, NextOK, Moved, WatchNodes, WatchKey, Exec;
    var i, o :| StepOf(s, s', i, o);
    ChainOf(s);
    PointersValid(t, s.heap, Live(s), s.place, s.threads[t], s.seen[t], s.obs[t]);
    assert Live(s)[0] == HEAD;
  }

  // ---------------------------------------------------------------- the end of a run

  /** The nodes of `w` whose `next` is not marked. */
  ghost function Unmarked(h: Heap, w: seq<Addr>): seq<Addr> {
    if w == [] then []
    else
      var a := w[|w| - 1];
      Unmarked(h, w[..|w| - 1]) + if a in h && !h[a].next.mark then [a] else []
  }

  lemma {:induction false} UnmarkedOnce(h: Heap, w: seq<Addr>, a: Addr)
    requires forall i, j :: 0 <= i < j < |w| ==> w[i] != w[j]
    ensures multiset(Unmarked(h, w))[a] == if a in w && a in h && !h[a].next.mark then 1 else 0
    decreases |w|
  {
    if w != [] {
      var v, b := w[..|w| - 1], w[|w| - 1];
      UnmarkedOnce(h, v, a);
      assert w == v + [b];
      assert b !in v;
    }
  }

  /** The nodes of the chain after the head. */
  ghost function Nodes(s: State): seq<Addr> {
    if Live(s) == [] then [] else Live(s)[1..]
  }

  lemma {:induction false} QuietPlaces(s: State, a: Addr)
    requires SystemOK(s, Live(s)) && Quiescent(s) && a in s.place
    ensures !s.place[a].Private? && !s.place[a].Pending?
  {
    hide HeapOK, SpentOK, RetiredOK;
    forall t | t in s.threads ensures s.place[a] != Private(t) && s.place[a] != Pending(t) {
      assert ThreadOK(s.heap, Live(s), s.place, t, s.threads[t], s.seen[t], s.obs[t]);
    }
  }

  /**
    Value and node conservation: when all calls have returned, every value handed to an insert was disposed
    of once, or is the value of an unmarked node and is still owned by the list, never both; and every node
    is in the chain, or was handed to the collector once, or was freed by its refused insert.
   */
  lemma {:induction false} Conserved(r: seq<State>, j: nat, a: Addr)
    requires IsRun(r) && j < |r| && Quiescent(r[j]) && a in r[j].heap && a != HEAD
    ensures r[j].spent[a] + multiset(Unmarked(r[j].heap, Nodes(r[j])))[a] == 1
    ensures multiset(Nodes(r[j]))[a] + r[j].retired[a] + (if a in r[j].place && r[j].place[a].Freed? then 1 else 0) == 1
  {
    hide ThreadsOK, PlacesOwned, Unmarked, NextOK, Init, Next;
    RunInv(r, j);
    var s := r[j];
    ChainOf(s);
    var c := Live(s);
    QuietPlaces(s, a);
    ChainDistinct(s.heap, c, s.place);
    UnmarkedOnce(s.heap, c[1..], a);
    assert c == [HEAD] + c[1..];
    TailOnce(c[1..], a);
  }

  lemma {:induction false} TailOnce(w: seq<Addr>, a: Addr)
    requires forall i, j :: 0 <= i < j < |w| ==> w[i] != w[j]
    ensures multiset(w)[a] == if a in w then 1 else 0
    decreases |w|
  {
    if w != [] {
      TailOnce(w[..|w| - 1], a);
      assert w == w[..|w| - 1] + [w[|w| - 1]];
      assert w[|w| - 1] !in w[..|w| - 1];
    }
  }

  // ---------------------------------------------------------------- drop

  /** In every reachable state the list can be dropped. */
  lemma {:induction false} DropReady(r: seq<State>, j: nat)
    requires IsRun(r) && j < |r|
    ensures HeapOK(r[j].heap, Live(r[j]), r[j].place) && Nodes(r[j]) == Live(r[j])[1..]
  {
    RunInv(r, j);
    ChainOf(r[j]);
  }

  /**
    `List::drop`: frees every node of the chain and drops the values of the unmarked ones, in order; it
    never reads a node it has freed.
   */
  method Drop(h: Heap, ghost c: seq<Addr>, ghost pl: map<Addr, Place>) returns (rest: Heap, dropped: seq<Addr>)
    requires HeapOK(h, c, pl)
    ensures rest == h - Elems(c[1..])
    ensures dropped == Unmarked(h, c[1..])
  {
    ChainDistinct(h, c, pl);
    rest, dropped := h, [];
    var curr := h[HEAD].next.ptr;
    ghost var i := 1;
    while curr != NULL
      invariant 1 <= i <= |c| && curr == if i < |c| then c[i] else NULL
      invariant rest == h - Elems(c[1..i]) && dropped == Unmarked(h, c[1..i])
      decreases |c| - i
    {
      assert curr !in c[1..i];
      var next := rest[curr].next;
      if !next.mark {
        dropped := dropped + [curr];
      }
      rest := rest - {curr};
      assert c[1..i + 1] == c[1..i] + [curr];
      assert i < |c| - 1 ==> h[c[i]].next.ptr == c[i + 1];
      curr := next.ptr;
      i := i + 1;
    }
    assert c[1..i] == c[1..];
  }

  /** A node of the chain is in it once, and is a published node other than the head. */
  lemma {:induction false} NodeOnce(r: seq<State>, j: nat, a: Addr)
    requires IsRun(r) && j < |r|
    ensures multiset(Nodes(r[j]))[a] == if a in Nodes(r[j]) then 1 else 0
    ensures a in Nodes(r[j]) ==> a in r[j].heap && a != HEAD
    ensures a in r[j].heap ==> a in r[j].place
  {
    hide ThreadsOK, PlacesOwned, RetiredOK, SpentOK, NodeOK, NextOK, Init, Next;
    RunInv(r, j);
    var s := r[j];
    ChainOf(s);
    ChainDistinct(s.heap, Live(s), s.place);
    TailOnce(Nodes(s), a);
  }

  /** The head holds no value. */
  lemma {:induction false} NotHead(r: seq<State>, j: nat)
    requires IsRun(r) && j < |r|
    ensures HEAD !in r[j].spent && forall a :: a in r[j].spent ==> a in r[j].heap
  {
    hide ThreadsOK, PlacesOwned, RetiredOK, NextOK, Init, Next;
    RunInv(r, j);
    var s := r[j];
    ChainOf(s);
    assert Live(s)[0] == HEAD && HEAD in Live(s);
    assert NodeOK(s.heap, HEAD);
  }

  lemma {:induction false} UnmarkedFrom(h: Heap, w: seq<Addr>, a: Addr)
    requires a in Unmarked(h, w)
    ensures a in w
    decreases |w|
  {
    if w != [] && a in Unmarked(h, w[..|w| - 1]) {
      UnmarkedFrom(h, w[..|w| - 1], a);
    }
  }

  /**
    A run that ends in drop: every value handed to an insert has been disposed of exactly once, by a step of the
    run or by the drop; and every node has left memory exactly once, freed by the drop or by its refused insert,
    or handed to the collector.
   */
  method DropAtEnd(ghost r: seq<State>, h: Heap) returns (rest: Heap, dropped: seq<Addr>)
    requires IsRun(r) && Quiescent(r[|r| - 1]) && h == r[|r| - 1].heap
    ensures forall a :: a in h && a != HEAD ==> r[|r| - 1].spent[a] + multiset(dropped)[a] == 1
    ensures forall a :: a in dropped || a in r[|r| - 1].spent ==> a in h && a != HEAD
    ensures forall a :: a in h && a != HEAD ==>
      a in r[|r| - 1].place
        && (if a in rest then 0 else 1) + r[|r| - 1].retired[a] + (if r[|r| - 1].place[a].Freed? then 1 else 0) == 1
  {
    hide Init, Next, HeapOK, Unmarked, Quiescent, Live;
    ghost var j := |r| - 1;
    DropReady(r, j);
    rest, dropped := Drop(h, Live(r[j]), r[j].place);
    forall a | a in h && a != HEAD
      ensures r[j].spent[a] + multiset(dropped)[a] == 1 && a in r[j].place
      ensures (if a in rest then 0 else 1) + r[j].retired[a] + (if r[j].place[a].Freed? then 1 else 0) == 1
    {
      Conserved(r, j, a);
      NodeOnce(r, j, a);
    }
    NotHead(r, j);
    forall a | a in dropped ensures a in h && a != HEAD {
      UnmarkedFrom(h, Nodes(r[j]), a);
      NodeOnce(r, j, a);
    }
  }
}
