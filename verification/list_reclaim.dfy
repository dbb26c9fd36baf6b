/**
  Reclamation in the list: what leaves the chain is retired once, by the thread that unlinked it.
 */
module ListReclaim {
  import opened ListModel
  import opened ListInvariant
  import opened ListPreservation
  import opened ListRuns

  // ---------------------------------------------------------------- retiring

  lemma {:induction false} RetiredStep(s: State, s': State, a: Addr)
    requires Inv(s) && Next(s, s') && a in s.retired
    ensures s.retired[a] == 1 && a !in Live(s)
    ensures a in s'.retired && s'.retired[a] == 1 && a !in Live(s')
  {
    hide ThreadsOK, SpentOK, PlacesOwned, IsChain, NodeOK, NextOK, Effect, SpentEffect, Moved, Local, WatchNodes,
      WatchKey;
    var i, o :| StepOf(s, s', i, o);
    StepFacts(s, s', i, o);
    NotLive(s, a);
    NotLive(s', a);
  }

  lemma {:induction false} NotLive(s: State, a: Addr)
    requires HeapOK(s.heap, Live(s), s.place) && a in s.place && !s.place[a].InList?
    ensures a !in Live(s)
  {
  }

  /** Over a whole run no node is retired twice, and a retired node is never reachable again. */
  lemma {:induction false} RetiredOnce(r: seq<State>, i: nat, j: nat, a: Addr)
    requires IsRun(r) && i <= j < |r| && a in r[i].retired
    ensures a in r[j].retired && r[j].retired[a] == 1 && a !in Live(r[j])
    decreases j
  {
    hide Inv, Init, Next, Live;
    if i < j {
      RetiredOnce(r, i, j - 1, a);
      RunInv(r, j - 1);
      assert Next(r[j - 1], r[j - 1 + 1]);
      RetiredStep(r[j - 1], r[j], a);
    } else {
      RunInv(r, i);
      RetiredNow(r[i], a);
    }
  }

  lemma {:induction false} RetiredNow(s: State, a: Addr)
    requires Inv(s) && a in s.retired
    ensures s.retired[a] == 1 && a !in Live(s)
  {
    hide ThreadsOK, SpentOK, PlacesOwned, IsChain, NodeOK, NextOK;
    ChainOf(s);
    NotLive(s, a);
  }

  /** The nodes `t` has unlinked by its last successful CAS in `find_harris` and not yet retired. */
  ghost function Unretired(s: State, t: Tid): set<Addr> {
    set a | a in s.place && s.place[a] == Pending(t)
  }

  /**
    A node that has left the chain is marked, and either retired or waiting in the retire loop of the one
    thread that unlinked it.
   */
  lemma {:induction false} Departed(r: seq<State>, i: nat, j: nat, a: Addr)
    requires IsRun(r) && i <= j < |r| && a in Live(r[i]) && a !in Live(r[j])
    ensures a in r[j].heap && r[j].heap[a].next.mark
    ensures a !in r[j].retired ==>
      exists t :: t in r[j].threads && r[j].threads[t].pc.HRetire? && a in Unretired(r[j], t) && forall u ::
        a in Unretired(r[j], u) ==> u == t
  {
    Published(r, i, j, j, a);
    RunInv(r, j);
    var s := r[j];
    ChainOf(s);
    if a !in s.retired {
      GonePending(s, a);
      assert a in Unretired(s, s.place[a].t);
    }
  }

  lemma {:induction false} GonePending(s: State, a: Addr)
    requires SystemOK(s, Live(s)) && a in s.place && Public(s.place[a]) && a !in Live(s) && a !in s.retired
    ensures s.place[a].Pending? && s.place[a].t in s.threads && s.threads[s.place[a].t].pc.HRetire?
  {
    hide SpentOK, IsChain, NodeOK, NextOK, PcOK, SeenOK, PrivateOK;
    var t := s.place[a].t;
    assert ThreadOK(s.heap, Live(s), s.place, t, s.threads[t], s.seen[t], s.obs[t]);
  }

  /** In the retire loop: the run from `node` to `curr` is marked and holds exactly the unretired nodes. */
  lemma {:induction false} RetireLoop(s: State, t: Tid) returns (w: seq<Addr>)
    requires Inv(s) && t in s.threads && s.threads[t].pc.HRetire?
    ensures |w| > 0 && w[0] == s.threads[t].pc.node && w[|w| - 1] == s.threads[t].pc.curr && IsMarkedRun(s.heap, w)
    ensures Unretired(s, t) == Elems(w[..|w| - 1])
    ensures forall j, l :: 0 <= j < l < |w| ==> w[j] != w[l]
    ensures s.threads[t].pc.node == s.threads[t].pc.curr <==> Unretired(s, t) == {}
  {
    hide HeapOK, SpentOK, PcOK, SeenOK, PrivateOK, RetiredOK, PlacesOwned;
    ChainOf(s);
    HeapKeys(s.heap, Live(s), s.place);
    assert ThreadOK(s.heap, Live(s), s.place, t, s.threads[t], s.seen[t], s.obs[t]);
    w :| Awaiting(s.heap, s.place, t, s.threads[t].pc.node, s.threads[t].pc.curr, w);
    RunIn(s.heap, w);
    hide IsMarkedRun;
    if |w| > 1 {
      assert w[0] in w[..|w| - 1] by {
        assert w[..|w| - 1][0] == w[0];
      }
      assert w[0] in Unretired(s, t);
    } else {
      assert w[..|w| - 1] == [];
    }
    assert Unretired(s, t) == Elems(w[..|w| - 1]);
  }

  /**
    One turn of the retire loop retires the front node, so the loop makes exactly as many turns as nodes
    were unlinked; it ends exactly when it comes to `curr`, with all of them retired.
   */
  lemma {:induction false} RetireTurn(s: State, s': State, t: Tid, o: Out)
    requires Inv(s) && StepOf(s, s', t, o) && s.threads[t].pc.HRetire?
    ensures s.threads[t].pc.node == s.threads[t].pc.curr ==>
              Unretired(s, t) == {} && s'.threads[t].pc.Found? && s'.retired == s.retired
    ensures s.threads[t].pc.node != s.threads[t].pc.curr ==>
              && s.threads[t].pc.node in Unretired(s, t) && s'.threads[t].pc.HRetire?
              && s'.retired == s.retired + multiset{s.threads[t].pc.node}
              && Unretired(s', t) == Unretired(s, t) - {s.threads[t].pc.node}
              && |Unretired(s', t)| == |Unretired(s, t)| - 1
  {
    hide SystemOK, Rely, Effect, Accounts, WatchNodes, WatchKey, Moved;
    var th := s.threads[t];
    var w := RetireLoop(s, t);
    if th.pc.node != th.pc.curr {
      assert w[0] in w[..|w| - 1] by {
        assert w[..|w| - 1][0] == w[0];
      }
      RunIn(s.heap, w);
      assert o.retired == {th.pc.node} && o.freed == {} && o.heap == s.heap;
      TurnPlaces(s, s', t, o);
    }
  }

  lemma {:induction false} TurnPlaces(s: State, s': State, t: Tid, o: Out)
    requires Inv(s) && StepOf(s, s', t, o) && s.threads[t].pc.HRetire? && s.threads[t].pc.node in Unretired(s, t)
    requires o.retired == {s.threads[t].pc.node} && o.freed == {} && o.heap == s.heap
    ensures Unretired(s', t) == Unretired(s, t) - {s.threads[t].pc.node}
  {
    hide ThreadsOK, SpentOK, RetiredOK, PlacesOwned, NodeOK, NextOK, IsChain, Local, WatchNodes, WatchKey;
    ChainOf(s);
    forall a ensures a in Unretired(s', t) <==> a in Unretired(s, t) && a != s.threads[t].pc.node {
      if a in s.place && a in s.heap {
        assert a in Live(s) <==> s.place[a].InList?;
      }
    }
  }

  /** The steps of other threads neither add to nor take from what `t` has to retire. */
  lemma {:induction false} RetireUndisturbed(s: State, s': State, i: Tid, o: Out, t: Tid)
    requires Inv(s) && StepOf(s, s', i, o) && i != t && t in s.threads
    ensures s'.threads[t] == s.threads[t] && Unretired(s', t) == Unretired(s, t)
  {
    hide ThreadsOK, SpentOK, RetiredOK, PlacesOwned, NodeOK, NextOK, IsChain, Local, WatchNodes, WatchKey, Rely, Effect,
      Accounts;
    StepFacts(s, s', i, o);
    RelyKeys(i, s.heap, s.place, s'.heap, s'.place);
    forall a | a in s'.place ensures s'.place[a] == Pending(t) <==> a in s.place && s.place[a] == Pending(t) {
      PendingSame(i, s.heap, s.place, s'.heap, s'.place, t, a);
    }
  }

  lemma {:induction false} RelyKeys(i: Tid, h: Heap, pl: map<Addr, Place>, h': Heap, pl': map<Addr, Place>)
    requires Rely(i, h, pl, h', pl')
    ensures forall a :: a in h ==> a in pl'
  {
  }
}
