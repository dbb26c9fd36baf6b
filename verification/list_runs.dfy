/**
  Main results about whole runs of the list.
 */
module ListRuns {
  import opened ListModel
  import opened ListInvariant
  import opened ListPreservation

  // ---------------------------------------------------------------- one step of one thread

  /** The pointers a step dereferences are in the heap: no thread faults. */
  lemma {:induction false} PointersValid(i: Tid, h: Heap, c: seq<Addr>, pl: map<Addr, Place>, th: Thread,
      seen: set<Addr>, obs: set<Option<V>>)
    requires ThreadOK(h, c, pl, i, th, seen, obs)
    ensures !th.pc.Fault? && (th.job.NoJob? <==> th.pc.Idle?) && (Running(th) ==> Matches(th))
    ensures HasCursor(th.pc) ==> th.pc.prev in h && (th.pc.curr != NULL ==> th.pc.curr in h)
    ensures th.pc.FetchOr? ==> th.pc.curr in h
    ensures th.pc.Found? && th.job.Insert? ==> th.job.node in h
  {
  }

  lemma {:induction false} WriteCase(i: Tid, h: Heap, c: seq<Addr>, pl: map<Addr, Place>, th: Thread, seen: set<Addr>,
      obs: set<Option<V>>)
      returns (c': seq<Addr>, pl': map<Addr, Place>)
    requires HeapOK(h, c, pl) && ThreadOK(h, c, pl, i, th, seen, obs) && Running(th) && Matches(th) && !Reads(h, th)
    ensures Advanced(i, h, pl, seen, obs, Exec(h, th), c', pl') && Effect(h, c, th, Exec(h, th), c')
  {
    hide HeapOK, ThreadOK, Contents, Advanced, Exec;
    PointersValid(i, h, c, pl, th, seen, obs);
    c', pl' := c, pl;
    if th.pc.HUnlink? {
      c', pl' := HarrisCase(i, h, c, pl, th, seen, obs);
    } else if th.pc.HRetire? {
      pl' := RetireStep(i, h, c, pl, th, seen, obs);
    } else if th.pc.MUnlink? {
      c', pl' := MichaelCase(i, h, c, pl, th, seen, obs);
    } else if th.pc.Found? {
      if th.pc.found {
        pl' := RefuseStep(i, h, c, pl, th, seen, obs);
      } else {
        PrepareStep(i, h, c, pl, th, seen, obs);
      }
    } else if th.pc.CasInsert? {
      c', pl' := LinkCase(i, h, c, pl, th, seen, obs);
    } else if th.pc.FetchOr? {
      MarkCase(i, h, c, pl, th, seen, obs);
    } else {
      c', pl' := DropCase(i, h, c, pl, th, seen, obs);
    }
  }

  lemma {:induction false} QuietEffect(h: Heap, th: Thread)
    requires Running(th) && Matches(th) && Reads(h, th) && (th.pc.FetchOr? ==> th.pc.curr in h)
    ensures !Links(th, Exec(h, th)) && !Marks(th, Exec(h, th))
  {
  }

  /** Any step of any thread. */
  lemma {:induction false} StepLocal(i: Tid, h: Heap, c: seq<Addr>, pl: map<Addr, Place>, th: Thread, seen: set<Addr>,
      obs: set<Option<V>>, o: Out)
      returns (c': seq<Addr>, pl': map<Addr, Place>)
    requires HeapOK(h, c, pl) && ThreadOK(h, c, pl, i, th, seen, obs) && Local(h, th, o)
    ensures Advanced(i, h, pl, seen, obs, o, c', pl') && Effect(h, c, th, o, c')
  {
    hide HeapOK, ThreadOK, Contents, Advanced, Exec, Reads;
    PointersValid(i, h, c, pl, th, seen, obs);
    c', pl' := c, pl;
    if Begins(h, th, o) {
      if o.th.job.Insert? {
        pl' := BeginInsert(i, h, c, pl, th, seen, obs, o);
      } else {
        BeginQuiet(i, h, c, pl, th, seen, obs, o);
      }
    } else if Ends(h, th, o) {
      EndStep(i, h, c, pl, th, seen, obs, o);
    } else if Reads(h, th) {
      hide Begins, Ends;
      QuietStep(i, h, c, pl, th, seen, obs);
      QuietEffect(h, th);
    } else {
      hide Begins, Ends, Effect;
      c', pl' := WriteCase(i, h, c, pl, th, seen, obs);
    }
  }

  // ---------------------------------------------------------------- the whole system

  lemma {:induction false} OthersStable(s: State, s': State, c: seq<Addr>, i: Tid, o: Out, c': seq<Addr>)
    requires HeapOK(s.heap, c, s.place) && ThreadsOK(s, c) && StepOf(s, s', i, o) && HeapOK(s'.heap, c', s'.place)
    requires Rely(i, s.heap, s.place, s'.heap, s'.place)
    requires ThreadOK(s'.heap, c', s'.place, i, o.th, WatchNodes(s.seen[i], o.th, o.th.pc.LoadHead?, o.heap),
      WatchKey(s.obs[i], o.th, o.th.pc.LoadHead?, o.heap))
    ensures ThreadsOK(s', c')
  {
    hide HeapOK, Rely, ThreadOK, Local, Moved, WatchNodes, WatchKey;
    forall u | u in s'.threads
      ensures ThreadOK(s'.heap, c', s'.place, u, s'.threads[u], s'.seen[u], s'.obs[u])
    {
      if u != i {
        ThreadStable(i, s.heap, c, s.place, s'.heap, c', s'.place, u, s.threads[u], s.seen[u], s.obs[u]);
      }
    }
  }

  lemma {:induction false} RetiredKept(i: Tid, h: Heap, c: seq<Addr>, pl: map<Addr, Place>, o: Out, c': seq<Addr>,
      pl': map<Addr, Place>, retired: multiset<Addr>)
    requires HeapOK(h, c, pl) && HeapOK(o.heap, c', pl') && Rely(i, h, pl, o.heap, pl') && pl' == Moved(i, h, pl, o)
    requires RetireEffect(i, pl, o, pl') && RetiredOK(pl, retired)
    ensures RetiredOK(pl', retired + multiset(o.retired))
  {
    hide NodeOK, NextOK, IsChain;
    forall a | a in retired ensures a in pl' && pl'[a].Retired? && a !in o.retired {
      assert a in h && pl[a].Retired? && PlaceStep(i, pl[a], pl'[a]);
    }
    forall a | a in pl' && pl'[a].Retired? && a !in o.retired ensures a in retired {
      assert a in pl && pl[a].Retired?;
    }
    hide Rely, HeapOK, Moved;
  }

  lemma {:induction false} SpentKept(i: Tid, h: Heap, c: seq<Addr>, pl: map<Addr, Place>, o: Out, c': seq<Addr>,
      pl': map<Addr, Place>, spent: multiset<Addr>)
    requires HeapOK(h, c, pl) && HeapOK(o.heap, c', pl') && SpentOK(h, pl, spent) && Accounts(i, h, pl, o, pl')
    requires forall a :: a in h ==> a in o.heap
    ensures SpentOK(o.heap, pl', spent + multiset(o.spent))
  {
    HeapKeys(h, c, pl);
    HeapKeys(o.heap, c', pl');
    hide HeapOK, RetireEffect;
    forall a | a in o.spent ensures a in o.heap {
      assert Disposed(o.heap, pl', a);
    }
    forall a | a in o.heap && a in pl'
      ensures (spent + multiset(o.spent))[a] == if o.heap[a].next.mark || pl'[a].Freed? then 1 else 0
    {
      assert Disposed(o.heap, pl', a) <==> (o.heap[a].next.mark || pl'[a].Freed?);
      assert spent[a] == if Disposed(h, pl, a) then 1 else 0;
    }
  }

  lemma {:induction false} OwnedKept(s: State, s': State, i: Tid, o: Out)
    requires StepOf(s, s', i, o) && PlacesOwned(s.place, s.threads) && Rely(i, s.heap, s.place, s'.heap, s'.place)
    requires s.place.Keys == s.heap.Keys && s'.place.Keys == s'.heap.Keys
    ensures PlacesOwned(s'.place, s'.threads)
  {
    hide Local, Moved, WatchNodes, WatchKey, Evolves;
    forall a | a in s'.place && (s'.place[a].Private? || s'.place[a].Pending?) ensures s'.place[a].t in s'.threads {
      if a in s.heap && s.place[a] != Private(i) {
        assert PlaceStep(i, s.place[a], s'.place[a]);
      }
    }
  }

  /** Every step of the system keeps the invariant. */
  lemma {:induction false} SystemStep(s: State, s': State, c: seq<Addr>, i: Tid, o: Out) returns (c': seq<Addr>)
    requires SystemOK(s, c) && StepOf(s, s', i, o)
    ensures SystemOK(s', c') && Effect(s.heap, c, s.threads[i], o, c') && Rely(i, s.heap, s.place, s'.heap, s'.place)
    ensures Accounts(i, s.heap, s.place, o, s'.place)
  {
    hide HeapOK, ThreadOK, Effect, RetiredOK, SpentOK, PlacesOwned, Rely, Local, WatchNodes, WatchKey, Moved,
      SpentEffect, RetireEffect;
    var pl': map<Addr, Place>;
    c', pl' := StepLocal(i, s.heap, c, s.place, s.threads[i], s.seen[i], s.obs[i], o);
    OthersStable(s, s', c, i, o, c');
    HeapKeys(s.heap, c, s.place);
    HeapKeys(s'.heap, c', s'.place);
    OwnedKept(s, s', i, o);
    RelyKeeps(i, s.heap, s.place, s'.heap, s'.place);
    RetiredKept(i, s.heap, c, s.place, o, c', s'.place, s.retired);
    SpentKept(i, s.heap, c, s.place, o, c', s'.place, s.spent);
  }

  lemma {:induction false} RelyKeeps(i: Tid, h: Heap, pl: map<Addr, Place>, h': Heap, pl': map<Addr, Place>)
    requires Rely(i, h, pl, h', pl')
    ensures forall a :: a in h ==> a in h'
  {
  }

  // ---------------------------------------------------------------- the invariant over runs

  lemma {:induction false} InitOK(s: State)
    requires Init(s)
    ensures Inv(s) && Abs(s) == map[]
  {
    var c := [HEAD];
    assert IsChain(s.heap, c);
    ChainIs(s.heap, c);
    assert Contents(s.heap, c) == map[] by {
      assert c[..0] == [] && Contents(s.heap, []) == map[] && Binding(s.heap, HEAD) == map[];
    }
    assert SystemOK(s, c);
  }

  /** The invariant is inductive. */
  lemma {:induction false} InvNext(s: State, s': State)
    requires Inv(s) && Next(s, s')
    ensures Inv(s')
  {
    hide SystemOK, StepOf, Effect, Rely, Accounts;
    var c :| SystemOK(s, c);
    var i, o :| StepOf(s, s', i, o);
    var c' := SystemStep(s, s', c, i, o);
  }

  /** The invariant holds in every state of every run. */
  lemma {:induction false} RunInv(r: seq<State>, j: nat)
    requires IsRun(r) && j < |r|
    ensures Inv(r[j])
  {
    hide Inv, Init, Next, Abs;
    if j == 0 {
      InitOK(r[0]);
    } else {
      RunInv(r, j - 1);
      assert Next(r[j - 1], r[j - 1 + 1]);
      InvNext(r[j - 1], r[j]);
    }
  }

  ghost function Live(s: State): seq<Addr> {
    Chain(s.heap)
  }

  lemma {:induction false} ChainOf(s: State)
    requires Inv(s)
    ensures SystemOK(s, Live(s))
  {
    var c :| SystemOK(s, c);
    SystemChain(s, c);
  }

  lemma {:induction false} SystemChain(s: State, c: seq<Addr>)
    requires SystemOK(s, c)
    ensures c == Live(s)
  {
    ChainIs(s.heap, c);
  }

  /** One step between reachable states, with everything it guarantees. */
  lemma {:induction false} StepFacts(s: State, s': State, i: Tid, o: Out)
    requires Inv(s) && StepOf(s, s', i, o)
    ensures SystemOK(s, Live(s)) && SystemOK(s', Live(s'))
    ensures Effect(s.heap, Live(s), s.threads[i], o, Live(s')) && Rely(i, s.heap, s.place, s'.heap, s'.place)
    ensures Accounts(i, s.heap, s.place, o, s'.place)
  {
    hide SystemOK, Effect, Rely, Accounts;
    ChainOf(s);
    var c' := SystemStep(s, s', Live(s), i, o);
    SystemChain(s', c');
  }

  /**
    In every reachable state: the physical chain, marked nodes included, is strictly increasing, and no thread
    faults.
   */
  lemma {:induction false} ChainHolds(r: seq<State>, j: nat)
    requires IsRun(r) && j < |r|
    ensures var h, c := r[j].heap, Live(r[j]);
            && IsChain(h, c)
            && (forall x, y :: 0 <= x < y < |c| ==> Less(h[c[x]].key, h[c[y]].key))
            && (forall t :: t in r[j].threads ==> !r[j].threads[t].pc.Fault?)
  {
    RunInv(r, j);
    ChainOf(r[j]);
    ChainSorted(r[j].heap, Live(r[j]), r[j].place);
    var s := r[j];
    hide ThreadOK, SpentOK;
    forall t | t in s.threads ensures !s.threads[t].pc.Fault? {
      PointersValid(t, s.heap, Live(s), s.place, s.threads[t], s.seen[t], s.obs[t]);
    }
  }

  lemma {:induction false} PublishedStep(s: State, s': State, a: Addr)
    requires Inv(s) && Next(s, s') && a in s.heap && a in s.place && Public(s.place[a])
    ensures a in s'.heap && a in s'.place && Public(s'.place[a]) && Evolves(s.heap[a], s'.heap[a])
    ensures a in Live(s) <==> s.place[a].InList?
    ensures a in Live(s') <==> s'.place[a].InList?
    ensures a in Live(s') ==> a in Live(s)
    ensures a !in Live(s') ==> s'.heap[a].next.mark
  {
    hide ThreadsOK, RetiredOK, SpentOK, PlacesOwned, IsChain, NodeOK, NextOK, Effect, Accounts, StepOf, Evolves;
    var i, o :| StepOf(s, s', i, o);
    StepFacts(s, s', i, o);
  }

  lemma {:induction false} ChainPublic(s: State, a: Addr)
    requires Inv(s) && a in Live(s)
    ensures a in s.heap && a in s.place && Public(s.place[a])
  {
    hide ThreadsOK, RetiredOK, SpentOK, PlacesOwned;
    ChainOf(s);
    ChainPlaces(s.heap, Live(s), s.place, a);
  }

  /**
    A node that was once in the chain: its key and value never change, a marked `next` never changes
    again, it is still in the chain unless it is marked, and once out of the chain it stays out.
   */
  lemma {:induction false} Published(r: seq<State>, i: nat, m: nat, j: nat, a: Addr)
    requires IsRun(r) && i <= m <= j < |r| && a in Live(r[i])
    ensures a in r[m].heap && a in r[j].heap && Evolves(r[m].heap[a], r[j].heap[a])
    ensures a in r[m].place && Public(r[m].place[a]) && a in r[j].place && Public(r[j].place[a])
    ensures a !in Live(r[j]) ==> r[j].heap[a].next.mark
    ensures a in Live(r[j]) ==> a in Live(r[m])
    decreases j, m
  {
    hide Inv, Init, Next, Live;
    RunInv(r, i);
    ChainPublic(r[i], a);
    if i < j {
      if m == j {
        Published(r, i, j - 1, j - 1, a);
      } else {
        Published(r, i, m, j - 1, a);
      }
      RunInv(r, j - 1);
      assert Next(r[j - 1], r[j - 1 + 1]);
      PublishedStep(r[j - 1], r[j], a);
    }
  }

  // ---------------------------------------------------------------- step refinement

  /** Thread `t`'s insert of `(k, v)` takes effect between `s` and `s'`. */
  ghost predicate InsertEffect(s: State, s': State, t: Tid, k: int, v: V) {
    && t in s.threads && s.threads[t].job.Insert? && s.threads[t].job.k == k && s.threads[t].job.v == v
    && t in s'.threads && s.threads[t].pc.CasInsert? && s'.threads[t].pc == Return(Inserted(true))
    && k !in Abs(s) && Abs(s') == Abs(s)[k := v]
  }

  /** Thread `t`'s remove of `(k, v)` takes effect between `s` and `s'`: it marks the node. */
  ghost predicate RemoveEffect(s: State, s': State, t: Tid, k: int, v: V) {
    && t in s.threads && s.threads[t].job.Remove? && s.threads[t].job.k == k
    && t in s'.threads && s.threads[t].pc.FetchOr? && s'.threads[t].pc.CasUnlink? && s'.threads[t].pc.value == v
    && k in Abs(s) && Abs(s)[k] == v && Abs(s') == Abs(s) - {k}
  }

  lemma {:induction false} OnlyLinks(h: Heap, th: Thread, o: Out)
    requires Local(h, th, o) && !th.job.NoJob?
    ensures Links(th, o) ==> o.th.pc == Return(Inserted(true)) && o.th.job == th.job
    ensures o.th.pc == Return(Inserted(true)) ==> Links(th, o)
    ensures o.th.pc.CasUnlink? ==> Marks(th, o) && o.th.job == th.job
    ensures o.th.pc.Return? && o.th.pc.reply.Removed? && o.th.pc.reply.value.Some? ==>
              th.pc.CasUnlink? && th.pc.value == o.th.pc.reply.value.value
  {
  }

  ghost predicate Refines(s: State, s': State) {
    || Abs(s') == Abs(s)
    || (exists t, k, v :: InsertEffect(s, s', t, k, v))
    || (exists t, k, v :: RemoveEffect(s, s', t, k, v))
  }

  /**
    Every step leaves the map alone, adds one absent binding, or removes one present binding: unlinking is
    invisible.
   */
  lemma {:induction false} RunRefines(r: seq<State>, j: nat)
    requires IsRun(r) && j + 1 < |r|
    ensures Refines(r[j], r[j + 1])
  {
    hide SystemOK, Rely, Contents, Local, Inv, Init, Accounts, WatchNodes, WatchKey, Moved;
    RunInv(r, j);
    assert Next(r[j], r[j + 1]);
    var i, o :| StepOf(r[j], r[j + 1], i, o);
    StepFacts(r[j], r[j + 1], i, o);
    var th := r[j].threads[i];
    if Links(th, o) {
      OnlyLinks(r[j].heap, th, o);
      assert InsertEffect(r[j], r[j + 1], i, th.job.k, th.job.v);
    } else if Marks(th, o) {
      assert RemoveEffect(r[j], r[j + 1], i, th.job.k, o.th.pc.value);
    }
  }

  // ---------------------------------------------------------------- linearizability

  /** Thread `t` is inside one call in all states after `r[i]` up to `r[j]`. */
  ghost predicate CallOf(r: seq<State>, i: nat, j: nat, t: Tid) {
    && i < j < |r| && t in r[i].threads && r[i].threads[t].job.NoJob?
    && forall m :: i < m <= j ==> t in r[m].threads && !r[m].threads[t].job.NoJob?
  }

  /** State `m` (for an update, the step from state `m`) accounts for the reply that `t` gives in state `j`. */
  ghost predicate Explains(r: seq<State>, m: nat, j: nat, t: Tid)
    requires m <= j < |r| && t in r[j].threads && r[j].threads[t].pc.Return? && !r[j].threads[t].job.NoJob?
  {
    var job := r[j].threads[t].job;
    match r[j].threads[t].pc.reply
    case Got(res) => job.Get? && res == Lookup(Abs(r[m]), job.k)
    case Inserted(ok) =>
      job.Insert? && if ok then m < j && InsertEffect(r[m], r[m + 1], t, job.k, job.v) else job.k in Abs(r[m])
    case Removed(None) => job.Remove? && job.k !in Abs(r[m])
    case Removed(Some(v)) => job.Remove? && m < j && RemoveEffect(r[m], r[m + 1], t, job.k, v)
  }

  /** Inside a call the job stays, and history grows by what the map holds now. */
  lemma {:induction false} BusyStep(s: State, s': State, t: Tid)
    requires Inv(s) && Next(s, s') && t in s.threads && !s.threads[t].job.NoJob? && t in s'.threads
      && !s'.threads[t].job.NoJob?
    ensures s'.threads[t].job == s.threads[t].job && t in s.obs && t in s'.obs
    ensures s'.obs[t] <= s.obs[t] + {Lookup(Abs(s'), s'.threads[t].job.k)}
  {
    hide ThreadOK, RetiredOK, SpentOK, PlacesOwned, HeapOK, Moved, WatchNodes, Lookup, Contents;
    var i, o :| StepOf(s, s', i, o);
    ChainOf(s);
    if i == t {
      PointersValid(t, s.heap, Live(s), s.place, s.threads[t], s.seen[t], s.obs[t]);
      SameJob(s.heap, s.threads[t], o);
    }
  }

  lemma {:induction false} SameJob(h: Heap, th: Thread, o: Out)
    requires Local(h, th, o) && !th.pc.Idle? && !o.th.job.NoJob?
    ensures o.th.job == th.job
  {
  }

  lemma {:induction false} FirstStep(s: State, s': State, t: Tid)
    requires Inv(s) && Next(s, s') && t in s.threads && s.threads[t].job.NoJob? && t in s'.threads
      && !s'.threads[t].job.NoJob?
    ensures s'.threads[t].pc == LoadHead && t in s'.obs && s'.obs[t] == {Lookup(Abs(s'), s'.threads[t].job.k)}
  {
    hide ThreadOK, RetiredOK, SpentOK, PlacesOwned, HeapOK, Moved, WatchNodes, Exec, Lookup, Contents;
    var i, o :| StepOf(s, s', i, o);
    ChainOf(s);
    PointersValid(t, s.heap, Live(s), s.place, s.threads[t], s.seen[t], s.obs[t]);
  }

  /** Hindsight: whatever was observed was true of the map in some state since the call began. */
  lemma {:induction false} ObservedThen(r: seq<State>, i: nat, j: nat, t: Tid, x: Option<V>) returns (m: nat)
    requires IsRun(r) && CallOf(r, i, j, t) && t in r[j].obs && x in r[j].obs[t]
    ensures i < m <= j && x == Lookup(Abs(r[m]), r[j].threads[t].job.k)
    decreases j
  {
    hide Inv, Init, Next, Abs, Lookup;
    assert Next(r[j - 1], r[j - 1 + 1]);
    RunInv(r, j - 1);
    if j == i + 1 {
      FirstStep(r[i], r[j], t);
      m := j;
    } else {
      BusyStep(r[j - 1], r[j], t);
      if x == Lookup(Abs(r[j]), r[j].threads[t].job.k) {
        m := j;
      } else {
        m := ObservedThen(r, i, j - 1, t, x);
      }
    }
  }

  lemma {:induction false} ReplyHappens(s: State, s': State, t: Tid)
    requires Inv(s) && Next(s, s') && t in s.threads && t in s'.threads && s'.threads[t].job == s.threads[t].job
      && !s.threads[t].job.NoJob?
    requires s'.threads[t].pc != s.threads[t].pc
    ensures s'.threads[t].pc == Return(Inserted(true)) && s.threads[t].job.Insert? ==>
              InsertEffect(s, s', t, s'.threads[t].job.k, s.threads[t].job.v)
    ensures s'.threads[t].pc.CasUnlink? ==> RemoveEffect(s, s', t, s'.threads[t].job.k, s'.threads[t].pc.value)
    ensures s'.threads[t].pc.Return? && s'.threads[t].pc.reply.Removed? && s'.threads[t].pc.reply.value.Some? ==>
              s.threads[t].pc.CasUnlink? && s.threads[t].pc.value == s'.threads[t].pc.reply.value.value
  {
    hide SystemOK, Rely, Contents, Local, Inv, Accounts, WatchNodes, WatchKey, Moved;
    var i, o :| StepOf(s, s', i, o);
    assert i == t;
    OnlyLinks(s.heap, s.threads[t], o);
    StepFacts(s, s', i, o);
    hide StepOf;
  }

  lemma {:induction false} FindInsert(r: seq<State>, i: nat, j: nat, t: Tid) returns (m: nat)
    requires IsRun(r) && CallOf(r, i, j, t) && r[j].threads[t].pc == Return(Inserted(true))
      && r[j].threads[t].job.Insert?
    ensures i < m < j && InsertEffect(r[m], r[m + 1], t, r[j].threads[t].job.k, r[j].threads[t].job.v)
    decreases j
  {
    hide Inv, Init, Next, InsertEffect, RemoveEffect;
    assert Next(r[j - 1], r[j - 1 + 1]);
    RunInv(r, j - 1);
    if j == i + 1 {
      FirstStep(r[i], r[j], t);
    }
    BusyStep(r[j - 1], r[j], t);
    if r[j - 1].threads[t].pc == Return(Inserted(true)) {
      m := FindInsert(r, i, j - 1, t);
    } else {
      ReplyHappens(r[j - 1], r[j], t);
      m := j - 1;
    }
  }

  /** The thread has removed `(k, v)` and is about to say so. */
  ghost predicate HasRemoved(th: Thread, v: V) {
    th.job.Remove? && ((th.pc.CasUnlink? && th.pc.value == v) || th.pc == Return(Removed(Some(v))))
  }

  lemma {:induction false} FindRemove(r: seq<State>, i: nat, j: nat, t: Tid, v: V) returns (m: nat)
    requires IsRun(r) && CallOf(r, i, j, t) && HasRemoved(r[j].threads[t], v)
    ensures i < m < j && RemoveEffect(r[m], r[m + 1], t, r[j].threads[t].job.k, v)
    decreases j
  {
    hide Inv, Init, Next, InsertEffect, RemoveEffect;
    assert Next(r[j - 1], r[j - 1 + 1]);
    RunInv(r, j - 1);
    if j == i + 1 {
      FirstStep(r[i], r[j], t);
    }
    BusyStep(r[j - 1], r[j], t);
    if HasRemoved(r[j - 1].threads[t], v) {
      m := FindRemove(r, i, j - 1, t, v);
    } else {
      ReplyHappens(r[j - 1], r[j], t);
      m := j - 1;
    }
  }

  lemma {:induction false} RepliesOK(s: State, t: Tid)
    requires Inv(s) && t in s.threads && s.threads[t].pc.Return?
    ensures t in s.obs && ReplyOK(s.obs[t], s.threads[t].job, s.threads[t].pc.reply)
  {
    hide SeenOK, PrivateOK, PendingOK, SpentOK, RetiredOK, PlacesOwned, HeapOK;
    ChainOf(s);
    assert ThreadOK(s.heap, Live(s), s.place, t, s.threads[t], s.seen[t], s.obs[t]);
  }

  /**
    Linearizability: in every interleaving of any number of threads mixing the three traversals, the reply
    of every call is accounted for by a moment of that call.
   */
  lemma {:induction false} Linearizable(r: seq<State>, i: nat, j: nat, t: Tid) returns (m: nat)
    requires IsRun(r) && CallOf(r, i, j, t) && r[j].threads[t].pc.Return?
    ensures i < m <= j && Explains(r, m, j, t)
  {
    hide Inv, Init, Next, RemoveEffect, InsertEffect, Abs;
    RunInv(r, j);
    RepliesOK(r[j], t);
    match r[j].threads[t].pc.reply
    case Got(res) =>
      m := ObservedThen(r, i, j, t, res);
    case Inserted(ok) =>
      if ok {
        m := FindInsert(r, i, j, t);
      } else {
        var v :| Some(v) in r[j].obs[t];
        m := ObservedThen(r, i, j, t, Some(v));
      }
    case Removed(None) =>
      m := ObservedThen(r, i, j, t, None);
    case Removed(Some(v)) =>
      m := FindRemove(r, i, j, t, v);
  }
}
