/**
  Every step of every thread keeps the list's invariant.
 */
module ListPreservation {
  import opened ListModel
  import opened ListInvariant
  import opened ListActions
  import opened ListSteps

  ghost predicate Links(th: Thread, o: Out) {
    th.pc.CasInsert? && o.th.pc.Return?
  }

  ghost predicate Marks(th: Thread, o: Out) {
    th.pc.FetchOr? && o.th.pc.CasUnlink?
  }

  /** What a step does to the map. */
  ghost predicate Effect(h: Heap, c: seq<Addr>, th: Thread, o: Out, c': seq<Addr>) {
    var m, m' := Contents(h, c), Contents(o.heap, c');
    if Links(th, o) then th.job.Insert? && th.job.k !in m && m' == m[th.job.k := th.job.v]
    else if Marks(th, o) then th.job.Remove? && th.job.k in m && m[th.job.k] == o.th.pc.value && m' == m - {th.job.k}
    else m' == m
  }

  /** Only nodes of the list or nodes the thread has just unlinked are retired. */
  ghost predicate RetireEffect(i: Tid, pl: map<Addr, Place>, o: Out, pl': map<Addr, Place>) {
    forall a :: a in o.retired ==> a in pl && (pl[a].InList? || pl[a] == Pending(i)) && a in pl' && pl'[a].Retired?
  }

  ghost predicate Disposed(h: Heap, pl: map<Addr, Place>, a: Addr) {
    a in h && a in pl && (h[a].next.mark || pl[a].Freed?)
  }

  /** The values disposed of are those of the nodes that this step marks or frees. */
  ghost predicate SpentEffect(h: Heap, pl: map<Addr, Place>, o: Out, pl': map<Addr, Place>) {
    forall a :: Disposed(o.heap, pl', a) <==>
      (Disposed(h, pl, a) || a in o.spent) && !(Disposed(h, pl, a) && a in o.spent)
  }

  ghost predicate Accounts(i: Tid, h: Heap, pl: map<Addr, Place>, o: Out, pl': map<Addr, Place>) {
    RetireEffect(i, pl, o, pl') && SpentEffect(h, pl, o, pl') && forall a :: a in o.spent ==> !Disposed(h, pl, a)
  }

  /** The acting thread's step, seen from the heap and from the thread itself. */
  ghost predicate Advanced(i: Tid, h: Heap, pl: map<Addr, Place>, seen: set<Addr>, obs: set<Option<V>>, o: Out,
                           c': seq<Addr>, pl': map<Addr, Place>) {
    && HeapOK(o.heap, c', pl') && Rely(i, h, pl, o.heap, pl')
    && pl' == Moved(i, h, pl, o)
    && Accounts(i, h, pl, o, pl')
    && ThreadOK(o.heap, c', pl', i, o.th, WatchNodes(seen, o.th, o.th.pc.LoadHead?, o.heap),
      WatchKey(obs, o.th, o.th.pc.LoadHead?, o.heap))
  }

  lemma {:induction false} RelyRefl(i: Tid, h: Heap, c: seq<Addr>, pl: map<Addr, Place>)
    requires HeapOK(h, c, pl)
    ensures Rely(i, h, pl, h, pl)
  {
  }

  /** A traversal that starts now has seen the present chain. */
  lemma {:induction false} SeenStarts(h: Heap, c: seq<Addr>, pl: map<Addr, Place>, k: int)
    requires HeapOK(h, c, pl)
    ensures SeenOK(h, c, pl, k, {} + Elems(c), {} + {Lookup(Contents(h, c), k)})
  {
    forall a | a in Elems(c)
      ensures Gap(h, a, k) ==> Lookup(Contents(h, c), k) == None
      ensures h[a].key == Key(k) && h[a].next.mark ==> Lookup(Contents(h, c), k) == None
    {
      LookupChar(h, c, pl, k, a);
    }
  }

  /** Puts together what a step does to the heap and to the program counter. */
  lemma {:induction false} Assemble(i: Tid, h: Heap, c: seq<Addr>, pl: map<Addr, Place>, th: Thread, seen: set<Addr>,
      obs: set<Option<V>>, o: Out, c': seq<Addr>, pl': map<Addr, Place>)
    requires HeapOK(h, c, pl) && HeapOK(o.heap, c', pl') && Rely(i, h, pl, o.heap, pl')
    requires o.th.job == th.job && !th.job.NoJob? && SeenOK(h, c, pl, th.job.k, seen, obs)
    requires th.job.kind.Shavit? ==> th.job.Get?
    requires PrivateOK(o.heap, pl', i, th.job, o.th.pc) && PendingOK(o.heap, pl', i, o.th.pc)
    requires o.th.pc.LoadHead? ||
      PcOK(o.heap, th.job.k, seen + Elems(c'), obs + {Lookup(Contents(o.heap, c'), th.job.k)}, th.job, o.th.pc)
    ensures ThreadOK(o.heap, c', pl', i, o.th, WatchNodes(seen, o.th, o.th.pc.LoadHead?, o.heap),
      WatchKey(obs, o.th, o.th.pc.LoadHead?, o.heap))
  {
    hide Rely, SeenOK, PrivateOK, PendingOK, Contents, PcOK;
    ChainIs(o.heap, c');
    if o.th.pc.LoadHead? {
      hide HeapOK;
      SeenStarts(o.heap, c', pl', th.job.k);
      LoadHeadOK(o.heap, th.job.k, {} + Elems(c'), {} + {Lookup(Contents(o.heap, c'), th.job.k)}, th.job);
    } else {
      SeenStable(i, h, c, pl, o.heap, c', pl', th.job.k, seen, obs);
    }
  }

  lemma {:induction false} LoadHeadOK(h: Heap, k: int, seen: set<Addr>, obs: set<Option<V>>, job: Job)
    requires !job.NoJob?
    ensures PcOK(h, k, seen, obs, job, LoadHead)
  {
  }

  lemma {:induction false} WatchedSame(h: Heap, c: seq<Addr>, pl: map<Addr, Place>, k: int, seen: set<Addr>,
      obs: set<Option<V>>)
    requires SeenOK(h, c, pl, k, seen, obs)
    ensures seen + Elems(c) == seen && obs + {Lookup(Contents(h, c), k)} == obs
  {
  }

  lemma {:induction false} MovedSame(i: Tid, h: Heap, c: seq<Addr>, pl: map<Addr, Place>, o: Out)
    requires HeapOK(h, c, pl) && HeapOK(o.heap, c, pl) && o.retired == {} && o.freed == {}
    ensures Moved(i, h, pl, o) == pl
  {
    ChainIs(h, c);
    ChainIs(o.heap, c);
  }

  // ---------------------------------------------------------------- steps that do not change the heap

  lemma {:induction false} Quiet(i: Tid, h: Heap, c: seq<Addr>, pl: map<Addr, Place>, th: Thread, seen: set<Addr>,
      obs: set<Option<V>>, pc': Pc)
    requires HeapOK(h, c, pl) && ThreadOK(h, c, pl, i, th, seen, obs) && !th.job.NoJob?
    requires !pc'.HRetire? && (forall a :: a in pl ==> pl[a] != Pending(i))
    requires PrivateOK(h, pl, i, th.job, pc') && (pc'.LoadHead? || PcOK(h, th.job.k, seen, obs, th.job, pc'))
    ensures Advanced(i, h, pl, seen, obs, Goto(h, th, pc'), c, pl)
  {
    hide SeenOK, PcOK, HeapOK, Contents, PrivateOK;
    var o := Goto(h, th, pc');
    RelyRefl(i, h, c, pl);
    MovedSame(i, h, c, pl, o);
    WatchedSame(h, c, pl, th.job.k, seen, obs);
    Assemble(i, h, c, pl, th, seen, obs, o, c, pl);
    hide Rely;
  }

  /** The steps that only read shared memory. */
  ghost predicate Reads(h: Heap, th: Thread) {
    match th.pc
    case HUnlink(prev, prevNext, _, _) => prev in h && h[prev].next != Link(prevNext, false)
    case HRetire(node, _, curr, _) => node == curr
    case MUnlink(prev, curr, _) => prev in h && h[prev].next != Link(curr, false)
    case Found(_, _, _) => !th.job.Insert?
    case CasInsert(prev, curr) => prev in h && h[prev].next != Link(curr, false)
    case FetchOr(_, curr) => curr in h && h[curr].next.mark
    case CasUnlink(prev, curr, _, _) => prev in h && h[prev].next != Link(curr, false)
    case _ => true
  }

  /** A compare-and-set or fetch-or that changes nothing: retry, or in `remove` leave the unlinking to others. */
  lemma {:induction false} FailStep(h: Heap, k: int, seen: set<Addr>, obs: set<Option<V>>, th: Thread)
    requires Running(th) && Matches(th) && Reads(h, th) && PcOK(h, k, seen, obs, th.job, th.pc)
    requires th.pc.HUnlink? || th.pc.MUnlink? || th.pc.CasInsert? || th.pc.FetchOr? || th.pc.CasUnlink?
    ensures var o := Exec(h, th);
            o == Goto(h, th, o.th.pc) && (o.th.pc.LoadHead? || PcOK(h, k, seen, obs, th.job, o.th.pc))
    ensures !Exec(h, th).th.pc.HRetire? && (th.job.Insert? ==> !Exec(h, th).th.pc.Return?)
  {
  }

  /** The walk over the unlinked run ends exactly at `curr`, with nothing left to retire. */
  lemma {:induction false} RetireEnds(h: Heap, pl: map<Addr, Place>, i: Tid, pc: Pc)
    requires pc.HRetire? && pc.node == pc.curr && PendingOK(h, pl, i, pc)
    ensures forall a :: a in pl ==> pl[a] != Pending(i)
  {
    var w :| Awaiting(h, pl, i, pc.node, pc.curr, w);
    assert |w| == 1;
    assert w[..0] == [];
  }

  lemma {:induction false} NotPending(h: Heap, pl: map<Addr, Place>, i: Tid, th: Thread)
    requires PendingOK(h, pl, i, th.pc) && Reads(h, th)
    ensures forall a :: a in pl ==> pl[a] != Pending(i)
  {
    if th.pc.HRetire? {
      RetireEnds(h, pl, i, th.pc);
    }
  }

  lemma {:induction false} QuietStep(i: Tid, h: Heap, c: seq<Addr>, pl: map<Addr, Place>, th: Thread, seen: set<Addr>,
      obs: set<Option<V>>)
    requires HeapOK(h, c, pl) && ThreadOK(h, c, pl, i, th, seen, obs) && Running(th) && Matches(th) && Reads(h, th)
    ensures Advanced(i, h, pl, seen, obs, Exec(h, th), c, pl) && Exec(h, th) == Goto(h, th, Exec(h, th).th.pc)
  {
    hide HeapOK, SeenOK, PcOK, PendingOK, Contents, Advanced;
    NotPending(h, pl, i, th);
    var o := Exec(h, th);
    match th.pc {
      case LoadHead => HeadStep(h, c, pl, seen, obs, th, o);
      case HLoop(_, _, _) => HarrisStep(h, c, pl, seen, obs, th, o);
      case HRetire(_, _, _, _) => RetiredAll(h, th, seen, obs);
      case MLoop(_, _) => MichaelStep(h, c, pl, seen, obs, th, o);
      case SLoop(_, _) => KindOK(h, seen, obs, th); ShavitStep(h, c, pl, seen, obs, th, o);
      case Found(_, _, _) => FoundStep(h, c, pl, seen, obs, th, o);
      case HUnlink(_, _, _, _) => FailStep(h, th.job.k, seen, obs, th);
      case MUnlink(_, _, _) => FailStep(h, th.job.k, seen, obs, th);
      case CasInsert(_, _) => FailStep(h, th.job.k, seen, obs, th);
      case FetchOr(_, _) => FailStep(h, th.job.k, seen, obs, th);
      case CasUnlink(_, _, _, _) => FailStep(h, th.job.k, seen, obs, th);
    }
    hide Exec;
    Quiet(i, h, c, pl, th, seen, obs, o.th.pc);
  }

  lemma {:induction false} RetiredAll(h: Heap, th: Thread, seen: set<Addr>, obs: set<Option<V>>)
    requires th.pc.HRetire? && !th.job.NoJob? && th.pc.node == th.pc.curr && PcOK(h, th.job.k, seen, obs, th.job, th.pc)
    ensures var o := ExecHarris(h, th);
            o == Goto(h, th, o.th.pc) && PcOK(h, th.job.k, seen, obs, th.job, o.th.pc) && o.th.pc.Found?
  {
  }

  lemma {:induction false} KindOK(h: Heap, seen: set<Addr>, obs: set<Option<V>>, th: Thread)
    requires th.pc.SLoop? && !th.job.NoJob? && PcOK(h, th.job.k, seen, obs, th.job, th.pc)
    ensures th.job.kind.Shavit?
  {
  }

  // ---------------------------------------------------------------- retiring and freeing

  /** One turn of the retire loop hands over the node at the front of the unlinked run. */
  lemma {:induction false} RetirePlaces(i: Tid, h: Heap, c: seq<Addr>, pl: map<Addr, Place>, pc: Pc,
      pl': map<Addr, Place>)
    requires HeapOK(h, c, pl) && pc.HRetire? && pc.node != pc.curr && PendingOK(h, pl, i, pc)
    requires pc.node in pl ==> pl' == pl[pc.node := Retired]
    ensures pc.node in h && pc.node in pl && pl[pc.node] == Pending(i)
    ensures PendingOK(h, pl', i, pc.(node := h[pc.node].next.ptr))
  {
    hide NodeOK, NextOK, IsChain;
    var w :| Awaiting(h, pl, i, pc.node, pc.curr, w);
    var v := w[1..];
    assert |w| > 1;
    assert w[0] in h && h[w[0]].next.mark && h[w[0]].next.ptr == w[0 + 1];
    assert pc.node in w[..|w| - 1] by {
      assert w[..|w| - 1][0] == pc.node;
    }
    assert IsMarkedRun(h, v) by {
      forall j | 0 <= j < |v| - 1 ensures v[j] in h && h[v[j]].next.mark && h[v[j]].next.ptr == v[j + 1] {
        assert w[j + 1] in h && h[w[j + 1]].next.ptr == w[j + 1 + 1];
      }
    }
    assert w[..|w| - 1] == [w[0]] + v[..|v| - 1];
    assert w[0] !in v[..|v| - 1];
    assert Awaiting(h, pl', i, h[pc.node].next.ptr, pc.curr, v);
  }

  lemma {:induction false} RetireHeap(i: Tid, h: Heap, c: seq<Addr>, pl: map<Addr, Place>, n: Addr,
      pl': map<Addr, Place>)
    requires HeapOK(h, c, pl) && n in h && pl[n] == Pending(i) && pl' == pl[n := Retired]
    ensures HeapOK(h, c, pl') && Rely(i, h, pl, h, pl')
  {
    forall x | x in h && Public(pl'[x]) ensures NextOK(h, pl', x) {
      assert NextOK(h, pl, x);
    }
  }

  lemma {:induction false} RetireStep(i: Tid, h: Heap, c: seq<Addr>, pl: map<Addr, Place>, th: Thread, seen: set<Addr>,
      obs: set<Option<V>>)
      returns (pl': map<Addr, Place>)
    requires HeapOK(h, c, pl) && ThreadOK(h, c, pl, i, th, seen, obs) && th.pc.HRetire? && th.pc.node != th.pc.curr
    ensures !th.job.NoJob? && Advanced(i, h, pl, seen, obs, Exec(h, th), c, pl') && Exec(h, th).heap == h
  {
    hide HeapOK, SeenOK, PendingOK, Contents, Rely, PcOK, PrivateOK;
    var n := th.pc.node;
    pl' := pl[n := Retired];
    RetirePlaces(i, h, c, pl, th.pc, pl');
    RetireHeap(i, h, c, pl, n, pl');
    RetirePc(h, pl, i, th, seen, obs, pl');
    var o := Exec(h, th);
    RetireMoved(i, h, c, pl, n, o, pl');
    WatchedSame(h, c, pl, th.job.k, seen, obs);
    hide Exec, Accounts;
    Assemble(i, h, c, pl, th, seen, obs, o, c, pl');
  }

  lemma {:induction false} RetirePc(h: Heap, pl: map<Addr, Place>, i: Tid, th: Thread, seen: set<Addr>,
      obs: set<Option<V>>, pl': map<Addr, Place>)
    requires !th.job.NoJob? && th.pc.HRetire? && th.pc.node != th.pc.curr && PcOK(h, th.job.k, seen, obs, th.job, th.pc)
    requires th.pc.node in h && PrivateOK(h, pl, i, th.job, th.pc)
    requires th.pc.node in pl && pl[th.pc.node] == Pending(i) && pl' == pl[th.pc.node := Retired]
    ensures var o := Exec(h, th);
            && o == Out(h, th.(pc := th.pc.(node := h[th.pc.node].next.ptr)), {th.pc.node}, {}, {})
            && PcOK(h, th.job.k, seen, obs, th.job, o.th.pc) && PrivateOK(h, pl', i, th.job, o.th.pc)
  {
    hide FoundOK;
  }

  lemma {:induction false} RetireMoved(i: Tid, h: Heap, c: seq<Addr>, pl: map<Addr, Place>, n: Addr, o: Out,
      pl': map<Addr, Place>)
    requires HeapOK(h, c, pl) && n in h && pl[n] == Pending(i) && pl' == pl[n := Retired]
    requires o.heap == h && o.retired == {n} && o.freed == {} && o.spent == {}
    ensures pl' == Moved(i, h, pl, o) && Accounts(i, h, pl, o, pl')
  {
    ChainIs(h, c);
  }

  /** A refused insert frees its node and drops its value. */
  lemma {:induction false} RefuseHeap(i: Tid, h: Heap, c: seq<Addr>, pl: map<Addr, Place>, n: Addr, o: Out,
      pl': map<Addr, Place>)
    requires HeapOK(h, c, pl) && n in h && pl[n] == Private(i) && pl' == pl[n := Freed]
    requires o.heap == h && o.retired == {} && o.freed == {n} && o.spent == {n}
    ensures HeapOK(h, c, pl') && Rely(i, h, pl, h, pl')
    ensures pl' == Moved(i, h, pl, o) && Accounts(i, h, pl, o, pl')
  {
    hide IsChain, NodeOK, Rely, Accounts;
    RefuseMoved(i, h, c, pl, n, o, pl');
    HeapKeys(h, c, pl);
    RefuseRely(i, h, pl, n, pl');
    forall x | x in h && Public(pl'[x]) ensures NextOK(h, pl', x) {
      assert NextOK(h, pl, x);
    }
  }

  lemma {:induction false} RefuseRely(i: Tid, h: Heap, pl: map<Addr, Place>, n: Addr, pl': map<Addr, Place>)
    requires pl.Keys == h.Keys && n in h && pl[n] == Private(i) && pl' == pl[n := Freed]
    ensures Rely(i, h, pl, h, pl')
  {
  }

  lemma {:induction false} RefuseMoved(i: Tid, h: Heap, c: seq<Addr>, pl: map<Addr, Place>, n: Addr, o: Out,
      pl': map<Addr, Place>)
    requires HeapOK(h, c, pl) && n in h && pl[n] == Private(i) && pl' == pl[n := Freed]
    requires o.heap == h && o.retired == {} && o.freed == {n} && o.spent == {n}
    ensures pl' == Moved(i, h, pl, o) && Accounts(i, h, pl, o, pl')
  {
    hide NodeOK, NextOK;
    ChainIs(h, c);
  }

  lemma {:induction false} RefuseStep(i: Tid, h: Heap, c: seq<Addr>, pl: map<Addr, Place>, th: Thread, seen: set<Addr>,
      obs: set<Option<V>>)
      returns (pl': map<Addr, Place>)
    requires HeapOK(h, c, pl) && ThreadOK(h, c, pl, i, th, seen, obs) && th.job.Insert? && th.pc.Found? && th.pc.found
    ensures Advanced(i, h, pl, seen, obs, Exec(h, th), c, pl') && Exec(h, th).heap == h
  {
    hide HeapOK, SeenOK, PendingOK, Contents, Rely, PcOK, PrivateOK;
    var n := th.job.node;
    pl' := pl[n := Freed];
    RefusePc(h, pl, i, th, seen, obs, pl');
    var o := Exec(h, th);
    RefuseHeap(i, h, c, pl, n, o, pl');
    WatchedSame(h, c, pl, th.job.k, seen, obs);
    hide Exec, Accounts;
    Assemble(i, h, c, pl, th, seen, obs, o, c, pl');
  }

  lemma {:induction false} RefusePc(h: Heap, pl: map<Addr, Place>, i: Tid, th: Thread, seen: set<Addr>,
      obs: set<Option<V>>, pl': map<Addr, Place>)
    requires th.job.Insert? && th.pc.Found? && th.pc.found && PcOK(h, th.job.k, seen, obs, th.job, th.pc)
    requires PrivateOK(h, pl, i, th.job, th.pc) && PendingOK(h, pl, i, th.pc) && pl' == pl[th.job.node := Freed]
    ensures th.job.node in h && th.job.node in pl && pl[th.job.node] == Private(i)
    ensures var o := Exec(h, th);
            && o == Out(h, th.(pc := Return(Inserted(false))), {}, {th.job.node}, {th.job.node})
            && PcOK(h, th.job.k, seen, obs, th.job, o.th.pc) && PrivateOK(h, pl', i, th.job, o.th.pc)
              && PendingOK(h, pl', i, o.th.pc)
  {
    assert h[th.pc.curr].value in obs && Some(h[th.pc.curr].value.value) == h[th.pc.curr].value;
  }

  lemma {:induction false} HeapKeys(h: Heap, c: seq<Addr>, pl: map<Addr, Place>)
    requires HeapOK(h, c, pl)
    ensures h.Keys == pl.Keys
  {
  }

  // ---------------------------------------------------------------- insert

  lemma {:induction false} PreparePc(h: Heap, pl: map<Addr, Place>, i: Tid, th: Thread, seen: set<Addr>,
      obs: set<Option<V>>)
    requires th.job.Insert? && th.pc.Found? && !th.pc.found && PcOK(h, th.job.k, seen, obs, th.job, th.pc)
    requires PrivateOK(h, pl, i, th.job, th.pc) && PendingOK(h, pl, i, th.pc) && !th.job.kind.Shavit?
    requires forall a :: a in seen ==> a in h && a in pl && Public(pl[a])
    ensures th.job.node in h && th.job.node in pl && pl[th.job.node] == Private(i)
    ensures var o := Exec(h, th); var n := th.job.node;
            && o == Goto(SetNext(h, n, Link(th.pc.curr, false)), th, CasInsert(th.pc.prev, th.pc.curr))
            && PrivateOK(o.heap, pl, i, th.job, o.th.pc) && PendingOK(o.heap, pl, i, o.th.pc)
            && (Rely(i, h, pl, o.heap, pl) ==> PcOK(o.heap, th.job.k, seen, obs, th.job, o.th.pc))
  {
    hide Rely;
    var o := Exec(h, th);
    if Rely(i, h, pl, o.heap, pl) {
      CursorStable(i, h, pl, o.heap, pl, th.job.k, seen, obs, seen, obs, th.pc.prev, th.pc.curr);
    }
  }

  lemma {:induction false} SeenPublic(h: Heap, c: seq<Addr>, pl: map<Addr, Place>, k: int, seen: set<Addr>,
      obs: set<Option<V>>)
    requires SeenOK(h, c, pl, k, seen, obs)
    ensures forall a :: a in seen ==> a in h && a in pl && Public(pl[a])
  {
  }

  lemma {:induction false} PrepareStep(i: Tid, h: Heap, c: seq<Addr>, pl: map<Addr, Place>, th: Thread, seen: set<Addr>,
      obs: set<Option<V>>)
    requires HeapOK(h, c, pl) && ThreadOK(h, c, pl, i, th, seen, obs) && th.job.Insert? && th.pc.Found? && !th.pc.found
    ensures Advanced(i, h, pl, seen, obs, Exec(h, th), c, pl) && Contents(Exec(h, th).heap, c) == Contents(h, c)
    ensures Exec(h, th).th.pc.CasInsert?
  {
    hide HeapOK, SeenOK, PendingOK, Contents, Rely, PcOK, PrivateOK;
    SeenPublic(h, c, pl, th.job.k, seen, obs);
    PreparePc(h, pl, i, th, seen, obs);
    var o := Exec(h, th);
    PrivateWrite(i, h, c, pl, th.job.node, Link(th.pc.curr, false), o.heap);
    MovedSame(i, h, c, pl, o);
    WatchedSame(h, c, pl, th.job.k, seen, obs);
    PlainAccounts(i, h, c, pl, th.job.node, Link(th.pc.curr, false), o);
    hide Exec, Accounts;
    Assemble(i, h, c, pl, th, seen, obs, o, c, pl);
  }

  lemma {:induction false} PlainAccounts(i: Tid, h: Heap, c: seq<Addr>, pl: map<Addr, Place>, n: Addr, l: Link, o: Out)
    requires HeapOK(h, c, pl) && n in h && pl[n] == Private(i) && !l.mark
    requires o.heap == SetNext(h, n, l) && o.retired == {} && o.freed == {} && o.spent == {}
    ensures Accounts(i, h, pl, o, pl)
  {
  }

  lemma {:induction false} UnmarkedIn(h: Heap, c: seq<Addr>, pl: map<Addr, Place>, k: int, seen: set<Addr>,
      obs: set<Option<V>>, a: Addr)
    requires HeapOK(h, c, pl) && SeenOK(h, c, pl, k, seen, obs) && a in seen && !h[a].next.mark
    ensures a in c && a in h
  {
  }

  /** The places after a step, when the new places are known from the new chain. */
  lemma {:induction false} MovedIs(i: Tid, h: Heap, c: seq<Addr>, pl: map<Addr, Place>, o: Out, c': seq<Addr>,
      pl': map<Addr, Place>)
    requires HeapOK(h, c, pl) && HeapOK(o.heap, c', pl')
    requires forall a :: a in pl' && !pl'[a].InList? ==>
      pl'[a] == if a in o.retired then Retired else if a in pl && pl[a].InList? then Pending(i)
                else if a in o.freed then Freed else if a in pl then pl[a] else Private(i)
    ensures pl' == Moved(i, h, pl, o)
  {
    hide NodeOK, NextOK;
    ChainIs(h, c);
    ChainIs(o.heap, c');
    forall a | a in o.heap ensures pl'[a] == Moved(i, h, pl, o)[a] {
      assert a in c ==> a in h;
    }
  }

  lemma {:induction false} LinkPc(h: Heap, c: seq<Addr>, pl: map<Addr, Place>, i: Tid, th: Thread, seen: set<Addr>,
      obs: set<Option<V>>, pl': map<Addr, Place>)
    requires HeapOK(h, c, pl) && ThreadOK(h, c, pl, i, th, seen, obs) && th.job.Insert? && th.pc.CasInsert?
    requires th.pc.prev in h && h[th.pc.prev].next == Link(th.pc.curr, false) && pl' == pl[th.job.node := InList]
    ensures var n, k := th.job.node, th.job.k;
            && th.pc.prev in c && n in h && n in pl && pl[n] == Private(i) && h[n].key == Key(k)
              && h[n].value == Some(th.job.v)
            && h[n].next == Link(th.pc.curr, false) && Less(h[th.pc.prev].key, h[n].key) && Past(h, th.pc.curr, k)
    ensures var o := Exec(h, th);
            && o == Goto(SetNext(h, th.pc.prev, Link(th.job.node, false)), th, Return(Inserted(true)))
            && PrivateOK(o.heap, pl', i, th.job, o.th.pc) && PendingOK(o.heap, pl', i, o.th.pc)
    ensures forall s, m :: PcOK(Exec(h, th).heap, th.job.k, s, m, th.job, Exec(h, th).th.pc)
  {
    UnmarkedIn(h, c, pl, th.job.k, seen, obs, th.pc.prev);
  }

  lemma {:induction false} LinkCase(i: Tid, h: Heap, c: seq<Addr>, pl: map<Addr, Place>, th: Thread, seen: set<Addr>,
      obs: set<Option<V>>)
      returns (c': seq<Addr>, pl': map<Addr, Place>)
    requires HeapOK(h, c, pl) && ThreadOK(h, c, pl, i, th, seen, obs) && th.job.Insert? && th.pc.CasInsert?
    requires th.pc.prev in h && h[th.pc.prev].next == Link(th.pc.curr, false)
    ensures Advanced(i, h, pl, seen, obs, Exec(h, th), c', pl') && Links(th, Exec(h, th))
      && Effect(h, c, th, Exec(h, th), c')
  {
    hide HeapOK, SeenOK, PendingOK, Contents, Rely, PcOK, PrivateOK, Past;
    var n := th.job.node;
    pl' := pl[n := InList];
    LinkPc(h, c, pl, i, th, seen, obs, pl');
    var o := Exec(h, th);
    c' := LinkStep(i, h, c, pl, th.pc.prev, n, o.heap, pl');
    LinkMoved(i, h, c, pl, th.pc.prev, n, o, c', pl');
    hide Exec, Accounts;
    Assemble(i, h, c, pl, th, seen, obs, o, c', pl');
  }

  lemma {:induction false} LinkMoved(i: Tid, h: Heap, c: seq<Addr>, pl: map<Addr, Place>, prev: Addr, n: Addr, o: Out,
      c': seq<Addr>, pl': map<Addr, Place>)
    requires HeapOK(h, c, pl) && HeapOK(o.heap, c', pl') && n in h && pl[n] == Private(i) && pl' == pl[n := InList]
    requires prev in h && !h[prev].next.mark && o.heap == SetNext(h, prev, Link(n, false)) && o.retired == {}
      && o.freed == {} && o.spent == {}
    ensures pl' == Moved(i, h, pl, o) && Accounts(i, h, pl, o, pl')
  {
    hide NodeOK, NextOK, IsChain, Disposed;
    LinkDisposed(h, pl, prev, n, o.heap, pl');
    MovedIs(i, h, c, pl, o, c', pl');
  }

  lemma {:induction false} LinkDisposed(h: Heap, pl: map<Addr, Place>, prev: Addr, n: Addr, h': Heap,
      pl': map<Addr, Place>)
    requires prev in h && !h[prev].next.mark && h' == SetNext(h, prev, Link(n, false)) && pl.Keys == h.Keys
    requires n in pl && !pl[n].Freed? && pl' == pl[n := InList]
    ensures forall a :: Disposed(h', pl', a) <==> Disposed(h, pl, a)
  {
  }

  // ---------------------------------------------------------------- remove

  lemma {:induction false} MarkPc(i: Tid, h: Heap, c: seq<Addr>, pl: map<Addr, Place>, th: Thread, seen: set<Addr>,
      obs: set<Option<V>>)
    requires HeapOK(h, c, pl) && ThreadOK(h, c, pl, i, th, seen, obs) && th.job.Remove? && th.pc.FetchOr?
    requires th.pc.curr in h && !h[th.pc.curr].next.mark
    ensures var a := th.pc.curr; a in pl && Public(pl[a]) && a != HEAD && h[a].key == Key(th.job.k) && h[a].value.Some?
    ensures var o := Exec(h, th); var a := th.pc.curr;
            && o == Out(SetNext(h, a, h[a].next.(mark := true)),
              th.(pc := CasUnlink(th.pc.prev, a, h[a].next.ptr, h[a].value.value)), {}, {}, {a})
            && PrivateOK(o.heap, pl, i, th.job, o.th.pc) && PendingOK(o.heap, pl, i, o.th.pc)
            && (Rely(i, h, pl, o.heap, pl) ==> PcOK(o.heap, th.job.k, seen, obs, th.job, o.th.pc))
  {
    hide Rely;
    var o := Exec(h, th);
    if Rely(i, h, pl, o.heap, pl) {
      CursorStable(i, h, pl, o.heap, pl, th.job.k, seen, obs, seen, obs, th.pc.prev, th.pc.curr);
    }
  }

  lemma {:induction false} PcGrows(h: Heap, k: int, seen: set<Addr>, obs: set<Option<V>>, seen': set<Addr>,
      obs': set<Option<V>>, job: Job, pc: Pc)
    requires !job.NoJob? && PcOK(h, k, seen, obs, job, pc) && seen <= seen' && obs <= obs'
    ensures PcOK(h, k, seen', obs', job, pc)
  {
    hide MarkedRun;
  }

  lemma {:induction false} MarkCase(i: Tid, h: Heap, c: seq<Addr>, pl: map<Addr, Place>, th: Thread, seen: set<Addr>,
      obs: set<Option<V>>)
    requires HeapOK(h, c, pl) && ThreadOK(h, c, pl, i, th, seen, obs) && th.job.Remove? && th.pc.FetchOr?
    requires th.pc.curr in h && !h[th.pc.curr].next.mark
    ensures Advanced(i, h, pl, seen, obs, Exec(h, th), c, pl) && Marks(th, Exec(h, th))
      && Effect(h, c, th, Exec(h, th), c)
  {
    MarkPc(i, h, c, pl, th, seen, obs);
    hide HeapOK, SeenOK, PendingOK, Contents, Rely, PcOK, PrivateOK, CursorOK;
    var o := Exec(h, th);
    MarkStep(i, h, c, pl, th.pc.curr, o.heap);
    MovedSame(i, h, c, pl, o);
    MarkAccounts(i, h, c, pl, th.pc.curr, o);
    hide Exec, Accounts;
    PcGrows(o.heap, th.job.k, seen, obs, seen + Elems(c), obs + {Lookup(Contents(o.heap, c), th.job.k)}, th.job,
      o.th.pc);
    Assemble(i, h, c, pl, th, seen, obs, o, c, pl);
  }

  lemma {:induction false} MarkAccounts(i: Tid, h: Heap, c: seq<Addr>, pl: map<Addr, Place>, a: Addr, o: Out)
    requires HeapOK(h, c, pl) && a in h && !h[a].next.mark && Public(pl[a])
    requires o.heap == SetNext(h, a, h[a].next.(mark := true)) && o.retired == {} && o.spent == {a}
    ensures Accounts(i, h, pl, o, pl)
  {
  }

  // ---------------------------------------------------------------- unlinking

  lemma {:induction false} UnlinkPlaces(i: Tid, h: Heap, c: seq<Addr>, pl: map<Addr, Place>, prev: Addr, w: seq<Addr>,
      g: Place, o: Out)
      returns (c': seq<Addr>, pl': map<Addr, Place>)
    requires HeapOK(h, c, pl) && prev in c && prev in h && |w| > 1 && IsMarkedRun(h, w)
    requires h[prev].next == Link(w[0], false) && o.heap == SetNext(h, prev, Link(w[|w| - 1], false))
    requires if g == Retired then |w| == 2 && o.retired == {w[0]} else g == Pending(i) && o.retired == {}
    requires o.freed == {} && o.spent == {}
    ensures HeapOK(o.heap, c', pl') && Rely(i, h, pl, o.heap, pl') && pl' == Moved(i, h, pl, o)
      && Accounts(i, h, pl, o, pl')
    ensures Contents(o.heap, c') == Contents(h, c) && pl' == Left(pl, w[..|w| - 1], g) && prev in c'
    ensures forall x :: x in w[..|w| - 1] ==> x in c && x != prev && x !in c'
    ensures forall j, l :: 0 <= j < l < |w| - 1 ==> w[j] != w[l]
  {
    hide HeapOK, Rely, Contents, IsMarkedRun;
    c' := UnlinkStep(i, h, c, pl, prev, w, o.heap, g);
    pl' := Left(pl, w[..|w| - 1], g);
    assert g == Retired ==> w[..|w| - 1] == [w[0]];
    UnlinkMoved(i, h, c, pl, w[..|w| - 1], g, o, c', pl');
    UnlinkDisposed(h, c, pl, prev, w[..|w| - 1], Link(w[|w| - 1], false), g, o.heap);
    hide Disposed;
  }

  lemma {:induction false} UnlinkDisposed(h: Heap, c: seq<Addr>, pl: map<Addr, Place>, prev: Addr, out: seq<Addr>,
      l: Link, g: Place, h': Heap)
    requires HeapOK(h, c, pl) && prev in h && !h[prev].next.mark && !l.mark && h' == SetNext(h, prev, l) && Gone(g)
    requires forall x :: x in out ==> x in c
    ensures forall a :: Disposed(h', Left(pl, out, g), a) <==> Disposed(h, pl, a)
  {
    hide NodeOK, NextOK, IsChain;
    forall a ensures Disposed(h', Left(pl, out, g), a) <==> Disposed(h, pl, a) {
      if a in out {
        ChainPlaces(h, c, pl, a);
      }
    }
  }

  lemma {:induction false} UnlinkMoved(i: Tid, h: Heap, c: seq<Addr>, pl: map<Addr, Place>, out: seq<Addr>, g: Place,
      o: Out, c': seq<Addr>, pl': map<Addr, Place>)
    requires HeapOK(h, c, pl) && HeapOK(o.heap, c', pl') && pl' == Left(pl, out, g) && (g == Retired || g == Pending(i))
    requires forall x :: x in out ==> x in c && x !in c'
    requires forall x :: x in o.retired <==> g == Retired && x in out
    requires o.freed == {}
    ensures pl' == Moved(i, h, pl, o) && RetireEffect(i, pl, o, pl')
  {
    hide NodeOK, NextOK, IsChain;
    forall a | a in out ensures a in pl && pl[a].InList? {
      ChainPlaces(h, c, pl, a);
    }
    MovedIs(i, h, c, pl, o, c', pl');
  }

  lemma {:induction false} ChainPlaces(h: Heap, c: seq<Addr>, pl: map<Addr, Place>, a: Addr)
    requires HeapOK(h, c, pl) && a in c
    ensures a in h && a in pl && pl[a].InList?
  {
  }

  lemma {:induction false} FoundStable(i: Tid, h: Heap, pl: map<Addr, Place>, h': Heap, pl': map<Addr, Place>, k: int,
      seen: set<Addr>, obs: set<Option<V>>, seen': set<Addr>, obs': set<Option<V>>, job: Job, found: bool, prev: Addr,
      curr: Addr)
    requires Rely(i, h, pl, h', pl') && seen <= seen' && obs <= obs' && !job.NoJob?
    requires forall a :: a in seen ==> a in h && a in pl && Public(pl[a])
    requires FoundOK(h, k, seen, obs, job, found, prev, curr)
    ensures FoundOK(h', k, seen', obs', job, found, prev, curr)
  {
    hide Rely;
    CursorStable(i, h, pl, h', pl', k, seen, obs, seen', obs', prev, curr);
  }

  lemma {:induction false} RunOf(h: Heap, a: Addr, b: Addr) returns (w: seq<Addr>)
    requires MarkedRun(h, a, b) && a != b
    ensures |w| > 1 && w[0] == a && w[|w| - 1] == b && IsMarkedRun(h, w)
  {
    w :| |w| > 0 && w[0] == a && w[|w| - 1] == b && IsMarkedRun(h, w);
  }

  lemma {:induction false} NextInChain(h: Heap, c: seq<Addr>, a: Addr)
    requires IsChain(h, c) && a in c
    ensures a in h && (h[a].next.ptr == NULL || h[a].next.ptr in c)
  {
    var j := Position(c, a);
    assert j < |c| - 1 ==> h[c[j]].next.ptr == c[j + 1];
  }

  /** The unlinked run awaits retirement. */
  lemma {:induction false} RunAwaits(i: Tid, h: Heap, c: seq<Addr>, pl: map<Addr, Place>, h': Heap, c': seq<Addr>,
      pl': map<Addr, Place>, prev: Addr, w: seq<Addr>)
    requires HeapOK(h, c, pl) && HeapOK(h', c', pl') && Rely(i, h, pl, h', pl') && |w| > 1 && IsMarkedRun(h, w)
    requires pl' == Left(pl, w[..|w| - 1], Pending(i)) && prev in c' && prev in h' && h'[prev].next.ptr == w[|w| - 1]
    requires forall x :: x in w[..|w| - 1] ==> x in c && x !in c'
    requires forall j, l :: 0 <= j < l < |w| - 1 ==> w[j] != w[l]
    requires forall a :: a in pl ==> pl[a] != Pending(i)
    ensures Awaiting(h', pl', i, w[0], w[|w| - 1], w)
  {
    hide NodeOK, NextOK, Rely, IsMarkedRun;
    RunStable(i, h, c, pl, h', pl', w);
    NextInChain(h', c', prev);
    RunIn(h, w);
    forall j, l | 0 <= j < l < |w| ensures w[j] != w[l] {
      assert w[j] in w[..|w| - 1] by {
        assert w[..|w| - 1][j] == w[j];
      }
    }
  }

  lemma {:induction false} HarrisCase(i: Tid, h: Heap, c: seq<Addr>, pl: map<Addr, Place>, th: Thread, seen: set<Addr>,
      obs: set<Option<V>>)
      returns (c': seq<Addr>, pl': map<Addr, Place>)
    requires HeapOK(h, c, pl) && ThreadOK(h, c, pl, i, th, seen, obs) && th.pc.HUnlink? && !th.job.NoJob?
    requires th.pc.prev in h && h[th.pc.prev].next == Link(th.pc.prevNext, false)
    ensures Advanced(i, h, pl, seen, obs, Exec(h, th), c', pl') && Contents(Exec(h, th).heap, c') == Contents(h, c)
  {
    hide HeapOK, SeenOK, Contents, Rely, PrivateOK, FoundOK, Exec, Accounts, MarkedRun, IsMarkedRun, Awaiting;
    var k, prev, curr := th.job.k, th.pc.prev, th.pc.curr;
    var o := HarrisOut(h, th);
    HarrisPrev(h, c, pl, th, seen, obs);
    var w := RunOf(h, th.pc.prevNext, curr);
    c', pl' := UnlinkPlaces(i, h, c, pl, prev, w, Pending(i), o);
    RunAwaits(i, h, c, pl, o.heap, c', pl', prev, w);
    SeenPublic(h, c, pl, k, seen, obs);
    FoundStable(i, h, pl, o.heap, pl', k, seen, obs, seen + Elems(c'), obs + {Lookup(Contents(o.heap, c'), k)}, th.job,
      th.pc.found, prev, curr);
    UnlinkPrivate(i, h, c, pl, prev, Link(curr, false), w[..|w| - 1], Pending(i), th.job, th.pc, o.th.pc);
    Assemble(i, h, c, pl, th, seen, obs, o, c', pl');
  }

  lemma {:induction false} HarrisOut(h: Heap, th: Thread) returns (o: Out)
    requires th.pc.HUnlink? && !th.job.NoJob? && th.pc.prev in h && h[th.pc.prev].next == Link(th.pc.prevNext, false)
    ensures o == Exec(h, th)
    ensures o == Goto(SetNext(h, th.pc.prev, Link(th.pc.curr, false)), th,
      HRetire(th.pc.prevNext, th.pc.prev, th.pc.curr, th.pc.found))
  {
    o := Exec(h, th);
  }

  lemma {:induction false} HarrisPrev(h: Heap, c: seq<Addr>, pl: map<Addr, Place>, th: Thread, seen: set<Addr>,
      obs: set<Option<V>>)
    requires HeapOK(h, c, pl) && th.pc.HUnlink? && !th.job.NoJob? && PcOK(h, th.job.k, seen, obs, th.job, th.pc)
    requires SeenOK(h, c, pl, th.job.k, seen, obs) && th.pc.prev in h && !h[th.pc.prev].next.mark
    ensures th.pc.prev in c
  {
    UnmarkedIn(h, c, pl, th.job.k, seen, obs, th.pc.prev);
  }

  /** Unlinking does not touch the thread's own unpublished node. */
  lemma {:induction false} UnlinkPrivate(i: Tid, h: Heap, c: seq<Addr>, pl: map<Addr, Place>, prev: Addr, l: Link,
      out: seq<Addr>, g: Place, job: Job, pc: Pc, pc': Pc)
    requires HeapOK(h, c, pl) && prev in c && prev in h && PrivateOK(h, pl, i, job, pc) && !pc.Return? && Gone(g)
    requires forall x :: x in out ==> x in c
    requires job.Insert? ==> !pc'.Return?
    ensures PrivateOK(SetNext(h, prev, l), Left(pl, out, g), i, job, pc')
  {
    ChainPlaces(h, c, pl, prev);
    forall a | a in out ensures a in pl && pl[a].InList? {
      ChainPlaces(h, c, pl, a);
    }
    hide HeapOK;
  }

  lemma {:induction false} SingleRun(h: Heap, a: Addr, b: Addr)
    requires a in h && h[a].next == Link(b, true)
    ensures IsMarkedRun(h, [a, b])
  {
  }

  lemma {:induction false} NonePending(h: Heap, pl: map<Addr, Place>, out: seq<Addr>, i: Tid, pc: Pc, h': Heap, pc': Pc)
    requires PendingOK(h, pl, i, pc) && !pc.HRetire? && !pc'.HRetire?
    ensures PendingOK(h', Left(pl, out, Retired), i, pc')
  {
  }

  lemma {:induction false} MichaelFacts(h: Heap, c: seq<Addr>, pl: map<Addr, Place>, th: Thread, seen: set<Addr>,
      obs: set<Option<V>>) returns (o: Out)
    requires HeapOK(h, c, pl) && th.pc.MUnlink? && !th.job.NoJob? && PcOK(h, th.job.k, seen, obs, th.job, th.pc)
    requires SeenOK(h, c, pl, th.job.k, seen, obs) && th.pc.prev in h && h[th.pc.prev].next == Link(th.pc.curr, false)
    ensures o == Exec(h, th) && th.pc.prev in c && th.pc.prev in seen && Less(h[th.pc.prev].key, Key(th.job.k))
    ensures th.pc.curr in h && h[th.pc.curr].next == Link(th.pc.next, true)
    ensures o == Out(SetNext(h, th.pc.prev, Link(th.pc.next, false)), th.(pc := MLoop(th.pc.prev, th.pc.next)),
      {th.pc.curr}, {}, {})
  {
    o := Exec(h, th);
    UnmarkedIn(h, c, pl, th.job.k, seen, obs, th.pc.prev);
  }

  lemma {:induction false} CursorAt(h: Heap, c: seq<Addr>, pl: map<Addr, Place>, k: int, seen: set<Addr>,
      obs: set<Option<V>>, prev: Addr, job: Job)
    requires HeapOK(h, c, pl) && SeenOK(h, c, pl, k, seen, obs) && prev in seen && prev in h
      && Less(h[prev].key, Key(k)) && !job.NoJob?
    ensures PcOK(h, k, seen, obs, job, MLoop(prev, h[prev].next.ptr))
  {
    MoveOn(h, c, pl, k, seen, obs, prev);
  }

  lemma {:induction false} MichaelCase(i: Tid, h: Heap, c: seq<Addr>, pl: map<Addr, Place>, th: Thread, seen: set<Addr>,
      obs: set<Option<V>>)
      returns (c': seq<Addr>, pl': map<Addr, Place>)
    requires HeapOK(h, c, pl) && ThreadOK(h, c, pl, i, th, seen, obs) && th.pc.MUnlink? && !th.job.NoJob?
    requires th.pc.prev in h && h[th.pc.prev].next == Link(th.pc.curr, false)
    ensures Advanced(i, h, pl, seen, obs, Exec(h, th), c', pl') && Contents(Exec(h, th).heap, c') == Contents(h, c)
  {
    hide HeapOK, SeenOK, Contents, Rely, PrivateOK, Exec, Accounts, IsMarkedRun, PcOK, PendingOK;
    var k, prev, curr := th.job.k, th.pc.prev, th.pc.curr;
    var o := MichaelFacts(h, c, pl, th, seen, obs);
    var w := [curr, th.pc.next];
    SingleRun(h, curr, th.pc.next);
    c', pl' := UnlinkPlaces(i, h, c, pl, prev, w, Retired, o);
    SeenStable(i, h, c, pl, o.heap, c', pl', k, seen, obs);
    CursorAt(o.heap, c', pl', k, seen + Elems(c'), obs + {Lookup(Contents(o.heap, c'), k)}, prev, th.job);
    UnlinkPrivate(i, h, c, pl, prev, Link(th.pc.next, false), w[..|w| - 1], Retired, th.job, th.pc, o.th.pc);
    NonePending(h, pl, w[..|w| - 1], i, th.pc, o.heap, o.th.pc);
    Assemble(i, h, c, pl, th, seen, obs, o, c', pl');
  }

  lemma {:induction false} DropFacts(h: Heap, c: seq<Addr>, pl: map<Addr, Place>, th: Thread, seen: set<Addr>,
      obs: set<Option<V>>) returns (o: Out)
    requires HeapOK(h, c, pl) && th.pc.CasUnlink? && th.job.Remove? && PcOK(h, th.job.k, seen, obs, th.job, th.pc)
    requires SeenOK(h, c, pl, th.job.k, seen, obs) && th.pc.prev in h && h[th.pc.prev].next == Link(th.pc.curr, false)
    ensures o == Exec(h, th) && th.pc.prev in c && th.pc.curr in h && h[th.pc.curr].next == Link(th.pc.next, true)
    ensures o == Out(SetNext(h, th.pc.prev, Link(th.pc.next, false)), th.(pc := Return(Removed(Some(th.pc.value)))),
      {th.pc.curr}, {}, {})
    ensures forall s, m :: PcOK(o.heap, th.job.k, s, m, th.job, o.th.pc)
  {
    o := Exec(h, th);
    UnmarkedIn(h, c, pl, th.job.k, seen, obs, th.pc.prev);
  }

  lemma {:induction false} DropCase(i: Tid, h: Heap, c: seq<Addr>, pl: map<Addr, Place>, th: Thread, seen: set<Addr>,
      obs: set<Option<V>>)
      returns (c': seq<Addr>, pl': map<Addr, Place>)
    requires HeapOK(h, c, pl) && ThreadOK(h, c, pl, i, th, seen, obs) && th.pc.CasUnlink? && th.job.Remove?
    requires th.pc.prev in h && h[th.pc.prev].next == Link(th.pc.curr, false)
    ensures Advanced(i, h, pl, seen, obs, Exec(h, th), c', pl') && Contents(Exec(h, th).heap, c') == Contents(h, c)
  {
    hide HeapOK, SeenOK, Contents, Rely, PrivateOK, Exec, Accounts, IsMarkedRun, PcOK, PendingOK;
    var o := DropFacts(h, c, pl, th, seen, obs);
    var w := [th.pc.curr, th.pc.next];
    SingleRun(h, th.pc.curr, th.pc.next);
    c', pl' := UnlinkPlaces(i, h, c, pl, th.pc.prev, w, Retired, o);
    UnlinkPrivate(i, h, c, pl, th.pc.prev, Link(th.pc.next, false), w[..|w| - 1], Retired, th.job, th.pc, o.th.pc);
    NonePending(h, pl, w[..|w| - 1], i, th.pc, o.heap, o.th.pc);
    Assemble(i, h, c, pl, th, seen, obs, o, c', pl');
  }

  // ---------------------------------------------------------------- calls begin and end

  /** A call that begins knows nothing yet. */
  lemma {:induction false} Fresh(i: Tid, h: Heap, c: seq<Addr>, pl: map<Addr, Place>, th: Thread)
    requires HeapOK(h, c, pl) && th.pc == LoadHead && !th.job.NoJob? && (th.job.kind.Shavit? ==> th.job.Get?)
    requires PrivateOK(h, pl, i, th.job, th.pc) && PendingOK(h, pl, i, th.pc)
    ensures forall seen, obs :: ThreadOK(h, c, pl, i, th, WatchNodes(seen, th, true, h), WatchKey(obs, th, true, h))
  {
    hide HeapOK, SeenOK, PrivateOK, PendingOK, Contents;
    HeapChain(h, c, pl);
    SeenStarts(h, c, pl, th.job.k);
  }

  lemma {:induction false} HeapChain(h: Heap, c: seq<Addr>, pl: map<Addr, Place>)
    requires HeapOK(h, c, pl)
    ensures Chain(h) == c
  {
    ChainIs(h, c);
  }

  lemma {:induction false} BeginQuiet(i: Tid, h: Heap, c: seq<Addr>, pl: map<Addr, Place>, th: Thread, seen: set<Addr>,
      obs: set<Option<V>>, o: Out)
    requires HeapOK(h, c, pl) && ThreadOK(h, c, pl, i, th, seen, obs) && th.job.NoJob? && Begins(h, th, o)
      && !o.th.job.Insert?
    ensures Advanced(i, h, pl, seen, obs, o, c, pl) && o.heap == h
  {
    RelyRefl(i, h, c, pl);
    assert o.freed == {} && o.heap == h;
    MovedSame(i, h, c, pl, o);
    hide HeapOK, Rely, WatchNodes, WatchKey, ThreadOK;
    Fresh(i, h, c, pl, o.th);
  }

  lemma {:induction false} BeginInsert(i: Tid, h: Heap, c: seq<Addr>, pl: map<Addr, Place>, th: Thread, seen: set<Addr>,
      obs: set<Option<V>>, o: Out)
      returns (pl': map<Addr, Place>)
    requires HeapOK(h, c, pl) && ThreadOK(h, c, pl, i, th, seen, obs) && th.job.NoJob? && Begins(h, th, o)
      && o.th.job.Insert?
    ensures Advanced(i, h, pl, seen, obs, o, c, pl') && Contents(o.heap, c) == Contents(h, c)
  {
    var n := o.th.job.node;
    pl' := pl[n := Private(i)];
    assert PrivateOK(o.heap, pl', i, o.th.job, o.th.pc) && PendingOK(o.heap, pl', i, o.th.pc);
    hide HeapOK, Rely, WatchNodes, WatchKey, ThreadOK, PrivateOK, PendingOK, Contents;
    Allocate(i, h, c, pl, n, o.th.job.k, o.th.job.v, o.heap, pl');
    BeginAccounts(i, h, c, pl, o, pl');
    Fresh(i, o.heap, c, pl', o.th);
  }

  lemma {:induction false} BeginAccounts(i: Tid, h: Heap, c: seq<Addr>, pl: map<Addr, Place>, o: Out,
      pl': map<Addr, Place>)
    requires HeapOK(h, c, pl) && HeapOK(o.heap, c, pl') && o.th.job.Insert? && o.th.job.node !in h
    requires o.heap == h[o.th.job.node := Node(Key(o.th.job.k), Some(o.th.job.v), Link(NULL, false))]
      && pl' == pl[o.th.job.node := Private(i)]
    requires o.retired == {} && o.freed == {} && o.spent == {}
    ensures pl' == Moved(i, h, pl, o) && Accounts(i, h, pl, o, pl')
  {
    assert forall a :: Disposed(o.heap, pl', a) <==> Disposed(h, pl, a);
    MovedIs(i, h, c, pl, o, c, pl');
  }

  lemma {:induction false} EndStep(i: Tid, h: Heap, c: seq<Addr>, pl: map<Addr, Place>, th: Thread, seen: set<Addr>,
      obs: set<Option<V>>, o: Out)
    requires HeapOK(h, c, pl) && ThreadOK(h, c, pl, i, th, seen, obs) && Ends(h, th, o)
    ensures Advanced(i, h, pl, seen, obs, o, c, pl)
  {
    hide PcOK, SeenOK;
    RelyRefl(i, h, c, pl);
    MovedSame(i, h, c, pl, o);
    hide HeapOK, Rely;
  }
}
