/**
  All calls on the Natarajan-Mittal tree in one order: in every run the completed calls, and the removes whose leaf
  has been cut off without their having replied, form one sequential history of a map.
 */
module NMOrder {
  import opened NMShape
  import opened NMProtocol
  import opened NMInvariant
  import opened NMRuns
  import opened NMReclaim
  import L = Linearize

  // ---------------------------------------------------------------- a run as a history of calls

  function Res(o: Option<V>): L.Maybe<V> {
    match o case None => L.Nothing case Some(v) => L.Just(v)
  }

  /** The operation that a call is, with its reply; a remove has two jobs, one after the other. */
  function ActOf(job: Job, reply: Reply): L.Act<V>
    requires !job.NoJob?
  {
    match job
    case Get(k) => L.Look(k, if reply.Got? then Res(reply.value) else L.Nothing)
    case Insert(k, v, _, _) => L.Put(k, v, reply == Inserted)
    case Inject(k) => L.Cut(k, if reply.Removed? then Res(reply.value) else L.Nothing)
    case Purge(k, _, _) => L.Cut(k, if reply.Removed? then Res(reply.value) else L.Nothing)
  }

  function StatusOf(th: Thread): L.Status<V> {
    if !th.job.NoJob? && th.pc.Return? then L.Replied(ActOf(th.job, th.pc.reply))
    else
      match th.job
      case NoJob => L.Away
      case Get(k) => L.Busy(L.Get(k))
      case Insert(k, v, _, _) => L.Busy(L.Insert(k, v))
      case Inject(k) => L.Busy(L.Remove(k))
      case Purge(k, _, _) => L.Busy(L.Remove(k))
  }

  /** The call of `t` takes effect in the step from `s` to `s'`, which may be a step of another thread. */
  ghost predicate Effective(s: State, s': State, t: Tid) {
    && t in s.threads
    && ((s.threads[t].job.Insert? && InsertEffect(s, s', t, s.threads[t].job.k, s.threads[t].job.v))
        || (s.threads[t].job.Purge? && RemoveEffect(s, s', t, s.threads[t].job.k, s.threads[t].job.v)))
  }

  ghost function EffectAct(s: State, s': State, t: Tid): L.Act<V>
    requires Effective(s, s', t)
  {
    if s.threads[t].job.Insert? then L.Put(s.threads[t].job.k, s.threads[t].job.v, true)
    else L.Cut(s.threads[t].job.k, L.Just(s.threads[t].job.v))
  }

  ghost function EffectsOf(s: State, s': State): map<nat, L.Act<V>> {
    map t | t in s.threads && Effective(s, s', t) :: EffectAct(s, s', t)
  }

  ghost function ViewOf(s: State, effects: map<nat, L.Act<V>>): L.View<V> {
    L.View(Abs(s), map t | t in s.threads :: StatusOf(s.threads[t]), effects)
  }

  ghost function ViewAt(r: seq<State>, n: nat): L.View<V>
    requires n < |r|
  {
    ViewOf(r[n], if n + 1 < |r| then EffectsOf(r[n], r[n + 1]) else map[])
  }

  ghost function HistoryOf(r: seq<State>): L.History<V> {
    seq(|r|, n requires 0 <= n < |r| => ViewAt(r, n))
  }

  // ---------------------------------------------------------------- every step fits

  lemma {:induction false} Goes(s: State, s': State, t: Tid)
    requires Inv(s) && Next(s, s') && t in s.threads
    ensures t in s'.threads && L.Follows(StatusOf(s.threads[t]), StatusOf(s'.threads[t]))
  {
    hide Inv, Moved, Watch, Local;
    var i, o :| StepOf(s, s', i, o);
    if i == t {
      if s'.threads[t].job.NoJob? {
      } else if s.threads[t].job.NoJob? {
        FirstStep(s, s', t);
      } else if s.threads[t].pc.Return? {
        ReplyStays(s, s', t);
      } else {
        BusyStep(s, s', t);
      }
    }
  }

  lemma {:induction false} FirstStep(s: State, s': State, t: Tid)
    requires Next(s, s') && t in s.threads && s.threads[t].job.NoJob? && t in s'.threads && !s'.threads[t].job.NoJob?
    ensures s'.threads[t].pc == SeekRoot
  {
    hide Moved, Watch, Exec;
  }

  lemma {:induction false} ReplyStays(s: State, s': State, t: Tid)
    requires Next(s, s') && t in s.threads && s.threads[t].pc.Return? && t in s'.threads && !s'.threads[t].job.NoJob?
    ensures s'.threads[t] == s.threads[t]
  {
    hide Moved, Watch;
  }

  lemma {:induction false} TakesEffect(s: State, s': State, t: Tid)
    requires Effective(s, s', t)
    ensures var a := EffectAct(s, s', t);
            && L.Changes(a) && L.Right(Abs(s), a) && L.Find(Abs(s'), a.k) == L.Result(a)
            && StatusOf(s.threads[t]) == L.Busy(L.OpOf(a))
  {
    hide Abs, Addrs;
  }

  /** Several removes can take effect in one splice, but not for the same key. */
  lemma {:induction false} OneWrite(s: State, s': State, t: Tid, u: Tid)
    requires Inv(s) && Next(s, s') && Effective(s, s', t) && Effective(s, s', u)
    requires EffectAct(s, s', t).k == EffectAct(s, s', u).k
    ensures t == u
  {
    hide Next, Inv, Addrs, SystemOK, Abs;
    TreeOf(s);
    if s.threads[t].job.Insert? {
      OneActs(s, s', t, u);
    } else {
      OneRemover(s, s', s.threads[t].job.k, s.threads[t].job.v, t, u);
    }
  }

  /** Only the thread that takes the step changes. */
  lemma {:induction false} OneActs(s: State, s': State, t: Tid, u: Tid)
    requires Next(s, s') && t in s.threads && t in s'.threads && u in s.threads && u in s'.threads
    requires s.threads[t] != s'.threads[t] && s.threads[u] != s'.threads[u]
    ensures t == u
  {
    hide Local, Moved, Watch;
  }

  lemma {:induction false} KeyAltered(s: State, s': State, k: int)
    requires Refines(s, s') && L.Find(Abs(s'), k) != L.Find(Abs(s), k)
    ensures exists t :: t in EffectsOf(s, s') && EffectsOf(s, s')[t].k == k
  {
    hide Abs, Addrs;
    if t, y, v :| InsertEffect(s, s', t, y, v) {
      assert t in EffectsOf(s, s');
    } else {
      var t :| RemoveEffect(s, s', t, k, Abs(s)[k]);
      assert t in EffectsOf(s, s');
    }
  }

  lemma {:induction false} StepLawful(r: seq<State>, n: nat)
    requires IsRun(r) && n + 1 < |r|
    ensures L.StepAt(HistoryOf(r), n)
  {
    hide Init, Next, Inv, Abs, StatusOf, Effective, Refines, L.Follows, L.Find, L.Right, L.Changes;
    RunInv(r, n);
    RunRefines(r, n);
    assert Next(r[n], r[n + 1]);
    var s, s' := r[n], r[n + 1];
    var v, v' := HistoryOf(r)[n], HistoryOf(r)[n + 1];
    SameThreads(s, s');
    forall t | t in v.threads ensures L.Follows(v.threads[t], v'.threads[t]) {
      Goes(s, s', t);
    }
    forall t | t in v.effects ensures L.Effects(v, v', t) {
      TakesEffect(s, s', t);
    }
    forall t, u | t in v.effects && u in v.effects && v.effects[t].k == v.effects[u].k ensures t == u {
      OneWrite(s, s', t, u);
    }
    forall k | !L.Alters(v, k) ensures L.Find(v'.abs, k) == L.Find(v.abs, k) {
      if L.Find(Abs(s'), k) != L.Find(Abs(s), k) {
        KeyAltered(s, s', k);
      }
    }
  }

  lemma {:induction false} SameThreads(s: State, s': State)
    requires Next(s, s')
    ensures s'.threads.Keys == s.threads.Keys
  {
    hide Local, Moved, Watch;
  }

  // ---------------------------------------------------------------- every call is accounted for

  /** The calls of the run are exactly those of its history. */
  lemma {:induction false} CallIs(r: seq<State>, i: nat, j: nat, t: Tid)
    ensures L.CallOf(HistoryOf(r), i, j, t) <==> CallOf(r, i, j, t)
  {
    hide Abs, EffectsOf, ActOf;
    var h := HistoryOf(r);
    forall m | 0 <= m < |r| ensures t in h[m].threads <==> t in r[m].threads {
      assert h[m] == ViewAt(r, m);
    }
    forall m | 0 <= m < |r| && t in r[m].threads ensures h[m].threads[t].Away? <==> r[m].threads[t].job.NoJob? {
      assert h[m] == ViewAt(r, m);
    }
  }

  /** What the history says of a thread. */
  lemma {:induction false} Seen(r: seq<State>, n: nat, t: Tid)
    requires n < |r| && t in HistoryOf(r)[n].threads
    ensures |HistoryOf(r)| == |r| && t in r[n].threads && HistoryOf(r)[n].threads[t] == StatusOf(r[n].threads[t])
    ensures HistoryOf(r)[n].abs == Abs(r[n])
    ensures t in HistoryOf(r)[n].effects <==> n + 1 < |r| && Effective(r[n], r[n + 1], t)
    ensures t in HistoryOf(r)[n].effects ==> HistoryOf(r)[n].effects[t] == EffectAct(r[n], r[n + 1], t)
  {
    hide Abs, Effective, StatusOf, EffectAct;
    assert HistoryOf(r)[n] == ViewAt(r, n);
  }

  lemma {:induction false} ReadRight(r: seq<State>, i: nat, j: nat, t: Tid) returns (m: nat)
    requires IsRun(r) && CallOf(r, i, j, t) && StatusOf(r[j].threads[t]).Replied?
    requires !L.Changes(StatusOf(r[j].threads[t]).act)
    ensures i < m <= j && L.Right(Abs(r[m]), StatusOf(r[j].threads[t]).act)
  {
    hide Init, Next, Abs, Addrs, InsertEffect, RemoveEffect;
    m := Linearizable(r, i, j, t);
  }

  /** A remove that has flagged its leaf replies with that leaf's value. */
  lemma {:induction false} PurgeReplies(s: State, t: Tid)
    requires Inv(s) && t in s.threads && s.threads[t].job.Purge? && s.threads[t].pc.Return?
    ensures s.threads[t].pc.reply == Removed(Some(s.threads[t].job.v)) && s.threads[t].job.leaf !in Addrs(Live(s))
  {
    hide Inv, Addrs;
    RepliesOK(s, t);
  }

  /** A completed call that changed the map took effect. */
  lemma {:induction false} EffectOf(r: seq<State>, i: nat, j: nat, t: Tid) returns (n: nat)
    requires IsRun(r) && CallOf(r, i, j, t) && StatusOf(r[j].threads[t]).Replied?
    requires L.Changes(StatusOf(r[j].threads[t]).act)
    ensures i < n < j && Effective(r[n], r[n + 1], t)
  {
    hide Init, Next, Inv, Abs;
    RunInv(r, j);
    RepliesOK(r[j], t);
    if r[j].threads[t].job.Insert? {
      n := FindInsert(r, i, j, t);
    } else {
      PurgeReplies(r[j], t);
      n := FindRemove(r, i, j, t);
    }
  }

  lemma {:induction false} CallAccounted(r: seq<State>, i: nat, j: nat, t: Tid)
    requires IsRun(r) && L.Completed(HistoryOf(r), i, j, t)
    ensures L.Accounted(HistoryOf(r), i, j, t)
  {
    hide Init, Next, Abs, HistoryOf, StatusOf, Effective;
    var h := HistoryOf(r);
    CallIs(r, i, j, t);
    Seen(r, j, t);
    if L.Changes(h[j].threads[t].act) {
      var n := EffectOf(r, i, j, t);
      Seen(r, n, t);
    } else {
      var m := ReadRight(r, i, j, t);
      Seen(r, m, t);
    }
  }

  lemma {:induction false} PurgeKept(r: seq<State>, i: nat, m: nat, j: nat, t: Tid)
    requires IsRun(r) && CallOf(r, i, j, t) && i < m <= j && r[m].threads[t].job.Purge?
    ensures r[j].threads[t].job == r[m].threads[t].job
    decreases j
  {
    hide Init, Next, Inv, Path;
    if m < j {
      assert CallOf(r, i, j - 1, t);
      PurgeKept(r, i, m, j - 1, t);
      RunInv(r, j - 1);
      assert Next(r[j - 1], r[j - 1 + 1]);
      BusyStep(r[j - 1], r[j], t);
    }
  }

  lemma {:induction false} CutOff(r: seq<State>, n: nat, j: nat, a: Addr)
    requires IsRun(r) && n + 1 <= j < |r| && a in Addrs(Live(r[n])) && a !in Addrs(Live(r[n + 1]))
    ensures a !in Addrs(Live(r[j]))
  {
    hide Init, Next, Inv, Addrs;
    RunInv(r, n);
    InTreePublic(r[n], a);
    LeafForever(r, n, n + 1, a);
    if a in Addrs(Live(r[j])) {
      ReachableBefore(r, n + 1, j, a);
    }
  }

  /** After its effect a call takes no other, and its reply is the one that goes with it. */
  lemma {:induction false} EffectKept(r: seq<State>, t: Tid, i: nat, j: nat, n: nat)
    requires IsRun(r) && CallOf(r, i, j, t) && i < n < j && Effective(r[n], r[n + 1], t)
    requires L.Stepwise(HistoryOf(r)) && L.CallOf(HistoryOf(r), i, j, t)
    ensures j + 1 < |r| ==> !Effective(r[j], r[j + 1], t)
    ensures var x := StatusOf(r[j].threads[t]);
            x.Replied? ==> x.act == EffectAct(r[n], r[n + 1], t)
  {
    hide Init, Next, Inv, Abs, Addrs, HistoryOf, L.Stepwise;
    if r[n].threads[t].job.Insert? {
      RunInv(r, n);
      assert Next(r[n], r[n + 1]);
      BusyStep(r[n], r[n + 1], t);
      Seen(r, n + 1, t);
      Seen(r, j, t);
      L.ReplyKept(HistoryOf(r), i, n + 1, j, t);
    } else {
      PurgeKept(r, i, n, j, t);
      CutOff(r, n, j, r[n].threads[t].job.leaf);
      if r[j].threads[t].pc.Return? {
        RunInv(r, j);
        PurgeReplies(r[j], t);
      }
    }
  }

  lemma {:induction false} CallSpent(r: seq<State>, i: nat, j: nat, n: nat, t: Tid)
    requires IsRun(r) && L.CallOf(HistoryOf(r), i, j, t) && i < n < j && t in HistoryOf(r)[n].effects
    requires L.Stepwise(HistoryOf(r))
    ensures L.Spent(HistoryOf(r), n, j, t)
  {
    hide Init, Next, Abs, HistoryOf, L.Changes, L.Right, L.Stepwise;
    CallIs(r, i, j, t);
    Seen(r, n, t);
    Seen(r, j, t);
    EffectKept(r, t, i, j, n);
  }

  // ---------------------------------------------------------------- the order

  lemma {:induction false} RunLawful(r: seq<State>)
    requires IsRun(r)
    ensures L.Lawful(HistoryOf(r))
  {
    hide Init, Next, Abs, StatusOf, EffectsOf, L.StepAt, L.Accounted, L.Spent;
    var h := HistoryOf(r);
    InitOK(r[0]);
    assert h[0] == ViewAt(r, 0) && h[|r| - 1] == ViewAt(r, |r| - 1);
    forall n: int | 0 <= n < |h| - 1 ensures L.StepAt(h, n) {
      StepLawful(r, n);
    }
    forall i: nat, j: nat, t: nat | L.Completed(h, i, j, t) ensures L.Accounted(h, i, j, t) {
      CallAccounted(r, i, j, t);
    }
    forall i: nat, j: nat, n: nat, t: nat | L.CallOf(h, i, j, t) && i < n < j && t in h[n].effects
      ensures L.Spent(h, n, j, t)
    {
      CallSpent(r, i, j, n, t);
    }
  }

  /**
    Linearizability as one total order: every run has a sequential history of a map, legal from the empty map to
    the map of the last state, in which every completed call occurs exactly once, with its reply, at a moment inside
    the call; no call has more than one entry, and every entry is made by a call in progress.
   */
  lemma {:induction false} TotalOrder(r: seq<State>) returns (s: seq<L.Entry<V>>)
    requires IsRun(r)
    ensures L.Legal(s) && L.Replay(s) == Abs(r[|r| - 1]) && L.InTime(s) && L.Orders(HistoryOf(r), s)
  {
    hide Init, Next, Abs, StatusOf, EffectsOf, L.Lawful, L.Legal, L.Replay, L.Orders;
    RunLawful(r);
    s := L.Serialise(HistoryOf(r));
  }
}
