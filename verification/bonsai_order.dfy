/**
  All calls on the Bonsai tree in one order: in every run the completed calls, and the updates that have published
  their tree without having replied, form one sequential history of a map.
 */
module BonsaiOrder {
  import opened BonsaiTree
  import opened BonsaiModel
  import opened BonsaiInvariant
  import opened BonsaiRuns
  import L = Linearize

  // ---------------------------------------------------------------- a run as a history of calls

  function Res(o: Option<V>): L.Maybe<V> {
    match o case None => L.Nothing case Some(v) => L.Just(v)
  }

  /** The operation that a call is, with its reply. */
  function ActOf(job: Job, reply: Reply): L.Act<V>
    requires !job.NoJob?
  {
    match job
    case Get(k) => L.Look(k, if reply.Got? then Res(reply.res) else L.Nothing)
    case Insert(k, v) => L.Put(k, v, reply == Inserted(true))
    case Remove(k) => L.Cut(k, if reply.Removed? then Res(reply.value) else L.Nothing)
  }

  function StatusOf(th: Thread): L.Status<V> {
    if !th.job.NoJob? && th.pc.Return? then L.Replied(ActOf(th.job, th.pc.reply))
    else
      match th.job
      case NoJob => L.Away
      case Get(k) => L.Busy(L.Get(k))
      case Insert(k, v) => L.Busy(L.Insert(k, v))
      case Remove(k) => L.Busy(L.Remove(k))
  }

  /** The call of `t` changes the map in the step from `s` to `s'`. */
  ghost predicate Effective(s: State, s': State, t: Tid) {
    && Swaps(s, s', t) && !s.threads[t].job.NoJob?
    && L.Changes(ActOf(s.threads[t].job, s'.threads[t].pc.reply))
  }

  ghost function EffectAct(s: State, s': State, t: Tid): L.Act<V>
    requires Effective(s, s', t)
  {
    ActOf(s.threads[t].job, s'.threads[t].pc.reply)
  }

  ghost function EffectsOf(s: State, s': State): map<nat, L.Act<V>> {
    map t | t in s.threads && Effective(s, s', t) :: EffectAct(s, s', t)
  }

  ghost function ViewOf(s: State, effects: map<nat, L.Act<V>>): L.View<V> {
    L.View(Abs(s), map t | t in s.threads :: StatusOf(s.threads[t]), effects)
  }

  ghost function ViewAt(r: seq<State>, n: nat): L.View<V>
    requires n < |r|
  {
    ViewOf(r[n], if n + 1 < |r| then EffectsOf(r[n], r[n + 1]) else map[])
  }

  ghost function HistoryOf(r: seq<State>): L.History<V> {
    seq(|r|, n requires 0 <= n < |r| => ViewAt(r, n))
  }

  // ---------------------------------------------------------------- every step fits

  lemma {:induction false} Goes(s: State, s': State, t: Tid)
    requires Inv(s) && Next(s, s') && t in s.threads
    ensures t in s'.threads && L.Follows(StatusOf(s.threads[t]), StatusOf(s'.threads[t]))
  {
    hide Inv, Moved, Local;
    var i, o :| StepOf(s, s', i, o);
    if i == t {
      if s'.threads[t].job.NoJob? {
      } else if s.threads[t].pc.Return? && !s.threads[t].job.NoJob? {
        ReplyStays(s, s', t);
      } else {
        CallStep(s, s', t);
      }
    }
  }

  lemma {:induction false} ReplyStays(s: State, s': State, t: Tid)
    requires Next(s, s') && t in s.threads && s.threads[t].pc.Return? && t in s'.threads && !s'.threads[t].job.NoJob?
    ensures s'.threads[t] == s.threads[t]
  {
    hide Moved, Finishes;
  }

  /** A published update replies as the sequential map does. */
  lemma {:induction false} SwapRight(s: State, s': State, t: Tid)
    requires Swaps(s, s', t)
    ensures t in s.threads && t in s'.threads && s.threads[t].pc.Cas? && s'.threads[t].pc.Commit?
    ensures !s.threads[t].job.NoJob? && !s.threads[t].job.Get? && s.threads[t] != s'.threads[t]
    ensures var a := ActOf(s.threads[t].job, s'.threads[t].pc.reply);
            && L.Right(Abs(s), a) && (L.Changes(a) ==> L.Find(Abs(s'), a.k) == L.Result(a))
            && (forall k :: k != a.k || !L.Changes(a) ==> L.Find(Abs(s'), k) == L.Find(Abs(s), k))
  {
    hide Abs;
  }

  lemma {:induction false} TakesEffect(s: State, s': State, t: Tid)
    requires Effective(s, s', t)
    ensures var a := EffectAct(s, s', t);
            && L.Changes(a) && L.Right(Abs(s), a) && L.Find(Abs(s'), a.k) == L.Result(a)
            && StatusOf(s.threads[t]) == L.Busy(L.OpOf(a))
    ensures t in s'.threads && s.threads[t] != s'.threads[t]
  {
    hide Abs, Swaps;
    SwapRight(s, s', t);
  }

  /** Only the thread that takes the step changes. */
  lemma {:induction false} OneActs(s: State, s': State, t: Tid, u: Tid)
    requires Next(s, s') && t in s.threads && t in s'.threads && u in s.threads && u in s'.threads
    requires s.threads[t] != s'.threads[t] && s.threads[u] != s'.threads[u]
    ensures t == u
  {
    hide Local, Moved;
  }

  lemma {:induction false} KeyAltered(s: State, s': State, k: int)
    requires Refines(s, s') && L.Find(Abs(s'), k) != L.Find(Abs(s), k)
    ensures exists t :: t in EffectsOf(s, s') && EffectsOf(s, s')[t].k == k
  {
    hide Swaps, Contents;
    var t :| Swaps(s, s', t);
    SwapRight(s, s', t);
    assert t in EffectsOf(s, s');
  }

  lemma {:induction false} StepLawful(r: seq<State>, n: nat)
    requires IsRun(r) && n + 1 < |r|
    ensures L.StepAt(HistoryOf(r), n)
  {
    hide Init, Next, Inv, Abs, StatusOf, Effective, Refines, L.Follows, L.Find, L.Right, L.Changes;
    RunInv(r, n);
    RunRefines(r, n);
    assert Next(r[n], r[n + 1]);
    var s, s' := r[n], r[n + 1];
    var v, v' := HistoryOf(r)[n], HistoryOf(r)[n + 1];
    SameThreads(s, s');
    forall t | t in v.threads ensures L.Follows(v.threads[t], v'.threads[t]) {
      Goes(s, s', t);
    }
    forall t | t in v.effects ensures L.Effects(v, v', t) {
      TakesEffect(s, s', t);
    }
    forall t, u | t in v.effects && u in v.effects ensures t == u {
      TakesEffect(s, s', t);
      TakesEffect(s, s', u);
      OneActs(s, s', t, u);
    }
    forall k | !L.Alters(v, k) ensures L.Find(v'.abs, k) == L.Find(v.abs, k) {
      if L.Find(Abs(s'), k) != L.Find(Abs(s), k) {
        KeyAltered(s, s', k);
      }
    }
  }

  lemma {:induction false} SameThreads(s: State, s': State)
    requires Next(s, s')
    ensures s'.threads.Keys == s.threads.Keys
  {
    hide Local, Moved;
  }

  // ---------------------------------------------------------------- every call is accounted for

  /** The calls of the run are exactly those of its history. */
  lemma {:induction false} CallIs(r: seq<State>, i: nat, j: nat, t: Tid)
    ensures L.CallOf(HistoryOf(r), i, j, t) <==> CallOf(r, i, j, t)
  {
    hide Abs, EffectsOf, ActOf;
    var h := HistoryOf(r);
    forall m | 0 <= m < |r| ensures t in h[m].threads <==> t in r[m].threads {
      assert h[m] == ViewAt(r, m);
    }
    forall m | 0 <= m < |r| && t in r[m].threads ensures h[m].threads[t].Away? <==> r[m].threads[t].job.NoJob? {
      assert h[m] == ViewAt(r, m);
    }
  }

  /** What the history says of a thread. */
  lemma {:induction false} Seen(r: seq<State>, n: nat, t: Tid)
    requires n < |r| && t in HistoryOf(r)[n].threads
    ensures |HistoryOf(r)| == |r| && t in r[n].threads && HistoryOf(r)[n].threads[t] == StatusOf(r[n].threads[t])
    ensures HistoryOf(r)[n].abs == Abs(r[n])
    ensures t in HistoryOf(r)[n].effects <==> n + 1 < |r| && Effective(r[n], r[n + 1], t)
    ensures t in HistoryOf(r)[n].effects ==> HistoryOf(r)[n].effects[t] == EffectAct(r[n], r[n + 1], t)
  {
    hide Abs, Effective, StatusOf, EffectAct;
    assert HistoryOf(r)[n] == ViewAt(r, n);
  }

  lemma {:induction false} ReadRight(r: seq<State>, i: nat, j: nat, t: Tid) returns (m: nat)
    requires IsRun(r) && CallOf(r, i, j, t) && StatusOf(r[j].threads[t]).Replied?
    requires !L.Changes(StatusOf(r[j].threads[t]).act)
    ensures i < m <= j && L.Right(Abs(r[m]), StatusOf(r[j].threads[t]).act)
  {
    hide Init, Next, Abs, Swaps;
    m := Linearizable(r, i, j, t);
    if !r[j].threads[t].job.Get? {
      SwapRight(r[m], r[m + 1], t);
    }
  }

  /** A completed call that changed the map took effect. */
  lemma {:induction false} EffectOf(r: seq<State>, i: nat, j: nat, t: Tid) returns (n: nat)
    requires IsRun(r) && CallOf(r, i, j, t) && StatusOf(r[j].threads[t]).Replied?
    requires L.Changes(StatusOf(r[j].threads[t]).act)
    ensures i < n < j && Effective(r[n], r[n + 1], t)
  {
    hide Init, Next, Swaps;
    n := FindSwap(r, i, j, t);
    SwapRight(r[n], r[n + 1], t);
  }

  lemma {:induction false} CallAccounted(r: seq<State>, i: nat, j: nat, t: Tid)
    requires IsRun(r) && L.Completed(HistoryOf(r), i, j, t)
    ensures L.Accounted(HistoryOf(r), i, j, t)
  {
    hide Init, Next, Abs, HistoryOf, StatusOf, Effective;
    var h := HistoryOf(r);
    CallIs(r, i, j, t);
    Seen(r, j, t);
    if L.Changes(h[j].threads[t].act) {
      var n := EffectOf(r, i, j, t);
      Seen(r, n, t);
    } else {
      var m := ReadRight(r, i, j, t);
      Seen(r, m, t);
    }
  }

  lemma {:induction false} RepliesStep(s: State, s': State, t: Tid)
    requires Next(s, s') && t in s.threads && Replies(s.threads[t]) && t in s'.threads && !s'.threads[t].job.NoJob?
    requires !s.threads[t].job.NoJob?
    ensures Replies(s'.threads[t]) && s'.threads[t].pc.reply == s.threads[t].pc.reply
      && s'.threads[t].job == s.threads[t].job
  {
    hide Moved, Finishes;
  }

  /** An update that has published its tree only commits and replies. */
  lemma {:induction false} RepliesKept(r: seq<State>, i: nat, m: nat, j: nat, t: Tid)
    requires IsRun(r) && CallOf(r, i, j, t) && i < m <= j && Replies(r[m].threads[t])
    ensures Replies(r[j].threads[t]) && r[j].threads[t].pc.reply == r[m].threads[t].pc.reply
    ensures r[j].threads[t].job == r[m].threads[t].job
    decreases j
  {
    hide Init, Next;
    if m < j {
      assert CallOf(r, i, j - 1, t);
      RepliesKept(r, i, m, j - 1, t);
      assert Next(r[j - 1], r[j - 1 + 1]);
      RepliesStep(r[j - 1], r[j], t);
    }
  }

  /** After its effect a call is committing or has replied, accordingly. */
  lemma {:induction false} EffectKept(r: seq<State>, t: Tid, i: nat, j: nat, n: nat)
    requires IsRun(r) && CallOf(r, i, j, t) && i < n < j && Effective(r[n], r[n + 1], t)
    ensures !r[j].threads[t].pc.Cas?
    ensures var x := StatusOf(r[j].threads[t]);
            x.Replied? ==> x.act == EffectAct(r[n], r[n + 1], t)
  {
    hide Init, Next, Abs;
    RepliesKept(r, i, n + 1, j, t);
  }

  lemma {:induction false} CallSpent(r: seq<State>, i: nat, j: nat, n: nat, t: Tid)
    requires IsRun(r) && L.CallOf(HistoryOf(r), i, j, t) && i < n < j && t in HistoryOf(r)[n].effects
    ensures L.Spent(HistoryOf(r), n, j, t)
  {
    hide Init, Next, Abs, HistoryOf, L.Changes, L.Right;
    CallIs(r, i, j, t);
    Seen(r, n, t);
    Seen(r, j, t);
    EffectKept(r, t, i, j, n);
  }

  // ---------------------------------------------------------------- the order

  lemma {:induction false} RunLawful(r: seq<State>)
    requires IsRun(r)
    ensures L.Lawful(HistoryOf(r))
  {
    hide Init, Next, Abs, StatusOf, EffectsOf, L.StepAt, L.Accounted, L.Spent;
    var h := HistoryOf(r);
    InitOK(r[0]);
    assert h[0] == ViewAt(r, 0) && h[|r| - 1] == ViewAt(r, |r| - 1);
    forall n: int | 0 <= n < |h| - 1 ensures L.StepAt(h, n) {
      StepLawful(r, n);
    }
    forall i: nat, j: nat, t: nat | L.Completed(h, i, j, t) ensures L.Accounted(h, i, j, t) {
      CallAccounted(r, i, j, t);
    }
    forall i: nat, j: nat, n: nat, t: nat | L.CallOf(h, i, j, t) && i < n < j && t in h[n].effects
      ensures L.Spent(h, n, j, t)
    {
      CallSpent(r, i, j, n, t);
    }
  }

  /**
    Linearizability as one total order: every run has a sequential history of a map, legal from the empty map to
    the map of the last state, in which every completed call occurs exactly once, with its reply, at a moment inside
    the call; no call has more than one entry, and every entry is made by a call in progress.
   */
  lemma {:induction false} TotalOrder(r: seq<State>) returns (s: seq<L.Entry<V>>)
    requires IsRun(r)
    ensures L.Legal(s) && L.Replay(s) == Abs(r[|r| - 1]) && L.InTime(s) && L.Orders(HistoryOf(r), s)
  {
    hide Init, Next, Abs, StatusOf, EffectsOf, L.Lawful, L.Legal, L.Replay, L.Orders;
    RunLawful(r);
    s := L.Serialise(HistoryOf(r));
  }
}
