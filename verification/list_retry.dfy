/**
  Why a call on the list starts its traversal again: a compare-and-set fails only after another thread has written
  the field that it expects, and a mark fails only after another remove of the key has taken effect.
 */
module ListRetry {
  import opened ListModel
  import opened ListInvariant
  import opened ListRuns

  /** Thread `t` takes the step from `s` to `s'`. */
  ghost predicate StepBy(s: State, s': State, t: Tid) {
    exists o :: StepOf(s, s', t, o)
  }

  // ---------------------------------------------------------------- what a thread relies on

  /** The next compare-and-set of the thread is on the `next` field of `a`, and expects it to lead to `x`, unmarked. */
  ghost predicate Relies(th: Thread, a: Addr, x: Addr) {
    match th.pc
    case HLoop(prev, prevNext, _) => a == prev && x == prevNext
    case HUnlink(prev, prevNext, _, _) => a == prev && x == prevNext
    case HRetire(_, prev, curr, _) => a == prev && x == curr
    case MLoop(prev, curr) => a == prev && x == curr
    case MUnlink(prev, curr, _) => a == prev && x == curr
    case Found(_, prev, curr) => !th.job.NoJob? && !th.job.kind.Shavit? && a == prev && x == curr
    case CasInsert(prev, curr) => a == prev && x == curr
    case FetchOr(prev, curr) => a == prev && x == curr
    case CasUnlink(prev, curr, _, _) => a == prev && x == curr
    case _ => false
  }

  /** The thread has found `a` with its key, unmarked. */
  ghost predicate Targets(th: Thread, a: Addr) {
    match th.pc
    case HUnlink(_, _, curr, found) => found && a == curr
    case HRetire(_, _, curr, found) => found && a == curr
    case Found(found, _, curr) => found && a == curr
    case FetchOr(_, curr) => a == curr
    case _ => false
  }

  ghost predicate Holds(h: Heap, a: Addr, x: Addr) {
    a in h && h[a].next == Link(x, false)
  }

  /** The thread is about to write the `next` field of `a`. */
  ghost predicate Aims(pc: Pc, a: Addr) {
    || ((pc.HUnlink? || pc.MUnlink? || pc.CasInsert? || pc.CasUnlink?) && pc.prev == a)
    || (pc.FetchOr? && pc.curr == a)
  }

  // ---------------------------------------------------------------- one step

  /** The nodes a thread works with: what it reads is published, and apart from what it writes besides. */
  lemma {:induction false} Apart(i: Tid, h: Heap, c: seq<Addr>, pl: map<Addr, Place>, th: Thread, seen: set<Addr>,
      obs: set<Option<V>>)
    requires ThreadOK(h, c, pl, i, th, seen, obs)
    ensures HasCursor(th.pc) ==> th.pc.prev in pl && Public(pl[th.pc.prev])
    ensures th.pc.FetchOr? ==> th.pc.prev != th.pc.curr
    ensures th.pc.Found? && th.job.Insert? ==> th.job.node in pl && pl[th.job.node].Private?
    ensures th.pc.SLoop? ==> !th.job.NoJob? && th.job.kind.Shavit?
    ensures !th.job.NoJob? && th.job.kind.Shavit? ==> th.job.Get?
    ensures forall a :: Targets(th, a) ==> a in h
  {
    hide PendingOK, Contents, Lookup, MarkedRun, Gap;
  }

  /** A thread comes to rely on what it has just loaded or written, and does not write it while it relies on it. */
  lemma {:induction false} OwnStep(i: Tid, h: Heap, c: seq<Addr>, pl: map<Addr, Place>, th: Thread, seen: set<Addr>,
      obs: set<Option<V>>, o: Out, a: Addr, x: Addr)
    requires ThreadOK(h, c, pl, i, th, seen, obs) && Local(h, th, o) && Relies(o.th, a, x)
    ensures if Relies(th, a, x) then a in h && a in o.heap && o.heap[a].next == h[a].next && o.th.job == th.job
            else Holds(o.heap, a, x)
  {
    hide ThreadOK;
    PointersValid(i, h, c, pl, th, seen, obs);
    Apart(i, h, c, pl, th, seen, obs);
  }

  lemma {:induction false} OwnTarget(i: Tid, h: Heap, c: seq<Addr>, pl: map<Addr, Place>, th: Thread, seen: set<Addr>,
      obs: set<Option<V>>, o: Out, a: Addr)
    requires ThreadOK(h, c, pl, i, th, seen, obs) && Local(h, th, o) && Targets(o.th, a)
    ensures a in h && a in o.heap
    ensures if Targets(th, a) then (o.heap[a].next.mark ==> h[a].next.mark) && o.th.job == th.job
            else !o.heap[a].next.mark
  {
    hide ThreadOK;
    PointersValid(i, h, c, pl, th, seen, obs);
    Apart(i, h, c, pl, th, seen, obs);
  }

  /** Only a compare-and-set or a mark writes a published node. */
  lemma {:induction false} WriterAims(i: Tid, h: Heap, c: seq<Addr>, pl: map<Addr, Place>, th: Thread, seen: set<Addr>,
      obs: set<Option<V>>, o: Out, a: Addr)
    requires ThreadOK(h, c, pl, i, th, seen, obs) && Local(h, th, o) && a in h && a in pl && Public(pl[a])
    requires a in o.heap ==> o.heap[a].next != h[a].next
    ensures a in o.heap && Aims(th.pc, a)
    ensures o.heap[a].next.mark && !h[a].next.mark ==> th.pc.FetchOr? && o.th.pc.CasUnlink? && o.th.job == th.job
  {
    hide ThreadOK;
    PointersValid(i, h, c, pl, th, seen, obs);
    Apart(i, h, c, pl, th, seen, obs);
  }

  // ---------------------------------------------------------------- since when

  lemma {:induction false} ThreadIs(s: State, t: Tid)
    requires Inv(s) && t in s.threads
    ensures t in s.seen && t in s.obs && ThreadOK(s.heap, Live(s), s.place, t, s.threads[t], s.seen[t], s.obs[t])
  {
    hide ThreadOK, HeapOK, RetiredOK, SpentOK, PlacesOwned;
    ChainOf(s);
  }

  /** One step, seen by a thread that relies on a field afterwards. */
  lemma {:induction false} ReliesStep(s: State, s': State, t: Tid, a: Addr, x: Addr)
    requires Inv(s) && Next(s, s') && t in s'.threads && Relies(s'.threads[t], a, x)
    ensures t in s.threads
    ensures !Relies(s.threads[t], a, x) ==> StepBy(s, s', t) && Holds(s'.heap, a, x)
    ensures Relies(s.threads[t], a, x) && StepBy(s, s', t) ==>
              a in s.heap && a in s'.heap && s'.heap[a].next == s.heap[a].next
    ensures Relies(s.threads[t], a, x) ==> s'.threads[t].job == s.threads[t].job
  {
    hide ThreadOK, Inv, Local, Moved, WatchNodes, WatchKey, Relies, Holds;
    var i, o :| StepOf(s, s', i, o);
    if StepBy(s, s', t) {
      var p :| StepOf(s, s', t, p);
      ThreadIs(s, t);
      OwnStep(t, s.heap, Live(s), s.place, s.threads[t], s.seen[t], s.obs[t], p, a, x);
    }
  }

  /** Since state `l`, thread `t` relies on the field of `a`, which then led to `x`; `t` had just come to it. */
  ghost predicate ReliesSince(r: seq<State>, l: nat, j: nat, t: Tid, a: Addr, x: Addr) {
    && 0 < l <= j < |r| && StepBy(r[l - 1], r[l], t) && Holds(r[l].heap, a, x)
    && forall n :: l <= n <= j ==> t in r[n].threads && Relies(r[n].threads[t], a, x)
  }

  lemma {:induction false} Since(r: seq<State>, j: nat, t: Tid, a: Addr, x: Addr) returns (l: nat)
    requires IsRun(r) && j < |r| && t in r[j].threads && Relies(r[j].threads[t], a, x)
    ensures ReliesSince(r, l, j, t, a, x)
    decreases j
  {
    hide Next, Inv, StepBy, Holds;
    assert j > 0;
    RunInv(r, j - 1);
    assert Next(r[j - 1], r[j - 1 + 1]);
    ReliesStep(r[j - 1], r[j], t, a, x);
    if Relies(r[j - 1].threads[t], a, x) {
      l := Since(r, j - 1, t, a, x);
    } else {
      l := j;
    }
  }

  lemma {:induction false} ReliedPublic(s: State, t: Tid, a: Addr, x: Addr)
    requires Inv(s) && t in s.threads && Relies(s.threads[t], a, x)
    ensures a in s.heap && a in s.place && Public(s.place[a])
  {
    hide ThreadOK, Inv;
    ThreadIs(s, t);
    PointersValid(t, s.heap, Live(s), s.place, s.threads[t], s.seen[t], s.obs[t]);
    Apart(t, s.heap, Live(s), s.place, s.threads[t], s.seen[t], s.obs[t]);
  }

  /** Another thread's compare-and-set or mark takes the field of `a` away from `x`. */
  ghost predicate Overwrites(s: State, s': State, u: Tid, a: Addr, x: Addr) {
    && StepBy(s, s', u) && u in s.threads && Aims(s.threads[u].pc, a)
    && Holds(s.heap, a, x) && a in s'.heap && s'.heap[a].next != Link(x, false)
  }

  lemma {:induction false} OverwriteStep(s: State, s': State, t: Tid, a: Addr, x: Addr) returns (u: Tid)
    requires Inv(s) && Next(s, s') && t in s.threads && t in s'.threads
    requires Relies(s.threads[t], a, x) && Relies(s'.threads[t], a, x) && Holds(s.heap, a, x) && !Holds(s'.heap, a, x)
    ensures u != t && Overwrites(s, s', u, a, x)
  {
    hide ThreadOK, Inv, Local, Moved, WatchNodes, WatchKey, Relies, Aims;
    ReliedPublic(s, t, a, x);
    ReliesStep(s, s', t, a, x);
    var o: Out;
    u, o :| StepOf(s, s', u, o);
    assert StepBy(s, s', u);
    ThreadIs(s, u);
    WriterAims(u, s.heap, Live(s), s.place, s.threads[u], s.seen[u], s.obs[u], o, a);
  }

  lemma {:induction false} FindOverwrite(r: seq<State>, l: nat, j: nat, t: Tid, a: Addr, x: Addr)
      returns (m: nat, u: Tid)
    requires IsRun(r) && ReliesSince(r, l, j, t, a, x) && !Holds(r[j].heap, a, x)
    ensures l <= m < j && u != t && Overwrites(r[m], r[m + 1], u, a, x)
    decreases j
  {
    hide Init, Next, Inv, Relies, Holds, Overwrites, StepBy;
    assert l < j;
    if Holds(r[j - 1].heap, a, x) {
      RunInv(r, j - 1);
      assert Next(r[j - 1], r[j - 1 + 1]);
      m := j - 1;
      u := OverwriteStep(r[j - 1], r[j], t, a, x);
    } else {
      m, u := FindOverwrite(r, l, j - 1, t, a, x);
    }
  }

  /** The field and the value that the thread's compare-and-set is about to compare. */
  ghost predicate Compares(pc: Pc, a: Addr, x: Addr) {
    || (pc.HUnlink? && pc.prev == a && pc.prevNext == x)
    || ((pc.MUnlink? || pc.CasInsert? || pc.CasUnlink?) && pc.prev == a && pc.curr == x)
  }

  /**
    Why a compare-and-set fails: since the thread last loaded or wrote the field, and found the value that it
    expects, a compare-and-set or a mark of another thread on the same field has succeeded.
   */
  lemma {:induction false} FailsAfterWrite(r: seq<State>, j: nat, t: Tid, a: Addr, x: Addr)
      returns (l: nat, m: nat, u: Tid)
    requires IsRun(r) && j < |r| && t in r[j].threads && Compares(r[j].threads[t].pc, a, x)
    requires !Holds(r[j].heap, a, x)
    ensures ReliesSince(r, l, j, t, a, x) && l <= m < j && u != t && Overwrites(r[m], r[m + 1], u, a, x)
  {
    hide Init, Next, StepBy, Holds, Overwrites;
    l := Since(r, j, t, a, x);
    m, u := FindOverwrite(r, l, j, t, a, x);
  }

  // ---------------------------------------------------------------- marking

  lemma {:induction false} TargetStep(s: State, s': State, t: Tid, a: Addr)
    requires Inv(s) && Next(s, s') && t in s'.threads && Targets(s'.threads[t], a)
    ensures t in s.threads && a in s'.heap
    ensures !Targets(s.threads[t], a) ==> StepBy(s, s', t) && !s'.heap[a].next.mark
    ensures Targets(s.threads[t], a) ==> a in s.heap && s'.threads[t].job == s.threads[t].job
    ensures Targets(s.threads[t], a) && StepBy(s, s', t) && s'.heap[a].next.mark ==> s.heap[a].next.mark
  {
    hide ThreadOK, Inv, Local, Moved, WatchNodes, WatchKey, Targets;
    var i, o :| StepOf(s, s', i, o);
    ThreadIs(s, t);
    Apart(t, s.heap, Live(s), s.place, s.threads[t], s.seen[t], s.obs[t]);
    if Targets(s.threads[t], a) {
      TargetPublic(s, t, a);
      PublishedStep(s, s', a);
    }
    if StepBy(s, s', t) {
      var p :| StepOf(s, s', t, p);
      OwnTarget(t, s.heap, Live(s), s.place, s.threads[t], s.seen[t], s.obs[t], p, a);
    }
  }

  lemma {:induction false} TargetPublic(s: State, t: Tid, a: Addr)
    requires Inv(s) && t in s.threads && Targets(s.threads[t], a)
    ensures a in s.heap && a in s.place && Public(s.place[a])
    ensures !s.threads[t].job.NoJob? && s.heap[a].key == Key(s.threads[t].job.k)
  {
    hide Inv, PendingOK, PrivateOK, Contents, Lookup, MarkedRun, Gap, Past;
    ThreadIs(s, t);
  }

  /** Since state `l`, thread `t` is about to mark `a`, which it then found unmarked. */
  ghost predicate TargetsSince(r: seq<State>, l: nat, j: nat, t: Tid, a: Addr) {
    && 0 < l <= j < |r| && StepBy(r[l - 1], r[l], t) && a in r[l].heap && !r[l].heap[a].next.mark
    && t in r[j].threads
    && forall n :: l <= n <= j ==>
         t in r[n].threads && Targets(r[n].threads[t], a) && r[n].threads[t].job == r[j].threads[t].job
  }

  lemma {:induction false} SinceTarget(r: seq<State>, j: nat, t: Tid, a: Addr) returns (l: nat)
    requires IsRun(r) && j < |r| && t in r[j].threads && Targets(r[j].threads[t], a)
    ensures TargetsSince(r, l, j, t, a)
    decreases j
  {
    hide Next, Inv, StepBy;
    assert j > 0;
    RunInv(r, j - 1);
    assert Next(r[j - 1], r[j - 1 + 1]);
    TargetStep(r[j - 1], r[j], t, a);
    if Targets(r[j - 1].threads[t], a) {
      l := SinceTarget(r, j - 1, t, a);
    } else {
      l := j;
    }
  }

  lemma {:induction false} MarkedBy(s: State, s': State, t: Tid, a: Addr) returns (u: Tid, v: V)
    requires Inv(s) && Next(s, s') && t in s.threads && t in s'.threads && Targets(s.threads[t], a)
    requires Targets(s'.threads[t], a) && a in s.heap && !s.heap[a].next.mark && a in s'.heap && s'.heap[a].next.mark
    ensures u != t && !s.threads[t].job.NoJob? && RemoveEffect(s, s', u, s.threads[t].job.k, v)
    ensures s.threads[u].pc.curr == a
  {
    hide ThreadOK, Inv, Local, Moved, WatchNodes, WatchKey, Targets, RemoveEffect;
    TargetPublic(s, t, a);
    TargetStep(s, s', t, a);
    var o: Out;
    u, o :| StepOf(s, s', u, o);
    assert StepBy(s, s', u);
    ThreadIs(s, u);
    WriterAims(u, s.heap, Live(s), s.place, s.threads[u], s.seen[u], s.obs[u], o, a);
    v := o.th.pc.value;
    MarkerKey(s, u);
    ReplyHappens(s, s', u);
  }

  lemma {:induction false} MarkerKey(s: State, u: Tid)
    requires Inv(s) && u in s.threads && s.threads[u].pc.FetchOr?
    ensures !s.threads[u].job.NoJob? && s.threads[u].pc.curr in s.heap
    ensures s.heap[s.threads[u].pc.curr].key == Key(s.threads[u].job.k)
  {
    hide Inv;
    assert Targets(s.threads[u], s.threads[u].pc.curr);
    TargetPublic(s, u, s.threads[u].pc.curr);
  }

  lemma {:induction false} FindMark(r: seq<State>, l: nat, j: nat, t: Tid, a: Addr) returns (m: nat, u: Tid, v: V)
    requires IsRun(r) && TargetsSince(r, l, j, t, a) && a in r[j].heap && r[j].heap[a].next.mark
    ensures l <= m < j && u != t && !r[j].threads[t].job.NoJob?
    ensures RemoveEffect(r[m], r[m + 1], u, r[j].threads[t].job.k, v) && r[m].threads[u].pc.curr == a
    decreases j
  {
    hide Init, Next, Inv, Targets, StepBy, RemoveEffect;
    assert l < j;
    RunInv(r, j - 1);
    TargetPublic(r[j - 1], t, a);
    if r[j - 1].heap[a].next.mark {
      m, u, v := FindMark(r, l, j - 1, t, a);
    } else {
      assert Next(r[j - 1], r[j - 1 + 1]);
      m := j - 1;
      u, v := MarkedBy(r[j - 1], r[j], t, a);
    }
  }

  /**
    Why a remove fails to mark its node and starts again: since it found the node unmarked, another thread's remove
    of the same key has taken effect on it.
   */
  lemma {:induction false} MarkFailsAfterRemove(r: seq<State>, j: nat, t: Tid, a: Addr)
      returns (l: nat, m: nat, u: Tid, v: V)
    requires IsRun(r) && j < |r| && t in r[j].threads && r[j].threads[t].pc.FetchOr? && r[j].threads[t].pc.curr == a
    requires a in r[j].heap && r[j].heap[a].next.mark
    ensures TargetsSince(r, l, j, t, a) && l <= m < j && u != t && !r[j].threads[t].job.NoJob?
    ensures RemoveEffect(r[m], r[m + 1], u, r[j].threads[t].job.k, v) && r[m].threads[u].pc.curr == a
  {
    hide Init, Next, StepBy, RemoveEffect;
    l := SinceTarget(r, j, t, a);
    m, u, v := FindMark(r, l, j, t, a);
  }
}
