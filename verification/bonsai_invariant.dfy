/**
  The invariant of the shared Bonsai tree and its preservation.
 */
module BonsaiInvariant {
  import opened BonsaiTree
  import opened BonsaiBuild
  import opened BonsaiBalance
  import opened BonsaiUpdate
  import opened BonsaiModel

  ghost predicate Unique(m: multiset<Addr>) {
    forall a :: a in m ==> m[a] == 1
  }

  lemma {:induction false} UniqueTail(s: seq<Addr>)
    requires s != [] && Unique(multiset(s))
    ensures Unique(multiset(s[1..])) && s[0] !in s[1..] && forall a :: a in s <==> a == s[0] || a in s[1..]
  {
    assert s == [s[0]] + s[1..];
    assert multiset(s)[s[0]] == 1;
    forall a | a in multiset(s[1..]) ensures multiset(s[1..])[a] == 1 {
      assert a in multiset(s);
    }
  }

  // ---------------------------------------------------------------- one finished build

  /** The map and the reply after the job, as the sequential map has them. */
  ghost predicate Effect(job: Job, m: map<int, V>, m': map<int, V>, reply: Reply) {
    match job
    case Insert(k, v) => reply == Inserted(k !in m) && m' == if k in m then m else m[k := v]
    case Remove(k) => reply == Removed(Lookup(m, k)) && m' == m - {k}
    case _ => false
  }

  /** A tree ready to be published: the sequential update of `base`, with every node accounted for. */
  ghost predicate Ready(base: Tree, job: Job, tree: Tree, reply: Reply, made: seq<Addr>, gone: seq<Addr>) {
    && WellFormed(tree) && Effect(job, Contents(base), Contents(tree), reply)
    && Nodes(base) + multiset(made) == Nodes(tree) + multiset(gone)
    && (tree == base || tree.Nil? || tree.a in made)
  }

  lemma {:induction false} StartLedger(t: Tree, w: Work, pre: multiset<Addr>, post: multiset<Addr>)
    requires Ledger(Start(t), w, pre, post)
    ensures pre + multiset(w.created) == post + multiset(w.retired)
  {
    assert multiset(Start(t).created) == multiset{} && multiset(Start(t).retired) == multiset{};
    assert pre + multiset(w.created) + multiset{} == pre + multiset(w.created);
    assert post + multiset(w.retired) + multiset{} == post + multiset(w.retired);
  }

  lemma {:induction false} LastIn(s: seq<Addr>)
    requires |s| > 0
    ensures s[|s| - 1] in s
  {
  }

  /** `do_insert` builds the sequential insertion. */
  lemma {:induction false} InsertReady(e: Env, t: Tree, k: int, v: V)
    requires WellFormed(t)
    ensures var m := DoInsert(e, Start(t), To(t), k, v);
            && !m.o.Fault? && Grows(e, Start(t), m.w)
            && (m.o.Ok? && m.o.v.r.To? ==>
              Ready(t, Insert(k, v), m.o.v.r.t, Inserted(m.o.v.inserted), m.w.created, m.w.retired))
  {
    hide DoInsert, Put, MapOf, Items, Nodes, Sized, Ledger, Grows, Height, Within;
    var m := DoInsert(e, Start(t), To(t), k, v);
    DoInsertOK(e, Start(t), t, k, v);
    if m.o.Ok? && m.o.v.r.To? {
      PutMap(Items(t), k, v);
      InMap(Items(t), k);
      hide Sorted;
      StartLedger(t, m.w, Nodes(t), Nodes(m.o.v.r.t));
      if m.o.v.r.t != t {
        LastIn(m.w.created);
      }
    }
  }

  lemma {:induction false} RemoveReady(e: Env, t: Tree, k: int)
    requires WellFormed(t)
    ensures var m := DoRemove(e, Start(t), To(t), k);
            && !m.o.Fault? && Grows(e, Start(t), m.w)
            && (m.o.Ok? && m.o.v.r.To? ==>
              Ready(t, Remove(k), m.o.v.r.t, Removed(m.o.v.value), m.w.created, m.w.retired))
  {
    hide DoRemove, Cut, MapOf, Items, Nodes, Sized, Sorted, Ledger, Grows, Height, Within, Lookup;
    var m := DoRemove(e, Start(t), To(t), k);
    DoRemoveOK(e, Start(t), t, k);
    if m.o.Ok? && m.o.v.r.To? {
      CutMap(Items(t), k);
      StartLedger(t, m.w, Nodes(t), Nodes(m.o.v.r.t));
      if m.o.v.r.t.Node? {
        LastIn(m.w.created);
      }
    }
  }

  /** Nothing interferes with a build from `base`: no load finds a stamp and no defend is ejected. */
  ghost predicate Calm(e: Env, base: Tree) {
    Clear(e, base) && Undisturbed(e)
  }

  /** A build that nothing interferes with gives a tree. */
  lemma {:induction false} CalmBuild(e: Env, job: Job, base: Tree)
    requires WellFormed(base) && (job.Insert? || job.Remove?) && Calm(e, base)
    ensures BuildOf(e, job, base).r.Ok? && BuildOf(e, job, base).r.v.To?
  {
    hide DoInsert, DoRemove, WellFormed, Inserts, Removes, Clear, Undisturbed;
    if job.Insert? {
      DoInsertOK(e, Start(base), base, job.k, job.v);
    } else {
      DoRemoveOK(e, Start(base), base, job.k);
    }
  }

  /** An update holds at most twice the height of the tree plus four shields at a time. */
  lemma {:induction false} ShieldBound(e: Env, job: Job, t: Tree)
    requires WellFormed(t) && (job.Insert? || job.Remove?)
    ensures BuildOf(e, job, t).w.peak <= 2 * Height(t) + 4 && |BuildOf(e, job, t).w.held| == 0
  {
    hide DoInsert, DoRemove, WellFormed, Height, Grows, Sized, Ledger, Nodes, Items, Put, Cut, Contents, Has;
    if job.Insert? {
      DoInsertOK(e, Start(t), t, job.k, job.v);
    } else {
      DoRemoveOK(e, Start(t), t, job.k);
    }
  }

  /** The nodes a build creates are new and different. */
  ghost predicate NewNodes(made: seq<Addr>, used: set<Addr>) {
    Unique(multiset(made)) && forall a :: a in made ==> a != 0 && a !in used
  }

  lemma {:induction false} DistinctUnique(s: seq<Addr>)
    requires forall i, j :: 0 <= i < j < |s| ==> s[i] != s[j]
    ensures Unique(multiset(s))
    decreases |s|
  {
    if s != [] {
      DistinctUnique(s[..|s| - 1]);
      assert s == s[..|s| - 1] + [s[|s| - 1]];
    }
  }

  /** Whatever the interference, a build ends in a usable result or in one that is aborted, and never crashes. */
  lemma {:induction false} BuildOK(e: Env, job: Job, base: Tree, used: set<Addr>)
    requires WellFormed(base) && (job.Insert? || job.Remove?) && FreshAlloc(e, used)
    ensures var b := BuildOf(e, job, base);
            && !b.r.Fault? && NewNodes(b.w.created, used)
            && (b.r.Ok? && b.r.v.To? ==> Ready(base, job, b.r.v.t, b.reply, b.w.created, b.w.retired))
  {
    hide DoInsert, DoRemove, WellFormed, Ready;
    if job.Insert? {
      InsertReady(e, base, job.k, job.v);
    } else {
      RemoveReady(e, base, job.k);
    }
    var made := BuildOf(e, job, base).w.created;
    assert forall i :: 0 <= i < |made| ==> made[i] == e.alloc(i);
    DistinctUnique(made);
  }

  // ---------------------------------------------------------------- the invariant

  ghost predicate TreeOK(root: Tree, pl: map<Addr, Place>) {
    && WellFormed(root) && Unique(Nodes(root)) && 0 !in pl
    && (forall a :: a in Nodes(root) <==> a in pl && pl[a].InTree?)
  }

  /** Only nodes that have left the tree carry stamps, and a node handed to the collector carries both. */
  ghost predicate StampsOK(stamps: set<Edge>, pl: map<Addr, Place>) {
    && (forall a, d :: Edge(a, d) in stamps ==> a in pl && (pl[a].Dying? || pl[a].Retired?))
    && (forall a, d :: a in pl && pl[a].Retired? ==> Edge(a, d) in stamps)
  }

  /** The root pointer determines the version. */
  ghost predicate VersionsOK(versions: seq<Tree>, root: Tree, pl: map<Addr, Place>) {
    && root in versions
    && (forall t :: t in versions ==> WellFormed(t) && (t.Nil? || (t.a in pl && !pl[t.a].Private?)))
    && (forall t, u :: t in versions && u in versions && Address(t) == Address(u) ==> t == u)
  }

  ghost predicate ReplyFor(job: Job, reply: Reply) {
    (job.Get? && reply.Got?) || (job.Insert? && reply.Inserted?) || (job.Remove? && reply.Removed?)
  }

  ghost predicate PcOK(stamps: set<Edge>, job: Job, pc: Pc, base: Tree) {
    match pc
    case Idle => job.NoJob?
    case LoadRoot => !job.NoJob?
    case Walk(at) => job.Get?
      && (at.To? ==> WellFormed(at.t) && Lookup(Contents(at.t), job.k) == Lookup(Contents(base), job.k))
    case CheckRight(t) => job.Get? && t.Node? && Lookup(Contents(base), job.k) == Some(t.value)
    case Build(views) => (job.Insert? || job.Remove?) && forall i :: 0 <= i < |views| ==> views[i] <= stamps
    case Cas(tree, reply, made, gone) => Ready(base, job, tree, reply, made, gone) && Unique(multiset(made))
    case Commit(todo, half, reply) =>
      && ReplyFor(job, reply) && !job.Get? && Unique(multiset(todo))
      && (half ==> todo != [] && Edge(todo[0], L) in stamps)
    case Return(reply) => ReplyFor(job, reply) && (job.Get? ==> reply.res == Lookup(Contents(base), job.k))
    case Crash => false
  }

  /** The nodes a thread is responsible for. */
  ghost predicate Holdings(pl: map<Addr, Place>, t: Tid, pc: Pc) {
    && (forall a :: a in pl ==> (pl[a] == Private(t) <==> pc.Cas? && a in pc.made))
    && (forall a :: a in pl ==> (pl[a] == Dying(t) <==> pc.Commit? && a in pc.todo))
    && (pc.Cas? ==> forall a :: a in pc.made ==> a in pl)
    && (pc.Commit? ==> forall a :: a in pc.todo ==> a in pl)
  }

  ghost predicate ThreadOK(stamps: set<Edge>, versions: seq<Tree>, pl: map<Addr, Place>, t: Tid, th: Thread) {
    th.base in versions && PcOK(stamps, th.job, th.pc, th.base) && Holdings(pl, t, th.pc)
  }

  /** `m` counts once each node at the given kind of place. */
  ghost predicate Counts(m: multiset<Addr>, pl: map<Addr, Place>, p: Place) {
    && (forall a :: a in m ==> a in pl && pl[a] == p && m[a] == 1)
    && (forall a :: a in pl && pl[a] == p ==> a in m)
  }

  ghost predicate Owned(pl: map<Addr, Place>, threads: map<Tid, Thread>) {
    forall a :: a in pl && (pl[a].Private? || pl[a].Dying?) ==> pl[a].t in threads
  }

  ghost predicate Inv(s: State) {
    && TreeOK(s.root, s.place) && StampsOK(s.stamps, s.place) && VersionsOK(s.versions, s.root, s.place)
    && (forall t :: t in s.threads ==> ThreadOK(s.stamps, s.versions, s.place, t, s.threads[t]))
    && Counts(s.retired, s.place, Retired) && Counts(s.freed, s.place, Freed) && Owned(s.place, s.threads)
  }

  // ---------------------------------------------------------------- how a step moves nodes

  /** What another thread can rely on. */
  ghost predicate Rely(t: Tid, pl: map<Addr, Place>, pl': map<Addr, Place>) {
    && (forall a :: a in pl ==> a in pl')
    && (forall a, u :: a in pl' && u != t && (pl'[a] == Private(u) || pl'[a] == Dying(u)) ==>
      a in pl && pl[a] == pl'[a])
    && (forall a, u :: a in pl && u != t && (pl[a] == Private(u) || pl[a] == Dying(u)) ==> pl'[a] == pl[a])
    && (forall a :: a in pl && (pl[a].Retired? || pl[a].Freed?) ==> pl'[a] == pl[a])
    && (forall a :: a in pl && pl[a].Dying? ==> pl'[a].Dying? || pl'[a].Retired?)
  }

  lemma {:induction false} OtherStable(t: Tid, stamps: set<Edge>, versions: seq<Tree>, pl: map<Addr, Place>,
                                       stamps': set<Edge>, root': Tree, pl': map<Addr, Place>, u: Tid, th: Thread)
    requires ThreadOK(stamps, versions, pl, u, th) && u != t && Rely(t, pl, pl') && stamps <= stamps'
    ensures ThreadOK(stamps', versions + [root'], pl', u, th)
  {
    hide WellFormed, Ready, Contents;
  }

  /** The system after a step, given what the step did for the tree, the places and the acting thread. */
  ghost predicate Good(t: Tid, s: State, o: Out) {
    var pl' := Moved(t, s.place, o);
    && TreeOK(o.root, pl') && StampsOK(o.stamps, pl') && s.stamps <= o.stamps && Rely(t, s.place, pl')
    && VersionsOK(s.versions + [o.root], o.root, pl') && ThreadOK(o.stamps, s.versions + [o.root], pl', t, o.th)
    && Counts(s.retired + multiset(o.retired), pl', Retired) && Counts(s.freed + multiset(o.freed), pl', Freed)
  }

  lemma {:induction false} Step(s: State, s': State, t: Tid, o: Out)
    requires Inv(s) && StepOf(s, s', t, o) && Good(t, s, o)
    ensures Inv(s')
  {
    hide TreeOK, StampsOK, VersionsOK, ThreadOK, Counts, Local, Moved;
    forall u | u in s'.threads ensures ThreadOK(s'.stamps, s'.versions, s'.place, u, s'.threads[u]) {
      if u != t {
        OtherStable(t, s.stamps, s.versions, s.place, o.stamps, o.root, s'.place, u, s.threads[u]);
      }
    }
    forall a | a in s'.place && (s'.place[a].Private? || s'.place[a].Dying?) ensures s'.place[a].t in s'.threads {
      if s'.place[a].t != t {
        assert a in s.place && s.place[a] == s'.place[a];
      }
    }
  }
}
