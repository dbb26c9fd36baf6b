/**
  Main results about whole runs of the shared Bonsai tree.
 */
module BonsaiRuns {
  import opened BonsaiTree
  import opened BonsaiBuild
  import opened BonsaiBalance
  import opened BonsaiUpdate
  import opened BonsaiModel
  import opened BonsaiInvariant

  // ---------------------------------------------------------------- every step keeps the invariant

  lemma {:induction false} SamePlaces(t: Tid, s: State, o: Out)
    requires TreeOK(s.root, s.place) && o.root == s.root && o.made == {} && o.freed == {} && o.retired == {} && !o.swaps
    ensures Moved(t, s.place, o) == s.place
  {
  }

  lemma {:induction false} SameVersions(s: State)
    requires VersionsOK(s.versions, s.root, s.place)
    ensures VersionsOK(s.versions + [s.root], s.root, s.place)
  {
    hide WellFormed;
  }

  lemma {:induction false} SameCounts(m: multiset<Addr>)
    ensures m + multiset({}) == m
  {
    var e: set<Addr> := {};
    assert multiset(e) == multiset{};
  }

  /** A step that changes neither the tree nor the places. */
  lemma {:induction false} Quiet(s: State, t: Tid, o: Out)
    requires Inv(s) && t in s.threads && o == Goto(s.root, o.stamps, o.th, o.th.pc) && s.stamps <= o.stamps
    requires StampsOK(o.stamps, s.place) && PcOK(o.stamps, o.th.job, o.th.pc, o.th.base)
      && Holdings(s.place, t, o.th.pc)
    requires o.th.base in s.versions
    ensures Good(t, s, o)
  {
    hide PcOK, StampsOK, Holdings;
    SamePlaces(t, s, o);
    SameVersions(s);
    SameCounts(s.retired);
    SameCounts(s.freed);
    hide TreeOK, VersionsOK, Counts, Moved;
  }

  /** What the invariant says about one thread. */
  lemma {:induction false} Facts(s: State, t: Tid)
    requires Inv(s) && t in s.threads
    ensures var th := s.threads[t];
            th.base in s.versions && PcOK(s.stamps, th.job, th.pc, th.base) && Holdings(s.place, t, th.pc)
              && WellFormed(th.base)
    ensures s.root in s.versions && WellFormed(s.root) && StampsOK(s.stamps, s.place)
  {
    hide PcOK, Holdings, StampsOK, WellFormed, Counts;
    assert ThreadOK(s.stamps, s.versions, s.place, t, s.threads[t]);
  }

  lemma {:induction false} HoldNone(pl: map<Addr, Place>, t: Tid, pc: Pc, pc': Pc)
    requires Holdings(pl, t, pc) && !pc.Cas? && !pc.Commit? && !pc'.Cas? && !pc'.Commit?
    ensures Holdings(pl, t, pc')
  {
  }

  lemma {:induction false} BeginEnd(s: State, t: Tid, o: Out)
    requires Inv(s) && t in s.threads && (s.threads[t].pc.Idle? || s.threads[t].pc.Return?)
      && Local(s.root, s.stamps, s.place.Keys, s.threads[t], o)
    ensures Good(t, s, o) && o.root == s.root
  {
    hide Inv, StampsOK, WellFormed, Contents, Good, Holdings;
    Facts(s, t);
    HoldNone(s.place, t, s.threads[t].pc, o.th.pc);
    Quiet(s, t, o);
  }

  /** Walking down a search tree. */
  lemma {:induction false} WalkDown(stamps: set<Edge>, t: Tree, k: int)
    requires WellFormed(t) && t.Node? && k != t.key
    ensures var r := ChildRef(stamps, t, if k < t.key then L else R);
            r.To? ==> WellFormed(r.t) && Lookup(Contents(r.t), k) == Lookup(Contents(t), k)
  {
    LookupSide(t, k);
  }

  lemma {:induction false} LookupHere(t: Tree)
    requires WellFormed(t)
    ensures t.Node? ==> Lookup(Contents(t), t.key) == Some(t.value)
    ensures t.Nil? ==> forall k :: Lookup(Contents(t), k) == None
  {
    if t.Node? {
      LookupSide(t, t.key);
    }
  }

  lemma {:induction false} GetPc(root: Tree, stamps: set<Edge>, th: Thread)
    requires th.job.Get? && (th.pc.LoadRoot? || th.pc.Walk? || th.pc.CheckRight?)
    requires PcOK(stamps, th.job, th.pc, th.base) && WellFormed(root)
    ensures var o := ExecGet(root, stamps, th);
            && PcOK(stamps, o.th.job, o.th.pc, o.th.base) && o == Goto(root, stamps, o.th, o.th.pc)
            && !o.th.pc.Cas? && !o.th.pc.Commit? && (o.th.base == root || o.th.base == th.base)
  {
    if th.pc.Walk? && th.pc.at.To? {
      LookupHere(th.pc.at.t);
      if th.pc.at.t.Node? && th.job.k != th.pc.at.t.key {
        WalkDown(stamps, th.pc.at.t, th.job.k);
      }
    }
    hide WellFormed, Contents, Lookup;
  }

  lemma {:induction false} GetStep(s: State, t: Tid, o: Out)
    requires Inv(s) && t in s.threads && s.threads[t].job.Get?
    requires s.threads[t].pc.LoadRoot? || s.threads[t].pc.Walk? || s.threads[t].pc.CheckRight?
    requires o == ExecGet(s.root, s.stamps, s.threads[t])
    ensures Good(t, s, o) && o.root == s.root
  {
    hide Inv, StampsOK, WellFormed, Contents, Good, Holdings, PcOK, ExecGet;
    Facts(s, t);
    GetPc(s.root, s.stamps, s.threads[t]);
    HoldNone(s.place, t, s.threads[t].pc, o.th.pc);
    Quiet(s, t, o);
  }

  lemma {:induction false} LoadStep(s: State, t: Tid, o: Out)
    requires Inv(s) && t in s.threads && (s.threads[t].job.Insert? || s.threads[t].job.Remove?)
    requires var th := s.threads[t];
             || (th.pc.LoadRoot? && o == Goto(s.root, s.stamps, th.(base := s.root), Build([])))
             || (th.pc.Build? && o == Goto(s.root, s.stamps, th, Build(th.pc.views + [s.stamps])))
             || (th.pc.Build? && o == Goto(s.root, s.stamps, th, LoadRoot))
    ensures Good(t, s, o) && o.root == s.root
  {
    hide Inv, StampsOK, WellFormed, Contents, Good, Holdings, Lookup, Ready;
    Facts(s, t);
    HoldNone(s.place, t, s.threads[t].pc, o.th.pc);
    Quiet(s, t, o);
  }

  // ---------------------------------------------------------------- commit

  lemma {:induction false} StampMore(s: State, t: Tid, a: Addr, d: Side)
    requires StampsOK(s.stamps, s.place) && a in s.place && s.place[a] == Dying(t)
    ensures StampsOK(s.stamps + {Edge(a, d)}, s.place)
  {
  }

  lemma {:induction false} CommitQuiet(s: State, t: Tid, o: Out)
    requires Inv(s) && t in s.threads && s.threads[t].pc.Commit?
      && (s.threads[t].pc.todo == [] || !s.threads[t].pc.half)
    requires o == ExecCommit(s.root, s.stamps, s.threads[t])
    ensures Good(t, s, o) && o.root == s.root
  {
    hide Inv, StampsOK, WellFormed, Contents, Good, Lookup, Ready;
    Facts(s, t);
    var th := s.threads[t];
    if th.pc.todo != [] {
      assert th.pc.todo[0] in th.pc.todo;
      StampMore(s, t, th.pc.todo[0], L);
    }
    Quiet(s, t, o);
  }

  lemma {:induction false} RetirePlaces(s: State, t: Tid, a: Addr, o: Out)
    requires TreeOK(s.root, s.place) && a in s.place && s.place[a] == Dying(t)
    requires o.root == s.root && o.made == {} && o.freed == {} && o.retired == {a} && !o.swaps
    ensures Moved(t, s.place, o) == s.place[a := Retired]
  {
  }

  /** Retiring a stamped node. */
  lemma {:induction false} RetireTree(s: State, t: Tid, a: Addr, pl': map<Addr, Place>)
    requires TreeOK(s.root, s.place) && StampsOK(s.stamps, s.place) && VersionsOK(s.versions, s.root, s.place)
    requires a in s.place && s.place[a] == Dying(t) && pl' == s.place[a := Retired] && Edge(a, L) in s.stamps
    ensures TreeOK(s.root, pl') && StampsOK(s.stamps + {Edge(a, R)}, pl')
      && VersionsOK(s.versions + [s.root], s.root, pl')
  {
    hide WellFormed;
    SameVersions(s);
    forall x, d | x in pl' && pl'[x].Retired? ensures Edge(x, d) in s.stamps + {Edge(a, R)} {
      assert x == a ==> d.L? || d.R?;
    }
  }

  lemma {:induction false} RetireCounts(s: State, t: Tid, a: Addr, pl': map<Addr, Place>)
    requires Counts(s.retired, s.place, Retired) && Counts(s.freed, s.place, Freed)
    requires a in s.place && s.place[a] == Dying(t) && pl' == s.place[a := Retired]
    ensures Rely(t, s.place, pl') && Counts(s.retired + multiset({a}), pl', Retired)
      && Counts(s.freed + multiset({}), pl', Freed)
  {
    SameCounts(s.freed);
    assert multiset({a}) == multiset{a};
    assert a !in s.retired;
  }

  lemma {:induction false} RetireThread(s: State, t: Tid, th: Thread, pl': map<Addr, Place>)
    requires th.pc.Commit? && th.pc.todo != [] && th.pc.half && Holdings(s.place, t, th.pc)
      && PcOK(s.stamps, th.job, th.pc, th.base)
    requires th.base in s.versions && pl' == s.place[th.pc.todo[0] := Retired]
    ensures var o := ExecCommit(s.root, s.stamps, th); ThreadOK(o.stamps, s.versions + [s.root], pl', t, o.th)
    ensures th.pc.todo[0] in s.place && s.place[th.pc.todo[0]] == Dying(t) && Edge(th.pc.todo[0], L) in s.stamps
  {
    UniqueTail(th.pc.todo);
    assert th.pc.todo[0] in th.pc.todo;
  }

  lemma {:induction false} RetireStep(s: State, t: Tid, o: Out)
    requires Inv(s) && t in s.threads && s.threads[t].pc.Commit? && s.threads[t].pc.todo != [] && s.threads[t].pc.half
    requires o == ExecCommit(s.root, s.stamps, s.threads[t])
    ensures Good(t, s, o) && o.root == s.root
  {
    Facts(s, t);
    var a := s.threads[t].pc.todo[0];
    var pl' := s.place[a := Retired];
    hide TreeOK, VersionsOK, StampsOK, Counts, Owned, Rely, ThreadOK, Moved, WellFormed, PcOK, Holdings;
    RetireThread(s, t, s.threads[t], pl');
    RetirePlaces(s, t, a, o);
    RetireTree(s, t, a, pl');
    RetireCounts(s, t, a, pl');
  }

  // ---------------------------------------------------------------- the end of a build

  /** The places after nodes have been created. */
  ghost function Added(pl: map<Addr, Place>, made: set<Addr>, p: Place): map<Addr, Place> {
    map a | a in pl.Keys + made :: if a in made then p else pl[a]
  }

  lemma {:induction false} AddPlaces(t: Tid, s: State, o: Out, p: Place)
    requires TreeOK(s.root, s.place) && o.root == s.root && o.retired == {} && !o.swaps
    requires forall a :: a in o.made ==> a !in s.place
    requires (p == Freed && o.freed == o.made) || (p == Private(t) && o.freed == {})
    ensures Moved(t, s.place, o) == Added(s.place, o.made, p)
  {
  }

  lemma {:induction false} AddTree(s: State, t: Tid, made: set<Addr>, p: Place)
    requires TreeOK(s.root, s.place) && StampsOK(s.stamps, s.place) && VersionsOK(s.versions, s.root, s.place)
    requires (forall a :: a in made ==> a != 0 && a !in s.place) && (p == Freed || p == Private(t))
    ensures var pl' := Added(s.place, made, p);
            TreeOK(s.root, pl') && StampsOK(s.stamps, pl') && VersionsOK(s.versions + [s.root], s.root, pl')
              && Rely(t, s.place, pl')
  {
    SameVersions(s);
    hide WellFormed;
  }

  lemma {:induction false} AddCounts(s: State, t: Tid, made: set<Addr>)
    requires Counts(s.retired, s.place, Retired) && Counts(s.freed, s.place, Freed)
      && (forall a :: a in made ==> a !in s.place)
    ensures Counts(s.retired + multiset({}), Added(s.place, made, Freed), Retired)
    ensures Counts(s.freed + multiset(made), Added(s.place, made, Freed), Freed)
    ensures Counts(s.retired + multiset({}), Added(s.place, made, Private(t)), Retired)
    ensures Counts(s.freed + multiset({}), Added(s.place, made, Private(t)), Freed)
  {
    hide Counts, Added;
    SameCounts(s.freed);
    SameCounts(s.retired);
    AddElsewhere(s.retired, s.place, made, Freed, Retired);
    AddElsewhere(s.retired, s.place, made, Private(t), Retired);
    AddElsewhere(s.freed, s.place, made, Private(t), Freed);
    AddHere(s.freed, s.place, made);
  }

  lemma {:induction false} AddElsewhere(m: multiset<Addr>, pl: map<Addr, Place>, made: set<Addr>, p: Place, q: Place)
    requires Counts(m, pl, q) && (forall a :: a in made ==> a !in pl) && p != q
    ensures Counts(m, Added(pl, made, p), q)
  {
  }

  lemma {:induction false} AddHere(m: multiset<Addr>, pl: map<Addr, Place>, made: set<Addr>)
    requires Counts(m, pl, Freed) && forall a :: a in made ==> a !in pl
    ensures Counts(m + multiset(made), Added(pl, made, Freed), Freed)
  {
    assert forall a :: multiset(made)[a] == if a in made then 1 else 0;
  }

  lemma {:induction false} AbortHolds(pl: map<Addr, Place>, t: Tid, pc: Pc, made: set<Addr>)
    requires Holdings(pl, t, pc) && !pc.Cas? && !pc.Commit?
    ensures Holdings(Added(pl, made, Freed), t, LoadRoot)
  {
  }

  lemma {:induction false} FinishHolds(pl: map<Addr, Place>, t: Tid, pc: Pc, pc': Pc)
    requires Holdings(pl, t, pc) && !pc.Cas? && !pc.Commit? && pc'.Cas?
    requires forall a :: a in pc'.made ==> a !in pl
    ensures Holdings(Added(pl, SetOf(pc'.made), Private(t)), t, pc')
  {
  }

  /** The invariant's parts about shared memory. */
  lemma {:induction false} Shared(s: State)
    requires Inv(s)
    ensures TreeOK(s.root, s.place) && StampsOK(s.stamps, s.place) && VersionsOK(s.versions, s.root, s.place)
    ensures Counts(s.retired, s.place, Retired) && Counts(s.freed, s.place, Freed)
  {
  }

  lemma {:induction false} FinishReady(s: State, t: Tid, th: Thread, tree: Tree, reply: Reply, w: Work, o: Out)
    requires Inv(s) && t in s.threads && th == s.threads[t] && th.pc.Build?
    requires NewNodes(w.created, s.place.Keys) && Ready(th.base, th.job, tree, reply, w.created, w.retired)
    requires o == Out(s.root, s.stamps, th.(pc := Cas(tree, reply, w.created, w.retired)), false, SetOf(w.created), {},
      {})
    ensures Good(t, s, o)
  {
    hide Inv, TreeOK, VersionsOK, StampsOK, Counts, Rely, Moved, WellFormed, Holdings, Ready, Added;
    Facts(s, t);
    Shared(s);
    AddCounts(s, t, o.made);
    AddPlaces(t, s, o, Private(t));
    AddTree(s, t, o.made, Private(t));
    FinishHolds(s.place, t, th.pc, o.th.pc);
  }

  lemma {:induction false} FinishAbort(s: State, t: Tid, th: Thread, w: Work, o: Out)
    requires Inv(s) && t in s.threads && th == s.threads[t] && th.pc.Build? && NewNodes(w.created, s.place.Keys)
    requires o == Out(s.root, s.stamps, th.(pc := LoadRoot), false, SetOf(w.created), SetOf(w.created), {})
    ensures Good(t, s, o)
  {
    hide Inv, TreeOK, VersionsOK, StampsOK, Counts, Rely, Moved, WellFormed, Holdings, Added;
    Facts(s, t);
    Shared(s);
    AddCounts(s, t, o.made);
    AddPlaces(t, s, o, Freed);
    AddTree(s, t, o.made, Freed);
    AbortHolds(s.place, t, th.pc, o.made);
  }

  lemma {:induction false} FinishStep(s: State, t: Tid, e: Env, o: Out)
    requires Inv(s) && t in s.threads && (s.threads[t].job.Insert? || s.threads[t].job.Remove?)
      && s.threads[t].pc.Build?
    requires Finishes(s.root, s.stamps, s.place.Keys, s.threads[t], e, o)
    ensures Good(t, s, o) && o.root == s.root
  {
    hide Inv, PcOK, WellFormed, Holdings, BuildOf, FreshAlloc, Ready, Good, StampsOK, NewNodes;
    Facts(s, t);
    var th := s.threads[t];
    var b := BuildOf(e, th.job, th.base);
    BuildOK(e, th.job, th.base, s.place.Keys);
    if b.r.Ok? && b.r.v.To? {
      FinishReady(s, t, th, b.r.v.t, b.reply, b.w, o);
    } else {
      FinishAbort(s, t, th, b.w, o);
    }
  }

  // ---------------------------------------------------------------- the compare-and-set

  lemma {:induction false} FailStep(s: State, t: Tid, o: Out)
    requires Inv(s) && t in s.threads && s.threads[t].pc.Cas? && Address(s.root) != Address(s.threads[t].base)
    requires o == ExecCas(s.root, s.stamps, s.threads[t]) && !s.threads[t].job.NoJob?
    ensures Good(t, s, o) && o.root == s.root
  {
    hide Inv, TreeOK, VersionsOK, StampsOK, Counts, Rely, Moved, WellFormed, Ready, Holdings, FreedNow;
    Facts(s, t);
    Shared(s);
    var th := s.threads[t];
    FailHolds(s.place, t, th.pc);
    FailPlaces(s, t, th.pc.made, o);
    FailTree(s, t, o.freed);
    FailCounts(s, t, o.freed);
  }

  lemma {:induction false} FailHolds(pl: map<Addr, Place>, t: Tid, pc: Pc)
    requires Holdings(pl, t, pc) && pc.Cas?
    ensures Holdings(FreedNow(pl, SetOf(pc.made)), t, LoadRoot)
    ensures forall a :: a in pc.made ==> a in pl && pl[a] == Private(t)
  {
  }

  ghost function FreedNow(pl: map<Addr, Place>, freed: set<Addr>): map<Addr, Place> {
    map a | a in pl :: if a in freed then Freed else pl[a]
  }

  lemma {:induction false} FailPlaces(s: State, t: Tid, made: seq<Addr>, o: Out)
    requires TreeOK(s.root, s.place) && o.root == s.root && o.made == {} && o.freed == SetOf(made) && o.retired == {}
      && !o.swaps
    requires forall a :: a in made ==> a in s.place && s.place[a] == Private(t)
    ensures Moved(t, s.place, o) == FreedNow(s.place, o.freed)
  {
  }

  lemma {:induction false} FailTree(s: State, t: Tid, freed: set<Addr>)
    requires TreeOK(s.root, s.place) && StampsOK(s.stamps, s.place) && VersionsOK(s.versions, s.root, s.place)
    requires forall a :: a in freed ==> a in s.place && s.place[a] == Private(t)
    ensures var pl' := FreedNow(s.place, freed);
            TreeOK(s.root, pl') && StampsOK(s.stamps, pl') && VersionsOK(s.versions + [s.root], s.root, pl')
              && Rely(t, s.place, pl')
  {
    SameVersions(s);
    hide WellFormed;
  }

  lemma {:induction false} FailCounts(s: State, t: Tid, freed: set<Addr>)
    requires Counts(s.retired, s.place, Retired) && Counts(s.freed, s.place, Freed)
    requires forall a :: a in freed ==> a in s.place && s.place[a] == Private(t)
    ensures var pl' := FreedNow(s.place, freed);
            Counts(s.retired + multiset({}), pl', Retired) && Counts(s.freed + multiset(freed), pl', Freed)
  {
    SameCounts(s.retired);
    assert forall a :: multiset(freed)[a] == if a in freed then 1 else 0;
  }

  // ---------------------------------------------------------------- publication

  /** Who is where after the new tree has been published. */
  lemma {:induction false} Accounted(base: multiset<Addr>, made: seq<Addr>, tree: multiset<Addr>, gone: seq<Addr>)
    requires base + multiset(made) == tree + multiset(gone) && Unique(base) && Unique(multiset(made))
    requires forall a :: a in made ==> a !in base
    ensures Unique(tree) && Unique(multiset(gone))
    ensures forall a :: a in tree || a in gone <==> a in base || a in made
    ensures forall a :: a in gone ==> a !in tree
  {
    var all := base + multiset(made);
    forall a ensures all[a] <= 1 && all[a] == tree[a] + multiset(gone)[a]
      ensures a in tree || a in gone <==> a in base || a in made
    {
      assert a in made <==> a in multiset(made);
      assert a in gone <==> a in multiset(gone);
      assert all[a] == (tree + multiset(gone))[a];
    }
    forall a | a in gone ensures a !in tree {
      assert a in multiset(gone);
    }
  }

  ghost function Swapped(t: Tid, pl: map<Addr, Place>, tree: Tree): map<Addr, Place> {
    map a | a in pl :: if a in Nodes(tree) then InTree else if pl[a].InTree? || pl[a] == Private(t) then Dying(t)
      else pl[a]
  }

  lemma {:induction false} SwapPlaces(t: Tid, s: State, o: Out)
    requires o.made == {} && o.freed == {} && o.retired == {} && o.swaps
    ensures Moved(t, s.place, o) == Swapped(t, s.place, o.root)
  {
  }

  lemma {:induction false} SwapTree(s: State, t: Tid, made: seq<Addr>, tree: Tree)
    requires TreeOK(s.root, s.place) && WellFormed(tree) && Unique(Nodes(tree))
    requires forall a :: a in made ==> a in s.place
    requires forall a :: a in Nodes(tree) ==> a in Nodes(s.root) || a in made
    ensures TreeOK(tree, Swapped(t, s.place, tree))
  {
    hide WellFormed, Unique, Nodes;
    var pl' := Swapped(t, s.place, tree);
    forall a ensures a in Nodes(tree) <==> a in pl' && pl'[a].InTree? {
      assert a in Nodes(s.root) ==> a in s.place;
    }
  }

  /** The nodes of the new tree were in the old one or are this thread's own. */
  lemma {:induction false} SwapFrom(s: State, t: Tid, made: seq<Addr>, tree: Tree)
    requires TreeOK(s.root, s.place)
    requires forall a :: a in made ==> a in s.place && s.place[a] == Private(t)
    requires forall a :: a in Nodes(tree) ==> a in Nodes(s.root) || a in made
    ensures forall a :: a in Nodes(tree) ==> a in s.place && (s.place[a].InTree? || s.place[a] == Private(t))
  {
    hide WellFormed, Unique, Nodes;
  }

  lemma {:induction false} SwapRely(s: State, t: Tid, tree: Tree)
    requires StampsOK(s.stamps, s.place)
    requires forall a :: a in Nodes(tree) ==> a in s.place && (s.place[a].InTree? || s.place[a] == Private(t))
    ensures StampsOK(s.stamps, Swapped(t, s.place, tree)) && Rely(t, s.place, Swapped(t, s.place, tree))
  {
    hide Nodes;
  }

  lemma {:induction false} SwapHolds(s: State, t: Tid, pc: Pc, tree: Tree)
    requires TreeOK(s.root, s.place) && Holdings(s.place, t, pc) && pc.Cas?
    requires forall a :: a in Nodes(tree) || a in pc.gone <==> a in Nodes(s.root) || a in pc.made
    requires forall a :: a in pc.gone ==> a !in Nodes(tree)
    ensures Holdings(Swapped(t, s.place, tree), t, Commit(pc.gone, false, pc.reply))
  {
    hide WellFormed, Unique;
  }

  lemma {:induction false} SwapCounts(t: Tid, m: multiset<Addr>, pl: map<Addr, Place>, tree: Tree, p: Place)
    requires Counts(m, pl, p) && (p == Retired || p == Freed)
    requires forall a :: a in Nodes(tree) ==> a in pl && (pl[a].InTree? || pl[a] == Private(t))
    ensures Counts(m + multiset({}), Swapped(t, pl, tree), p)
  {
    hide Nodes;
    SameCounts(m);
  }

  /** A new root is null, the old root, or a node never seen in the root pointer before. */
  lemma {:induction false} SwapVersions(s: State, t: Tid, tree: Tree, made: seq<Addr>, pl': map<Addr, Place>)
    requires VersionsOK(s.versions, s.root, s.place) && WellFormed(tree) && 0 !in s.place
    requires tree == s.root || tree.Nil? || tree.a in made
    requires forall a :: a in made ==> a in s.place && s.place[a] == Private(t)
    requires forall a :: a in s.place && !s.place[a].Private? ==> a in pl' && !pl'[a].Private?
    requires tree.Node? ==> tree.a in pl' && !pl'[tree.a].Private?
    ensures VersionsOK(s.versions + [tree], tree, pl')
  {
    hide WellFormed;
  }

  lemma {:induction false} SwapPublic(t: Tid, pl: map<Addr, Place>, tree: Tree)
    requires forall a :: a in Nodes(tree) ==> a in pl
    ensures var pl' := Swapped(t, pl, tree);
            && (forall a :: a in pl && !pl[a].Private? ==> a in pl' && !pl'[a].Private?)
            && (tree.Node? ==> tree.a in pl' && !pl'[tree.a].Private?)
  {
    assert tree.Node? ==> tree.a in Nodes(tree);
    hide Nodes;
  }

  /** A successful compare-and-set: the loaded root is still the current tree. */
  lemma {:induction false} SwapBase(s: State, t: Tid)
    requires Inv(s) && t in s.threads && Address(s.root) == Address(s.threads[t].base)
    ensures s.threads[t].base == s.root
  {
    hide TreeOK, PcOK, Holdings, StampsOK, Counts, WellFormed;
    assert ThreadOK(s.stamps, s.versions, s.place, t, s.threads[t]);
  }

  lemma {:induction false} SwapStep(s: State, t: Tid, o: Out)
    requires Inv(s) && t in s.threads && s.threads[t].pc.Cas? && Address(s.root) == Address(s.threads[t].base)
    requires o == ExecCas(s.root, s.stamps, s.threads[t]) && !s.threads[t].job.NoJob?
    ensures Good(t, s, o) && s.threads[t].base == s.root
      && Effect(s.threads[t].job, Contents(s.root), Contents(o.root), s.threads[t].pc.reply)
  {
    hide Inv, TreeOK, VersionsOK, StampsOK, Counts, Rely, Moved, WellFormed, Holdings, Swapped, Contents, Nodes, Unique;
    Facts(s, t);
    Shared(s);
    SwapBase(s, t);
    var th := s.threads[t];
    var tree, made, gone := th.pc.tree, th.pc.made, th.pc.gone;
    SwapOwn(s, t, th.pc);
    Accounted(Nodes(s.root), made, Nodes(tree), gone);
    SwapFrom(s, t, made, tree);
    SwapPlaces(t, s, o);
    SwapTree(s, t, made, tree);
    SwapRely(s, t, tree);
    SwapHolds(s, t, th.pc, tree);
    SwapCounts(t, s.retired, s.place, tree, Retired);
    SwapCounts(t, s.freed, s.place, tree, Freed);
    SwapPublic(t, s.place, tree);
    SwapVersions(s, t, tree, made, Swapped(t, s.place, tree));
    SwapThread(s, t, th, Swapped(t, s.place, tree), o);
    hide ThreadOK, PcOK, Effect;
  }

  lemma {:induction false} SwapThread(s: State, t: Tid, th: Thread, pl': map<Addr, Place>, o: Out)
    requires th.pc.Cas? && PcOK(s.stamps, th.job, th.pc, th.base) && th.base in s.versions
      && Unique(multiset(th.pc.gone))
    requires o == Out(th.pc.tree, s.stamps, th.(pc := Commit(th.pc.gone, false, th.pc.reply)), true, {}, {}, {})
    requires Holdings(pl', t, Commit(th.pc.gone, false, th.pc.reply))
    ensures ThreadOK(o.stamps, s.versions + [o.root], pl', t, o.th)
    ensures Effect(th.job, Contents(th.base), Contents(o.root), th.pc.reply)
  {
    hide Holdings, WellFormed, Contents, Nodes, Unique;
  }

  lemma {:induction false} SwapOwn(s: State, t: Tid, pc: Pc)
    requires TreeOK(s.root, s.place) && Holdings(s.place, t, pc) && pc.Cas?
    ensures Unique(Nodes(s.root)) && 0 !in s.place
    ensures forall a :: a in pc.made ==> a !in Nodes(s.root) && a in s.place && s.place[a] == Private(t)
  {
    hide Nodes, WellFormed;
  }

  // ---------------------------------------------------------------- the invariant over runs

  ghost predicate Swaps(s: State, s': State, t: Tid) {
    && t in s.threads && t in s'.threads && s.threads[t].pc.Cas? && s'.threads[t].pc.Commit?
    && s'.threads[t].pc.reply == s.threads[t].pc.reply && s'.threads[t].job == s.threads[t].job
    && s.threads[t].base == s.root
    && Effect(s.threads[t].job, Abs(s), Abs(s'), s'.threads[t].pc.reply)
  }

  lemma {:induction false} UpdateStep(s: State, s': State, t: Tid, o: Out)
    requires Inv(s) && StepOf(s, s', t, o) && (s.threads[t].job.Insert? || s.threads[t].job.Remove?)
    requires Updates(s.root, s.stamps, s.place.Keys, s.threads[t], o)
    ensures Good(t, s, o) && (s'.root == s.root || Swaps(s, s', t))
  {
    hide Inv, Good, Moved, Contents, Finishes;
    var th := s.threads[t];
    if th.pc.Build? && exists e :: Finishes(s.root, s.stamps, s.place.Keys, th, e, o) {
      var e :| Finishes(s.root, s.stamps, s.place.Keys, th, e, o);
      FinishStep(s, t, e, o);
    } else if th.pc.LoadRoot? || th.pc.Build? {
      LoadStep(s, t, o);
    } else if th.pc.Cas? {
      if Address(s.root) == Address(th.base) {
        SwapStep(s, t, o);
      } else {
        FailStep(s, t, o);
      }
    } else if th.pc.todo != [] && th.pc.half {
      RetireStep(s, t, o);
    } else {
      CommitQuiet(s, t, o);
    }
  }

  /**
    Every step keeps the invariant, and changes the map only by publishing the sequential update of the current
    tree.
   */
  lemma {:induction false} StepFacts(s: State, s': State, t: Tid, o: Out)
    requires Inv(s) && StepOf(s, s', t, o)
    ensures Inv(s') && Good(t, s, o) && (s'.root == s.root || Swaps(s, s', t))
  {
    hide Inv, Good, Moved, Updates, Swaps;
    Facts(s, t);
    hide PcOK;
    var th := s.threads[t];
    if th.pc.Idle? || th.pc.Return? {
      IdleJob(s, t);
      BeginEnd(s, t, o);
    } else if th.job.Get? {
      GetStep(s, t, o);
    } else {
      UpdateStep(s, s', t, o);
    }
    Step(s, s', t, o);
  }

  lemma {:induction false} IdleJob(s: State, t: Tid)
    requires Inv(s) && t in s.threads
    ensures s.threads[t].pc.Idle? <==> s.threads[t].job.NoJob?
    ensures !s.threads[t].pc.Crash?
  {
    hide Inv, Contents, Holdings, StampsOK, WellFormed;
    Facts(s, t);
  }

  lemma {:induction false} InitOK(s: State)
    requires Init(s)
    ensures Inv(s) && Abs(s) == map[]
  {
    assert Items(Nil) == [] && Nodes(Nil) == multiset{};
  }

  /** The invariant holds in every state of every run. */
  lemma {:induction false} RunInv(r: seq<State>, j: nat)
    requires IsRun(r) && j < |r|
    ensures Inv(r[j])
  {
    hide Inv, Init, StepOf, Abs;
    if j == 0 {
      InitOK(r[0]);
    } else {
      RunInv(r, j - 1);
      assert Next(r[j - 1], r[j - 1 + 1]);
      var t, o :| StepOf(r[j - 1], r[j], t, o);
      StepFacts(r[j - 1], r[j], t, o);
    }
  }

  /**
    In every reachable state: the tree is a search tree with exact sizes, no node of it carries a stamp, and no
    thread has crashed.
   */
  lemma {:induction false} SnapshotClean(r: seq<State>, j: nat)
    requires IsRun(r) && j < |r|
    ensures WellFormed(r[j].root) && Unique(Nodes(r[j].root))
    ensures forall a, d :: a in Nodes(r[j].root) ==> Edge(a, d) !in r[j].stamps
    ensures forall t :: t in r[j].threads ==> !r[j].threads[t].pc.Crash?
  {
    RunInv(r, j);
    var s := r[j];
    Shared(s);
    hide WellFormed, Nodes, Inv;
    forall t | t in s.threads ensures !s.threads[t].pc.Crash? {
      IdleJob(s, t);
    }
  }

  /** The converse for nodes that have left the tree: a node that was handed to the collector carries both stamps. */
  lemma {:induction false} RetiredStamped(r: seq<State>, j: nat, a: Addr)
    requires IsRun(r) && j < |r| && a in r[j].retired
    ensures Edge(a, L) in r[j].stamps && Edge(a, R) in r[j].stamps && a !in Nodes(r[j].root)
  {
    hide Inv, Init, Next, WellFormed, Nodes;
    RunInv(r, j);
    Shared(r[j]);
  }

  /**
    Serialisation: the map changes only when a compare-and-set installs the update of the map current at
    that moment, and the reply that goes with it is the sequential one.
   */
  lemma {:induction false} RunRefines(r: seq<State>, j: nat)
    requires IsRun(r) && j + 1 < |r|
    ensures Refines(r[j], r[j + 1])
  {
    hide Inv, Init, StepOf, Good;
    RunInv(r, j);
    assert Next(r[j], r[j + 1]);
    var t, o :| StepOf(r[j], r[j + 1], t, o);
    StepFacts(r[j], r[j + 1], t, o);
  }

  ghost predicate Refines(s: State, s': State) {
    s'.root == s.root || exists t :: Swaps(s, s', t)
  }

  // ---------------------------------------------------------------- nodes

  /**
    Every node ever allocated is in the tree, private to a builder, about to be retired, retired once or freed
    once, and in one of these only.
   */
  lemma {:induction false} NodesAccounted(r: seq<State>, j: nat, a: Addr)
    requires IsRun(r) && j < |r| && a in r[j].place
    ensures var s := r[j];
            Nodes(s.root)[a] + s.retired[a] + s.freed[a] + (if s.place[a].Private? || s.place[a].Dying? then 1 else 0)
              == 1
    ensures r[j].place[a].Private? ==>
      r[j].place[a].t in r[j].threads && r[j].threads[r[j].place[a].t].pc.Cas?
      && a in r[j].threads[r[j].place[a].t].pc.made
    ensures r[j].place[a].Dying? ==>
      r[j].place[a].t in r[j].threads && r[j].threads[r[j].place[a].t].pc.Commit?
      && a in r[j].threads[r[j].place[a].t].pc.todo
  {
    RunInv(r, j);
    var s := r[j];
    Shared(s);
    hide WellFormed, Nodes, PcOK, StampsOK, VersionsOK;
    if s.place[a].Private? || s.place[a].Dying? {
      assert s.place[a].t in s.threads;
      Facts(s, s.place[a].t);
    }
  }

  /** A node that is retired, or freed, stays so: it is never reachable again and never handed over twice. */
  lemma {:induction false} GoneForever(r: seq<State>, i: nat, j: nat, a: Addr)
    requires IsRun(r) && i <= j < |r| && (a in r[i].retired || a in r[i].freed)
    ensures a !in Nodes(r[j].root) && r[j].retired[a] + r[j].freed[a] == 1
    ensures a in r[i].retired <==> a in r[j].retired
    decreases j
  {
    hide Inv, Init, Next, Nodes;
    RunInv(r, j);
    if i < j {
      GoneForever(r, i, j - 1, a);
      RunInv(r, j - 1);
      assert Next(r[j - 1], r[j - 1 + 1]);
      GoneStep(r[j - 1], r[j], a);
    }
    GoneNow(r[j], a);
  }

  lemma {:induction false} GoneNow(s: State, a: Addr)
    requires Inv(s) && (a in s.retired || a in s.freed)
    ensures a !in Nodes(s.root) && s.retired[a] + s.freed[a] == 1
  {
    Shared(s);
    hide WellFormed, Nodes;
  }

  lemma {:induction false} GoneStep(s: State, s': State, a: Addr)
    requires Inv(s) && Next(s, s') && (a in s.retired || a in s.freed)
    ensures (a in s.retired <==> a in s'.retired) && (a in s.freed <==> a in s'.freed)
  {
    hide Local, Moved, Swaps, WellFormed, Nodes, TreeOK, VersionsOK, StampsOK, ThreadOK, Inv;
    var t, o :| StepOf(s, s', t, o);
    Shared(s);
    StepFacts(s, s', t, o);
    Shared(s');
  }

  // ---------------------------------------------------------------- linearizability

  /** Thread `t` is inside one call in all states after `r[i]` up to `r[j]`. */
  ghost predicate CallOf(r: seq<State>, i: nat, j: nat, t: Tid) {
    && i < j < |r| && t in r[i].threads && r[i].threads[t].job.NoJob?
    && forall m :: i < m <= j ==> t in r[m].threads && !r[m].threads[t].job.NoJob?
  }

  /** State `m` (for an update, the step from state `m`) accounts for the reply that `t` gives in state `j`. */
  ghost predicate Explains(r: seq<State>, m: nat, j: nat, t: Tid)
    requires m <= j < |r| && t in r[j].threads && r[j].threads[t].pc.Return?
  {
    var job, reply := r[j].threads[t].job, r[j].threads[t].pc.reply;
    match job
    case NoJob => false
    case Get(k) => reply == Got(Lookup(Abs(r[m]), k))
    case _ => m < j && Swaps(r[m], r[m + 1], t) && r[m].threads[t].job == job && r[m + 1].threads[t].pc.reply == reply
  }

  /** One step seen from a thread in the middle of a call. */
  lemma {:induction false} CallStep(s: State, s': State, t: Tid)
    requires Inv(s) && Next(s, s') && t in s.threads && t in s'.threads && !s'.threads[t].job.NoJob?
    ensures s.threads[t].job.NoJob? ==> s'.threads[t].pc.LoadRoot?
    ensures !s.threads[t].job.NoJob? ==> s'.threads[t].job == s.threads[t].job
    ensures !s.threads[t].job.NoJob? && !s'.threads[t].pc.LoadRoot? && s.threads[t].pc.LoadRoot? ==>
      s'.threads[t].base == s'.root
    ensures !s.threads[t].job.NoJob? && !s.threads[t].pc.LoadRoot? ==> s'.threads[t].base == s.threads[t].base
    ensures !s.threads[t].job.NoJob? && Replies(s'.threads[t]) ==>
              (Replies(s.threads[t]) && s'.threads[t].pc.reply == s.threads[t].pc.reply) || s.threads[t].job.Get?
                || Swaps(s, s', t)
  {
    hide Inv, Good, Moved, Contents, Finishes, Swaps;
    var u, o :| StepOf(s, s', u, o);
    IdleJob(s, t);
    if u == t {
      StepFacts(s, s', t, o);
      if s.threads[t].pc.Cas? && s'.threads[t].pc.Commit? {
        CasSwaps(s, s', t, o);
      }
      if s.threads[t].pc.Build? {
        BuildStays(s, t, o);
      }
    }
  }

  /** An update that has published its tree. */
  ghost predicate Replies(th: Thread) {
    th.pc.Commit? || th.pc.Return?
  }

  lemma {:induction false} BuildStays(s: State, t: Tid, o: Out)
    requires Inv(s) && t in s.threads && s.threads[t].pc.Build?
      && Local(s.root, s.stamps, s.place.Keys, s.threads[t], o)
    ensures o.th.job == s.threads[t].job && o.th.base == s.threads[t].base && !Replies(o.th)
  {
    hide Inv, Holdings, StampsOK, WellFormed, Oracles, BuildOf;
    Facts(s, t);
  }

  lemma {:induction false} CasSwaps(s: State, s': State, t: Tid, o: Out)
    requires Inv(s) && StepOf(s, s', t, o) && s.threads[t].pc.Cas? && o.th.pc.Commit?
    ensures Swaps(s, s', t)
  {
    hide Inv, Good, Moved, Contents, Finishes;
    IdleJob(s, t);
    CasJob(s, t);
    SwapStep(s, t, o);
  }

  lemma {:induction false} CasJob(s: State, t: Tid)
    requires Inv(s) && t in s.threads && s.threads[t].pc.Cas?
    ensures s.threads[t].job.Insert? || s.threads[t].job.Remove?
  {
    hide Inv, Holdings, StampsOK, WellFormed, Contents;
    Facts(s, t);
  }

  /** The loaded version was the current tree at some moment of the call. */
  lemma {:induction false} FindLoad(r: seq<State>, i: nat, j: nat, t: Tid) returns (m: nat)
    requires IsRun(r) && CallOf(r, i, j, t) && !r[j].threads[t].pc.LoadRoot?
    ensures i < m <= j && r[m].root == r[j].threads[t].base
    decreases j
  {
    hide Inv, Init, Next, Swaps;
    assert Next(r[j - 1], r[j - 1 + 1]);
    RunInv(r, j - 1);
    CallStep(r[j - 1], r[j], t);
    if r[j - 1].threads[t].pc.LoadRoot? {
      m := j;
    } else {
      m := FindLoad(r, i, j - 1, t);
    }
  }

  /** The reply of an update was fixed by the compare-and-set that published its tree. */
  lemma {:induction false} FindSwap(r: seq<State>, i: nat, j: nat, t: Tid) returns (m: nat)
    requires IsRun(r) && CallOf(r, i, j, t) && Replies(r[j].threads[t]) && !r[j].threads[t].job.Get?
    ensures i < m < j && Swaps(r[m], r[m + 1], t) && r[m].threads[t].job == r[j].threads[t].job
    ensures r[m + 1].threads[t].pc.reply == r[j].threads[t].pc.reply
    decreases j
  {
    hide Inv, Init, Next;
    assert Next(r[j - 1], r[j - 1 + 1]);
    RunInv(r, j - 1);
    CallStep(r[j - 1], r[j], t);
    if Swaps(r[j - 1], r[j], t) {
      m := j - 1;
    } else {
      m := FindSwap(r, i, j - 1, t);
    }
  }

  /**
    Linearizability: a get answers for the version it loaded, which was current during the call; an insert
    or remove is the one compare-and-set of its call.
   */
  lemma {:induction false} Linearizable(r: seq<State>, i: nat, j: nat, t: Tid) returns (m: nat)
    requires IsRun(r) && CallOf(r, i, j, t) && r[j].threads[t].pc.Return?
    ensures i < m <= j && Explains(r, m, j, t)
  {
    hide Inv, Init, Next, Swaps, Contents, Lookup;
    RunInv(r, j);
    if r[j].threads[t].job.Get? {
      m := FindLoad(r, i, j, t);
      GetReply(r[j], t);
    } else {
      m := FindSwap(r, i, j, t);
    }
  }

  lemma {:induction false} GetReply(s: State, t: Tid)
    requires Inv(s) && t in s.threads && s.threads[t].job.Get? && s.threads[t].pc.Return?
    ensures s.threads[t].pc.reply == Got(Lookup(Contents(s.threads[t].base), s.threads[t].job.k))
  {
    hide Inv, Holdings, StampsOK, WellFormed, Contents, Lookup;
    Facts(s, t);
  }

  // ---------------------------------------------------------------- stamps and progress

  lemma {:induction false} ClearTree(e: Env, t: Tree)
    requires forall a, n, d :: a in Nodes(t) ==> Edge(a, d) !in e.view(n)
    ensures Clear(e, t)
    decreases t
  {
    if t.Node? {
      assert t.a in Nodes(t);
      ClearTree(e, t.left);
      ClearTree(e, t.right);
    }
  }

  /**
    A build is given up because of a stamp or otherwise only if it was ejected or the root has moved on:
    while the loaded root is current, an undisturbed build always ends in a tree to publish.
   */
  lemma {:induction false} StampMeansChanged(r: seq<State>, j: nat, t: Tid, e: Env)
    requires IsRun(r) && j < |r| && t in r[j].threads && r[j].threads[t].pc.Build?
    requires r[j].threads[t].job.Insert? || r[j].threads[t].job.Remove?
    requires Oracles(e, r[j].threads[t].pc.views, r[j].stamps, r[j].place.Keys) && forall n :: !e.eject(n)
    ensures var b := BuildOf(e, r[j].threads[t].job, r[j].threads[t].base);
            b.r.Ok? && b.r.v.Stamp? ==> Address(r[j].threads[t].base) != Address(r[j].root)
  {
    hide Inv, Init, BuildOf, WellFormed, Nodes;
    RunInv(r, j);
    var s := r[j];
    if Address(s.threads[t].base) == Address(s.root) {
      SwapBase(s, t);
      SnapshotClean(r, j);
      ViewsOld(s, t);
      Shared(s);
      ClearNow(s.root, s.threads[t].pc.views, s.stamps, s.place, e);
      CalmBuild(e, s.threads[t].job, s.root);
    }
  }

  /** No load of the build has met a stamp in the current tree or in a new node. */
  lemma {:induction false} ClearNow(root: Tree, views: seq<set<Edge>>, stamps: set<Edge>, pl: map<Addr, Place>, e: Env)
    requires Oracles(e, views, stamps, pl.Keys) && StampsOK(stamps, pl) && (forall n :: !e.eject(n))
    requires forall a, d :: a in Nodes(root) ==> Edge(a, d) !in stamps
    requires forall i :: 0 <= i < |views| ==> views[i] <= stamps
    ensures Clear(e, root) && Undisturbed(e)
  {
    forall n: nat ensures e.view(n) <= stamps {
    }
    forall i: nat, n: nat, d ensures Edge(e.alloc(i), d) !in e.view(n) {
      assert e.alloc(i) !in pl;
      assert e.view(n) <= stamps;
    }
    hide Nodes;
    forall a, n: nat, d | a in Nodes(root) ensures Edge(a, d) !in e.view(n) {
      assert e.view(n) <= stamps;
    }
    ClearTree(e, root);
  }

  lemma {:induction false} ViewsOld(s: State, t: Tid)
    requires Inv(s) && t in s.threads && s.threads[t].pc.Build?
    ensures forall i :: 0 <= i < |s.threads[t].pc.views| ==> s.threads[t].pc.views[i] <= s.stamps
  {
    hide Inv, Holdings, StampsOK, WellFormed, Contents, Lookup;
    Facts(s, t);
  }
}
