/**
  The Bonsai tree shared by any number of threads: a transition system with one atomic load, store or
  compare-and-set per step.
 */
module BonsaiModel {
  import opened BonsaiTree
  import opened BonsaiBuild

  type Tid = nat

  datatype Job = NoJob | Get(k: int) | Insert(k: int, v: V) | Remove(k: int)

  datatype Reply = Got(res: Option<V>) | Inserted(ok: bool) | Removed(value: Option<V>)

  /**
    Program counters. An update that builds keeps the stamps it met at each of its loads; a commit holds the
    nodes it still has to stamp and retire, and whether the first one is half stamped. `Crash` is a dereference
    of null.
   */
  datatype Pc =
    | Idle
    | LoadRoot
    | Walk(at: Ref)
    | CheckRight(found: Tree)
    | Build(views: seq<set<Edge>>)
    | Cas(tree: Tree, reply: Reply, made: seq<Addr>, gone: seq<Addr>)
    | Commit(todo: seq<Addr>, half: bool, reply: Reply)
    | Return(reply: Reply)
    | Crash

  /** `base` is the root that the thread loaded last. */
  datatype Thread = Thread(job: Job, pc: Pc, base: Tree)

  /**
    The result of one step: shared memory, the thread, and the nodes created, freed at once and handed to the
    collector.
   */
  datatype Out = Out(root: Tree, stamps: set<Edge>, th: Thread, swaps: bool, made: set<Addr>, freed: set<Addr>,
                     retired: set<Addr>)

  function Goto(root: Tree, stamps: set<Edge>, th: Thread, pc: Pc): Out {
    Out(root, stamps, th.(pc := pc), false, {}, {}, {})
  }

  /** The address in the root pointer, 0 for null. */
  function Address(t: Tree): Addr {
    if t.Nil? then 0 else t.a
  }

  function SetOf(s: seq<Addr>): set<Addr> {
    set a | a in s
  }

  // ---------------------------------------------------------------- get

  function ChildRef(stamps: set<Edge>, t: Tree, d: Side): Ref
    requires t.Node?
  {
    if Edge(t.a, d) in stamps then Stamp else To(Child(t, d))
  }

  function ExecGet(root: Tree, stamps: set<Edge>, th: Thread): Out
    requires th.job.Get? && (th.pc.LoadRoot? || th.pc.Walk? || th.pc.CheckRight?)
  {
    match th.pc
    case LoadRoot => Goto(root, stamps, th.(base := root), Walk(To(root)))
    case Walk(Stamp) => Goto(root, stamps, th, LoadRoot)
    case Walk(To(t)) =>
      if t.Nil? then Goto(root, stamps, th, Return(Got(None)))
      else if th.job.k == t.key then
        if ChildRef(stamps, t, L).Stamp? then Goto(root, stamps, th, LoadRoot)
          else Goto(root, stamps, th, CheckRight(t))
      else Goto(root, stamps, th, Walk(ChildRef(stamps, t, if th.job.k < t.key then L else R)))
    case CheckRight(t) =>
      if t.Nil? then Goto(root, stamps, th, Crash)
      else if ChildRef(stamps, t, R).Stamp? then Goto(root, stamps, th, LoadRoot)
      else Goto(root, stamps, th, Return(Got(Some(t.value))))
  }

  // ---------------------------------------------------------------- insert and remove

  /** What a build came to: a tree with the reply that goes with it, a stamp or an ejection, or a null dereference. */
  datatype Result = Result(r: Outcome<Ref>, reply: Reply, w: Work)

  function BuildOf(e: Env, job: Job, base: Tree): Result
    requires job.Insert? || job.Remove?
  {
    if job.Insert? then
      var m := DoInsert(e, Start(base), To(base), job.k, job.v);
      match m.o
      case Ok(x) => Result(Ok(x.r), Inserted(x.inserted), m.w)
      case Ejected => Result(Ejected, Inserted(false), m.w)
      case Fault => Result(Fault, Inserted(false), m.w)
    else
      var m := DoRemove(e, Start(base), To(base), job.k);
      match m.o
      case Ok(x) => Result(Ok(x.r), Removed(x.value), m.w)
      case Ejected => Result(Ejected, Removed(None), m.w)
      case Fault => Result(Fault, Removed(None), m.w)
  }

  /** The oracles of a build: each load saw the stamps of its moment, and all addresses are new. */
  ghost predicate Oracles(e: Env, views: seq<set<Edge>>, stamps: set<Edge>, used: set<Addr>) {
    && (forall n: nat :: e.view(n) == if n < |views| then views[n] else stamps)
    && FreshAlloc(e, used)
  }

  ghost predicate FreshAlloc(e: Env, used: set<Addr>) {
    && (forall i: nat :: e.alloc(i) != 0 && e.alloc(i) !in used)
    && (forall i: nat, j: nat :: i < j ==> e.alloc(i) != e.alloc(j))
  }

  /** The end of a build that made exactly the recorded loads; an unusable result is aborted. */
  ghost predicate Finishes(root: Tree, stamps: set<Edge>, used: set<Addr>, th: Thread, e: Env, o: Out)
    requires (th.job.Insert? || th.job.Remove?) && th.pc.Build?
  {
    var b := BuildOf(e, th.job, th.base);
    && Oracles(e, th.pc.views, stamps, used) && b.w.clock == |th.pc.views|
    && var made := SetOf(b.w.created);
       match b.r
       case Fault => o == Goto(root, stamps, th, Crash)
       case Ejected => o == Out(root, stamps, th.(pc := LoadRoot), false, made, made, {})
       case Ok(Stamp) => o == Out(root, stamps, th.(pc := LoadRoot), false, made, made, {})
       case Ok(To(t)) =>
         o == Out(root, stamps, th.(pc := Cas(t, b.reply, b.w.created, b.w.retired)), false, made, {}, {})
  }

  function ExecCas(root: Tree, stamps: set<Edge>, th: Thread): Out
    requires th.pc.Cas?
  {
    if Address(root) == Address(th.base) then
      Out(th.pc.tree, stamps, th.(pc := Commit(th.pc.gone, false, th.pc.reply)), true, {}, {}, {})
    else Out(root, stamps, th.(pc := LoadRoot), false, {}, SetOf(th.pc.made), {})
  }

  function ExecCommit(root: Tree, stamps: set<Edge>, th: Thread): Out
    requires th.pc.Commit?
  {
    var todo := th.pc.todo;
    if todo == [] then Goto(root, stamps, th, Return(th.pc.reply))
    else if !th.pc.half then Goto(root, stamps + {Edge(todo[0], L)}, th, Commit(todo, true, th.pc.reply))
    else Out(root, stamps + {Edge(todo[0], R)}, th.(pc := Commit(todo[1..], false, th.pc.reply)), false, {}, {},
      {todo[0]})
  }

  ghost predicate Updates(root: Tree, stamps: set<Edge>, used: set<Addr>, th: Thread, o: Out)
    requires th.job.Insert? || th.job.Remove?
  {
    match th.pc
    case LoadRoot => o == Goto(root, stamps, th.(base := root), Build([]))
    case Build(views) =>
      || o == Goto(root, stamps, th, Build(views + [stamps]))
      || (views == [] && o == Goto(root, stamps, th, LoadRoot))
      || exists e :: Finishes(root, stamps, used, th, e, o)
    case Cas(_, _, _, _) => o == ExecCas(root, stamps, th)
    case Commit(_, _, _) => o == ExecCommit(root, stamps, th)
    case _ => false
  }

  ghost predicate Local(root: Tree, stamps: set<Edge>, used: set<Addr>, th: Thread, o: Out) {
    || (th.pc.Idle? && !o.th.job.NoJob? && o.th.base == th.base && o == Goto(root, stamps, o.th, LoadRoot))
    || (th.pc.Return? && o == Goto(root, stamps, Thread(NoJob, Idle, th.base), Idle))
    || (th.job.Get? && (th.pc.LoadRoot? || th.pc.Walk? || th.pc.CheckRight?) && o == ExecGet(root, stamps, th))
    || ((th.job.Insert? || th.job.Remove?) && Updates(root, stamps, used, th, o))
  }

  // ---------------------------------------------------------------- the system

  /**
    Where a node is: in the current tree, built by `t` and not published, replaced by `t` and not yet retired,
    retired, or freed.
   */
  datatype Place = InTree | Private(t: Tid) | Dying(t: Tid) | Retired | Freed

  /**
    `versions` (all roots so far) and `place` are history, except that the domain of `place`, the addresses ever
    allocated, keeps new nodes apart from old ones.
   */
  datatype State = State(root: Tree, stamps: set<Edge>, threads: map<Tid, Thread>, retired: multiset<Addr>,
                         freed: multiset<Addr>, versions: seq<Tree>, place: map<Addr, Place>)

  ghost function Abs(s: State): map<int, V> {
    Contents(s.root)
  }

  ghost function Moved(t: Tid, pl: map<Addr, Place>, o: Out): map<Addr, Place> {
    map a | a in pl.Keys + o.made ::
      if a in Nodes(o.root) then InTree
      else if a in o.retired then Retired
      else if a in o.freed then Freed
      else if a in o.made then Private(t)
      else if o.swaps && (pl[a].InTree? || pl[a] == Private(t)) then Dying(t)
      else pl[a]
  }

  ghost predicate StepOf(s: State, s': State, t: Tid, o: Out) {
    && t in s.threads
    && Local(s.root, s.stamps, s.place.Keys, s.threads[t], o)
    && s'.root == o.root && s'.stamps == o.stamps && s'.threads == s.threads[t := o.th]
    && s'.retired == s.retired + multiset(o.retired) && s'.freed == s.freed + multiset(o.freed)
    && s'.versions == s.versions + [o.root]
    && s'.place == Moved(t, s.place, o)
  }

  ghost predicate Next(s: State, s': State) {
    exists t, o :: StepOf(s, s', t, o)
  }

  ghost predicate Init(s: State) {
    && s.root == Nil && s.stamps == {} && s.retired == multiset{} && s.freed == multiset{}
    && (forall t :: t in s.threads ==> s.threads[t] == Thread(NoJob, Idle, Nil))
    && s.versions == [Nil] && s.place == map[]
  }

  ghost predicate IsRun(r: seq<State>) {
    && |r| > 0 && Init(r[0])
    && forall i :: 0 <= i < |r| - 1 ==> Next(r[i], r[i + 1])
  }
}
