/**
  The Natarajan-Mittal tree as a transition system: any number of threads run `get`, `insert` and
  `remove`, one atomic load, compare-and-set or fetch-or per step.
 */
module NMProtocol {
  import opened NMShape

  type Tid = nat

  /** The five nodes of the empty tree; the root is part of the map object itself. */
  const ROOT: Addr := 1
  const SENT: Addr := 2
  const INF0: Addr := 3
  const INF1: Addr := 4
  const INF2: Addr := 5

  /** The seek record. Its pointers carry no marks. */
  datatype Rec = Rec(anc: Addr, succ: Addr, sdir: Dir, parent: Addr, leaf: Addr, ldir: Dir)

  /** The call a thread is executing. A remove that has flagged its leaf goes from `Inject` to `Purge`. */
  datatype Job =
    | NoJob
    | Get(k: int)
    | Insert(k: int, v: V, nl: Addr, ni: Addr)
    | Inject(k: int)
    | Purge(k: int, leaf: Addr, v: V)

  datatype Reply =
    | Got(value: Option<V>)
    | Inserted
    | Refused(k: int, v: V)
    | Removed(value: Option<V>)

  /** Program counters. `Fault` is a dereference of nothing or an `unwrap` of `None`. */
  datatype Pc =
    | Idle
    | SeekRoot
    | SeekSent(s: Addr)
    | SeekNext(rec: Rec, prevTag: bool, dir: Dir)
    | Decide(rec: Rec)
    | CasInsert(rec: Rec)
    | CasFlag(rec: Rec, v: V)
    | LoadLeaf(rec: Rec)
    | TagSibling(rec: Rec, side: Dir)
    | LoadSibling(rec: Rec, side: Dir)
    | CasSplice(rec: Rec, side: Dir, sib: Addr, flag: bool)
    | WalkPop(stack: seq<Addr>, sib: Addr)
    | WalkRight(stack: seq<Addr>, sib: Addr, node: Addr)
    | Return(reply: Reply)
    | Fault

  datatype Thread = Thread(job: Job, pc: Pc)

  /** The result of one step: the heap, the thread, and the nodes handed to the collector or freed at once. */
  datatype Out = Out(heap: Heap, th: Thread, retired: set<Addr>, freed: set<Addr>)

  function Goto(h: Heap, th: Thread, pc: Pc): Out {
    Out(h, th.(pc := pc), {}, {})
  }

  // ---------------------------------------------------------------- seek

  /** The record after the search moves from `rec.leaf` along an edge. */
  function Advance(rec: Rec, prevTag: bool, dir: Dir, to: Addr): Rec {
    if prevTag then rec.(parent := rec.leaf, leaf := to, ldir := dir)
    else Rec(rec.parent, rec.leaf, rec.ldir, rec.leaf, to, dir)
  }

  function ExecSeek(h: Heap, th: Thread): Out
    requires th.pc.SeekRoot? || th.pc.SeekSent? || th.pc.SeekNext?
    requires !th.job.NoJob?
  {
    match th.pc
    case SeekRoot =>
      if ROOT !in h || h[ROOT].left.Marked() then Goto(h, th, Fault)
      else Goto(h, th, SeekSent(h[ROOT].left.ptr))
    case SeekSent(s) =>
      if s !in h || h[s].left.ptr !in h then Goto(h, th, Fault)
      else Goto(h, th, SeekNext(Rec(ROOT, s, L, s, h[s].left.ptr, L), false, L))
    case SeekNext(rec, prevTag, dir) =>
      if rec.leaf !in h then Goto(h, th, Fault)
      else
        var curr := h[rec.leaf].At(dir);
        if curr.ptr == NULL then Goto(h, th, Decide(rec))
        else if curr.ptr !in h then Goto(h, th, Fault)
        else Goto(h, th, SeekNext(Advance(rec, prevTag, dir, curr.ptr), curr.tag,
                                  if Above(h[curr.ptr].key, th.job.k) then L else R))
  }

  // ---------------------------------------------------------------- what a call does once its seek has ended

  /** The private internal node as `insert` fills it in. */
  function NewInternal(h: Heap, leaf: Addr, k: int, nl: Addr): Node
    requires leaf in h && nl in h
  {
    if Above(h[leaf].key, k) then Node(h[leaf].key, None, Plain(nl), Plain(leaf))
    else Node(h[nl].key, None, Plain(leaf), Plain(nl))
  }

  function ExecDecide(h: Heap, th: Thread): Out
    requires th.pc.Decide? && !th.job.NoJob?
  {
    var rec := th.pc.rec;
    if rec.leaf !in h then Goto(h, th, Fault)
    else
      var found := h[rec.leaf].key == Fin(th.job.k);
      match th.job
      case Get(_) =>
        if !found then Goto(h, th, Return(Got(None)))
        else if h[rec.leaf].value.None? then Goto(h, th, Fault)
        else Goto(h, th, Return(Got(h[rec.leaf].value)))
      case Insert(k, v, nl, ni) =>
        if nl !in h || ni !in h then Goto(h, th, Fault)
        else if found then
          if h[nl].value.None? then Goto(h, th, Fault)
          else Out(h, th.(pc := Return(Refused(k, h[nl].value.value))), {}, {nl, ni})
        else Goto(h[ni := NewInternal(h, rec.leaf, k, nl)], th, CasInsert(rec))
      case Inject(_) =>
        if !found then Goto(h, th, Return(Removed(None)))
        else if h[rec.leaf].value.None? then Goto(h, th, Fault)
        else Goto(h, th, CasFlag(rec, h[rec.leaf].value.value))
      case Purge(_, leaf, v) =>
        if rec.leaf != leaf then Goto(h, th, Return(Removed(Some(v)))) else Goto(h, th, LoadLeaf(rec))
  }

  function ExecCas(h: Heap, th: Thread): Out
    requires (th.pc.CasInsert? && th.job.Insert?) || (th.pc.CasFlag? && th.job.Inject?)
  {
    var rec := th.pc.rec;
    if rec.parent !in h then Goto(h, th, Fault)
    else
      var e := h[rec.parent].At(rec.ldir);
      if e == Plain(rec.leaf) then
        if th.pc.CasInsert? then
          Goto(h[rec.parent := h[rec.parent].Put(rec.ldir, Plain(th.job.ni))], th, Return(Inserted))
        else
          Out(h[rec.parent := h[rec.parent].Put(rec.ldir, Edge(rec.leaf, true, false))],
              Thread(Purge(th.job.k, rec.leaf, th.pc.v), LoadLeaf(rec)), {}, {})
      else if e.ptr == rec.leaf then Goto(h, th, LoadLeaf(rec))
      else Goto(h, th, SeekRoot)
  }

  // ---------------------------------------------------------------- cleanup

  /** Where a thread continues once `cleanup` has returned `unlinked`. */
  function AfterCleanup(job: Job, unlinked: bool): Pc {
    if job.Purge? && unlinked then Return(Removed(Some(job.v))) else SeekRoot
  }

  function ExecCleanup(h: Heap, th: Thread): Out
    requires th.pc.LoadLeaf? || th.pc.TagSibling? || th.pc.LoadSibling? || th.pc.CasSplice?
  {
    var rec := th.pc.rec;
    if rec.parent !in h || rec.anc !in h then Goto(h, th, Fault)
    else
      match th.pc
      case LoadLeaf(_) =>
        Goto(h, th, TagSibling(rec, if h[rec.parent].At(rec.ldir).flag then Other(rec.ldir) else rec.ldir))
      case TagSibling(_, side) =>
        Goto(h[rec.parent := h[rec.parent].Put(side, h[rec.parent].At(side).(tag := true))], th, LoadSibling(rec, side))
      case LoadSibling(_, side) =>
        var e := h[rec.parent].At(side);
        Goto(h, th, CasSplice(rec, side, e.ptr, e.flag))
      case CasSplice(_, _, sib, flag) =>
        if h[rec.anc].At(rec.sdir) == Plain(rec.succ) then
          Goto(h[rec.anc := h[rec.anc].Put(rec.sdir, Edge(sib, flag, false))], th, WalkPop([rec.succ], sib))
        else Goto(h, th, AfterCleanup(th.job, false))
  }

  /** The stack walk that hands the unlinked nodes to the collector. */
  function ExecWalk(h: Heap, th: Thread): Out
    requires th.pc.WalkPop? || th.pc.WalkRight?
  {
    match th.pc
    case WalkPop(stack, sib) =>
      if stack == [] then Goto(h, th, AfterCleanup(th.job, true))
      else
        var rest, n := stack[..|stack| - 1], stack[|stack| - 1];
        if n == NULL || n == sib then Goto(h, th, WalkPop(rest, sib))
        else if n !in h then Goto(h, th, Fault)
        else Goto(h, th, WalkRight(rest + [h[n].left.ptr], sib, n))
    case WalkRight(stack, sib, n) =>
      if n !in h then Goto(h, th, Fault)
      else Out(h, th.(pc := WalkPop(stack + [h[n].right.ptr], sib)), {n}, {})
  }

  /** A thread is between a call and its reply. */
  predicate Running(th: Thread) {
    !th.pc.Idle? && !th.pc.Return? && !th.pc.Fault?
  }

  /** The job a program counter belongs to. */
  predicate Matches(th: Thread) {
    && !th.job.NoJob?
    && (th.pc.CasInsert? ==> th.job.Insert?)
    && (th.pc.CasFlag? ==> th.job.Inject?)
  }

  function Exec(h: Heap, th: Thread): Out
    requires Running(th) && Matches(th)
  {
    match th.pc
    case SeekRoot => ExecSeek(h, th)
    case SeekSent(_) => ExecSeek(h, th)
    case SeekNext(_, _, _) => ExecSeek(h, th)
    case Decide(_) => ExecDecide(h, th)
    case CasInsert(_) => ExecCas(h, th)
    case CasFlag(_, _) => ExecCas(h, th)
    case WalkPop(_, _) => ExecWalk(h, th)
    case WalkRight(_, _, _) => ExecWalk(h, th)
    case LoadLeaf(_) => ExecCleanup(h, th)
    case TagSibling(_, _) => ExecCleanup(h, th)
    case LoadSibling(_, _) => ExecCleanup(h, th)
    case CasSplice(_, _, _, _) => ExecCleanup(h, th)
  }

  /** The start of a call. An insert allocates its leaf and its internal node at fresh addresses. */
  ghost predicate Begins(h: Heap, th: Thread, o: Out) {
    && th.pc.Idle?
    && o.th.pc == SeekRoot && o.retired == {} && o.freed == {}
    && match o.th.job
       case Get(_) => o.heap == h
       case Inject(_) => o.heap == h
       case Insert(k, v, nl, ni) =>
         && nl !in h && ni !in h && nl != ni && nl != NULL && ni != NULL
         && o.heap == h[nl := Node(Fin(k), Some(v), Plain(NULL), Plain(NULL))]
                       [ni := Node(Inf, None, Plain(NULL), Plain(NULL))]
       case _ => false
  }

  /** The end of a call. */
  ghost predicate Ends(h: Heap, th: Thread, o: Out) {
    th.pc.Return? && o == Out(h, Thread(NoJob, Idle), {}, {})
  }

  ghost predicate Local(h: Heap, th: Thread, o: Out) {
    || Begins(h, th, o)
    || Ends(h, th, o)
    || (Running(th) && Matches(th) && o == Exec(h, th))
  }

  // ---------------------------------------------------------------- the system

  /** Where an allocated node is. */
  datatype Place = InTree | Private(t: Tid) | Pending(t: Tid) | Retired | Freed

  /**
    The shared heap, the threads and the multiset of nodes handed to the collector. The other fields
    are history: they record what happened and no step depends on them.
    - `seen[t]`: the nodes that were on the search path of t's key at some state since t's last seek began;
    - `place[a]`: where node `a` is;
    - `claimed`: the leaves that some remove has flagged.
   */
  datatype State = State(heap: Heap, threads: map<Tid, Thread>, retired: multiset<Addr>,
                         seen: map<Tid, set<Addr>>, place: map<Addr, Place>, claimed: set<Addr>)

  /** The tree reachable from the root. */
  ghost function Shape(h: Heap): Tree {
    if exists t :: Rep(h, ROOT, t) then var t :| Rep(h, ROOT, t); t else Nil
  }

  /** The map the heap stands for. */
  ghost function Abs(s: State): map<int, V> {
    Contents(s.heap, Shape(s.heap))
  }

  ghost function Watch(seen: set<Addr>, th: Thread, restart: bool, h: Heap): set<Addr> {
    if th.job.NoJob? then {}
    else (if restart then {} else seen) + Path(h, Shape(h), th.job.k)
  }

  ghost function Moved(t: Tid, h: Heap, pl: map<Addr, Place>, o: Out): map<Addr, Place> {
    map a | a in o.heap ::
      if a in Addrs(Shape(o.heap)) then InTree
      else if a in Addrs(Shape(h)) then Pending(t)
      else if a in o.retired then Retired
      else if a in o.freed then Freed
      else if a in pl then pl[a]
      else Private(t)
  }

  /** Thread `t` takes one step. */
  ghost predicate StepOf(s: State, s': State, t: Tid, o: Out) {
    && t in s.threads
    && Local(s.heap, s.threads[t], o)
    && s'.heap == o.heap
    && s'.threads == s.threads[t := o.th]
    && s'.retired == s.retired + multiset(o.retired)
    && s'.seen == (map u | u in s.threads ::
         Watch(if u in s.seen then s.seen[u] else {}, s'.threads[u], u == t && o.th.pc.SeekRoot?, o.heap))
    && s'.place == Moved(t, s.heap, s.place, o)
    && s'.claimed
      == s.claimed + (if s.threads[t].pc.CasFlag? && o.th.job.Purge? then {s.threads[t].pc.rec.leaf} else {})
  }

  ghost predicate Next(s: State, s': State) {
    exists t, o :: StepOf(s, s', t, o)
  }

  function InitHeap(): Heap {
    map[ROOT := Node(Inf, None, Plain(SENT), Plain(INF2)),
        SENT := Node(Inf, None, Plain(INF0), Plain(INF1)),
        INF0 := Node(Inf, None, Plain(NULL), Plain(NULL)),
        INF1 := Node(Inf, None, Plain(NULL), Plain(NULL)),
        INF2 := Node(Inf, None, Plain(NULL), Plain(NULL))]
  }

  /** A new map shared by any finite set of idle threads. */
  ghost predicate Init(s: State) {
    && s.heap == InitHeap()
    && (forall t :: t in s.threads ==> s.threads[t] == Thread(NoJob, Idle))
    && s.retired == multiset{}
    && s.seen == (map t | t in s.threads :: {})
    && s.place == (map a | a in s.heap :: InTree)
    && s.claimed == {}
  }

  ghost predicate IsRun(r: seq<State>) {
    && |r| > 0 && Init(r[0])
    && forall i :: 0 <= i < |r| - 1 ==> Next(r[i], r[i + 1])
  }
}
