/**
  The sorted linked list with its three traversals (Harris, Harris-Michael, Herlihy-Shavit) as a
  transition system: any number of threads, one atomic load, compare-and-set or fetch-or per step.
 */
module ListModel {

  type Addr = nat
  const NULL: Addr := 0

  /** The list object: its `next` field is the atomic `head`. */
  const HEAD: Addr := 1

  type V(==, !new)
  type Tid = nat

  datatype Option<T> = None | Some(value: T)

  /** The head comes before every key. */
  datatype Key = Bot | Key(k: int)

  predicate Less(x: Key, y: Key) {
    y.Key? && (x.Bot? || x.k < y.k)
  }

  /** A pointer with its mark bit; a marked `next` means that its node is logically removed. */
  datatype Link = Link(ptr: Addr, mark: bool)

  datatype Node = Node(key: Key, value: Option<V>, next: Link)

  type Heap = map<Addr, Node>

  // ---------------------------------------------------------------- the physical chain and its contents

  /** `c` is the sequence of nodes reached from the head. */
  ghost predicate IsChain(h: Heap, c: seq<Addr>) {
    && |c| > 0 && c[0] == HEAD
    && (forall i :: 0 <= i < |c| ==> c[i] in h && c[i] != NULL)
    && (forall i :: 0 <= i < |c| - 1 ==> h[c[i]].next.ptr == c[i + 1])
    && h[c[|c| - 1]].next.ptr == NULL
  }

  ghost function Chain(h: Heap): seq<Addr> {
    if exists c :: IsChain(h, c) then var c :| IsChain(h, c); c else []
  }

  /** The binding a node contributes: none once its `next` is marked. */
  ghost function Binding(h: Heap, a: Addr): map<int, V> {
    if a in h && h[a].key.Key? && h[a].value.Some? && !h[a].next.mark then map[h[a].key.k := h[a].value.value]
      else map[]
  }

  ghost function Contents(h: Heap, c: seq<Addr>): map<int, V> {
    if c == [] then map[] else Contents(h, c[..|c| - 1]) + Binding(h, c[|c| - 1])
  }

  ghost function Lookup(m: map<int, V>, k: int): Option<V> {
    if k in m then Some(m[k]) else None
  }

  // ---------------------------------------------------------------- calls

  datatype Kind = Harris | Michael | Shavit

  /** The Herlihy-Shavit traversal is used by `get` only. */
  datatype Job =
    | NoJob
    | Get(k: int, kind: Kind)
    | Insert(k: int, kind: Kind, v: V, node: Addr)
    | Remove(k: int, kind: Kind)

  datatype Reply = Got(value: Option<V>) | Inserted(ok: bool) | Removed(value: Option<V>)

  /**
    Program counters. `prev` is the node whose `next` field the cursor refers to. `Fault` is a dereference
    of nothing.
   */
  datatype Pc =
    | Idle
    | LoadHead
    | HLoop(prev: Addr, prevNext: Addr, curr: Addr)
    | HUnlink(prev: Addr, prevNext: Addr, curr: Addr, found: bool)
    | HRetire(node: Addr, prev: Addr, curr: Addr, found: bool)
    | MLoop(prev: Addr, curr: Addr)
    | MUnlink(prev: Addr, curr: Addr, next: Addr)
    | SLoop(prev: Addr, curr: Addr)
    | Found(found: bool, prev: Addr, curr: Addr)
    | CasInsert(prev: Addr, curr: Addr)
    | FetchOr(prev: Addr, curr: Addr)
    | CasUnlink(prev: Addr, curr: Addr, next: Addr, value: V)
    | Return(reply: Reply)
    | Fault

  datatype Thread = Thread(job: Job, pc: Pc)

  /**
    The result of one step: the heap, the thread, the nodes handed to the collector, the nodes freed at
    once, and the nodes whose value is disposed of (dropped or moved out to the caller).
   */
  datatype Out = Out(heap: Heap, th: Thread, retired: set<Addr>, freed: set<Addr>, spent: set<Addr>)

  function Goto(h: Heap, th: Thread, pc: Pc): Out {
    Out(h, th.(pc := pc), {}, {}, {})
  }

  function SetNext(h: Heap, a: Addr, l: Link): Heap
    requires a in h
  {
    h[a := h[a].(next := l)]
  }

  // ---------------------------------------------------------------- the traversals

  function ExecLoadHead(h: Heap, th: Thread): Out
    requires th.pc.LoadHead? && !th.job.NoJob?
  {
    if HEAD !in h || h[HEAD].next.mark then Goto(h, th, Fault)
    else
      var first := h[HEAD].next.ptr;
      match th.job.kind
      case Harris => Goto(h, th, HLoop(HEAD, first, first))
      case Michael => Goto(h, th, MLoop(HEAD, first))
      case Shavit => Goto(h, th, SLoop(HEAD, first))
  }

  /** The end of the finding phase of `find_harris`. */
  function HarrisEnds(prev: Addr, prevNext: Addr, curr: Addr, found: bool): Pc {
    if prevNext == curr then Found(found, prev, curr) else HUnlink(prev, prevNext, curr, found)
  }

  function ExecHarris(h: Heap, th: Thread): Out
    requires (th.pc.HLoop? || th.pc.HUnlink? || th.pc.HRetire?) && !th.job.NoJob?
  {
    match th.pc
    case HLoop(prev, prevNext, curr) =>
      if curr == NULL then Goto(h, th, HarrisEnds(prev, prevNext, curr, false))
      else if curr !in h then Goto(h, th, Fault)
      else
        var next := h[curr].next;
        if Less(h[curr].key, Key(th.job.k)) then
          if next.mark then Goto(h, th, HLoop(prev, prevNext, next.ptr))
          else Goto(h, th, HLoop(curr, next.ptr, next.ptr))
        else if !next.mark then Goto(h, th, HarrisEnds(prev, prevNext, curr, h[curr].key == Key(th.job.k)))
        else Goto(h, th, HLoop(prev, prevNext, next.ptr))
    case HUnlink(prev, prevNext, curr, found) =>
      if prev !in h then Goto(h, th, Fault)
      else if h[prev].next == Link(prevNext, false) then
        Goto(SetNext(h, prev, Link(curr, false)), th, HRetire(prevNext, prev, curr, found))
      else Goto(h, th, LoadHead)
    case HRetire(node, prev, curr, found) =>
      if node == curr then Goto(h, th, Found(found, prev, curr))
      else if node !in h then Goto(h, th, Fault)
      else Out(h, th.(pc := HRetire(h[node].next.ptr, prev, curr, found)), {node}, {}, {})
  }

  function ExecMichael(h: Heap, th: Thread): Out
    requires (th.pc.MLoop? || th.pc.MUnlink?) && !th.job.NoJob?
  {
    match th.pc
    case MLoop(prev, curr) =>
      if curr == NULL then Goto(h, th, Found(false, prev, curr))
      else if curr !in h then Goto(h, th, Fault)
      else
        var next := h[curr].next;
        if next.mark then Goto(h, th, MUnlink(prev, curr, next.ptr))
        else if Less(h[curr].key, Key(th.job.k)) then Goto(h, th, MLoop(curr, next.ptr))
        else Goto(h, th, Found(h[curr].key == Key(th.job.k), prev, curr))
    case MUnlink(prev, curr, next) =>
      if prev !in h then Goto(h, th, Fault)
      else if h[prev].next == Link(curr, false) then
        Out(SetNext(h, prev, Link(next, false)), th.(pc := MLoop(prev, next)), {curr}, {}, {})
      else Goto(h, th, LoadHead)
  }

  function ExecShavit(h: Heap, th: Thread): Out
    requires th.pc.SLoop? && !th.job.NoJob?
  {
    var prev, curr := th.pc.prev, th.pc.curr;
    if curr == NULL then Goto(h, th, Found(false, prev, curr))
    else if curr !in h then Goto(h, th, Fault)
    else if Less(h[curr].key, Key(th.job.k)) then Goto(h, th, SLoop(curr, h[curr].next.ptr))
    else if h[curr].key == Key(th.job.k) then Goto(h, th, Found(!h[curr].next.mark, prev, curr))
    else Goto(h, th, Found(false, prev, curr))
  }

  // ---------------------------------------------------------------- get, insert, remove

  function ExecFound(h: Heap, th: Thread): Out
    requires th.pc.Found? && !th.job.NoJob?
  {
    var found, prev, curr := th.pc.found, th.pc.prev, th.pc.curr;
    match th.job
    case Get(_, _) =>
      if !found then Goto(h, th, Return(Got(None)))
      else if curr !in h || h[curr].value.None? then Goto(h, th, Fault)
      else Goto(h, th, Return(Got(h[curr].value)))
    case Insert(_, _, _, node) =>
      if node !in h then Goto(h, th, Fault)
      else if found then Out(h, th.(pc := Return(Inserted(false))), {}, {node}, {node})
      else Goto(SetNext(h, node, Link(curr, false)), th, CasInsert(prev, curr))
    case Remove(_, _) =>
      if !found then Goto(h, th, Return(Removed(None))) else Goto(h, th, FetchOr(prev, curr))
  }

  function ExecUpdate(h: Heap, th: Thread): Out
    requires (th.pc.CasInsert? && th.job.Insert?) || ((th.pc.FetchOr? || th.pc.CasUnlink?) && th.job.Remove?)
  {
    match th.pc
    case CasInsert(prev, curr) =>
      if prev !in h then Goto(h, th, Fault)
      else if h[prev].next == Link(curr, false) then
        Goto(SetNext(h, prev, Link(th.job.node, false)), th, Return(Inserted(true)))
      else Goto(h, th, LoadHead)
    case FetchOr(prev, curr) =>
      if curr !in h || h[curr].value.None? then Goto(h, th, Fault)
      else if h[curr].next.mark then Goto(h, th, LoadHead)
      else Out(SetNext(h, curr, h[curr].next.(mark := true)),
               th.(pc := CasUnlink(prev, curr, h[curr].next.ptr, h[curr].value.value)), {}, {}, {curr})
    case CasUnlink(prev, curr, next, value) =>
      if prev !in h then Goto(h, th, Fault)
      else if h[prev].next == Link(curr, false) then
        Out(SetNext(h, prev, Link(next, false)), th.(pc := Return(Removed(Some(value)))), {curr}, {}, {})
      else Goto(h, th, Return(Removed(Some(value))))
  }

  predicate Running(th: Thread) {
    !th.pc.Idle? && !th.pc.Return? && !th.pc.Fault?
  }

  predicate Matches(th: Thread) {
    && !th.job.NoJob?
    && (th.pc.CasInsert? ==> th.job.Insert?)
    && (th.pc.FetchOr? || th.pc.CasUnlink? ==> th.job.Remove?)
  }

  function Exec(h: Heap, th: Thread): Out
    requires Running(th) && Matches(th)
  {
    match th.pc
    case LoadHead => ExecLoadHead(h, th)
    case HLoop(_, _, _) => ExecHarris(h, th)
    case HUnlink(_, _, _, _) => ExecHarris(h, th)
    case HRetire(_, _, _, _) => ExecHarris(h, th)
    case MLoop(_, _) => ExecMichael(h, th)
    case MUnlink(_, _, _) => ExecMichael(h, th)
    case SLoop(_, _) => ExecShavit(h, th)
    case Found(_, _, _) => ExecFound(h, th)
    case CasInsert(_, _) => ExecUpdate(h, th)
    case FetchOr(_, _) => ExecUpdate(h, th)
    case CasUnlink(_, _, _, _) => ExecUpdate(h, th)
  }

  /** The start of a call; an insert allocates its node at a fresh address. */
  ghost predicate Begins(h: Heap, th: Thread, o: Out) {
    && th.pc.Idle?
    && o.th.pc == LoadHead && o.retired == {} && o.freed == {} && o.spent == {}
    && match o.th.job
       case NoJob => false
       case Get(_, _) => o.heap == h
       case Remove(_, kind) => !kind.Shavit? && o.heap == h
       case Insert(k, kind, v, n) =>
         !kind.Shavit? && n !in h && n != NULL && o.heap == h[n := Node(Key(k), Some(v), Link(NULL, false))]
  }

  ghost predicate Ends(h: Heap, th: Thread, o: Out) {
    th.pc.Return? && o == Out(h, Thread(NoJob, Idle), {}, {}, {})
  }

  ghost predicate Local(h: Heap, th: Thread, o: Out) {
    || Begins(h, th, o)
    || Ends(h, th, o)
    || (Running(th) && Matches(th) && o == Exec(h, th))
  }

  // ---------------------------------------------------------------- the system

  /** Where an allocated node is. */
  datatype Place = InList | Private(t: Tid) | Pending(t: Tid) | Retired | Freed

  /**
    The shared heap, the threads, the nodes handed to the collector and the nodes whose value was disposed
    of, both counted. The other fields are history that no step depends on: since t's last traversal
    began, `seen[t]` holds the nodes that were in the chain at some state and `obs[t]` what the map held
    for t's key; `place[a]` says where node `a` is.
   */
  datatype State = State(heap: Heap, threads: map<Tid, Thread>, retired: multiset<Addr>, spent: multiset<Addr>,
                         seen: map<Tid, set<Addr>>, obs: map<Tid, set<Option<V>>>, place: map<Addr, Place>)

  ghost function Abs(s: State): map<int, V> {
    Contents(s.heap, Chain(s.heap))
  }

  ghost function Elems(c: seq<Addr>): set<Addr> {
    set a | a in c
  }

  ghost function WatchNodes(seen: set<Addr>, th: Thread, restart: bool, h: Heap): set<Addr> {
    if th.job.NoJob? then {} else (if restart then {} else seen) + Elems(Chain(h))
  }

  ghost function WatchKey(obs: set<Option<V>>, th: Thread, restart: bool, h: Heap): set<Option<V>> {
    if th.job.NoJob? then {} else (if restart then {} else obs) + {Lookup(Contents(h, Chain(h)), th.job.k)}
  }

  ghost function Moved(t: Tid, h: Heap, pl: map<Addr, Place>, o: Out): map<Addr, Place> {
    map a | a in o.heap ::
      if a in Chain(o.heap) then InList
      else if a in o.retired then Retired
      else if a in Chain(h) then Pending(t)
      else if a in o.freed then Freed
      else if a in pl then pl[a]
      else Private(t)
  }

  ghost predicate StepOf(s: State, s': State, t: Tid, o: Out) {
    && t in s.threads
    && Local(s.heap, s.threads[t], o)
    && s'.heap == o.heap
    && s'.threads == s.threads[t := o.th]
    && s'.retired == s.retired + multiset(o.retired)
    && s'.spent == s.spent + multiset(o.spent)
    && s'.seen == (map u | u in s.threads ::
         WatchNodes(if u in s.seen then s.seen[u] else {}, s'.threads[u], u == t && o.th.pc.LoadHead?, o.heap))
    && s'.obs == (map u | u in s.threads ::
         WatchKey(if u in s.obs then s.obs[u] else {}, s'.threads[u], u == t && o.th.pc.LoadHead?, o.heap))
    && s'.place == Moved(t, s.heap, s.place, o)
  }

  ghost predicate Next(s: State, s': State) {
    exists t, o :: StepOf(s, s', t, o)
  }

  ghost predicate Init(s: State) {
    && s.heap == map[HEAD := Node(Bot, None, Link(NULL, false))]
    && (forall t :: t in s.threads ==> s.threads[t] == Thread(NoJob, Idle))
    && s.retired == multiset{} && s.spent == multiset{}
    && s.seen == (map t | t in s.threads :: {})
    && s.obs == (map t | t in s.threads :: {})
    && s.place == map[HEAD := InList]
  }

  ghost predicate IsRun(r: seq<State>) {
    && |r| > 0 && Init(r[0])
    && forall i :: 0 <= i < |r| - 1 ==> Next(r[i], r[i + 1])
  }
}
