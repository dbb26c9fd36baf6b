/**
  Sequential histories of a map, and how to put the calls of a concurrent run into one: given the map in every
  state, the calls that only looked at it and the calls that changed it, there is one sequence of all of them that
  a sequential map would answer in the same way.
 */
module Linearize {

  datatype Maybe<V> = Nothing | Just(value: V)

  /** An operation of the map together with its reply. */
  datatype Act<V> =
    | Look(k: int, res: Maybe<V>)
    | Put(k: int, v: V, ok: bool)
    | Cut(k: int, res: Maybe<V>)

  function Find<V>(m: map<int, V>, k: int): Maybe<V> {
    if k in m then Just(m[k]) else Nothing
  }

  /** The reply is the one a sequential map gives. */
  ghost predicate Right<V>(m: map<int, V>, a: Act<V>) {
    match a
    case Look(k, res) => res == Find(m, k)
    case Put(k, _, ok) => ok <==> k !in m
    case Cut(k, res) => res == Find(m, k)
  }

  /** What a sequential map is afterwards. */
  ghost function Do<V>(m: map<int, V>, a: Act<V>): map<int, V> {
    match a
    case Look(_, _) => m
    case Put(k, v, _) => if k in m then m else m[k := v]
    case Cut(k, _) => m - {k}
  }

  predicate Changes<V>(a: Act<V>) {
    match a
    case Look(_, _) => false
    case Put(_, _, ok) => ok
    case Cut(_, res) => res.Just?
  }

  /** What the map holds for the key of an operation that has changed it. */
  function Result<V>(a: Act<V>): Maybe<V> {
    if a.Put? then Just(a.v) else Nothing
  }

  /** An operation of thread `t` that takes effect in state `at`, or in the step from it. */
  datatype Entry<V> = Entry(t: nat, at: nat, act: Act<V>)

  ghost function Replay<V>(s: seq<Entry<V>>): map<int, V> {
    if s == [] then map[] else Do(Replay(s[..|s| - 1]), s[|s| - 1].act)
  }

  /** Every reply is the one that the operations before it lead to. */
  ghost predicate Legal<V>(s: seq<Entry<V>>) {
    forall n :: 0 <= n < |s| ==> Right(Replay(s[..n]), s[n].act)
  }

  ghost predicate InTime<V>(s: seq<Entry<V>>) {
    forall x, y :: 0 <= x < y < |s| ==> s[x].at <= s[y].at
  }

  // ---------------------------------------------------------------- extending a history

  lemma {:induction false} Extend<V>(s: seq<Entry<V>>, e: Entry<V>)
    requires Legal(s) && Right(Replay(s), e.act)
    ensures Legal(s + [e]) && Replay(s + [e]) == Do(Replay(s), e.act)
  {
    var t := s + [e];
    assert t[..|t| - 1] == s;
    forall n | 0 <= n < |t| ensures Right(Replay(t[..n]), t[n].act) {
      if n < |s| {
        assert t[..n] == s[..n];
      }
    }
  }

  lemma {:induction false} Idle<V>(m: map<int, V>, a: Act<V>)
    requires Right(m, a) && !Changes(a)
    ensures Do(m, a) == m
  {
  }

  /** Operations that leave the map alone, in any order. */
  lemma {:induction false} ExtendReads<V>(s: seq<Entry<V>>, rs: seq<Entry<V>>)
    requires Legal(s) && forall n :: 0 <= n < |rs| ==> !Changes(rs[n].act) && Right(Replay(s), rs[n].act)
    ensures Legal(s + rs) && Replay(s + rs) == Replay(s)
    decreases |rs|
  {
    hide Right, Do, Replay, Legal, Changes;
    if rs == [] {
      assert s + rs == s;
    } else {
      var before, e := rs[..|rs| - 1], rs[|rs| - 1];
      ExtendReads(s, before);
      Extend(s + before, e);
      Idle(Replay(s), e.act);
      assert s + rs == s + before + [e];
    }
  }

  ghost predicate TouchedBy<V>(ws: seq<Entry<V>>, k: int) {
    exists n :: 0 <= n < |ws| && ws[n].act.k == k
  }

  lemma {:induction false} DoFind<V>(m: map<int, V>, a: Act<V>, k: int)
    requires Right(m, a) && Changes(a)
    ensures Find(Do(m, a), k) == if a.k == k then Result(a) else Find(m, k)
  {
  }

  lemma {:induction false} RightSame<V>(m: map<int, V>, m': map<int, V>, a: Act<V>)
    requires Right(m, a) && Find(m', a.k) == Find(m, a.k)
    ensures Right(m', a)
  {
  }

  /** Operations on different keys, each right for the map before all of them, in any order. */
  lemma {:induction false} ExtendWrites<V>(s: seq<Entry<V>>, ws: seq<Entry<V>>)
    requires Legal(s) && forall n :: 0 <= n < |ws| ==> Changes(ws[n].act) && Right(Replay(s), ws[n].act)
    requires forall x, y :: 0 <= x < y < |ws| ==> ws[x].act.k != ws[y].act.k
    ensures Legal(s + ws)
    ensures forall n :: 0 <= n < |ws| ==> Find(Replay(s + ws), ws[n].act.k) == Result(ws[n].act)
    ensures forall k :: !TouchedBy(ws, k) ==> Find(Replay(s + ws), k) == Find(Replay(s), k)
    decreases |ws|
  {
    hide Right, Do, Find, Replay, Legal, Changes;
    if ws == [] {
      assert s + ws == s;
    } else {
      var before, e := ws[..|ws| - 1], ws[|ws| - 1];
      ExtendWrites(s, before);
      var m := Replay(s + before);
      assert !TouchedBy(before, e.act.k);
      RightSame(Replay(s), m, e.act);
      Extend(s + before, e);
      assert s + ws == s + before + [e];
      forall k ensures Find(Replay(s + ws), k) == if e.act.k == k then Result(e.act) else Find(m, k) {
        DoFind(m, e.act, k);
      }
      forall n | 0 <= n < |ws| ensures Find(Replay(s + ws), ws[n].act.k) == Result(ws[n].act) {
        if n < |before| {
          assert before[n] == ws[n];
        }
      }
      forall k | !TouchedBy(ws, k) ensures Find(Replay(s + ws), k) == Find(Replay(s), k) {
        NotTouched(ws, k);
      }
    }
  }

  lemma {:induction false} NotTouched<V>(ws: seq<Entry<V>>, k: int)
    requires ws != [] && !TouchedBy(ws, k)
    ensures !TouchedBy(ws[..|ws| - 1], k) && ws[|ws| - 1].act.k != k
  {
    var before := ws[..|ws| - 1];
    forall n | 0 <= n < |before| ensures before[n].act.k != k {
      assert ws[n] == before[n];
    }
  }

  lemma {:induction false} SameMap<V>(m: map<int, V>, m': map<int, V>)
    requires forall k :: Find(m, k) == Find(m', k)
    ensures m == m'
  {
    forall k ensures k in m <==> k in m' {
      assert Find(m, k) == Find(m', k);
    }
    forall k | k in m ensures m[k] == m'[k] {
      assert Find(m, k) == Find(m', k);
    }
  }

  // ---------------------------------------------------------------- the whole run

  ghost predicate Touches<V>(ws: set<Entry<V>>, n: int, k: int) {
    exists e :: e in ws && e.at == n && e.act.k == k
  }

  /** The step from state `n` changes exactly the keys of the operations that take effect in it. */
  ghost predicate StepIs<V>(maps: seq<map<int, V>>, ws: set<Entry<V>>, n: int)
    requires 0 <= n < |maps| - 1
  {
    && (forall e :: e in ws && e.at == n ==> Find(maps[n + 1], e.act.k) == Result(e.act))
    && (forall k :: !Touches(ws, n, k) ==> Find(maps[n + 1], k) == Find(maps[n], k))
  }

  /** The map in every state of a run, the operations that only looked at it and those that changed it. */
  ghost predicate Consistent<V(!new)>(maps: seq<map<int, V>>, rs: set<Entry<V>>, ws: set<Entry<V>>) {
    && |maps| > 0 && maps[0] == map[]
    && (forall e :: e in rs ==> e.at < |maps| && !Changes(e.act) && Right(maps[e.at], e.act))
    && (forall e :: e in ws ==> e.at < |maps| - 1 && Changes(e.act) && Right(maps[e.at], e.act))
    && (forall e, f :: e in ws && f in ws && e.at == f.at && e.act.k == f.act.k ==> e == f)
    && (forall n :: 0 <= n < |maps| - 1 ==> StepIs(maps, ws, n))
  }

  /** The elements of a set in some order. */
  lemma {:induction false} Arrange<V>(es: set<Entry<V>>) returns (s: seq<Entry<V>>)
    ensures multiset(s) == multiset(es)
    ensures forall e :: e in s <==> e in es
    ensures forall x, y :: 0 <= x < y < |s| ==> s[x] != s[y]
    decreases |es|
  {
    if es == {} {
      s := [];
    } else {
      var e :| e in es;
      var t := Arrange(es - {e});
      s := t + [e];
      assert es == (es - {e}) + {e};
    }
  }

  ghost function At<V>(es: set<Entry<V>>, n: int): set<Entry<V>> {
    set e | e in es && e.at == n
  }

  ghost function Before<V>(es: set<Entry<V>>, n: int): set<Entry<V>> {
    set e | e in es && e.at < n
  }

  /** A history of everything that takes effect before state `n`. */
  ghost predicate HistoryTo<V(!new)>(maps: seq<map<int, V>>, rs: set<Entry<V>>, ws: set<Entry<V>>, n: int,
      s: seq<Entry<V>>)
    requires 0 <= n < |maps|
  {
    && Legal(s) && Replay(s) == maps[n] && InTime(s)
    && (forall x :: 0 <= x < |s| ==> s[x].at < n)
    && multiset(s) == multiset(Before(rs, n)) + multiset(Before(ws, n))
  }

  lemma {:induction false} BeforeNext<V>(es: set<Entry<V>>, n: int)
    ensures multiset(Before(es, n + 1)) == multiset(Before(es, n)) + multiset(At(es, n))
  {
    assert Before(es, n + 1) == Before(es, n) + At(es, n);
  }

  lemma {:induction false} InTimeAppend<V>(s: seq<Entry<V>>, t: seq<Entry<V>>, n: int)
    requires InTime(s) && (forall x :: 0 <= x < |s| ==> s[x].at <= n) && (forall x :: 0 <= x < |t| ==> t[x].at == n)
    ensures InTime(s + t) && forall x :: 0 <= x < |s + t| ==> (s + t)[x].at <= n
  {
  }

  /** The operations that look at state `n` come next. */
  lemma {:induction false} AddReads<V(!new)>(maps: seq<map<int, V>>, rs: set<Entry<V>>, ws: set<Entry<V>>, n: int,
      s: seq<Entry<V>>)
      returns (s': seq<Entry<V>>)
    requires Consistent(maps, rs, ws) && 0 <= n < |maps| && HistoryTo(maps, rs, ws, n, s)
    ensures Legal(s') && Replay(s') == maps[n] && InTime(s') && (forall x :: 0 <= x < |s'| ==> s'[x].at <= n)
    ensures multiset(s') == multiset(Before(rs, n + 1)) + multiset(Before(ws, n))
  {
    hide Right, Replay, Legal, Changes, StepIs;
    var r := Arrange(At(rs, n));
    forall x | 0 <= x < |r| ensures r[x] in rs && r[x].at == n {
      assert r[x] in r;
    }
    s' := s + r;
    ExtendReads(s, r);
    InTimeAppend(s, r, n);
    BeforeNext(rs, n);
  }

  /** Then the operations that take effect in the step from state `n`. */
  lemma {:induction false} AddWrites<V(!new)>(maps: seq<map<int, V>>, rs: set<Entry<V>>, ws: set<Entry<V>>, n: int,
      s: seq<Entry<V>>)
      returns (s': seq<Entry<V>>)
    requires Consistent(maps, rs, ws) && 0 <= n < |maps| - 1
    requires Legal(s) && Replay(s) == maps[n] && InTime(s) && (forall x :: 0 <= x < |s| ==> s[x].at <= n)
    requires multiset(s) == multiset(Before(rs, n + 1)) + multiset(Before(ws, n))
    ensures HistoryTo(maps, rs, ws, n + 1, s')
  {
    hide Right, Replay, Legal, Changes, Find;
    var w := Arrange(At(ws, n));
    forall x | 0 <= x < |w| ensures w[x] in ws && w[x].at == n {
      assert w[x] in w;
    }
    assert StepIs(maps, ws, n);
    s' := s + w;
    ExtendWrites(s, w);
    forall k ensures Find(Replay(s'), k) == Find(maps[n + 1], k) {
      if Touches(ws, n, k) {
        var e :| e in ws && e.at == n && e.act.k == k;
        assert e in w;
        var x :| 0 <= x < |w| && w[x] == e;
      } else {
        assert !TouchedBy(w, k);
      }
    }
    SameMap(Replay(s'), maps[n + 1]);
    InTimeAppend(s, w, n);
    BeforeNext(ws, n);
  }

  lemma {:induction false} Build<V(!new)>(maps: seq<map<int, V>>, rs: set<Entry<V>>, ws: set<Entry<V>>,
      n: int) returns (s: seq<Entry<V>>)
    requires Consistent(maps, rs, ws) && 0 <= n < |maps|
    ensures HistoryTo(maps, rs, ws, n, s)
    decreases n
  {
    hide Consistent, Right, Replay;
    if n == 0 {
      s := [];
      Nowhere(maps, rs, ws);
    } else {
      var p := Build(maps, rs, ws, n - 1);
      var q := AddReads(maps, rs, ws, n - 1, p);
      s := AddWrites(maps, rs, ws, n - 1, q);
    }
  }

  lemma {:induction false} Nowhere<V(!new)>(maps: seq<map<int, V>>, rs: set<Entry<V>>, ws: set<Entry<V>>)
    requires Consistent(maps, rs, ws)
    ensures HistoryTo(maps, rs, ws, 0, [])
  {
    assert Before(rs, 0) == {} && Before(ws, 0) == {};
    var none: set<Entry<V>> := {};
    assert multiset(none) == multiset{};
  }

  /**
    All the operations of a run in one sequence: it is a legal sequential history that leads to the map of the last
    state, it keeps the order of the moments at which the operations take effect, and each of them occurs once.
   */
  lemma {:induction false} Order<V(!new)>(maps: seq<map<int, V>>, rs: set<Entry<V>>,
      ws: set<Entry<V>>) returns (s: seq<Entry<V>>)
    requires Consistent(maps, rs, ws)
    ensures Legal(s) && Replay(s) == maps[|maps| - 1] && InTime(s)
    ensures forall e :: e in s <==> e in rs || e in ws
    ensures forall x, y :: 0 <= x < y < |s| ==> s[x] != s[y]
  {
    hide Right, Replay, Legal, StepIs;
    var n := |maps| - 1;
    var p := Build(maps, rs, ws, n);
    s := AddReads(maps, rs, ws, n, p);
    assert Before(rs, n + 1) == rs && Before(ws, n) == ws;
    forall e ensures multiset(s)[e] == if e in rs || e in ws then 1 else 0 {
      assert !(e in rs && e in ws);
    }
    forall e ensures e in s <==> e in rs || e in ws {
      assert e in s <==> e in multiset(s);
    }
    Once(s);
  }

  lemma {:induction false} Once<V>(s: seq<Entry<V>>)
    requires forall e :: multiset(s)[e] <= 1
    ensures forall x, y :: 0 <= x < y < |s| ==> s[x] != s[y]
  {
    forall x, y | 0 <= x < y < |s| ensures s[x] != s[y] {
      assert s == s[..y] + [s[y]] + s[y + 1..];
      assert multiset(s)[s[y]] <= 1;
      assert s[y] !in multiset(s[..y]);
      assert s[..y][x] == s[x];
    }
  }

  // ---------------------------------------------------------------- threads and calls

  /** An operation without its reply. */
  datatype Op<V> = Get(k: int) | Insert(k: int, v: V) | Remove(k: int)

  function OpOf<V>(a: Act<V>): Op<V> {
    match a
    case Look(k, _) => Get(k)
    case Put(k, v, _) => Insert(k, v)
    case Cut(k, _) => Remove(k)
  }

  /** What a thread is doing: nothing, an operation, or giving the reply to one. */
  datatype Status<V> = Away | Busy(op: Op<V>) | Replied(act: Act<V>)

  function InProgress<V>(x: Status<V>): Op<V>
    requires !x.Away?
  {
    if x.Busy? then x.op else OpOf(x.act)
  }

  /**
    One state of a run: the map, what every thread is doing, and the operations that change the map in the step
    from this state, by thread.
   */
  datatype View<V> = View(abs: map<int, V>, threads: map<nat, Status<V>>, effects: map<nat, Act<V>>)

  type History<V> = seq<View<V>>

  /** Thread `t` is inside one call in all states after `i` up to `j`. */
  ghost predicate CallOf<V>(h: History<V>, i: nat, j: nat, t: nat) {
    && i < j < |h| && t in h[i].threads && h[i].threads[t].Away?
    && forall m :: i < m <= j ==> t in h[m].threads && !h[m].threads[t].Away?
  }

  /** A call that begins with the step from state `i` and replies in state `j`. */
  ghost predicate Completed<V>(h: History<V>, i: nat, j: nat, t: nat) {
    CallOf(h, i, j, t) && h[j].threads[t].Replied? && !h[j - 1].threads[t].Replied?
  }

  /** How a thread goes on: its operation stays the same, and a reply is its last act. */
  ghost predicate Follows<V>(x: Status<V>, y: Status<V>) {
    match x
    case Away => !y.Replied?
    case Busy(op) => y.Away? || InProgress(y) == op
    case Replied(_) => y == x || y.Away?
  }

  /** An operation in progress changes the map rightly. */
  ghost predicate Effects<V>(v: View<V>, v': View<V>, t: nat)
    requires t in v.effects
  {
    var a := v.effects[t];
    && t in v.threads && v.threads[t] == Busy(OpOf(a))
    && Changes(a) && Right(v.abs, a) && Find(v'.abs, a.k) == Result(a)
  }

  ghost predicate Alters<V>(v: View<V>, k: int) {
    exists t :: t in v.effects && v.effects[t].k == k
  }

  /** One step: what every thread may do, and the map changes exactly at the keys of the effects. */
  ghost predicate StepFits<V>(v: View<V>, v': View<V>) {
    && v.threads.Keys == v'.threads.Keys
    && (forall t :: t in v.threads ==> Follows(v.threads[t], v'.threads[t]))
    && (forall t :: t in v.effects ==> Effects(v, v', t))
    && (forall t, u :: t in v.effects && u in v.effects && v.effects[t].k == v.effects[u].k ==> t == u)
    && (forall k :: !Alters(v, k) ==> Find(v'.abs, k) == Find(v.abs, k))
  }

  ghost predicate StepAt<V>(h: History<V>, n: int) {
    0 <= n < |h| - 1 && StepFits(h[n], h[n + 1])
  }

  ghost predicate Stepwise<V>(h: History<V>) {
    forall n :: 0 <= n < |h| - 1 ==> StepAt(h, n)
  }

  /** A completed call left the map alone and was right at some moment of it, or it took effect. */
  ghost predicate Accounted<V>(h: History<V>, i: nat, j: nat, t: nat)
    requires Completed(h, i, j, t)
  {
    var a := h[j].threads[t].act;
    if Changes(a) then exists n :: i < n < j && t in h[n].effects
    else exists m :: i < m <= j && Right(h[m].abs, a)
  }

  /** After its effect a call has no other one, and its reply is the one that goes with the effect. */
  ghost predicate Spent<V>(h: History<V>, n: nat, j: nat, t: nat)
    requires n < j < |h| && t in h[n].effects && t in h[j].threads
  {
    t !in h[j].effects && (h[j].threads[t].Replied? ==> h[j].threads[t].act == h[n].effects[t])
  }

  /** What a run has to provide for its calls to be put into one order. */
  ghost predicate Lawful<V>(h: History<V>) {
    && |h| > 0 && h[0].abs == map[] && h[|h| - 1].effects == map[]
    && Stepwise(h)
    && (forall i: nat, j: nat, t: nat :: Completed(h, i, j, t) ==> Accounted(h, i, j, t))
    && (forall i: nat, j: nat, n: nat, t: nat :: CallOf(h, i, j, t) && i < n < j && t in h[n].effects ==>
          Spent(h, n, j, t))
  }

  // ---------------------------------------------------------------- what follows for calls

  /** Once a call has replied, it does nothing else. */
  lemma {:induction false} ReplyKept<V>(h: History<V>, i: nat, m: nat, j: nat, t: nat)
    requires Stepwise(h) && CallOf(h, i, j, t) && i < m <= j && h[m].threads[t].Replied?
    ensures h[j].threads[t] == h[m].threads[t]
    decreases j
  {
    if m < j {
      assert CallOf(h, i, j - 1, t);
      ReplyKept(h, i, m, j - 1, t);
      assert StepAt(h, j - 1);
    }
  }

  lemma {:induction false} OpKept<V>(h: History<V>, i: nat, m: nat, j: nat, t: nat)
    requires Stepwise(h) && CallOf(h, i, j, t) && i < m <= j
    ensures InProgress(h[m].threads[t]) == InProgress(h[j].threads[t])
    decreases j
  {
    if m < j {
      assert CallOf(h, i, j - 1, t);
      OpKept(h, i, m, j - 1, t);
      assert StepAt(h, j - 1);
    }
  }

  lemma {:induction false} ThreadsSame<V>(h: History<V>, j: nat)
    requires Stepwise(h) && j < |h|
    ensures h[j].threads.Keys == h[0].threads.Keys
    decreases j
  {
    if j > 0 {
      ThreadsSame(h, j - 1);
      assert StepAt(h, j - 1);
    }
  }

  /** Calls of a thread that share a moment begin together, and if both are completed they are the same. */
  lemma {:induction false} SameCall<V>(h: History<V>, t: nat, i: nat, j: nat, i': nat, j': nat, m: nat)
    requires Stepwise(h) && CallOf(h, i, j, t) && CallOf(h, i', j', t) && i < m <= j && i' < m <= j'
    ensures i == i'
    ensures Completed(h, i, j, t) && Completed(h, i', j', t) ==> j == j'
  {
    hide Stepwise;
    if Completed(h, i, j, t) && Completed(h, i', j', t) {
      if j < j' {
        assert CallOf(h, i, j' - 1, t);
        ReplyKept(h, i, j, j' - 1, t);
      } else if j' < j {
        assert CallOf(h, i, j - 1, t);
        ReplyKept(h, i, j', j - 1, t);
      }
    }
  }

  // ---------------------------------------------------------------- the entries of a run

  ghost function Maps<V>(h: History<V>): seq<map<int, V>> {
    seq(|h|, n requires 0 <= n < |h| => h[n].abs)
  }

  /** The calls that changed the map, completed or not. */
  ghost function Writes<V>(h: History<V>): set<Entry<V>> {
    set n: nat, t | n < |h| && t in h[n].effects :: Entry(t, n, h[n].effects[t])
  }

  ghost predicate RightAt<V>(h: History<V>, i: nat, j: nat, t: nat, m: nat)
    requires Completed(h, i, j, t)
  {
    i < m <= j && Right(h[m].abs, h[j].threads[t].act)
  }

  /** A moment that accounts for a completed call that left the map alone. */
  ghost function Moment<V>(h: History<V>, i: nat, j: nat, t: nat): nat
    requires Completed(h, i, j, t)
  {
    if exists m: nat :: RightAt(h, i, j, t, m) then var m: nat :| RightAt(h, i, j, t, m); m else 0
  }

  /** The completed calls that left the map alone. */
  ghost function Reads<V>(h: History<V>): set<Entry<V>>
    requires |h| > 0
  {
    set t, i: nat, j: nat | t in h[0].threads && i < j < |h| && Completed(h, i, j, t)
                            && !Changes(h[j].threads[t].act) ::
      Entry(t, Moment(h, i, j, t), h[j].threads[t].act)
  }

  lemma {:induction false} ReadMoment<V>(h: History<V>, i: nat, j: nat, t: nat)
    requires Lawful(h) && Completed(h, i, j, t) && !Changes(h[j].threads[t].act)
    ensures RightAt(h, i, j, t, Moment(h, i, j, t))
  {
    assert Accounted(h, i, j, t);
    hide Lawful;
    var m :| i < m <= j && Right(h[m].abs, h[j].threads[t].act);
    assert RightAt(h, i, j, t, m);
  }

  /** The call behind a read. */
  lemma {:induction false} ReadOf<V>(h: History<V>, e: Entry<V>) returns (i: nat, j: nat)
    requires Lawful(h) && e in Reads(h)
    ensures Completed(h, i, j, e.t) && !Changes(e.act)
    ensures e == Entry(e.t, Moment(h, i, j, e.t), h[j].threads[e.t].act) && RightAt(h, i, j, e.t, e.at)
  {
    hide Lawful, Moment, Right, RightAt, Changes;
    Sized(h);
    var t: nat;
    t, i, j :| t in h[0].threads && i < j < |h| && Completed(h, i, j, t) && !Changes(h[j].threads[t].act)
      && e == Entry(t, Moment(h, i, j, t), h[j].threads[t].act);
    ReadMoment(h, i, j, t);
  }

  lemma {:induction false} Sized<V>(h: History<V>)
    requires Lawful(h)
    ensures |h| > 0 && h[0].abs == map[] && h[|h| - 1].effects == map[] && Stepwise(h)
  {
  }

  lemma {:induction false} WriteOf<V>(h: History<V>, e: Entry<V>)
    requires Lawful(h) && e in Writes(h)
    ensures e.at < |h| - 1 && e.t in h[e.at].effects && h[e.at].effects[e.t] == e.act
    ensures Effects(h[e.at], h[e.at + 1], e.t)
  {
    assert e.at < |h| && e.t in h[e.at].effects;
    assert StepAt(h, e.at);
  }

  lemma {:induction false} Fits<V(!new)>(h: History<V>)
    requires Lawful(h)
    ensures Consistent(Maps(h), Reads(h), Writes(h))
  {
    hide Lawful, Right, Changes, StepIs, Reads, Writes;
    Sized(h);
    var maps, rs, ws := Maps(h), Reads(h), Writes(h);
    forall e | e in rs ensures e.at < |maps| && !Changes(e.act) && Right(maps[e.at], e.act) {
      var i, j := ReadOf(h, e);
    }
    forall e | e in ws ensures e.at < |maps| - 1 && Changes(e.act) && Right(maps[e.at], e.act) {
      WriteOf(h, e);
    }
    forall e, f | e in ws && f in ws && e.at == f.at && e.act.k == f.act.k ensures e == f {
      KeyOnce(h, e, f);
    }
    forall n | 0 <= n < |maps| - 1 ensures StepIs(maps, ws, n) {
      StepMaps(h, n);
    }
  }

  lemma {:induction false} KeyOnce<V>(h: History<V>, e: Entry<V>, f: Entry<V>)
    requires Lawful(h) && e in Writes(h) && f in Writes(h) && e.at == f.at && e.act.k == f.act.k
    ensures e == f
  {
    WriteOf(h, e);
    WriteOf(h, f);
    assert StepAt(h, e.at);
  }

  lemma {:induction false} StepMaps<V>(h: History<V>, n: int)
    requires Lawful(h) && 0 <= n < |h| - 1
    ensures StepIs(Maps(h), Writes(h), n)
  {
    hide Right, Changes, Find, Result;
    var maps, ws := Maps(h), Writes(h);
    assert StepAt(h, n);
    forall e | e in ws && e.at == n ensures Find(maps[n + 1], e.act.k) == Result(e.act) {
      WriteOf(h, e);
    }
    forall k | !Touches(ws, n, k) ensures Find(maps[n + 1], k) == Find(maps[n], k) {
      forall t | t in h[n].effects ensures h[n].effects[t].k != k {
        assert Entry(t, n, h[n].effects[t]) in ws;
      }
      assert !Alters(h[n], k);
    }
  }

  // ---------------------------------------------------------------- every call once

  /** An entry of a thread inside one of its calls. */
  ghost predicate Inside<V>(e: Entry<V>, t: nat, i: nat, j: nat) {
    e.t == t && i < e.at <= j
  }

  /** A call takes effect before it replies. */
  lemma {:induction false} WriteBefore<V>(h: History<V>, e: Entry<V>, i: nat, j: nat, last: nat)
    requires Lawful(h) && e in Writes(h) && Completed(h, i, j, e.t) && CallOf(h, i, last, e.t)
    requires Inside(e, e.t, i, last)
    ensures e.at < j
  {
    hide Lawful, Stepwise, Writes;
    Sized(h);
    WriteOf(h, e);
    if j <= e.at {
      assert CallOf(h, i, e.at, e.t);
      ReplyKept(h, i, j, e.at, e.t);
    }
  }

  lemma {:induction false} WriteReply<V>(h: History<V>, e: Entry<V>, i: nat, j: nat)
    requires Lawful(h) && e in Writes(h) && Completed(h, i, j, e.t) && Inside(e, e.t, i, j)
    ensures e.act == h[j].threads[e.t].act && Changes(e.act)
  {
    WriteOf(h, e);
    WriteBefore(h, e, i, j, j);
    assert Spent(h, e.at, j, e.t);
  }

  /** A call takes effect at most once. */
  lemma {:induction false} WriteOnce<V>(h: History<V>, e: Entry<V>, f: Entry<V>, i: nat, j: nat)
    requires Lawful(h) && e in Writes(h) && f in Writes(h) && CallOf(h, i, j, e.t)
    requires Inside(e, e.t, i, j) && Inside(f, e.t, i, j) && e.at <= f.at
    ensures e == f
  {
    WriteOf(h, e);
    WriteOf(h, f);
    if e.at < f.at {
      assert CallOf(h, i, f.at, e.t);
    }
  }

  /** A completed call that left the map alone has no other entry. */
  lemma {:induction false} ReadAlone<V>(h: History<V>, e: Entry<V>, t: nat, i: nat, j: nat)
    requires Lawful(h) && Completed(h, i, j, t) && !Changes(h[j].threads[t].act)
    requires |h| > 0 && Inside(e, t, i, j) && (e in Reads(h) || e in Writes(h))
    ensures e == Entry(t, Moment(h, i, j, t), h[j].threads[t].act)
  {
    hide Lawful, Stepwise, Reads, Writes, Moment, Right;
    Sized(h);
    if e in Reads(h) {
      var i', j' := ReadOf(h, e);
      SameCall(h, t, i, j, i', j', e.at);
    } else {
      WriteReply(h, e, i, j);
    }
  }

  /** Two entries of a thread inside one of its calls, completed or not, are the same. */
  lemma {:induction false} OneInside<V>(h: History<V>, t: nat, i: nat, j: nat, e: Entry<V>, f: Entry<V>)
    requires Lawful(h) && CallOf(h, i, j, t) && Inside(e, t, i, j) && Inside(f, t, i, j) && e.at <= f.at
    requires |h| > 0 && (e in Reads(h) || e in Writes(h)) && (f in Reads(h) || f in Writes(h))
    ensures e == f
  {
    hide Lawful, Stepwise, Reads, Writes, Moment, Right;
    Sized(h);
    if f in Reads(h) {
      var i', j' := ReadOf(h, f);
      SameCall(h, t, i, j, i', j', f.at);
      ReadAlone(h, e, t, i', j');
    } else if e in Reads(h) {
      var i', j' := ReadOf(h, e);
      SameCall(h, t, i, j, i', j', e.at);
      WriteBefore(h, f, i, j', j);
      ReadAlone(h, f, t, i', j');
    } else {
      WriteOnce(h, e, f, i, j);
    }
  }

  /** A completed call has an entry with its reply. */
  lemma {:induction false} HasEntry<V>(h: History<V>, i: nat, j: nat, t: nat) returns (e: Entry<V>)
    requires Lawful(h) && Completed(h, i, j, t) && |h| > 0
    ensures (e in Reads(h) || e in Writes(h)) && Inside(e, t, i, j) && e.act == h[j].threads[t].act
  {
    if Changes(h[j].threads[t].act) {
      assert Accounted(h, i, j, t);
      var n :| i < n < j && t in h[n].effects;
      e := Entry(t, n, h[n].effects[t]);
      assert e in Writes(h);
      WriteReply(h, e, i, j);
    } else {
      ReadMoment(h, i, j, t);
      ThreadsSame(h, i);
      e := Entry(t, Moment(h, i, j, t), h[j].threads[t].act);
    }
  }

  // ---------------------------------------------------------------- one order

  /** The order has at most one entry inside the call. */
  ghost predicate AtMostOne<V>(s: seq<Entry<V>>, t: nat, i: nat, j: nat) {
    forall x, y :: 0 <= x < |s| && 0 <= y < |s| && Inside(s[x], t, i, j) && Inside(s[y], t, i, j) ==> x == y
  }

  /** The order has an entry inside the call with its operation and reply. */
  ghost predicate Has<V>(s: seq<Entry<V>>, t: nat, i: nat, j: nat, a: Act<V>) {
    exists x :: 0 <= x < |s| && Inside(s[x], t, i, j) && s[x].act == a
  }

  /** The entry is made by a call in progress, and has that call's operation. */
  ghost predicate Invoked<V>(h: History<V>, e: Entry<V>) {
    && e.at < |h| && e.t in h[e.at].threads && !h[e.at].threads[e.t].Away?
    && InProgress(h[e.at].threads[e.t]) == OpOf(e.act)
  }

  /**
    One total order of the calls of a run: every completed call occurs with its reply, at a moment inside the call;
    no call, completed or not, occurs twice; and every entry is made by a call in progress, with its operation.
   */
  ghost predicate Orders<V>(h: History<V>, s: seq<Entry<V>>) {
    && (forall i: nat, j: nat, t: nat :: Completed(h, i, j, t) ==> Has(s, t, i, j, h[j].threads[t].act))
    && (forall i: nat, j: nat, t: nat :: CallOf(h, i, j, t) ==> AtMostOne(s, t, i, j))
    && (forall x :: 0 <= x < |s| ==> Invoked(h, s[x]))
  }

  lemma {:induction false} EntryInvoked<V>(h: History<V>, e: Entry<V>)
    requires Lawful(h) && |h| > 0 && (e in Reads(h) || e in Writes(h))
    ensures Invoked(h, e)
  {
    hide Lawful, Stepwise, Reads, Writes, Moment, Right;
    Sized(h);
    if e in Writes(h) {
      WriteOf(h, e);
    } else {
      var i, j := ReadOf(h, e);
      OpKept(h, i, e.at, j, e.t);
    }
  }

  /**
    The calls of a run in one total order: a legal sequential history from the empty map to the map of the last
    state, in which the operations keep the order of the moments at which they take effect.
   */
  lemma {:induction false} Serialise<V(!new)>(h: History<V>) returns (s: seq<Entry<V>>)
    requires Lawful(h)
    ensures |h| > 0 && Legal(s) && Replay(s) == h[|h| - 1].abs && InTime(s) && Orders(h, s)
  {
    hide Legal, Replay, Lawful, Reads, Writes, Consistent;
    Sized(h);
    Fits(h);
    s := Order(Maps(h), Reads(h), Writes(h));
    forall i: nat, j: nat, t: nat | Completed(h, i, j, t) ensures Has(s, t, i, j, h[j].threads[t].act) {
      var e := HasEntry(h, i, j, t);
      assert e in s;
    }
    forall i: nat, j: nat, t: nat | CallOf(h, i, j, t) ensures AtMostOne(s, t, i, j) {
      forall x, y | 0 <= x < |s| && 0 <= y < |s| && Inside(s[x], t, i, j) && Inside(s[y], t, i, j) ensures x == y {
        assert s[x] in s && s[y] in s;
        if s[x].at <= s[y].at {
          OneInside(h, t, i, j, s[x], s[y]);
        } else {
          OneInside(h, t, i, j, s[y], s[x]);
        }
      }
    }
    forall x | 0 <= x < |s| ensures Invoked(h, s[x]) {
      assert s[x] in s;
      EntryInvoked(h, s[x]);
    }
  }

  /** The order respects time: a call that has ended by the time another one begins comes first. */
  lemma {:induction false} RealTime<V>(s: seq<Entry<V>>, x: int, t: nat, i: nat, j: nat, y: int, u: nat, i': nat,
      j': nat)
    requires InTime(s) && 0 <= x < |s| && 0 <= y < |s| && Inside(s[x], t, i, j) && Inside(s[y], u, i', j') && j <= i'
    ensures x < y
  {
  }
}
