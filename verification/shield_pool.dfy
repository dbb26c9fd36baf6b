/**
  The pool of shields: an allocator of indices. A shield is reused when one is available; when defending a
  reused shield fails, its index is not put back.
 */
module ShieldPools {

  type Ptr = nat

  datatype Option<T> = None | Some(value: T)

  // ---------------------------------------------------------------- the accounts of a pool

  /**
    Number of shields, free indices, indices of live handles, indices lost by failed reuses, and the most
    handles live at a time.
   */
  datatype Accounts = Accounts(size: nat, available: seq<nat>, live: set<nat>, lost: set<nat>, peak: nat)

  function Max(x: nat, y: nat): nat {
    if x < y then y else x
  }

  /** The index that the next defend uses. */
  function NextIndex(p: Accounts): nat {
    if p.available != [] then p.available[|p.available| - 1] else p.size
  }

  function Defended(p: Accounts, ejected: bool): Accounts {
    var i := NextIndex(p);
    if p.available != [] then
      var rest := p.available[..|p.available| - 1];
      if ejected then p.(available := rest, lost := p.lost + {i})
      else p.(available := rest, live := p.live + {i}, peak := Max(p.peak, |p.live + {i}|))
    else if ejected then p
    else p.(size := p.size + 1, live := p.live + {i}, peak := Max(p.peak, |p.live + {i}|))
  }

  function Released(p: Accounts, i: nat): Accounts {
    p.(available := p.available + [i], live := p.live - {i})
  }

  /** Free, live and lost indices partition the pool, and the pool is no larger than the peak plus the failures. */
  ghost predicate Sound(p: Accounts) {
    && Distinct(p.available)
    && (forall i :: i in p.available ==> i !in p.live && i !in p.lost)
    && (forall i :: i in p.live ==> i !in p.lost)
    && (forall i: nat :: i in p.available || i in p.live || i in p.lost <==> i < p.size)
    && p.size == |p.available| + |p.live| + |p.lost|
    && |p.live| <= p.peak && p.size <= p.peak + |p.lost|
  }

  lemma {:induction false} DefendSound(p: Accounts, ejected: bool)
    requires Sound(p)
    ensures Sound(Defended(p, ejected))
    ensures !ejected ==> NextIndex(p) !in p.live && NextIndex(p) in Defended(p, ejected).live
  {
    hide Sound;
    InRange(p);
    if p.available != [] {
      var rest := p.available[..|p.available| - 1];
      PopSound(p, NextIndex(p), rest);
    } else if !ejected {
      GrowSound(p);
    }
  }

  ghost predicate Distinct(s: seq<nat>) {
    forall j, k :: 0 <= j < k < |s| ==> s[j] != s[k]
  }

  lemma {:induction false} PopLast(s: seq<nat>, i: nat, rest: seq<nat>)
    requires Distinct(s) && s == rest + [i]
    ensures Distinct(rest) && i in s && i !in rest && forall x :: x in s <==> x in rest || x == i
  {
    assert s[|rest|] == i;
    forall j | 0 <= j < |rest| ensures rest[j] != i {
      assert s[j] == rest[j];
    }
    forall j, k | 0 <= j < k < |rest| ensures rest[j] != rest[k] {
      assert s[j] == rest[j] && s[k] == rest[k];
    }
  }

  /** Taking the last free index, for a handle or for nothing. */
  lemma {:induction false} PopSound(p: Accounts, i: nat, rest: seq<nat>)
    requires Sound(p) && p.available == rest + [i]
    ensures Sound(p.(available := rest, lost := p.lost + {i}))
    ensures Sound(p.(available := rest, live := p.live + {i}, peak := Max(p.peak, |p.live + {i}|)))
  {
    hide Sound;
    PopLost(p, i, rest);
    PopLive(p, i, rest);
  }

  lemma {:induction false} PopLost(p: Accounts, i: nat, rest: seq<nat>)
    requires Sound(p) && p.available == rest + [i]
    ensures Sound(p.(available := rest, lost := p.lost + {i}))
  {
    hide Distinct;
    PopLast(p.available, i, rest);
    assert |p.lost + {i}| == |p.lost| + 1;
  }

  lemma {:induction false} PopLive(p: Accounts, i: nat, rest: seq<nat>)
    requires Sound(p) && p.available == rest + [i]
    ensures Sound(p.(available := rest, live := p.live + {i}, peak := Max(p.peak, |p.live + {i}|)))
  {
    hide Distinct;
    PopLast(p.available, i, rest);
    assert |p.live + {i}| == |p.live| + 1;
  }

  /** A new shield at the end of the pool. */
  lemma {:induction false} GrowSound(p: Accounts)
    requires Sound(p) && p.available == []
    ensures Sound(p.(size := p.size + 1, live := p.live + {p.size}, peak := Max(p.peak, |p.live + {p.size}|)))
  {
    assert p.size !in p.live && p.size !in p.lost;
  }

  lemma {:induction false} ReleaseSound(p: Accounts, i: nat)
    requires Sound(p) && i in p.live
    ensures Sound(Released(p, i))
  {
    assert p.live == (p.live - {i}) + {i};
    assert forall x :: x in p.available + [i] <==> x in p.available || x == i;
  }

  /** The next free index is a shield of the pool that no handle uses, and so is every live one. */
  lemma {:induction false} InRange(p: Accounts)
    requires Sound(p)
    ensures p.available != [] ==> NextIndex(p) < p.size
    ensures NextIndex(p) !in p.live && forall i :: i in p.live ==> i < p.size
  {
    if p.available != [] {
      assert NextIndex(p) in p.available;
    }
  }

  // ---------------------------------------------------------------- any sequence of operations

  datatype Op = Defend(ejected: bool) | Release(index: nat)

  /** The pool after a sequence of operations; none if a handle is dropped that is not live. */
  function After(ops: seq<Op>): Option<Accounts> {
    if ops == [] then Some(Accounts(0, [], {}, {}, 0))
    else
      match After(ops[..|ops| - 1])
      case None => None
      case Some(p) =>
        match ops[|ops| - 1]
        case Defend(ejected) => Some(Defended(p, ejected))
        case Release(i) => if i in p.live then Some(Released(p, i)) else None
  }

  /** Defends that took an available shield and failed. */
  function FailedReuses(ops: seq<Op>): nat {
    if ops == [] then 0
    else
      var before := ops[..|ops| - 1];
      FailedReuses(before) +
        if ops[|ops| - 1] == Defend(true) && After(before).Some? && After(before).value.available != [] then 1 else 0
  }

  /** The most handles live at a time. */
  function PeakLive(ops: seq<Op>): nat {
    if ops == [] || After(ops).None? then 0
    else Max(PeakLive(ops[..|ops| - 1]), |After(ops).value.live|)
  }

  /**
    Over any sequence of defends, failing or not, and handle drops: the free indices are distinct, in range
    and not in use, and the size of the pool is exactly the free, live and failed-reuse indices together,
    never more than the peak of live handles plus the failed reuses.
   */
  lemma {:induction false} PoolAccounts(ops: seq<Op>)
    requires After(ops).Some?
    ensures var p := After(ops).value;
            && Sound(p) && p.size == |p.available| + |p.live| + FailedReuses(ops)
            && p.size <= PeakLive(ops) + FailedReuses(ops) && |p.lost| == FailedReuses(ops) && p.peak == PeakLive(ops)
    decreases |ops|
  {
    if ops != [] {
      var before := ops[..|ops| - 1];
      PoolAccounts(before);
      var p := After(before).value;
      match ops[|ops| - 1]
      case Defend(ejected) =>
        DefendSound(p, ejected);
        if p.available != [] {
          assert NextIndex(p) in p.available;
        }
      case Release(i) =>
        ReleaseSound(p, i);
        assert |p.live - {i}| <= |p.live|;
    }
  }

  // ---------------------------------------------------------------- use in nested scopes

  /** What nested scopes ask of a pool: a shield, or to take the most recent one back. */
  datatype Event = Take(ejected: bool) | Give

  function Gives(n: nat): seq<Event> {
    if n == 0 then [] else Gives(n - 1) + [Give]
  }

  /** How many shields are held after the events. */
  function LiveOf(log: seq<Event>): int {
    if log == [] then 0
    else
      LiveOf(log[..|log| - 1]) + match log[|log| - 1] case Take(ejected) => (if ejected then 0 else 1) case Give => -1
  }

  /** The most shields held at a time. */
  function PeakOf(log: seq<Event>): nat {
    if log == [] then 0
    else
      var before := PeakOf(log[..|log| - 1]);
      if before < LiveOf(log) then LiveOf(log) else before
  }

  /** No scope gives back more than was taken. */
  predicate Nested(log: seq<Event>) {
    log == [] || (Nested(log[..|log| - 1]) && LiveOf(log) >= 0)
  }

  /**
    The operations on the pool that the events amount to, the accounts after them, and the handles held, oldest
    first.
   */
  datatype Use = Use(ops: seq<Op>, books: Accounts, held: seq<nat>)

  function Replay(log: seq<Event>): Option<Use> {
    if log == [] then Some(Use([], Accounts(0, [], {}, {}, 0), []))
    else
      match Replay(log[..|log| - 1])
      case None => None
      case Some(u) =>
        match log[|log| - 1]
        case Take(ejected) =>
          Some(Use(u.ops + [Defend(ejected)], Defended(u.books, ejected),
                   if ejected then u.held else u.held + [NextIndex(u.books)]))
        case Give =>
          if u.held == [] then None
          else
            var i := u.held[|u.held| - 1];
            Some(Use(u.ops + [Release(i)], Released(u.books, i), u.held[..|u.held| - 1]))
  }

  /** The handles held are exactly the live ones. */
  ghost predicate HeldOK(u: Use) {
    && After(u.ops) == Some(u.books) && Sound(u.books) && Distinct(u.held) && |u.held| == |u.books.live|
    && (forall i :: i in u.held <==> i in u.books.live)
  }

  lemma {:induction false} TakeOK(u: Use, ejected: bool)
    requires HeldOK(u)
    ensures var i := NextIndex(u.books);
            HeldOK(Use(u.ops + [Defend(ejected)], Defended(u.books, ejected), if ejected then u.held else u.held + [i]))
  {
    hide Sound;
    DefendSound(u.books, ejected);
    var ops := u.ops + [Defend(ejected)];
    assert ops[..|ops| - 1] == u.ops;
    if !ejected {
      var held := u.held + [NextIndex(u.books)];
      assert forall i :: i in held <==> i in u.held || i == NextIndex(u.books);
      assert Defended(u.books, ejected).live == u.books.live + {NextIndex(u.books)};
    }
  }

  lemma {:induction false} GiveOK(u: Use, i: nat, rest: seq<nat>)
    requires HeldOK(u) && u.held == rest + [i]
    ensures HeldOK(Use(u.ops + [Release(i)], Released(u.books, i), rest))
  {
    hide Sound;
    PopLast(u.held, i, rest);
    assert i in u.books.live;
    ReleaseSound(u.books, i);
    var ops := u.ops + [Release(i)];
    assert ops[..|ops| - 1] == u.ops;
    assert u.books.live == Released(u.books, i).live + {i};
  }

  /** Nested scopes never drop a handle that is not live, and the accounts follow the events. */
  lemma {:induction false} ReplayOK(log: seq<Event>)
    requires Nested(log)
    ensures Replay(log).Some? && HeldOK(Replay(log).value)
    ensures |Replay(log).value.held| == LiveOf(log) && Replay(log).value.books.peak == PeakOf(log)
    decreases |log|
  {
    hide HeldOK;
    if log == [] {
      EmptyHeld();
    } else {
      var before := log[..|log| - 1];
      ReplayOK(before);
      var u := Replay(before).value;
      HeldLive(u);
      match log[|log| - 1]
      case Take(ejected) =>
        TakeOK(u, ejected);
        HeldLive(Replay(log).value);
      case Give =>
        assert u.held == u.held[..|u.held| - 1] + [u.held[|u.held| - 1]];
        GiveOK(u, u.held[|u.held| - 1], u.held[..|u.held| - 1]);
        PeakIsMost(before);
    }
  }

  lemma {:induction false} EmptyHeld()
    ensures HeldOK(Use([], Accounts(0, [], {}, {}, 0), []))
  {
  }

  lemma {:induction false} HeldLive(u: Use)
    requires HeldOK(u)
    ensures |u.held| == |u.books.live| && NextIndex(u.books) !in u.books.live && |u.books.live| <= u.books.peak
  {
    InRange(u.books);
  }

  lemma {:induction false} PeakIsMost(log: seq<Event>)
    ensures LiveOf(log) <= PeakOf(log)
  {
  }

  /**
    A pool used in nested scopes is never larger than the most shields held at a time plus the failed reuses, and
    when all scopes have been left no handle is live.
   */
  lemma {:induction false} NestedPool(log: seq<Event>)
    requires Nested(log)
    ensures Replay(log).Some? && After(Replay(log).value.ops) == Some(Replay(log).value.books)
    ensures var u := Replay(log).value;
            && u.books.size <= PeakOf(log) + FailedReuses(u.ops)
            && (LiveOf(log) == 0 ==> u.books.live == {})
  {
    ReplayOK(log);
    PoolAccounts(Replay(log).value.ops);
  }

  lemma {:induction false} LiveAppend(a: seq<Event>, b: seq<Event>)
    ensures LiveOf(a + b) == LiveOf(a) + LiveOf(b)
    decreases |b|
  {
    if b == [] {
      assert a + b == a;
    } else {
      assert (a + b)[..|a + b| - 1] == a + b[..|b| - 1];
      LiveAppend(a, b[..|b| - 1]);
    }
  }

  /** Events one after the other, the first part ending with no shield held. */
  lemma {:induction false} NestedAppend(a: seq<Event>, b: seq<Event>)
    requires Nested(a) && Nested(b) && LiveOf(a) == 0
    ensures Nested(a + b) && PeakOf(a + b) == Max(PeakOf(a), PeakOf(b))
    decreases |b|
  {
    LiveAppend(a, b);
    if b == [] {
      assert a + b == a;
    } else {
      assert (a + b)[..|a + b| - 1] == a + b[..|b| - 1];
      NestedAppend(a, b[..|b| - 1]);
    }
  }

  // ---------------------------------------------------------------- the pool itself

  class ShieldPool {
    /** What each shield protects. */
    var shields: seq<Option<Ptr>>
    var available: seq<nat>
    ghost var live: set<nat>
    ghost var lost: set<nat>
    ghost var peak: nat

    ghost function Books(): Accounts
      reads this
    {
      Accounts(|shields|, available, live, lost, peak)
    }

    ghost predicate Valid()
      reads this
    {
      Sound(Books())
    }

    constructor ()
      ensures Valid() && Books() == Accounts(0, [], {}, {}, 0)
    {
      shields, available := [], [];
      live, lost, peak := {}, {}, 0;
    }

    /** Protects `ptr` by a shield of its own, or reports an ejection; no live handle's shield is touched. */
    method Defend(ptr: Ptr, ejected: bool) returns (handle: Option<nat>)
      requires Valid()
      modifies this
      ensures Valid() && Books() == Defended(old(Books()), ejected)
      ensures handle == if ejected then None else Some(NextIndex(old(Books())))
      ensures !ejected ==> handle.value !in old(live) && handle.value in live && shields[handle.value] == Some(ptr)
      ensures forall i :: i in old(live) ==> i in live && shields[i] == old(shields[i])
    {
      hide Sound;
      DefendSound(Books(), ejected);
      InRange(Books());
      if available != [] {
        var index := available[|available| - 1];
        available := available[..|available| - 1];
        if ejected {
          lost := lost + {index};
          return None;
        }
        shields := shields[index := Some(ptr)];
        live, peak := live + {index}, Max(peak, |live + {index}|);
        return Some(index);
      }
      if ejected {
        return None;
      }
      var index := |shields|;
      shields := shields + [Some(ptr)];
      live, peak := live + {index}, Max(peak, |live + {index}|);
      return Some(index);
    }

    /** Dropping a handle releases its shield and makes its index available. */
    method Release(index: nat)
      requires Valid() && index in live
      modifies this
      ensures Valid() && Books() == Released(old(Books()), index) && shields[index] == None
      ensures forall i :: i in live ==> shields[i] == old(shields[i])
    {
      hide Sound;
      ReleaseSound(Books(), index);
      InRange(Books());
      shields := shields[index := None];
      available := available + [index];
      live := live - {index};
    }
  }
}
