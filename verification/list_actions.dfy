/**
  The ways in which the shared list changes: a node is linked in, a node is marked, a run of marked nodes
  is unlinked, or private memory is written.
 */
module ListActions {
  import opened ListModel
  import opened ListInvariant

  /** Position of a node in the chain. */
  lemma {:induction false} Position(c: seq<Addr>, a: Addr) returns (i: nat)
    requires a in c
    ensures i < |c| && c[i] == a
  {
    i :| 0 <= i < |c| && c[i] == a;
  }

  lemma {:induction false} ChainDistinct(h: Heap, c: seq<Addr>, pl: map<Addr, Place>)
    requires HeapOK(h, c, pl)
    ensures forall i, j :: 0 <= i < j < |c| ==> c[i] != c[j]
  {
    ChainSorted(h, c, pl);
  }

  /** Equal bindings give equal maps. */
  lemma {:induction false} ContentsSame(h: Heap, c: seq<Addr>, h': Heap, c': seq<Addr>)
    requires Sorted(h, c) && Sorted(h', c')
    requires forall i, k :: 0 <= i < |c| && Binds(h, c[i], k) ==>
      c[i] in c' && Binds(h', c[i], k) && h'[c[i]].value == h[c[i]].value
    requires forall i, k :: 0 <= i < |c'| && Binds(h', c'[i], k) ==> c'[i] in c && Binds(h, c'[i], k)
    ensures Contents(h', c') == Contents(h, c)
  {
    forall k ensures k in Contents(h', c') <==> k in Contents(h, c)
      ensures k in Contents(h', c') && k in Contents(h, c) ==> Contents(h', c')[k] == Contents(h, c)[k]
    {
      ContentsChar(h, c, k);
      ContentsChar(h', c', k);
      if k in Contents(h, c) {
        var i :| 0 <= i < |c| && Binds(h, c[i], k);
        var j :| 0 <= j < |c'| && c'[j] == c[i];
        assert Binds(h', c'[j], k);
      }
      if k in Contents(h', c') {
        var i :| 0 <= i < |c'| && Binds(h', c'[i], k);
        var j :| 0 <= j < |c| && c[j] == c'[i];
        assert Binds(h, c[j], k);
      }
    }
  }

  // ---------------------------------------------------------------- marking

  /** Setting the mark of a node in the chain removes exactly its binding. */
  lemma {:induction false} MarkStep(i: Tid, h: Heap, c: seq<Addr>, pl: map<Addr, Place>, a: Addr, h': Heap)
    requires HeapOK(h, c, pl) && a in h && Public(pl[a]) && a != HEAD && !h[a].next.mark
    requires h' == SetNext(h, a, h[a].next.(mark := true))
    ensures HeapOK(h', c, pl) && Rely(i, h, pl, h', pl) && a in c
    ensures h[a].key.Key? && h[a].key.k in Contents(h, c) && Some(Contents(h, c)[h[a].key.k]) == h[a].value
    ensures Contents(h', c) == Contents(h, c) - {h[a].key.k}
  {
    MarkHeap(i, h, c, pl, a, h');
    ChainSorted(h, c, pl);
    ChainSorted(h', c, pl);
    var p := Position(c, a);
    assert NodeOK(h, a);
    var x := h[a].key.k;
    ContentsChar(h, c, x);
    assert Binds(h, c[p], x);
    forall k ensures k in Contents(h', c) <==> k in Contents(h, c) && k != x
      ensures k in Contents(h', c) ==> Contents(h', c)[k] == Contents(h, c)[k]
    {
      MarkKey(h, c, p, h', k);
    }
    assert Contents(h', c) == Contents(h, c) - {x};
  }

  lemma {:induction false} MarkKey(h: Heap, c: seq<Addr>, p: nat, h': Heap, k: int)
    requires Sorted(h, c) && Sorted(h', c) && p < |c| && c[p] in h && h[c[p]].key.Key?
    requires h' == SetNext(h, c[p], h[c[p]].next.(mark := true))
    ensures k in Contents(h', c) <==> k in Contents(h, c) && k != h[c[p]].key.k
    ensures k in Contents(h', c) ==> Contents(h', c)[k] == Contents(h, c)[k]
  {
    ContentsChar(h, c, k);
    ContentsChar(h', c, k);
    forall j | 0 <= j < |c| ensures Binds(h', c[j], k) <==> Binds(h, c[j], k) && k != h[c[p]].key.k {
      if j < p {
        assert c[j] in h ==> Less(h[c[j]].key, h[c[p]].key);
      } else if p < j {
        assert c[j] in h ==> Less(h[c[p]].key, h[c[j]].key);
      }
    }
    if k in Contents(h, c) {
      var j :| 0 <= j < |c| && Binds(h, c[j], k);
      assert k != h[c[p]].key.k ==> Binds(h', c[j], k);
    }
  }

  lemma {:induction false} MarkHeap(i: Tid, h: Heap, c: seq<Addr>, pl: map<Addr, Place>, a: Addr, h': Heap)
    requires HeapOK(h, c, pl) && a in h && Public(pl[a]) && a != HEAD && !h[a].next.mark
    requires h' == SetNext(h, a, h[a].next.(mark := true))
    ensures HeapOK(h', c, pl) && Rely(i, h, pl, h', pl) && a in c
  {
    hide Rely;
    assert pl.Keys == h.Keys;
    NextRely(i, h, pl, a, h[a].next.(mark := true), h');
    forall x | x in h' && Public(pl[x]) ensures NextOK(h', pl, x) {
      assert NextOK(h, pl, x);
    }
  }

  /** Writing an unmarked `next` field, of a node that is not another thread's. */
  lemma {:induction false} NextRely(i: Tid, h: Heap, pl: map<Addr, Place>, a: Addr, l: Link, h': Heap)
    requires pl.Keys == h.Keys && a in h && !h[a].next.mark && (pl[a].Private? ==> pl[a] == Private(i))
      && h' == SetNext(h, a, l)
    ensures Rely(i, h, pl, h', pl)
  {
  }

  // ---------------------------------------------------------------- private memory

  lemma {:induction false} PrivateWrite(i: Tid, h: Heap, c: seq<Addr>, pl: map<Addr, Place>, n: Addr, l: Link, h': Heap)
    requires HeapOK(h, c, pl) && n in h && pl[n] == Private(i) && !l.mark && h' == SetNext(h, n, l)
    ensures HeapOK(h', c, pl) && Rely(i, h, pl, h', pl) && Contents(h', c) == Contents(h, c)
  {
    hide Rely, Contents;
    assert pl.Keys == h.Keys;
    NextRely(i, h, pl, n, l, h');
    forall x | x in h' && Public(pl[x]) ensures NextOK(h', pl, x) {
      assert NextOK(h, pl, x);
    }
    ChainSorted(h, c, pl);
    ChainSorted(h', c, pl);
    ContentsSame(h, c, h', c);
  }

  lemma {:induction false} AllocateHeap(i: Tid, h: Heap, c: seq<Addr>, pl: map<Addr, Place>, n: Addr, k: int, v: V,
      h': Heap, pl': map<Addr, Place>)
    requires HeapOK(h, c, pl) && n !in h && n != NULL
    requires h' == h[n := Node(Key(k), Some(v), Link(NULL, false))] && pl' == pl[n := Private(i)]
    ensures HeapOK(h', c, pl')
  {
    assert HEAD in c;
    forall x | x in h' && Public(pl'[x]) ensures NextOK(h', pl', x) {
      assert NextOK(h, pl, x);
    }
    assert IsChain(h', c);
  }

  lemma {:induction false} AllocateRely(i: Tid, h: Heap, pl: map<Addr, Place>, n: Addr, k: int, v: V, h': Heap,
      pl': map<Addr, Place>)
    requires pl.Keys == h.Keys && n !in h
    requires h' == h[n := Node(Key(k), Some(v), Link(NULL, false))] && pl' == pl[n := Private(i)]
    ensures Rely(i, h, pl, h', pl')
  {
  }

  lemma {:induction false} Allocate(i: Tid, h: Heap, c: seq<Addr>, pl: map<Addr, Place>, n: Addr, k: int, v: V,
      h': Heap, pl': map<Addr, Place>)
    requires HeapOK(h, c, pl) && n !in h && n != NULL
    requires h' == h[n := Node(Key(k), Some(v), Link(NULL, false))] && pl' == pl[n := Private(i)]
    ensures HeapOK(h', c, pl') && Rely(i, h, pl, h', pl') && Contents(h', c) == Contents(h, c)
  {
    hide NextOK, NodeOK, Sorted, Rely;
    AllocateHeap(i, h, c, pl, n, k, v, h', pl');
    AllocateRely(i, h, pl, n, k, v, h', pl');
    ChainSorted(h, c, pl);
    ChainSorted(h', c, pl');
    ContentsSame(h, c, h', c);
  }

  // ---------------------------------------------------------------- linking

  ghost function Linked(c: seq<Addr>, p: nat, n: Addr): seq<Addr>
    requires p < |c|
  {
    c[..p + 1] + [n] + c[p + 1..]
  }

  lemma {:induction false} LinkHeap(i: Tid, h: Heap, c: seq<Addr>, pl: map<Addr, Place>, p: nat, n: Addr, h': Heap,
      pl': map<Addr, Place>)
    requires HeapOK(h, c, pl) && p < |c| && n in h && pl[n] == Private(i) && h[n].key.Key?
    requires h[c[p]].next == Link(h[n].next.ptr, false) && Less(h[c[p]].key, h[n].key)
    requires h[n].next.ptr != NULL ==> h[n].next.ptr in h && Less(h[n].key, h[h[n].next.ptr].key)
    requires h' == SetNext(h, c[p], Link(n, false)) && pl' == pl[n := InList]
    ensures HeapOK(h', Linked(c, p, n), pl') && Rely(i, h, pl, h', pl')
  {
    hide Rely, NextOK;
    var c' := Linked(c, p, n);
    assert c[p] in c && n !in c && n != NULL;
    ChainDistinct(h, c, pl);
    LinkChain(h, c, p, n, h');
    forall x | x in h' && Public(pl'[x]) ensures NextOK(h', pl', x) {
      LinkNext(i, h, c, pl, p, n, h', pl', x);
    }
    forall x ensures x in c' <==> x in c || x == n {
      InLinked(c, p, n, x);
    }
    LinkOK(i, h, c, pl, c[p], n, h', c', pl');
    LinkRely(i, h, c, pl, p, n, h', pl');
  }

  lemma {:induction false} LinkOK(i: Tid, h: Heap, c: seq<Addr>, pl: map<Addr, Place>, prev: Addr, n: Addr, h': Heap,
      c': seq<Addr>, pl': map<Addr, Place>)
    requires HeapOK(h, c, pl) && prev in c && prev in h && n in h && pl[n] == Private(i)
    requires h' == SetNext(h, prev, Link(n, false)) && pl' == pl[n := InList] && !h[prev].next.mark
    requires IsChain(h', c') && forall x :: x in c' <==> x in c || x == n
    requires forall x :: x in h' && Public(pl'[x]) ==> NextOK(h', pl', x)
    ensures HeapOK(h', c', pl')
  {
    hide NextOK, IsChain;
  }

  lemma {:induction false} LinkRely(i: Tid, h: Heap, c: seq<Addr>, pl: map<Addr, Place>, p: nat, n: Addr, h': Heap,
      pl': map<Addr, Place>)
    requires HeapOK(h, c, pl) && p < |c| && n in h && pl[n] == Private(i)
    requires !h[c[p]].next.mark && h' == SetNext(h, c[p], Link(n, false)) && pl' == pl[n := InList]
    ensures Rely(i, h, pl, h', pl')
  {
    assert c[p] in c && c[p] in h;
    hide NodeOK, NextOK, IsChain;
  }

  lemma {:induction false} LinkNext(i: Tid, h: Heap, c: seq<Addr>, pl: map<Addr, Place>, p: nat, n: Addr, h': Heap,
      pl': map<Addr, Place>, x: Addr)
    requires HeapOK(h, c, pl) && p < |c| && n in h && pl[n] == Private(i) && h[n].key.Key?
    requires h[c[p]].next == Link(h[n].next.ptr, false) && Less(h[c[p]].key, h[n].key)
    requires h[n].next.ptr != NULL ==> h[n].next.ptr in h && Less(h[n].key, h[h[n].next.ptr].key)
    requires h' == SetNext(h, c[p], Link(n, false)) && pl' == pl[n := InList] && x in h' && Public(pl'[x])
    ensures NextOK(h', pl', x)
  {
    assert c[p] in c;
    assert NextOK(h, pl, if x == n then c[p] else x);
  }

  lemma {:induction false} InLinked(c: seq<Addr>, p: nat, n: Addr, x: Addr)
    requires p < |c|
    ensures x in Linked(c, p, n) <==> x in c || x == n
  {
    assert c == c[..p + 1] + c[p + 1..];
  }

  lemma {:induction false} LinkChain(h: Heap, c: seq<Addr>, p: nat, n: Addr, h': Heap)
    requires IsChain(h, c) && p < |c| && n in h && n != NULL && n !in c
    requires forall i, j :: 0 <= i < j < |c| ==> c[i] != c[j]
    requires h[n].next.ptr == h[c[p]].next.ptr && h' == SetNext(h, c[p], Link(n, false))
    ensures IsChain(h', Linked(c, p, n))
  {
    var c' := Linked(c, p, n);
    forall j | 0 <= j < |c'| ensures c'[j] in h' && c'[j] != NULL {
    }
    forall j | 0 <= j < |c'| - 1 ensures h'[c'[j]].next.ptr == c'[j + 1] {
      if j < p {
        assert c'[j] == c[j] && c'[j + 1] == c[j + 1];
      } else if j == p {
        assert c'[j] == c[p] && c'[j + 1] == n;
      } else if j == p + 1 {
        assert c'[j] == n && c'[j + 1] == c[p + 1];
      } else {
        assert c'[j] == c[j - 1] && c'[j + 1] == c[j];
      }
    }
  }

  /** A successful insert CAS adds exactly one binding, for an absent key. */
  lemma {:induction false} LinkStep(i: Tid, h: Heap, c: seq<Addr>, pl: map<Addr, Place>, prev: Addr, n: Addr, h': Heap,
      pl': map<Addr, Place>)
      returns (c': seq<Addr>)
    requires HeapOK(h, c, pl) && prev in c && n in h && pl[n] == Private(i) && h[n].key.Key?
    requires h[prev].next == Link(h[n].next.ptr, false) && Less(h[prev].key, h[n].key)
      && Past(h, h[n].next.ptr, h[n].key.k)
    requires h' == SetNext(h, prev, Link(n, false)) && pl' == pl[n := InList]
    ensures HeapOK(h', c', pl') && Rely(i, h, pl, h', pl')
    ensures h[n].value.Some? && h[n].key.k !in Contents(h, c)
    ensures Contents(h', c') == Contents(h, c)[h[n].key.k := h[n].value.value]
  {
    var p := Position(c, prev);
    LinkHeap(i, h, c, pl, p, n, h', pl');
    c' := Linked(c, p, n);
    assert n !in c && !h[n].next.mark && NodeOK(h, n) && c[p] in h;
    hide Rely, IsChain, NextOK, Contents;
    LookupChar(h, c, pl, h[n].key.k, prev);
    ChainSorted(h, c, pl);
    ChainSorted(h', c', pl');
    hide HeapOK, Sorted, Linked;
    LinkContents(h, c, p, n, h', c');
  }

  lemma {:induction false} LinkContents(h: Heap, c: seq<Addr>, p: nat, n: Addr, h': Heap, c': seq<Addr>)
    requires Sorted(h, c) && Sorted(h', c') && p < |c| && c' == Linked(c, p, n) && n !in c && n in h && c[p] in h
    requires h' == SetNext(h, c[p], Link(n, false)) && !h[c[p]].next.mark
    requires h[n].key.Key? && h[n].value.Some? && !h[n].next.mark && h[n].key.k !in Contents(h, c)
    ensures Contents(h', c') == Contents(h, c)[h[n].key.k := h[n].value.value]
  {
    hide Sorted, Linked, Contents;
    var x, v := h[n].key.k, h[n].value.value;
    forall k ensures k in Contents(h', c') <==> k in Contents(h, c) || k == x
      ensures k in Contents(h', c') ==> Contents(h', c')[k] == if k == x then v else Contents(h, c)[k]
    {
      LinkKey(h, c, p, n, h', c', k);
    }
    assert Contents(h', c') == Contents(h, c)[x := v];
  }

  lemma {:induction false} LinkKey(h: Heap, c: seq<Addr>, p: nat, n: Addr, h': Heap,
      c': seq<Addr>, k: int)
    requires Sorted(h, c) && Sorted(h', c') && p < |c| && c' == Linked(c, p, n) && n !in c && n in h && c[p] in h
    requires h' == SetNext(h, c[p], Link(n, false)) && !h[c[p]].next.mark
    requires h[n].key.Key? && h[n].value.Some? && !h[n].next.mark && h[n].key.k !in Contents(h, c)
    ensures k in Contents(h', c') <==> k in Contents(h, c) || k == h[n].key.k
    ensures k in Contents(h', c') ==> Contents(h', c')[k] == if k == h[n].key.k then h[n].value.value
      else Contents(h, c)[k]
  {
    ContentsChar(h, c, k);
    ContentsChar(h', c', k);
    assert forall a :: Binds(h', a, k) <==> Binds(h, a, k);
    assert c'[p + 1] == n;
    if k in Contents(h, c) {
      var j :| 0 <= j < |c| && Binds(h, c[j], k);
      InLinked(c, p, n, c[j]);
      var l := Position(c', c[j]);
      assert Binds(h', c'[l], k);
    }
    if k in Contents(h', c') {
      var j :| 0 <= j < |c'| && Binds(h', c'[j], k);
      InLinked(c, p, n, c'[j]);
      if c'[j] != n {
        var l := Position(c, c'[j]);
        assert Binds(h, c[l], k);
      }
    }
    if k == h[n].key.k {
      assert Binds(h', c'[p + 1], k);
    }
  }

  // ---------------------------------------------------------------- unlinking

  ghost function Unlinked(c: seq<Addr>, p: nat, m: nat): seq<Addr>
    requires p + m <= |c| && m > 0
  {
    c[..p + 1] + c[p + m..]
  }

  /** The places after the nodes of `out` have left the list. */
  ghost function Left(pl: map<Addr, Place>, out: seq<Addr>, g: Place): map<Addr, Place> {
    map a | a in pl :: if a in out then g else pl[a]
  }

  /** A marked run that starts after a node of the chain lies along the chain. */
  lemma {:induction false} RunAlong(h: Heap, c: seq<Addr>, p: nat, w: seq<Addr>, j: nat)
    requires IsChain(h, c) && NULL !in h && p < |c| && |w| > 0 && IsMarkedRun(h, w) && h[c[p]].next.ptr == w[0]
    requires j < |w|
    ensures p + j < |c| && h[c[p + j]].next.ptr == w[j]
    ensures forall l :: 0 <= l < j ==> c[p + 1 + l] == w[l]
  {
    if j > 0 {
      RunAlong(h, c, p, w, j - 1);
      assert w[j - 1] in h && h[w[j - 1]].next.ptr == w[j - 1 + 1];
      assert p + j - 1 < |c| - 1;
      assert c[p + j - 1 + 1] == w[j - 1];
    }
  }

  lemma {:induction false} InUnlinked(c: seq<Addr>, p: nat, w: seq<Addr>, x: Addr)
    requires |w| > 0 && p + |w| <= |c| && (forall i, j :: 0 <= i < j < |c| ==> c[i] != c[j])
    requires forall l :: 0 <= l < |w| - 1 ==> c[p + 1 + l] == w[l]
    ensures x in Unlinked(c, p, |w|) <==> x in c && x !in w[..|w| - 1]
    ensures x in w[..|w| - 1] ==> x in c
    ensures forall i, j :: 0 <= i < j < |w| - 1 ==> w[i] != w[j]
  {
    var m := c[p + 1..p + |w|];
    assert m == w[..|w| - 1];
    assert c == c[..p + 1] + m + c[p + |w|..];
    forall i, j | 0 <= i < j < |w| - 1 ensures w[i] != w[j] {
      assert c[p + 1 + i] != c[p + 1 + j];
    }
    if x in m {
      var l := Position(m, x);
      assert c[p + 1 + l] == x;
      assert x !in c[..p + 1] && x !in c[p + |w|..];
    }
  }

  lemma {:induction false} UnlinkChain(h: Heap, c: seq<Addr>, p: nat, w: seq<Addr>, h': Heap)
    requires IsChain(h, c) && p + |w| <= |c| && |w| > 0 && (forall i, j :: 0 <= i < j < |c| ==> c[i] != c[j])
    requires h[c[p + |w| - 1]].next.ptr == w[|w| - 1] && h' == SetNext(h, c[p], Link(w[|w| - 1], false))
    ensures IsChain(h', Unlinked(c, p, |w|))
  {
    var m := |w|;
    var c' := Unlinked(c, p, m);
    assert forall j :: 0 <= j <= p ==> c'[j] == c[j];
    assert forall j :: p < j < |c'| ==> c'[j] == c[j + m - 1];
    forall j | 0 <= j < |c'| - 1 ensures h'[c'[j]].next.ptr == c'[j + 1] {
      if j > p {
        assert h[c[j + m - 1]].next.ptr == c[j + m - 1 + 1];
      } else if j < p {
        assert h[c[j]].next.ptr == c[j + 1];
      } else {
        assert h[c[p + m - 1]].next.ptr == c[p + m - 1 + 1];
      }
    }
  }

  lemma {:induction false} UnlinkHeap(h: Heap, c: seq<Addr>, pl: map<Addr, Place>, p: nat, w: seq<Addr>,
      h': Heap, g: Place)
    requires HeapOK(h, c, pl) && p + |w| <= |c| && |w| > 1 && IsMarkedRun(h, w) && Gone(g)
    requires h[c[p]].next == Link(w[0], false) && h' == SetNext(h, c[p], Link(w[|w| - 1], false))
    requires h[c[p + |w| - 1]].next.ptr == w[|w| - 1]
    requires forall x :: x in Unlinked(c, p, |w|) <==> x in c && x !in w[..|w| - 1]
    requires IsChain(h', Unlinked(c, p, |w|)) && Sorted(h, c)
    ensures HeapOK(h', Unlinked(c, p, |w|), Left(pl, w[..|w| - 1], g))
  {
    var out := w[..|w| - 1];
    var pl' := Left(pl, out, g);
    var c' := Unlinked(c, p, |w|);
    assert c[p] in c && c'[p] == c[p];
    forall x | x in out ensures x in h && h[x].next.mark {
      var j := Position(out, x);
      assert w[j] in h && h[w[j]].next.mark;
    }
    var z := c[p + |w| - 1];
    assert z in c && Less(h[c[p]].key, h[z].key);
    forall x | x in h' && Public(pl'[x]) ensures NextOK(h', pl', x) {
      UnlinkNext(h, c, pl, c[p], z, Link(w[|w| - 1], false), h', pl', x);
    }
    hide IsMarkedRun, Sorted, Unlinked;
    UnlinkOK(h, c, pl, c[p], out, Link(w[|w| - 1], false), h', c', g);
  }

  lemma {:induction false} UnlinkOK(h: Heap, c: seq<Addr>, pl: map<Addr, Place>, prev: Addr, out: seq<Addr>, l: Link,
      h': Heap, c': seq<Addr>, g: Place)
    requires HeapOK(h, c, pl) && prev in c && prev in h && prev !in out && !h[prev].next.mark && !l.mark
      && h' == SetNext(h, prev, l) && Gone(g)
    requires IsChain(h', c') && forall x :: x in c' <==> x in c && x !in out
    requires forall x :: x in out ==> x in h && h[x].next.mark
    requires forall x :: x in h' && x in pl && Public(Left(pl, out, g)[x]) ==> NextOK(h', Left(pl, out, g), x)
    ensures HeapOK(h', c', Left(pl, out, g))
  {
    hide NextOK, IsChain;
  }

  lemma {:induction false} UnlinkNext(h: Heap, c: seq<Addr>, pl: map<Addr, Place>, prev: Addr, z: Addr, l: Link,
      h': Heap, pl': map<Addr, Place>, x: Addr)
    requires HeapOK(h, c, pl) && prev in c && z in c && prev in h && z in h && Less(h[prev].key, h[z].key)
    requires h[z].next.ptr == l.ptr && h' == SetNext(h, prev, l)
    requires pl'.Keys == pl.Keys && (forall a :: a in pl ==> (Public(pl'[a]) <==> Public(pl[a])))
    requires x in h' && Public(pl'[x])
    ensures NextOK(h', pl', x)
  {
    hide NodeOK, IsChain;
    assert NextOK(h, pl, x) && NextOK(h, pl, z);
  }

  lemma {:induction false} UnlinkRely(i: Tid, h: Heap, c: seq<Addr>, pl: map<Addr, Place>, prev: Addr, out: seq<Addr>,
      l: Link, h': Heap, g: Place)
    requires HeapOK(h, c, pl) && prev in c && prev in h && !h[prev].next.mark && h' == SetNext(h, prev, l)
    requires forall x :: x in out ==> x in c && x != prev
    requires g == Pending(i) || g == Retired
    ensures Rely(i, h, pl, h', Left(pl, out, g))
  {
    hide NodeOK, NextOK, IsChain;
  }

  lemma {:induction false} UnlinkContents(h: Heap, c: seq<Addr>, prev: Addr, out: seq<Addr>, l: Link, h': Heap,
      c': seq<Addr>)
    requires Sorted(h, c) && Sorted(h', c') && prev in h && !h[prev].next.mark && !l.mark && h' == SetNext(h, prev, l)
    requires forall x :: x in c' <==> x in c && x !in out
    requires forall x :: x in out ==> x in h && h[x].next.mark
    ensures Contents(h', c') == Contents(h, c)
  {
    forall i, k | 0 <= i < |c| && Binds(h, c[i], k)
      ensures c[i] in c' && Binds(h', c[i], k) && h'[c[i]].value == h[c[i]].value {
      assert c[i] in c && c[i] !in out;
    }
    forall i, k | 0 <= i < |c'| && Binds(h', c'[i], k) ensures c'[i] in c && Binds(h, c'[i], k) {
      assert c'[i] in c';
    }
    hide Sorted;
    ContentsSame(h, c, h', c');
  }

  /** Unlinking a run of marked nodes: exactly those nodes leave the chain, and the map is unchanged. */
  lemma {:induction false} UnlinkStep(i: Tid, h: Heap, c: seq<Addr>, pl: map<Addr, Place>, prev: Addr, w: seq<Addr>,
      h': Heap, g: Place)
      returns (c': seq<Addr>)
    requires HeapOK(h, c, pl) && prev in c && |w| > 1 && IsMarkedRun(h, w) && (g == Pending(i) || g == Retired)
    requires h[prev].next == Link(w[0], false) && h' == SetNext(h, prev, Link(w[|w| - 1], false))
    ensures var out := w[..|w| - 1]; HeapOK(h', c', Left(pl, out, g)) && Rely(i, h, pl, h', Left(pl, out, g))
    ensures Contents(h', c') == Contents(h, c)
    ensures forall x :: x in c' <==> x in c && x !in w[..|w| - 1]
    ensures forall x :: x in w[..|w| - 1] ==> x in c && x != prev
    ensures forall j, l :: 0 <= j < l < |w| - 1 ==> w[j] != w[l]
  {
    var p := Position(c, prev);
    RunAlong(h, c, p, w, |w| - 1);
    c' := Unlinked(c, p, |w|);
    ChainDistinct(h, c, pl);
    UnlinkChain(h, c, p, w, h');
    forall x ensures x in c' <==> x in c && x !in w[..|w| - 1]
      ensures x in w[..|w| - 1] ==> x in c
    {
      InUnlinked(c, p, w, x);
    }
    InUnlinked(c, p, w, prev);
    assert c'[p] == prev;
    ChainSorted(h, c, pl);
    UnlinkHeap(h, c, pl, p, w, h', g);
    UnlinkRely(i, h, c, pl, prev, w[..|w| - 1], Link(w[|w| - 1], false), h', g);
    ChainSorted(h', c', Left(pl, w[..|w| - 1], g));
    RunIn(h, w);
    hide HeapOK, Rely, Sorted, Unlinked;
    UnlinkContents(h, c, prev, w[..|w| - 1], Link(w[|w| - 1], false), h', c');
  }
}
