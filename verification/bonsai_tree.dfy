/**
  The Bonsai tree: size-balanced search trees whose nodes never change once built, apart from the retired
  stamps that a commit writes over the child pointers of the nodes it replaces.

  Because of that, a pointer is modelled as the node it leads to (its address and its contents), and the
  stamps are kept apart, as the set of child pointers that have been overwritten.
 */
module BonsaiTree {

  type Addr = nat
  type V(==, !new)

  datatype Option<T> = None | Some(value: T)

  datatype Tree = Nil | Node(a: Addr, key: int, value: V, size: nat, left: Tree, right: Tree)

  /** A loaded pointer: null or a node, or the retired stamp. */
  datatype Ref = Stamp | To(t: Tree)

  datatype Item = Item(k: int, v: V)

  /** The bindings of a tree from left to right. */
  ghost function Items(t: Tree): seq<Item> {
    if t.Nil? then [] else Items(t.left) + [Item(t.key, t.value)] + Items(t.right)
  }

  /** Every node stores the exact size of its subtree. */
  ghost predicate Sized(t: Tree) {
    t.Node? ==> t.size == |Items(t)| && Sized(t.left) && Sized(t.right)
  }

  ghost predicate Sorted(s: seq<Item>) {
    forall i, j :: 0 <= i < j < |s| ==> s[i].k < s[j].k
  }

  /** A search tree with exact sizes. */
  ghost predicate WellFormed(t: Tree) {
    Sized(t) && Sorted(Items(t))
  }

  /** The addresses of the nodes, with multiplicity. */
  ghost function Nodes(t: Tree): multiset<Addr> {
    if t.Nil? then multiset{} else Nodes(t.left) + multiset{t.a} + Nodes(t.right)
  }

  ghost function Height(t: Tree): nat {
    if t.Nil? then 0 else 1 + if Height(t.left) < Height(t.right) then Height(t.right) else Height(t.left)
  }

  // ---------------------------------------------------------------- the map

  ghost function MapOf(s: seq<Item>): map<int, V> {
    if s == [] then map[] else MapOf(s[1..])[s[0].k := s[0].v]
  }

  ghost function Contents(t: Tree): map<int, V> {
    MapOf(Items(t))
  }

  ghost function Lookup(m: map<int, V>, k: int): Option<V> {
    if k in m then Some(m[k]) else None
  }

  // ---------------------------------------------------------------- sorted association lists, as a reference

  ghost function Put(s: seq<Item>, k: int, v: V): seq<Item> {
    if s == [] then [Item(k, v)]
    else if s[0].k < k then [s[0]] + Put(s[1..], k, v)
    else if s[0].k == k then s
    else [Item(k, v)] + s
  }

  ghost function Cut(s: seq<Item>, k: int): seq<Item> {
    if s == [] then [] else if s[0].k == k then s[1..] else [s[0]] + Cut(s[1..], k)
  }

  lemma {:induction false} InMap(s: seq<Item>, k: int)
    requires Sorted(s)
    ensures k in MapOf(s) <==> exists i :: 0 <= i < |s| && s[i].k == k
    ensures forall i :: 0 <= i < |s| && s[i].k == k ==> k in MapOf(s) && MapOf(s)[k] == s[i].v
    decreases |s|
  {
    if s != [] {
      InMap(s[1..], k);
      if k in MapOf(s[1..]) {
        var i :| 0 <= i < |s[1..]| && s[1..][i].k == k;
        assert s[i + 1].k == k;
      }
      forall i | 0 <= i < |s| && s[i].k == k ensures k in MapOf(s) && MapOf(s)[k] == s[i].v {
        assert i > 0 ==> s[1..][i - 1].k == k;
      }
    }
  }

  /** An insertion at the left of a key, or at its right, does not touch the other side. */
  lemma {:induction false} PutLeft(s: seq<Item>, x: Item, r: seq<Item>, k: int, v: V)
    requires k < x.k
    ensures Put(s + [x] + r, k, v) == Put(s, k, v) + [x] + r
    decreases |s|
  {
    if s != [] {
      assert (s + [x] + r)[1..] == s[1..] + [x] + r;
      PutLeft(s[1..], x, r, k, v);
      assert Put(s, k, v) + [x] + r == Put(s + [x] + r, k, v);
    } else {
      assert s + [x] + r == [x] + r;
    }
  }

  lemma {:induction false} PutRight(s: seq<Item>, x: Item, r: seq<Item>, k: int, v: V)
    requires x.k < k && Sorted(s + [x])
    ensures Put(s + [x] + r, k, v) == s + [x] + Put(r, k, v)
    decreases |s|
  {
    var all := s + [x] + r;
    if s != [] {
      assert (s + [x])[0].k < (s + [x])[|s|].k;
      assert all[1..] == s[1..] + [x] + r;
      assert forall i :: 0 <= i < |s[1..] + [x]| ==> (s[1..] + [x])[i] == (s + [x])[i + 1];
      PutRight(s[1..], x, r, k, v);
    } else {
      assert all == [x] + r && all[1..] == r;
    }
  }

  lemma {:induction false} PutHere(s: seq<Item>, x: Item, r: seq<Item>, v: V)
    requires Sorted(s + [x])
    ensures Put(s + [x] + r, x.k, v) == s + [x] + r
    decreases |s|
  {
    var all := s + [x] + r;
    if s != [] {
      assert (s + [x])[0].k < (s + [x])[|s|].k;
      assert all[1..] == s[1..] + [x] + r;
      assert forall i :: 0 <= i < |s[1..] + [x]| ==> (s[1..] + [x])[i] == (s + [x])[i + 1];
      PutHere(s[1..], x, r, v);
    } else {
      assert all == [x] + r;
    }
  }

  lemma {:induction false} CutAppend(s: seq<Item>, r: seq<Item>, k: int)
    requires forall i :: 0 <= i < |s| ==> s[i].k != k
    ensures Cut(s + r, k) == s + Cut(r, k)
    decreases |s|
  {
    if s != [] {
      assert (s + r)[1..] == s[1..] + r;
      CutAppend(s[1..], r, k);
    } else {
      assert s + r == r;
    }
  }

  lemma {:induction false} CutFront(s: seq<Item>, r: seq<Item>, k: int)
    requires forall i :: 0 <= i < |r| ==> r[i].k != k
    ensures Cut(s + r, k) == Cut(s, k) + r
    decreases |s|
  {
    if s != [] {
      assert (s + r)[1..] == s[1..] + r;
      CutFront(s[1..], r, k);
    } else {
      assert s + r == r;
      CutNone(r, k);
    }
  }

  lemma {:induction false} CutNone(s: seq<Item>, k: int)
    requires forall i :: 0 <= i < |s| ==> s[i].k != k
    ensures Cut(s, k) == s
    decreases |s|
  {
    if s != [] {
      CutNone(s[1..], k);
    }
  }

  ghost predicate Above(s: seq<Item>, lo: int) {
    forall i :: 0 <= i < |s| ==> lo < s[i].k
  }

  lemma {:induction false} SortedTail(s: seq<Item>)
    requires s != [] && Sorted(s)
    ensures Sorted(s[1..]) && Above(s[1..], s[0].k)
  {
  }

  lemma {:induction false} SortedCons(x: Item, s: seq<Item>)
    requires Sorted(s) && Above(s, x.k)
    ensures Sorted([x] + s) && ([x] + s)[1..] == s
  {
  }

  lemma {:induction false} PutAbove(s: seq<Item>, k: int, v: V, lo: int)
    requires Above(s, lo) && lo < k
    ensures Above(Put(s, k, v), lo)
    decreases |s|
  {
    if s != [] && s[0].k < k {
      PutAbove(s[1..], k, v, lo);
    }
  }

  lemma {:induction false} CutAbove(s: seq<Item>, k: int, lo: int)
    requires Above(s, lo)
    ensures Above(Cut(s, k), lo)
    decreases |s|
  {
    if s != [] {
      CutAbove(s[1..], k, lo);
    }
  }

  lemma {:induction false} AboveAbsent(s: seq<Item>, k: int)
    requires Sorted(s) && Above(s, k)
    ensures k !in MapOf(s)
  {
    InMap(s, k);
  }

  /** `Put` adds the binding of an absent key and changes nothing else. */
  lemma {:induction false} PutMap(s: seq<Item>, k: int, v: V)
    requires Sorted(s)
    ensures Sorted(Put(s, k, v))
    ensures MapOf(Put(s, k, v)) == if k in MapOf(s) then MapOf(s) else MapOf(s)[k := v]
    decreases |s|
  {
    hide Sorted, Above;
    if s == [] {
      SortedOne(Item(k, v));
    } else {
      SortedTail(s);
      if s[0].k < k {
        PutMap(s[1..], k, v);
        PutAbove(s[1..], k, v, s[0].k);
        SortedCons(s[0], Put(s[1..], k, v));
      } else if k < s[0].k {
        AboveAll(s, k);
        SortedCons(Item(k, v), s);
        AboveAbsent(s, k);
      }
    }
  }

  lemma {:induction false} SortedOne(x: Item)
    ensures Sorted([x]) && MapOf([x]) == map[x.k := x.v]
  {
    assert [x][1..] == [];
  }

  lemma {:induction false} AboveAll(s: seq<Item>, lo: int)
    requires s != [] && Sorted(s) && lo < s[0].k
    ensures Above(s, lo)
  {
  }

  /** `Cut` drops the binding of the key and changes nothing else. */
  lemma {:induction false} CutMap(s: seq<Item>, k: int)
    requires Sorted(s)
    ensures Sorted(Cut(s, k)) && MapOf(Cut(s, k)) == MapOf(s) - {k}
    decreases |s|
  {
    hide Sorted, Above;
    if s != [] {
      SortedTail(s);
      if s[0].k == k {
        AboveAbsent(s[1..], k);
      } else {
        CutMap(s[1..], k);
        CutAbove(s[1..], k, s[0].k);
        SortedCons(s[0], Cut(s[1..], k));
      }
    }
  }
}
