/**
  The imperative shell of the Bonsai tree: the `State` handle with its two lists, abort, commit, the retry
  loop of insert and remove, and the drop of the whole tree.
 */
module BonsaiHandle {
  import opened BonsaiTree
  import opened BonsaiBuild
  import opened BonsaiModel
  import opened BonsaiInvariant

  /** Allocated nodes, stamped child pointers, and the nodes handed to the collector so far. */
  class Memory {
    var nodes: set<Addr>
    var stamps: set<Edge>
    var deferred: seq<Addr>
  }

  /** One pass of the retry loop: what happens around it. `now` is the root at the compare-and-set. */
  datatype Attempt = Attempt(env: Env, base: Tree, now: Tree, rootEjected: bool)

  /** Something came in the way of the attempt: an ejection, a stamp, or another thread's compare-and-set. */
  ghost predicate Hindered(a: Attempt) {
    a.rootEjected || Address(a.now) != Address(a.base) || !Calm(a.env, a.base)
  }

  /** The attempt does not come to a published tree. */
  ghost predicate Fails(a: Attempt, job: Job)
    requires job.Insert? || job.Remove?
  {
    var r := BuildOf(a.env, job, a.base).r;
    a.rootEjected || Address(a.now) != Address(a.base) || !r.Ok? || r.v.Stamp?
  }

  /** An attempt fails only if something comes in its way. */
  lemma {:induction false} FailsHindered(a: Attempt, job: Job)
    requires (job.Insert? || job.Remove?) && WellFormed(a.base) && Fails(a, job)
    ensures Hindered(a)
  {
    hide BuildOf, Calm;
    if Calm(a.env, a.base) {
      CalmBuild(a.env, job, a.base);
    }
  }

  ghost function Stamped(s: seq<Addr>): set<Edge> {
    if s == [] then {} else {Edge(s[0], L), Edge(s[0], R)} + Stamped(s[1..])
  }

  /** The stamps of a commit lie on the retired nodes, on both sides of each. */
  lemma {:induction false} StampedBoth(s: seq<Addr>, a: Addr, d: Side)
    ensures Edge(a, d) in Stamped(s) <==> a in s
    decreases |s|
  {
    if s != [] {
      StampedBoth(s[1..], a, d);
      assert s == [s[0]] + s[1..];
    }
  }

  class Handle {
    var retiredNodes: seq<Addr>
    var newNodes: seq<Addr>

    constructor ()
      ensures retiredNodes == [] && newNodes == []
    {
      retiredNodes, newNodes := [], [];
    }

    /** Frees exactly the new nodes, each once, and empties both lists. */
    method Abort(m: Memory)
      requires Unique(multiset(newNodes)) && forall a :: a in newNodes ==> a in m.nodes
      modifies this, m`nodes
      ensures retiredNodes == [] && newNodes == []
      ensures m.nodes == old(m.nodes) - SetOf(old(newNodes))
    {
      retiredNodes := [];
      while newNodes != []
        invariant retiredNodes == [] && Unique(multiset(newNodes)) && SetOf(newNodes) <= SetOf(old(newNodes))
        invariant forall a :: a in newNodes ==> a in m.nodes
        invariant m.nodes - SetOf(newNodes) == old(m.nodes) - SetOf(old(newNodes))
        decreases |newNodes|
      {
        UniqueTail(newNodes);
        m.nodes := m.nodes - {newNodes[0]};
        newNodes := newNodes[1..];
      }
    }

    /** Stamps both child pointers of every replaced node, hands each to the collector once, and empties both lists. */
    method Commit(m: Memory)
      modifies this, m`stamps, m`deferred
      ensures retiredNodes == [] && newNodes == []
      ensures m.stamps == old(m.stamps) + Stamped(old(retiredNodes))
      ensures m.deferred == old(m.deferred) + old(retiredNodes)
    {
      newNodes := [];
      while retiredNodes != []
        invariant newNodes == []
        invariant m.stamps + Stamped(retiredNodes) == old(m.stamps) + Stamped(old(retiredNodes))
        invariant m.deferred + retiredNodes == old(m.deferred) + old(retiredNodes)
        decreases |retiredNodes|
      {
        var a := retiredNodes[0];
        m.stamps := m.stamps + {Edge(a, L)};
        m.stamps := m.stamps + {Edge(a, R)};
        m.deferred := m.deferred + [a];
        retiredNodes := retiredNodes[1..];
      }
    }

    /**
      The retry loop of `insert` and `remove`, over the given attempts. Failed attempts (ejected at any
      depth, stamped, or beaten to the root) leave no trace; a successful one publishes the sequential
      update of the tree it loaded, keeps the nodes it made, and stamps and defers the nodes it replaced.
      The first attempt that nothing hinders is successful.
     */
    method Update(m: Memory, job: Job, tries: seq<Attempt>) returns (reply: Option<Reply>, tree: Tree, ghost n: nat)
      requires retiredNodes == [] && newNodes == [] && (job.Insert? || job.Remove?)
      requires forall i :: 0 <= i < |tries| ==> WellFormed(tries[i].base) && FreshAlloc(tries[i].env, m.nodes)
      modifies this, m
      ensures retiredNodes == [] && newNodes == []
      ensures reply.None? ==>
        n == |tries| && m.nodes == old(m.nodes) && m.stamps == old(m.stamps) && m.deferred == old(m.deferred)
      ensures reply.Some? ==>
        && n < |tries| && !Fails(tries[n], job)
        && exists made, gone :: Ready(tries[n].base, job, tree, reply.value, made, gone)
             && m.nodes == old(m.nodes) + SetOf(made) && m.stamps == old(m.stamps) + Stamped(gone)
               && m.deferred == old(m.deferred) + gone
      ensures n <= |tries| && forall i :: 0 <= i < n ==> Fails(tries[i], job) && Hindered(tries[i])
    {
      hide BuildOf, Calm, Ready, WellFormed;
      n := 0;
      var i := 0;
      reply, tree := None, Nil;
      while i < |tries|
        invariant 0 <= i <= |tries| && n == i && reply == None
        invariant retiredNodes == [] && newNodes == []
        invariant m.nodes == old(m.nodes) && m.stamps == old(m.stamps) && m.deferred == old(m.deferred)
        invariant forall k :: 0 <= k < i ==> Fails(tries[k], job) && Hindered(tries[k])
      {
        var a := tries[i];
        if !a.rootEjected {
          var b := BuildOf(a.env, job, a.base);
          BuildOK(a.env, job, a.base, m.nodes);
          newNodes, retiredNodes := b.w.created, b.w.retired;
          m.nodes := m.nodes + SetOf(newNodes);
          if b.r.Ok? && b.r.v.To? && Address(a.now) == Address(a.base) {
            reply, tree := Some(b.reply), b.r.v.t;
            Commit(m);
            return;
          }
          Abort(m);
          FailsHindered(a, job);
        }
        i := i + 1;
        n := i;
      }
    }
  }

  // ---------------------------------------------------------------- drop

  ghost function StackNodes(s: seq<Tree>): multiset<Addr> {
    if s == [] then multiset{} else StackNodes(s[..|s| - 1]) + Nodes(s[|s| - 1])
  }

  ghost function Weight(t: Tree): nat {
    if t.Nil? then 1 else 1 + Weight(t.left) + Weight(t.right)
  }

  ghost function StackWeight(s: seq<Tree>): nat {
    if s == [] then 0 else StackWeight(s[..|s| - 1]) + Weight(s[|s| - 1])
  }

  lemma {:induction false} Pushed(s: seq<Tree>, t: Tree)
    ensures StackNodes(s + [t]) == StackNodes(s) + Nodes(t) && StackWeight(s + [t]) == StackWeight(s) + Weight(t)
  {
    assert (s + [t])[..|s|] == s;
  }

  /** Freeing a node and pushing its children. */
  lemma {:induction false} Opened(freed: seq<Addr>, s: seq<Tree>, t: Tree)
    requires t.Node?
    ensures multiset(freed + [t.a]) + StackNodes(s + [t.left] + [t.right])
      == multiset(freed) + (StackNodes(s) + Nodes(t))
    ensures StackWeight(s + [t.left] + [t.right]) < StackWeight(s) + Weight(t)
  {
    Pushed(s, t.left);
    Pushed(s + [t.left], t.right);
    assert multiset(freed + [t.a]) == multiset(freed) + multiset{t.a};
  }

  /** Dropping the map frees every node of the tree, each as often as it occurs in it, and nothing else. */
  method Drop(root: Tree) returns (freed: seq<Addr>)
    ensures multiset(freed) == Nodes(root)
  {
    var stack := [root];
    freed := [];
    Pushed([], root);
    assert [] + [root] == stack;
    while stack != []
      invariant multiset(freed) + StackNodes(stack) == Nodes(root)
      decreases StackWeight(stack)
    {
      var node := stack[|stack| - 1];
      stack := stack[..|stack| - 1];
      if node.Node? {
        Opened(freed, stack, node);
        stack := stack + [node.left];
        stack := stack + [node.right];
        freed := freed + [node.a];
      }
    }
  }
}
