# Lock-free maps: models and proofs

This project models the concurrent maps of the repository and proves what they promise. Five parts:

* **Natarajan-Mittal tree** (`nm_*.dfy`, after src/ebr/natarajan_mittal_tree.rs). An external search tree in
  which removal flags a leaf, tags the sibling edge and splices a whole path out by one compare-and-set,
  with any thread helping.
* **Sorted list** (`list_*.dfy`, after src/ebr/list.rs). One marked-pointer list with the Harris, the
  Harris-Michael and the Herlihy-Shavit traversals used side by side.
* **Bonsai tree** (`bonsai_*.dfy`, after src/ebr/bonsai_tree.rs and src/pebr/bonsai_tree.rs). A copy-on-write,
  size-balanced tree published by one compare-and-set on the root, with explicit lists of new and replaced
  nodes, retired stamps, and ejection.
* **Shield pool** (`shield_pool.dfy`, after src/pebr/shield_pool.rs). The index allocator behind the Bonsai
  tree's shields.
* **Sequential histories** (`linearize.dfy`, after src/ebr/concurrent_map.rs). What it means that the calls on a
  concurrent map can be put into one order, for all three maps.

## How the models work

The concurrent parts are transition systems. A state holds the shared memory and, for each of any number of
threads, the call it is in, a program counter and its local variables; one step is one atomic load, store,
compare-and-set or fetch-or of one thread. `IsRun` is the set of all interleavings from the empty map, and the
main lemmas quantify over every run, every state of it, and every call in it. Some fields of the state are
history: no step depends on them (what a traversal could have seen, what the map held during a call, and the
`place` of every node ever allocated). One exception: in the Bonsai model the domain of `place`, the addresses
allocated so far, keeps new nodes apart from old ones. A `Fault` or `Crash` program counter stands for a
dereference of null or of a node that does not exist; it is proved unreachable.

Assumptions: steps are sequentially consistent, and addresses are not reused, which is what holding a guard
provides. Keys are integers and values an arbitrary type; `clone` is the identity.

* In the trees and in the list the invariant is one predicate (`Inv`), shown to hold at the start and to be
  kept by every step; a rely-guarantee relation (`Rely`) says what a step may do to the other threads.
* The abstract map of the Natarajan-Mittal tree is the set of reachable finite leaves: a flagged leaf is still
  found by `get`, so a remove takes effect at the splice, possibly one made by another thread. In the list a
  remove takes effect when its node is marked. In the Bonsai tree every update takes effect at its
  compare-and-set on the root.
* Nodes of the Bonsai tree never change apart from the stamps, so a pointer to one is modelled as the node it
  leads to, and the stamps are a separate set of child pointers. The builders are functions of an environment
  that fixes, load by load, which child pointers other threads have stamped at that moment, where new nodes are
  allocated, and which attempts to defend a pointer are ejected. The lemmas about them hold for every such
  environment; the epoch-based tree is the case without ejections.

Linearizability is stated twice for each map. `Linearizable` gives for every call the moment inside it that
accounts for its reply. `TotalOrder` puts all calls of a run into one sequence: a legal sequential history from the
empty map to the map of the last state, in which every completed call occurs exactly once with its reply, at a moment
inside the call, so that a call that has ended before another one begins comes first.

All three maps come with the reason of every retry and with completion (`NMSolo`, `ListSolo`, `BonsaiSolo`). A call
starts again only where the source says so, and then, in the tree and the list, because another thread has written the
same field since it was loaded (`NMRetry`, `ListRetry`; for the Bonsai tree `BonsaiRuns.StampMeansChanged`). From every
reachable state a thread that alone takes steps replies: in the list after a number of steps linear in the number of
nodes, in the Natarajan-Mittal tree after at most so many rounds of seek, cleanup and walk as there are nodes in the
tree. In the Bonsai model the thread chooses how many loads a build makes and when it is ejected, so completion says
that it can go on to its reply.

The builders of the Bonsai tree carry the pointers behind their shields, and every load of a child pointer checks that
its node is protected at that moment; `BonsaiGuards.BuildGuarded` shows that the check never fails.

Two statements one might expect are false of the code, and are replaced by exact ones:

* The search path of a key does not keep going through a *leaf* that stays in the tree: an insert beside the
  leaf can divert it. `NMReclaim.LeafPathExact` says exactly when, in terms of the state before the step, and
  `NMReclaim.LeafPathExample` is a run in which it happens. Through an internal node that stays reachable the
  path does keep going (`NMReclaim.PathMonotone`).
* A double rotation does not always restore the factor-2 test. `BonsaiSizes.DoubleLeftLevel` and
  `BonsaiSizes.DoubleRightLevel` say exactly when it does, and `BonsaiSizes.DoubleUnlevel` gives five inserts into
  the empty map after which it has not; a single rotation always does.

`seek` clears the marks of `s.left` before it reads the tag from it (src/ebr/natarajan_mittal_tree.rs:235-250), so
the first tag is always false; the model keeps that, and `NMRuns.SentinelsHold` shows why it is harmless.

## Model

| member | source | states |
|---|---|---|
| `NMRuns.InvNext` | src/ebr/natarajan_mittal_tree.rs:171-466 | the tree invariant asked for in the source is inductive: every atomic step of `seek`, `cleanup`, `get`, `insert` and `remove` by any thread keeps it |
| `NMRuns.RunInv` | src/ebr/natarajan_mittal_tree.rs:171-229 | it holds in every state of every interleaving that starts from the five sentinel nodes |
| `NMRuns.ProtocolHolds` | src/ebr/natarajan_mittal_tree.rs:284-312 | in every reachable state a tagged edge's sibling edge is flagged, flagged edges lead to finite leaves and no thread has dereferenced null; an internal node that was in the tree in any earlier state and no longer is has both edges marked |
| `NMRuns.CasInTree` | src/ebr/natarajan_mittal_tree.rs:304-431 | every compare-and-set that succeeds, of an insert, a flag or a splice, acts on a node that is still in the tree |
| `NMRuns.MarkedForever` | src/ebr/natarajan_mittal_tree.rs:294-312 | a marked edge keeps its pointer and its marks for the rest of the run |
| `NMRuns.SentinelsHold` | src/ebr/natarajan_mittal_tree.rs:215-252 | `r.left` is always the unmarked pointer to `s`; `s.left` is never marked and is `inf0` or an infinite-keyed node with `inf0` on its right |
| `NMActions.ChainCollapses` | src/ebr/natarajan_mittal_tree.rs:254-276 | the path from `successor` to `parent` is a chain of tagged edges, and replacing it by the sibling loses exactly frozen nodes, flagged leaves and those leaves' bindings |
| `NMActions.InsertStep` | src/ebr/natarajan_mittal_tree.rs:378-390 | a successful insert compare-and-set keeps the tree's shape and order, adds exactly the one binding, of an absent key, and moves search paths only at the replaced leaf |
| `NMActions.SpliceStep` | src/ebr/natarajan_mittal_tree.rs:302-312 | a successful cleanup compare-and-set keeps the shape, carries the sibling's flag up, and removes exactly the bindings of the flagged leaves it cuts off |
| `NMRuns.RunRefines` | src/ebr/natarajan_mittal_tree.rs:284-432 | every step leaves the map alone, or is one insert's effect, or removes bindings each of which is the effect of exactly one pending remove |
| `NMRuns.SeenWasOnPath` | src/ebr/natarajan_mittal_tree.rs:232-279 | every node a seek has come to was reachable and on its key's search path at some state since that seek began |
| `NMRuns.SeekHindsight` | src/ebr/natarajan_mittal_tree.rs:232-279 | so was the leaf at which the seek stands or stops |
| `NMRuns.FindInsert` | src/ebr/natarajan_mittal_tree.rs:384-390 | a successful insert reply comes from one step of the call that added the absent key |
| `NMRuns.FindRemove` | src/ebr/natarajan_mittal_tree.rs:425-465 | a successful remove reply comes from one step of the call, possibly another thread's, that took the flagged leaf and its binding out |
| `NMRuns.Linearizable` | src/ebr/natarajan_mittal_tree.rs:339-466 | in every interleaving the reply of every get, insert and remove, refusals and `None` included, agrees with the map at a moment inside the call |
| `NMReclaim.PathMonotone` | src/ebr/natarajan_mittal_tree.rs:254-276 | once a key's search path goes through an internal node it does so while that node is reachable |
| `NMOrder.TotalOrder` | src/ebr/natarajan_mittal_tree.rs:339-466 | all calls of a run in one legal sequential history that ends in the map of the last state: every completed call exactly once with its reply at a moment inside it, also when one splice completes several removes; no call twice, no entry without a call |
| `NMOrder.OneWrite` | src/ebr/natarajan_mittal_tree.rs:299-312 | calls that take effect in the same step have different keys |
| `NMRetry.UpdateFails` | src/ebr/natarajan_mittal_tree.rs:384-447 | the compare-and-set of an insert or a flag fails only if the edge was already marked when the thread loaded it, and then the call goes on to help, or if since that load, which found the plain edge, another thread's compare-and-set or tag has overwritten it |
| `NMRetry.SpliceFails` | src/ebr/natarajan_mittal_tree.rs:284-312 | the compare-and-set of a cleanup fails only if another thread's compare-and-set or tag has overwritten the edge from `ancestor` to `successor` since the seek loaded it, plain; the thread's own flag and tag never do |
| `NMRetry.AncestorApart` | src/ebr/natarajan_mittal_tree.rs:254-276 | while the edge from `ancestor` to `successor` is plain, `parent` and `ancestor` are different nodes |
| `NMSolo.RestartReason` | src/ebr/natarajan_mittal_tree.rs:339-466 | inside a call a seek starts again only from an insert's or a flag's compare-and-set whose edge leads to another node, from a cleanup's compare-and-set whose edge is not the plain one expected, or at the end of a walk |
| `NMSolo.RestartCause` | src/ebr/natarajan_mittal_tree.rs:384-465 | the first two happen only because another thread has overwritten the edge since this call loaded it |
| `NMSolo.SoloCompletes` | src/ebr/natarajan_mittal_tree.rs:339-466 | from every reachable state a thread inside a get, insert or remove that alone takes steps replies within a bound given by the state, whatever flags, tags and unlinked nodes others have left; a remove that has flagged its leaf then replies with its value, and the leaf is out of the tree |
| `NMSolo.SoloReturns` | src/ebr/natarajan_mittal_tree.rs:339-466 | in every run, a thread that has been alone for so many steps has replied |
| `NMSolo.SoloCleanup` | src/ebr/natarajan_mittal_tree.rs:284-312 | an undisturbed cleanup whose edge from `ancestor` to `successor` is plain unlinks the flagged leaf beside its record within four steps, on whichever side the leaf is |
| `NMSolo.RunGrounded` | src/ebr/natarajan_mittal_tree.rs:254-276 | in every reachable state the pointers lead from every published node, unlinked ones included, to finitely many published nodes, so no search goes round |
| `NMReclaim.LeafPathExact` | src/ebr/natarajan_mittal_tree.rs:378-389 | a step takes a leaf that stays in the tree off a key's search path if and only if the stepping thread is at an insert's compare-and-set beside that leaf, finds the unmarked edge it expects, and its key attracts the key |
| `NMReclaim.LeafPathExample` | src/ebr/natarajan_mittal_tree.rs:362-390 | a run from the empty map: the insert of 7 takes `inf0`, which stays in the tree, off every key's search path |
| `NMReclaim.ReachableBefore` | src/ebr/natarajan_mittal_tree.rs:302-312 | an unlinked node never becomes reachable again |
| `NMReclaim.FlaggedOnce` | src/ebr/natarajan_mittal_tree.rs:425-434 | a leaf is flagged by at most one remove in a whole run |
| `NMReclaim.FlagFollows` | src/ebr/natarajan_mittal_tree.rs:299-312 | a flagged leaf is flagged for as long as it is in the tree, wherever splices move it |
| `NMReclaim.WinnerUnlinked` | src/ebr/natarajan_mittal_tree.rs:431-465 | a remove returns a value only when the leaf it flagged, which holds that value, is unlinked, also when it infers this from finding another leaf; no other remove targets that leaf |
| `NMReclaim.NodesAccounted` | src/ebr/natarajan_mittal_tree.rs:314-373 | in every reachable state each allocated node is in the tree, private to an insert, waiting in one walk, retired exactly once or freed by a refused insert, and in one of these only |
| `NMWalk.WalkTurn` | src/ebr/natarajan_mittal_tree.rs:317-333 | a step of the system seen from a walking thread: its own move takes one off the moves it has to go and retires only nodes it has unlinked; a step of another thread changes neither |
| `NMWalk.WalkRetiresExactly` | src/ebr/natarajan_mittal_tree.rs:314-334 | in any interleaving the walk after a splice ends within a number of the thread's own moves fixed when it starts, and hands to the collector exactly the nodes that the splice made unreachable, each once |
| `ListRuns.InvNext` | src/ebr/list.rs:59-262 | the list invariant is inductive over every atomic step of the three traversals, `get`, `insert` and `remove` |
| `ListRuns.ChainHolds` | src/ebr/list.rs:59-98 | in every reachable state the physical chain from the head, marked nodes included, is strictly increasing in key, and no thread has dereferenced null |
| `ListRuns.Published` | src/ebr/list.rs:222-258 | a node once in the chain keeps its key and value, never changes a marked `next` again, is in the chain as long as it is unmarked, and never comes back |
| `ListSteps.MoveOn` | src/ebr/list.rs:66-83 | the next node of any node seen in a traversal was in the chain during it too, and a cursor past the key knows that the key was absent at some moment, also when it walks through unlinked nodes |
| `ListSteps.Arrived` | src/ebr/list.rs:124-156 | an unmarked node seen with the key holds what the map holds now |
| `ListActions.LinkStep` | src/ebr/list.rs:222-229 | a successful insert compare-and-set adds exactly one binding, of an absent key, and keeps the chain sorted |
| `ListActions.MarkStep` | src/ebr/list.rs:247-250 | marking an unmarked published node removes exactly its binding, with its value |
| `ListActions.UnlinkStep` | src/ebr/list.rs:91-98 | replacing the link to the start of a marked run by its end takes exactly the nodes of the run out of the chain and changes no binding |
| `ListRuns.RunRefines` | src/ebr/list.rs:73-258 | every step of every run leaves the map alone, adds one absent binding or removes one present binding |
| `ListRuns.ObservedThen` | src/ebr/list.rs:144-160 | whatever a call has observed about its key was true of the map at a state of the call |
| `ListRuns.Linearizable` | src/ebr/list.rs:189-298 | with any number of threads mixing the three traversals, the reply of every get, insert and remove agrees with the map at a moment inside the call |
| `ListReclaim.RetiredOnce` | src/ebr/list.rs:100-113 | over a whole run no node is retired twice and a retired node is never in the chain again |
| `ListReclaim.Departed` | src/ebr/list.rs:91-138 | a node that has left the chain is marked, and is retired or waits in the retire loop of exactly one thread |
| `ListReclaim.RetireLoop` | src/ebr/list.rs:86-107 | between `node` and `curr` lies a run of distinct marked nodes, exactly those the thread has unlinked and not retired; it is empty exactly at `curr` |
| `ListReclaim.RetireTurn` | src/ebr/list.rs:100-112 | each turn of the retire loop retires the front node and takes one off the count; the loop ends exactly at `curr` with all retired |
| `ListReclaim.RetireUndisturbed` | src/ebr/list.rs:100-112 | no other thread adds to or takes from what the loop has to retire |
| `ListOrder.TotalOrder` | src/ebr/list.rs:189-298 | all calls of a run, with any mix of traversals, in one legal sequential history that ends in the map of the last state: every completed call exactly once with its reply at a moment inside it; no call twice, no entry without a call |
| `ListRetry.FailsAfterWrite` | src/ebr/list.rs:91-258 | a compare-and-set of an unlink, an insert or a remove fails only if another thread's compare-and-set or mark has overwritten the field since the call last loaded or wrote it with the value it expects |
| `ListRetry.MarkFailsAfterRemove` | src/ebr/list.rs:239-250 | a remove finds its node marked, and starts again, only if another thread's remove of the same key has taken effect on that node since the call found it unmarked |
| `ListSolo.RestartReason` | src/ebr/list.rs:163-260 | inside a call a traversal starts again only from an unlink or an insert whose compare-and-set fails, or from a remove that finds its node marked |
| `ListSolo.RestartCause` | src/ebr/list.rs:163-260 | and that happens only because another thread has written the field since this call loaded it, or another remove of the key has taken effect on the node |
| `ListSolo.SoloCompletes` | src/ebr/list.rs:163-298 | from every reachable state a thread inside a get, insert or remove, with any of the three traversals, that alone takes steps replies within a number of them linear in the number of nodes |
| `ListSolo.SoloReturns` | src/ebr/list.rs:163-298 | in every run, a thread that has been alone for so many steps has replied |
| `ListValues.SpentBy` | src/ebr/list.rs:215-260 | a value is disposed of only by being moved out to the remove that marks its node or dropped by its own refused insert |
| `ListValues.SpentOnce` | src/ebr/list.rs:215-260 | at most one step of a run disposes of the value of a node |
| `ListValues.TakerReturns` | src/ebr/list.rs:244-260 | the remove whose step takes a value out is the one that returns that value |
| `ListValues.ReturnedTaken` | src/ebr/list.rs:244-260 | a value that a remove returns was taken out by a step of the same call |
| `ListValues.HandedOver` | src/ebr/list.rs:207-211 | an insert hands its value over in a node of its own, where it stays for the rest of the run |
| `ListValues.Conserved` | src/ebr/list.rs:30-46 | when all calls have returned, each value handed to an insert was disposed of once or is among those `drop` disposes of, never both; each node is in the chain, retired once, or freed by its refused insert |
| `ListValues.Drop` | src/ebr/list.rs:30-46 | the drop loop frees exactly the nodes of the chain, drops exactly the values of the unmarked ones, in order, and never reads a freed node |
| `ListValues.DropAtEnd` | src/ebr/list.rs:30-46 | a run that ends in drop: each value handed to an insert has been disposed of exactly once, by a step of the run or by the drop, and each node has been freed by the drop, retired or freed by its refused insert, exactly once |
| `BonsaiBalance.InnerThere` | src/ebr/bonsai_tree.rs:187-225 | when `mk_balanced` rotates and the single-rotation test fails, the inner grandchild is not null |
| `BonsaiBalance.SingleLeftOK` | src/ebr/bonsai_tree.rs:229-250 | the rotation keeps the bindings in order and the sizes exact, adds two nodes to the new and one to the retired ones, and leaves no node unaccounted for |
| `BonsaiBalance.DoubleLeftOK` | src/ebr/bonsai_tree.rs:253-292 | so does the double rotation, with three new and two retired nodes, unless it reports a stamp or an ejection |
| `BonsaiBalance.SingleRightOK` | src/ebr/bonsai_tree.rs:320-341 | the same for the single right rotation |
| `BonsaiBalance.DoubleRightOK` | src/ebr/bonsai_tree.rs:344-383 | the same for the double right rotation |
| `BonsaiBalance.MkBalancedOK` | src/ebr/bonsai_tree.rs:167-200 | under any interference `mk_balanced` gives a tree with the bindings of left, node and right in this order, exact sizes and every node accounted for, or reports a stamp or an ejection; it never dereferences null |
| `BonsaiSizes.MkBalancedLevel` | src/ebr/bonsai_tree.rs:167-200 | unless it reports a stamp or an ejection, `mk_balanced` leaves two subtrees as they are if each is at most twice the other, and otherwise rotates the larger side: once if its inner child is smaller than its outer one, twice if not, with the levels this gives when that side is over by one |
| `BonsaiLevels.InsertGrown` | src/ebr/bonsai_tree.rs:386-429 | the tree that `do_insert` makes, for every tree and interference: a leaf at the end of the search path, and every node on the path rebalanced above its rebuilt child |
| `BonsaiLevels.RemoveShrunk` | src/ebr/bonsai_tree.rs:432-544 | the tree that `do_remove` makes: the node gives way to the last node of its left subtree or the first of its right one, and every node on the way is rebalanced |
| `BonsaiLevels.GrownLevel` | src/ebr/bonsai_tree.rs:187-221 | an insertion into a tree whose nodes all meet the factor-2 test keeps it at every node if every double rotation on the path joins subtrees that fit |
| `BonsaiLevels.ShrunkLevel` | src/ebr/bonsai_tree.rs:187-221 | the same for a removal |
| `BonsaiUpdate.PullLeftmostOK` | src/ebr/bonsai_tree.rs:480-511 | the pulled node holds the first binding and the rest the others, in order, with every node accounted for |
| `BonsaiUpdate.PullRightmostOK` | src/ebr/bonsai_tree.rs:513-544 | the same for the last binding |
| `BonsaiUpdate.DoInsertOK` | src/pebr/bonsai_tree.rs:401-446 | under any stamps and ejections `do_insert` never dereferences null, lists exactly its new nodes, and either reports failure or gives the search tree with exact sizes that a sorted association list gives, with the right flag and every node accounted for; it always succeeds when undisturbed |
| `BonsaiUpdate.DoRemoveOK` | src/pebr/bonsai_tree.rs:449-499 | the same for `do_remove`, with the removed value |
| `BonsaiTree.PutMap` | src/ebr/bonsai_tree.rs:386-429 | the reference insertion keeps the order and adds the binding of an absent key only |
| `BonsaiTree.CutMap` | src/ebr/bonsai_tree.rs:432-478 | the reference deletion keeps the order and drops the key's binding only |
| `BonsaiInvariant.InsertReady` | src/ebr/bonsai_tree.rs:587-609 | a completed insert build holds the old map plus the absent key, or the old map, with the right flag; old and new nodes together are the tree's and the retired ones |
| `BonsaiInvariant.RemoveReady` | src/ebr/bonsai_tree.rs:611-633 | a completed remove build holds the old map minus the key and replies with its value; the same node accounting |
| `BonsaiInvariant.BuildOK` | src/pebr/bonsai_tree.rs:643-706 | whatever happens around it a build ends in a publishable tree or in a result that is aborted, and all its new nodes are fresh and distinct |
| `BonsaiInvariant.ShieldBound` | src/pebr/bonsai_tree.rs:401-499 | an update holds at most twice the height plus four shields at a time and gives all of them back |
| `BonsaiInvariant.CalmBuild` | src/pebr/bonsai_tree.rs:643-706 | a build that meets no stamp and no ejection gives a tree to publish |
| `BonsaiGuards.BuildGuarded` | src/pebr/bonsai_tree.rs:401-571 | under any interference every node that a build reads is protected at that moment by the root shield or a shield it holds, or is its own; a build is ejected if and only if one of the defends it made was; no shield is held at its end |
| `BonsaiRuns.Accounted` | src/ebr/bonsai_tree.rs:131-137 | from that ledger, if new nodes are fresh: the list of replaced nodes has no duplicates, no replaced node is in the new tree, and the two together are exactly the old and the new nodes |
| `BonsaiRuns.RunInv` | src/ebr/bonsai_tree.rs:562-633 | the invariant of the shared tree holds in every state of every run |
| `BonsaiRuns.SnapshotClean` | src/ebr/bonsai_tree.rs:113-129 | in every reachable state the current tree is a search tree with exact sizes, no node of it carries a stamp, and no thread has dereferenced null |
| `BonsaiRuns.RetiredStamped` | src/ebr/bonsai_tree.rs:113-129 | in every reachable state a node that has been handed to the collector carries the stamp on both child pointers |
| `BonsaiRuns.SwapStep` | src/ebr/bonsai_tree.rs:598-604 | a compare-and-set succeeds only if the loaded tree is still the current one, installs its sequential update, and hands over exactly the replaced nodes |
| `BonsaiRuns.RunRefines` | src/ebr/bonsai_tree.rs:587-633 | the map changes only when a compare-and-set installs the sequential update of the map current at that moment, with the matching reply |
| `BonsaiRuns.Linearizable` | src/ebr/bonsai_tree.rs:562-633 | a get answers for a version that was current during the call; an insert or remove is one compare-and-set of its call |
| `BonsaiOrder.TotalOrder` | src/ebr/bonsai_tree.rs:562-633 | all calls of a run in one legal sequential history that ends in the map of the last state: every completed call exactly once with its reply at a moment inside it; no call twice, no entry without a call |
| `BonsaiRuns.NodesAccounted` | src/ebr/bonsai_tree.rs:105-137 | each node ever allocated is in the tree, private to one builder, about to be retired by one commit, retired once or freed once, and in one of these only |
| `BonsaiRuns.GoneForever` | src/ebr/bonsai_tree.rs:105-129 | a retired or freed node is never reachable again and never handed over twice |
| `BonsaiRuns.StampMeansChanged` | src/ebr/bonsai_tree.rs:57-68 | without ejection a build reports a stamp only if the root has changed since it was loaded |
| `BonsaiSolo.RestartReason` | src/ebr/bonsai_tree.rs:562-633 | inside a call a thread goes back to the root only from a stamped pointer or node, from an ejected root shield, from a build that ends in a stamp or an ejection, or from a compare-and-set on a root that has changed |
| `BonsaiSolo.SoloCompletes` | src/ebr/bonsai_tree.rs:562-633 | from every reachable state a thread inside a call can go on by its own steps to its reply |
| `BonsaiSizes.SingleLevel` | src/ebr/bonsai_tree.rs:187-221 | if the subtrees meet the factor-2 test and one side is over by one insertion or deletion, a single rotation gives two nodes that meet it |
| `BonsaiSizes.SingleLeftLevel` | src/ebr/bonsai_tree.rs:219-249 | the same of the tree that `mk_balanced_left` builds |
| `BonsaiSizes.SingleRightLevel` | src/ebr/bonsai_tree.rs:311-340 | the same of the tree that `mk_balanced_right` builds |
| `BonsaiSizes.DoubleLevel` | src/ebr/bonsai_tree.rs:224-291 | the size arithmetic of a double rotation under the same hypotheses, as an if-and-only-if |
| `BonsaiSizes.DoubleLeftLevel` | src/ebr/bonsai_tree.rs:224-291 | the three nodes that `mk_balanced_left` builds by a double rotation meet the test if and only if neither outer subtree outweighs the half of the inner grandchild it is joined with and an empty far side comes with an empty near side |
| `BonsaiSizes.DoubleRightLevel` | src/ebr/bonsai_tree.rs:315-382 | the same for `mk_balanced_right` |
| `BonsaiSizes.DoubleUnlevel` | src/ebr/bonsai_tree.rs:224-291 | undisturbed inserts of 10, 5, 20, 15 and 12 into the empty tree: every node meets the test before the last one, and after it the root has children of sizes 3 and 1 |
| `BonsaiHandle.Handle.Abort` | src/pebr/bonsai_tree.rs:110-117 | frees exactly the new nodes and leaves both lists empty |
| `BonsaiHandle.Handle.Commit` | src/pebr/bonsai_tree.rs:120-136 | stamps both child pointers of every replaced node, defers each once, in order, and leaves both lists empty |
| `BonsaiHandle.Handle.Update` | src/pebr/bonsai_tree.rs:643-707 | the first attempt that gives a tree and finds the root unchanged publishes the sequential update and keeps, stamps and defers exactly its nodes; every attempt before it was ejected, stamped or beaten, and left memory and both lists as they were; no reply comes only if all attempts were so hindered |
| `BonsaiHandle.StampedBoth` | src/ebr/bonsai_tree.rs:117-127 | the stamps of a commit lie on both sides of exactly the replaced nodes |
| `BonsaiHandle.Drop` | src/ebr/bonsai_tree.rs:636-654 | dropping the map frees each node of the tree exactly as often as it occurs in it, and nothing else |
| `ShieldPools.PoolAccounts` | src/pebr/shield_pool.rs:20-60 | over any sequence of defends, failing or not, and handle drops: free indices are distinct, in range and not in use; the pool's size is the free, the live and the failed-reuse indices together, at most the peak of live handles plus the failed reuses |
| `ShieldPools.NestedPool` | src/pebr/shield_pool.rs:20-60 | a pool used in nested scopes never drops a handle that is not live, and its size is at most the most shields held at a time plus the failed reuses |
| `BonsaiShields.TurnShields` | src/pebr/bonsai_tree.rs:401-571 | the shields of one update are taken and given back in nested scopes, none is held at the end, at most twice the height plus four at a time, and enough of them to protect every node that is read |
| `BonsaiShields.PoolWithin` | src/pebr/bonsai_tree.rs:643-706 | over any sequence of updates with one handle, ejected and failed attempts included, the pool is at most twice the greatest height plus four, plus the failed reuses, and has no live handle between updates |
| `Linearize.Order` | src/ebr/concurrent_map.rs:3-8 | given the map in every state, the calls that looked at it and the calls that changed it, one sequence of all of them is a legal sequential history |
| `Linearize.Serialise` | src/ebr/concurrent_map.rs:3-8 | for any run whose steps and replies fit its map: all calls in one legal history that ends in the last map, every completed call with exactly one entry inside the call, with its reply; no call has two, and every entry has the operation of a call in progress |
| `Linearize.RealTime` | src/ebr/concurrent_map.rs:3-8 | a call that has ended before another one begins comes first |
| `ShieldPools.DefendSound` | src/pebr/shield_pool.rs:20-34 | a defend keeps the partition into free, live and lost indices and never hands out a live one |
| `ShieldPools.ReleaseSound` | src/pebr/shield_pool.rs:53-60 | so does dropping a handle |
| `ShieldPools.ShieldPool.Defend` | src/pebr/shield_pool.rs:20-34 | the pool's fields follow the accounts; the pointer gets a shield of its own and no live handle's shield is touched |
| `ShieldPools.ShieldPool.Release` | src/pebr/shield_pool.rs:53-60 | the shield is released, its index becomes available and no other live handle's shield is touched |

## Left out

- The benchmark driver, argument parsing, sampling and plotting (src/main.rs, bench.py, plot.py).
- The reclamation schemes themselves: a guard is "addresses are not reused", `Shield::defend` may report an ejection at any time, and handing a node to the collector is counted, not carried out.
- src/pebr/list.rs and src/pebr/natarajan_mittal_tree.rs: their safety rests on shields whose semantics are in a library, and the latter forgets an injected flag when it is ejected.
- src/ebr/michael_hash_map.rs and src/pebr/michael_hash_map.rs: a fixed array of lists, each key sent to one of them by a hasher that is in a library.
- Memory orderings weaker than sequential consistency, pointer tagging as bits (marks are booleans), lifetimes, and overflow of the `size` fields.
- Termination of retry loops under contention (a thread that alone takes steps does complete), and any global height or balance bound for the Bonsai tree: the code does not guarantee them.
- `NMTreeMap::drop`, `ShieldPool::drop`: the first is the loop of `BonsaiHandle.Drop` over another node type, the second a loop over a vector.
- The shields of `get` in src/pebr/bonsai_tree.rs: an ejection there only restarts the call, as a stamp does in `BonsaiRuns.Linearizable`.
- ListValues.Drop: memory is a map from addresses to nodes from which freed addresses are removed, not an array of bytes.
- BonsaiHandle.Handle.Update: what happens around each attempt (loaded root, loads, allocations, ejections, root at the compare-and-set) is a parameter, and so is the number of attempts; sharing with other threads is in `BonsaiModel`.
- BonsaiUpdate.DoInsertOK: the builders push onto the two lists of their handle; here the lists are passed along as values, so updates in place show only in `BonsaiHandle`.
- BonsaiUpdate.DoRemoveOK: the same.
- BonsaiSolo.SoloCompletes: a build that is under way is taken to be one that can still be finished, because the model does not tie the number of loads recorded so far to the code; from the root no such condition is needed.
