/** The diff of two resource graphs that a Deployment reports: nodes added, removed or changed. */
module GraphDiff {
  import opened Basics
  import opened Graphs

  datatype Kind = Added | Removed | ModuleChanged | ParamsChanged

  datatype Change = Change(coordinate: Coordinate, kind: Kind)

  /** A node that has a module in the new graph has one in the old graph: otherwise the comparison of modules would fail. */
  predicate Comparable(before: Graph, after: Graph) {
    forall c :: c in before.nodes && IsLive(after, c) && after.nodes[c].config.Some? ==> before.nodes[c].config.Some?
  }

  /** What the diff says about one coordinate. */
  function KindOf(before: Graph, after: Graph, c: Coordinate): Option<Kind>
    requires Comparable(before, after)
  {
    if IsLive(after, c) then
      if c !in before.nodes then Some(Added) else Changed(before.nodes[c], after.nodes[c])
    else if c in before.nodes then Some(Removed)
    else None
  }

  /** Workloads compare params; resources compare the module first, and params only if the new node has any. */
  function Changed(oldNode: Node, newNode: Node): Option<Kind>
    requires newNode.config.Some? ==> oldNode.config.Some?
  {
    if newNode.config.None? then
      if newNode.params != oldNode.params then Some(ParamsChanged) else None
    else if (oldNode.config.value.definition, oldNode.config.value.version) != (newNode.config.value.definition, newNode.config.value.version) then Some(ModuleChanged)
    else if newNode.params.Some? && newNode.params != oldNode.params then Some(ParamsChanged)
    else None
  }

  ghost predicate Enumerates(order: seq<Coordinate>, g: Graph) {
    && (forall c :: c in order <==> c in g.nodes)
    && (forall j, k :: 0 <= j < k < |order| ==> order[j] != order[k])
  }

  predicate OncePerCoordinate(changes: seq<Change>) {
    forall j, k :: 0 <= j < k < |changes| ==> changes[j].coordinate != changes[k].coordinate
  }

  function CountOf(changes: seq<Change>, kind: Kind): nat {
    if changes == [] then 0 else CountOf(changes[..|changes| - 1], kind) + if changes[|changes| - 1].kind == kind then 1 else 0
  }

  /** DiffGraphs: the first loop reports the new graph's nodes, the second the removed ones, the third counts. */
  method DiffGraphs(before: Graph, after: Graph, beforeOrder: seq<Coordinate>, afterOrder: seq<Coordinate>)
    returns (changes: seq<Change>, added: nat, removed: nat, changed: nat)
    requires Comparable(before, after) && Enumerates(beforeOrder, before) && Enumerates(afterOrder, after)
    ensures forall c, kind :: Change(c, kind) in changes <==> KindOf(before, after, c) == Some(kind)
    ensures OncePerCoordinate(changes)
    ensures added == CountOf(changes, Added) && removed == CountOf(changes, Removed)
    ensures changed == CountOf(changes, ModuleChanged) + CountOf(changes, ParamsChanged)
    ensures added + removed + changed == |changes|
  {
    hide KindOf, Comparable, Enumerates, OncePerCoordinate, CountOf;
    changes := FirstPass(before, after, afterOrder);
    changes := SecondPass(before, after, beforeOrder, changes);
    added, removed := CountAddedRemoved(changes);
    CountsSum(changes);
    changed := |changes| - added - removed;
  }

  method CountAddedRemoved(changes: seq<Change>) returns (added: nat, removed: nat)
    ensures added == CountOf(changes, Added) && removed == CountOf(changes, Removed)
  {
    added, removed := 0, 0;
    var k := 0;
    while k < |changes|
      invariant 0 <= k <= |changes| && added == CountOf(changes[..k], Added) && removed == CountOf(changes[..k], Removed)
    {
      assert changes[..k + 1][..k] == changes[..k];
      match changes[k].kind {
        case Added => added := added + 1;
        case Removed => removed := removed + 1;
        case _ =>
      }
      k := k + 1;
    }
    assert changes[..|changes|] == changes;
  }

  /** The nodes that are live in the new graph. */
  method FirstPass(before: Graph, after: Graph, order: seq<Coordinate>) returns (changes: seq<Change>)
    requires Comparable(before, after) && Enumerates(order, after)
    ensures forall c, kind :: Change(c, kind) in changes <==> IsLive(after, c) && KindOf(before, after, c) == Some(kind)
    ensures OncePerCoordinate(changes)
  {
    changes := [];
    var k := 0;
    while k < |order|
      invariant 0 <= k <= |order|
      invariant forall c, kind :: Change(c, kind) in changes <==> c in order[..k] && IsLive(after, c) && KindOf(before, after, c) == Some(kind)
      invariant OncePerCoordinate(changes)
    {
      var rc := order[k];
      var newNode := after.nodes[rc];
      ghost var said := changes;
      if !Deleted(newNode) {
        if rc in before.nodes {
          var oldNode := before.nodes[rc];
          if newNode.config.None? {
            if newNode.params != oldNode.params { changes := changes + [Change(rc, ParamsChanged)]; }
          } else if oldNode.config.value.definition != newNode.config.value.definition || oldNode.config.value.version != newNode.config.value.version {
            changes := changes + [Change(rc, ModuleChanged)];
          } else if newNode.params.Some? && newNode.params != oldNode.params {
            changes := changes + [Change(rc, ParamsChanged)];
          }
        } else {
          changes := changes + [Change(rc, Added)];
        }
      }
      assert order[..k + 1] == order[..k] + [rc];
      OneMore(said, changes, order, k);
      k := k + 1;
    }
    assert order[..|order|] == order;
  }

  /** The nodes of the old graph that are gone or tombstones in the new one. */
  method SecondPass(before: Graph, after: Graph, order: seq<Coordinate>, first: seq<Change>) returns (changes: seq<Change>)
    requires Comparable(before, after) && Enumerates(order, before) && OncePerCoordinate(first)
    requires forall c, kind :: Change(c, kind) in first <==> IsLive(after, c) && KindOf(before, after, c) == Some(kind)
    ensures forall c, kind :: Change(c, kind) in changes <==> KindOf(before, after, c) == Some(kind)
    ensures OncePerCoordinate(changes)
  {
    changes := first;
    var k := 0;
    while k < |order|
      invariant 0 <= k <= |order|
      invariant forall c, kind :: Change(c, kind) in changes <==>
                  (c in order[..k] || IsLive(after, c)) && KindOf(before, after, c) == Some(kind)
      invariant OncePerCoordinate(changes)
    {
      var rc := order[k];
      ghost var said := changes;
      if !(rc in after.nodes && !Deleted(after.nodes[rc])) { changes := changes + [Change(rc, Removed)]; }
      assert order[..k + 1] == order[..k] + [rc];
      forall j | 0 <= j < |said| && said[j].coordinate == rc ensures IsLive(after, rc) {
        assert Change(said[j].coordinate, said[j].kind) in said;
        assert rc !in order[..k] by { assert forall i :: 0 <= i < k ==> order[i] != order[k]; }
      }
      k := k + 1;
    }
    assert order[..|order|] == order;
  }

  lemma OneMore(said: seq<Change>, changes: seq<Change>, order: seq<Coordinate>, k: nat)
    requires k < |order| && OncePerCoordinate(said)
    requires forall i, j :: 0 <= i < j < |order| ==> order[i] != order[j]
    requires forall c, kind :: Change(c, kind) in said ==> c in order[..k]
    requires changes == said || exists kind :: changes == said + [Change(order[k], kind)]
    ensures OncePerCoordinate(changes)
  {
    forall j | 0 <= j < |said| ensures said[j].coordinate != order[k] {
      assert Change(said[j].coordinate, said[j].kind) in said;
    }
  }

  lemma {:induction false} CountsSum(changes: seq<Change>)
    ensures CountOf(changes, Added) + CountOf(changes, Removed) + CountOf(changes, ModuleChanged) + CountOf(changes, ParamsChanged) == |changes|
    decreases |changes|
  {
    if changes != [] { CountsSum(changes[..|changes| - 1]); }
  }

  // ---------------------------------------------------------------- what the diff means

  ghost predicate Says(before: Graph, after: Graph, c: Coordinate, kind: Kind)
    requires Comparable(before, after)
  {
    KindOf(before, after, c) == Some(kind)
  }

  /** The diff reconstructs its target: the old nodes without the removed ones, with the added ones, are the live nodes of the new graph. */
  lemma DiffReconstructs(before: Graph, after: Graph, c: Coordinate)
    requires Comparable(before, after)
    ensures ((c in before.nodes && !Says(before, after, c, Removed)) || Says(before, after, c, Added)) <==> IsLive(after, c)
    ensures Says(before, after, c, Removed) ==> c in before.nodes
    ensures Says(before, after, c, Added) ==> c !in before.nodes
  {
  }

  predicate NoTombstones(g: Graph) {
    forall c :: c in g.nodes ==> !Deleted(g.nodes[c])
  }

  /** On graphs without tombstones what one direction adds the other removes, and both report the same nodes as changed modules. */
  lemma DiffIsSymmetric(a: Graph, b: Graph, c: Coordinate)
    requires Comparable(a, b) && Comparable(b, a) && NoTombstones(a) && NoTombstones(b)
    ensures Says(a, b, c, Added) <==> Says(b, a, c, Removed)
    ensures Says(a, b, c, ModuleChanged) <==> Says(b, a, c, ModuleChanged)
  {
  }

  /** A graph compared with itself: exactly its tombstones are reported, as removed once more. */
  lemma DiffWithItself(g: Graph, c: Coordinate, kind: Kind)
    requires Comparable(g, g)
    ensures Says(g, g, c, kind) <==> IsTombstone(g, c) && kind == Removed
  {
  }

  /** So the diff of a graph with itself is empty if and only if the graph has no tombstone. */
  lemma SelfDiffIsEmptyIff(g: Graph)
    requires Comparable(g, g)
    ensures (forall c, kind :: !Says(g, g, c, kind)) <==> NoTombstones(g)
  {
    forall c, kind ensures Says(g, g, c, kind) <==> IsTombstone(g, c) && kind == Removed { DiffWithItself(g, c, kind); }
    if c :| c in g.nodes && Deleted(g.nodes[c]) { assert Says(g, g, c, Removed); }
  }

  /** Linked graphs are always comparable: which nodes have modules depends on the coordinate alone. */
  lemma LinkedGraphsAreComparable(a: Graph, b: Graph)
    requires Linked(a) && Linked(b)
    ensures Comparable(a, b)
  {
  }
}
