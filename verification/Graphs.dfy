/**
 Resource graphs, tombstones and the references the compiled Terraform makes.

 Coordinates name nodes; a workload node has no module configuration, every other node has one.  A
 tombstone keeps a removed node's configuration so that its provider stays until Terraform has
 destroyed it.  The graph library is not part of this model; its contracts are hypotheses: a
 freshly expanded graph is closed under edges and holds no tombstone, iteration visits every node, and
 a placeholder resolves to resource nodes of the graph.
 */
module Graphs {
  import opened Basics

  datatype Coordinate = Coordinate(kind: string, resourceClass: string, id: string)

  const WORKLOAD := "workload"

  datatype Config = Config(definition: string, version: string, deleted: bool, inlineSource: bool)

  datatype Node = Node(config: Option<Config>, params: Option<string>)

  /** A dependency added for a resolved placeholder has no name of its own. */
  datatype Alias = Named(name: string) | Anonymous(target: Coordinate)

  datatype Graph = Graph(nodes: map<Coordinate, Node>, edges: map<Coordinate, map<Alias, Coordinate>>)

  predicate Deleted(n: Node) {
    n.config.Some? && n.config.value.deleted
  }

  predicate IsTombstone(g: Graph, c: Coordinate) {
    c in g.nodes && Deleted(g.nodes[c])
  }

  predicate IsLive(g: Graph, c: Coordinate) {
    c in g.nodes && !Deleted(g.nodes[c])
  }

  /** The nodes that become a module block. */
  predicate Emitted(g: Graph, c: Coordinate) {
    IsLive(g, c) && c.kind != WORKLOAD
  }

  function EdgesOf(g: Graph, c: Coordinate): map<Alias, Coordinate> {
    if c in g.edges then g.edges[c] else map[]
  }

  function Targets(g: Graph, c: Coordinate): set<Coordinate> {
    EdgesOf(g, c).Values
  }

  /** Configurations are where they belong, every edge target is a resource node of the graph, and live nodes point only to live nodes. */
  predicate Linked(g: Graph) {
    && (forall c :: c in g.nodes ==> (g.nodes[c].config.None? <==> c.kind == WORKLOAD))
    && (forall c, t :: c in g.edges && t in Targets(g, c) ==> c in g.nodes && LinkOk(g, c, t))
    && (forall c :: c in g.edges ==> NamesOk(g.edges[c]))
  }

  /** An anonymous name belongs to its target. */
  predicate NamesOk(m: map<Alias, Coordinate>) {
    forall a :: a in m && a.Anonymous? ==> m[a] == a.target
  }

  predicate LinkOk(g: Graph, c: Coordinate, t: Coordinate)
    requires c in g.nodes
  {
    t in g.nodes && t.kind != WORKLOAD && (IsLive(g, c) ==> IsLive(g, t))
  }

  /** What SeedAndExpandAll returns. */
  predicate Fresh(g: Graph) {
    Linked(g) && forall c :: c in g.nodes ==> !Deleted(g.nodes[c])
  }

  // ---------------------------------------------------------------- tombstones

  function Tombstone(n: Node): Node
    requires n.config.Some?
  {
    Node(Some(n.config.value.(deleted := true, inlineSource := false)), None)
  }

  predicate Buried(g: Graph, last: Graph, includeDeleted: bool, c: Coordinate) {
    && c in last.nodes && c !in g.nodes && last.nodes[c].config.Some?
    && (!last.nodes[c].config.value.deleted || includeDeleted)
  }

  /** AddDeletedNodes over the part of the last graph that was visited. */
  function BuriedIn(g: Graph, last: Graph, includeDeleted: bool, visited: set<Coordinate>): Graph {
    Graph(
      map c | c in g.nodes.Keys + visited && (c in g.nodes || Buried(g, last, includeDeleted, c)) ::
        if c in g.nodes then g.nodes[c] else Tombstone(last.nodes[c]),
      map c | c in g.edges.Keys + visited && (c in g.edges || Buried(g, last, includeDeleted, c)) ::
        if c in visited && Buried(g, last, includeDeleted, c) then EdgesOf(last, c) else EdgesOf(g, c))
  }

  function SetOf(order: seq<Coordinate>): set<Coordinate> {
    set c | c in order
  }

  function Tombstoned(g: Graph, last: Graph, includeDeleted: bool): Graph {
    BuriedIn(g, last, includeDeleted, last.nodes.Keys)
  }

  // ---------------------------------------------------------------- resolved placeholders

  /** A placeholder after the library resolved it against the graph. */
  datatype Sub = Resource(target: Coordinate) | Selector(matches: seq<Coordinate>)

  /** AddAnonymousDependency */
  function AddEdge(g: Graph, c: Coordinate, t: Coordinate): Graph {
    if t in Targets(g, c) then g else g.(edges := g.edges[c := EdgesOf(g, c)[Anonymous(t) := t]])
  }

  function AddEdges(g: Graph, c: Coordinate, matches: seq<Coordinate>): Graph
    decreases |matches|
  {
    if matches == [] then g
    else AddEdges(if IsTombstone(g, matches[0]) then g else AddEdge(g, c, matches[0]), c, matches[1..])
  }

  /** resolveResourceSubstitutions: None if a resource placeholder names a tombstone. */
  function Resolve(g: Graph, c: Coordinate, subs: seq<Sub>): Option<Graph>
    decreases |subs|
  {
    if subs == [] then Some(g)
    else match subs[0]
      case Resource(t) => if IsTombstone(g, t) then None else Resolve(AddEdge(g, c, t), c, subs[1..])
      case Selector(matches) => Resolve(AddEdges(g, c, matches), c, subs[1..])
  }

  /** The library's promise: what a placeholder resolves to are resource nodes of the graph. */
  predicate Known(g: Graph, subs: seq<Sub>) {
    forall k :: 0 <= k < |subs| ==> SubKnown(g, subs[k])
  }

  predicate SubKnown(g: Graph, s: Sub) {
    match s
    case Resource(t) => t in g.nodes && t.kind != WORKLOAD
    case Selector(matches) => forall k :: 0 <= k < |matches| ==> matches[k] in g.nodes && matches[k].kind != WORKLOAD
  }

  /** The Terraform module block of a node: what it depends on, and what its inputs refer to. */
  datatype Block = Block(coordinate: Coordinate, dependsOn: set<Coordinate>, subs: seq<Sub>)

  class GraphBuilder {
    var graph: Graph

    /** order: the last graph's nodes as DepthFirstIterate visits them. */
    method AddDeletedNodes(last: Graph, includeDeleted: bool, order: seq<Coordinate>)
      requires forall c :: c in order <==> c in last.nodes
      modifies this
      ensures graph == Tombstoned(old(graph), last, includeDeleted)
    {
      hide BuriedIn, Tombstone;
      var k := 0;
      ghost var g0 := graph;
      BuryNone(g0, last, includeDeleted);
      assert SetOf(order[..0]) == {};
      while k < |order|
        invariant 0 <= k <= |order|
        invariant graph == BuriedIn(g0, last, includeDeleted, SetOf(order[..k]))
      {
        var c := order[k];
        assert order[..k + 1] == order[..k] + [c] && SetOf(order[..k + 1]) == SetOf(order[..k]) + {c};
        BuryOne(g0, last, includeDeleted, SetOf(order[..k]), c);
        if c !in graph.nodes {
          var n := last.nodes[c];
          if n.config.Some? && (!n.config.value.deleted || includeDeleted) {
            graph := Graph(graph.nodes[c := Tombstone(n)], graph.edges[c := EdgesOf(last, c)]);
          }
        }
        k := k + 1;
      }
      assert order[..|order|] == order && SetOf(order) == last.nodes.Keys;
    }

    /** Resolves the placeholders of one node; false is the error that names a tombstone. */
    method ResolveSubs(c: Coordinate, subs: seq<Sub>) returns (ok: bool)
      modifies this
      ensures ok <==> Resolve(old(graph), c, subs).Some?
      ensures ok ==> graph == Resolve(old(graph), c, subs).value
      ensures graph.nodes == old(graph.nodes)
    {
      var k := 0;
      ghost var g0 := graph;
      while k < |subs|
        invariant 0 <= k <= |subs|
        invariant Resolve(g0, c, subs) == Resolve(graph, c, subs[k..])
        invariant graph.nodes == g0.nodes
      {
        assert subs[k..][0] == subs[k] && subs[k..][1..] == subs[k + 1..];
        match subs[k] {
          case Resource(t) =>
            if IsTombstone(graph, t) { return false; }
            graph := AddEdge(graph, c, t);
          case Selector(matches) =>
            ghost var g1 := graph;
            var j := 0;
            while j < |matches|
              invariant 0 <= j <= |matches|
              invariant AddEdges(g1, c, matches) == AddEdges(graph, c, matches[j..])
              invariant graph.nodes == g0.nodes
            {
              assert matches[j..][0] == matches[j] && matches[j..][1..] == matches[j + 1..];
              if !IsTombstone(graph, matches[j]) { graph := AddEdge(graph, c, matches[j]); }
              j := j + 1;
            }
        }
        k := k + 1;
      }
      return true;
    }

    /** The module blocks, in iteration order; inputs are the resolved placeholders of a node's inputs and params. */
    method EmitModules(order: seq<Coordinate>, inputs: map<Coordinate, seq<Sub>>) returns (ok: bool, blocks: seq<Block>)
      requires Linked(graph)
      requires forall c :: c in order ==> c in graph.nodes
      requires forall j, k :: 0 <= j < k < |order| ==> order[j] != order[k]
      requires forall c :: c in inputs ==> Known(graph, inputs[c])
      modifies this
      ensures graph.nodes == old(graph.nodes)
      ensures ok ==> Linked(graph) && Coordinates(blocks) == EmittedOf(graph, order)
      ensures ok ==> forall k :: 0 <= k < |blocks| ==> BlockOk(graph, inputs, blocks[k])
    {
      blocks := [];
      var k := 0;
      ghost var g0 := graph;
      while k < |order|
        invariant 0 <= k <= |order| && graph.nodes == g0.nodes && Linked(graph)
        invariant Coordinates(blocks) == EmittedOf(graph, order[..k])
        invariant forall j :: 0 <= j < |blocks| ==> BlockOk(graph, inputs, blocks[j])
      {
        var c := order[k];
        ghost var g1 := graph;
        if c.kind != WORKLOAD && !Deleted(graph.nodes[c]) {
          var subs := InputsOf(inputs, c);
          ok := ResolveSubs(c, subs);
          if !ok { return; }
          EmitStep(g0, g1, graph, inputs, blocks, order, k);
          blocks := blocks + [Block(c, Targets(graph, c), subs)];
        } else {
          assert order[..k + 1][..k] == order[..k];
        }
        k := k + 1;
      }
      assert order[..|order|] == order;
      ok := true;
    }
  }

  function InputsOf(inputs: map<Coordinate, seq<Sub>>, c: Coordinate): seq<Sub> {
    if c in inputs then inputs[c] else []
  }

  function Coordinates(blocks: seq<Block>): seq<Coordinate> {
    seq(|blocks|, k requires 0 <= k < |blocks| => blocks[k].coordinate)
  }

  function EmittedOf(g: Graph, order: seq<Coordinate>): seq<Coordinate> {
    if order == [] then []
    else
      var c := order[|order| - 1];
      EmittedOf(g, order[..|order| - 1]) + if Emitted(g, c) then [c] else []
  }

  /** depends_on names every edge and every resource placeholder, all of them emitted; a selector match is there if it is emitted. */
  predicate BlockOk(g: Graph, inputs: map<Coordinate, seq<Sub>>, b: Block) {
    && b.dependsOn == Targets(g, b.coordinate) && b.subs == InputsOf(inputs, b.coordinate)
    && (forall t :: t in b.dependsOn ==> Emitted(g, t))
    && (forall k :: 0 <= k < |b.subs| && b.subs[k].Resource? ==> b.subs[k].target in b.dependsOn)
    && (forall k, j :: 0 <= k < |b.subs| && b.subs[k].Selector? && 0 <= j < |b.subs[k].matches| && Emitted(g, b.subs[k].matches[j]) ==>
          b.subs[k].matches[j] in b.dependsOn)
  }

  // ---------------------------------------------------------------- tombstoning keeps the links

  lemma BuryNone(g: Graph, last: Graph, includeDeleted: bool)
    ensures BuriedIn(g, last, includeDeleted, {}) == g
  {
    hide Tombstone, Buried;
  }

  lemma BuryOneNode(g: Graph, last: Graph, includeDeleted: bool, visited: set<Coordinate>, c: Coordinate)
    requires c in last.nodes
    ensures var before, after := BuriedIn(g, last, includeDeleted, visited).nodes, BuriedIn(g, last, includeDeleted, visited + {c}).nodes;
            after == if c !in before && Buried(g, last, includeDeleted, c) then before[c := Tombstone(last.nodes[c])] else before
  {
    hide Tombstone;
  }

  lemma BuryOneEdge(g: Graph, last: Graph, includeDeleted: bool, visited: set<Coordinate>, c: Coordinate)
    requires c in last.nodes
    ensures var before, after := BuriedIn(g, last, includeDeleted, visited), BuriedIn(g, last, includeDeleted, visited + {c});
            after.edges == if c !in before.nodes && Buried(g, last, includeDeleted, c) then before.edges[c := EdgesOf(last, c)] else before.edges
  {
    hide Tombstone;
    assert Buried(g, last, includeDeleted, c) ==> c !in g.nodes;
    hide Buried;
  }

  lemma BuryOne(g: Graph, last: Graph, includeDeleted: bool, visited: set<Coordinate>, c: Coordinate)
    requires c in last.nodes
    ensures var before, after := BuriedIn(g, last, includeDeleted, visited), BuriedIn(g, last, includeDeleted, visited + {c});
            after == if c !in before.nodes && Buried(g, last, includeDeleted, c)
                     then Graph(before.nodes[c := Tombstone(last.nodes[c])], before.edges[c := EdgesOf(last, c)]) else before
    ensures c in BuriedIn(g, last, includeDeleted, visited).nodes <==> c in g.nodes || (c in visited && Buried(g, last, includeDeleted, c))
  {
    hide Tombstone;
    BuryOneNode(g, last, includeDeleted, visited, c);
    BuryOneEdge(g, last, includeDeleted, visited, c);
  }

  /** The node's tombstone status in the new graph. */
  lemma TombstonedIs(g: Graph, last: Graph, includeDeleted: bool, c: Coordinate)
    requires Fresh(g)
    ensures var g' := Tombstoned(g, last, includeDeleted);
            && (IsLive(g', c) <==> c in g.nodes)
            && (IsTombstone(g', c) <==> Buried(g, last, includeDeleted, c))
  {
  }

  /** Removed nodes point only to nodes that stay: live ones of the last graph are all buried or kept. */
  lemma TombstonedLinked(g: Graph, last: Graph, includeDeleted: bool)
    requires Fresh(g) && Linked(last)
    ensures Linked(Tombstoned(g, last, includeDeleted))
  {
    var g' := Tombstoned(g, last, includeDeleted);
    forall c, t | c in g'.edges && t in Targets(g', c) ensures c in g'.nodes && LinkOk(g', c, t) {
      TombstonedLink(g, last, includeDeleted, c, t);
    }
    forall c | c in g'.edges ensures NamesOk(g'.edges[c]) { TombstonedEdges(g, last, includeDeleted, c); }
    forall c | c in g'.nodes ensures g'.nodes[c].config.None? <==> c.kind == WORKLOAD { TombstonedNode(g, last, includeDeleted, c); }
    hide Tombstoned, LinkOk, NamesOk;
  }

  lemma TombstonedNode(g: Graph, last: Graph, includeDeleted: bool, c: Coordinate)
    requires Linked(g) && Linked(last) && c in Tombstoned(g, last, includeDeleted).nodes
    ensures Tombstoned(g, last, includeDeleted).nodes[c].config.None? <==> c.kind == WORKLOAD
  {
    hide LinkOk, NamesOk, Targets;
  }

  /** A node's edges come from the graph it comes from. */
  lemma TombstonedEdges(g: Graph, last: Graph, includeDeleted: bool, c: Coordinate)
    requires Linked(g) && Linked(last)
    ensures var g' := Tombstoned(g, last, includeDeleted);
            && EdgesOf(g', c) == (if Buried(g, last, includeDeleted, c) then EdgesOf(last, c) else EdgesOf(g, c)) && NamesOk(EdgesOf(g', c))
            && (c in g'.edges <==> c in g.edges || Buried(g, last, includeDeleted, c))
  {
    hide LinkOk;
    assert NamesOk(EdgesOf(g, c)) && NamesOk(EdgesOf(last, c));
    hide NamesOk, Linked;
  }

  lemma TombstonedLink(g: Graph, last: Graph, includeDeleted: bool, c: Coordinate, t: Coordinate)
    requires Fresh(g) && Linked(last) && t in Targets(Tombstoned(g, last, includeDeleted), c)
    ensures var g' := Tombstoned(g, last, includeDeleted); c in g'.nodes && LinkOk(g', c, t)
  {
    TombstonedEdges(g, last, includeDeleted, c);
    TombstonedIs(g, last, includeDeleted, c);
    TombstonedIs(g, last, includeDeleted, t);
    if Buried(g, last, includeDeleted, c) {
      assert t in Targets(last, c) && c in last.edges;
      assert LinkOk(last, c, t);
    } else {
      assert t in Targets(g, c) && c in g.edges;
      assert LinkOk(g, c, t);
    }
    assert t in last.nodes && last.nodes[t].config.None? ==> t.kind == WORKLOAD;
    hide Linked, Fresh, Tombstoned;
  }

  // ---------------------------------------------------------------- resolving keeps the links

  lemma AddEdgeIs(g: Graph, c: Coordinate, t: Coordinate)
    requires NamesOk(EdgesOf(g, c))
    ensures var g' := AddEdge(g, c, t);
            && g'.nodes == g.nodes && Targets(g', c) == Targets(g, c) + {t} && NamesOk(EdgesOf(g', c))
            && (forall d :: d != c ==> EdgesOf(g', d) == EdgesOf(g, d))
            && (forall d :: d in g'.edges ==> d in g.edges || d == c)
  {
    var m := EdgesOf(g, c);
    if t !in m.Values {
      var m' := m[Anonymous(t) := t];
      assert Anonymous(t) !in m;
      forall v ensures v in m'.Values <==> v in m.Values || v == t {
        if v in m.Values { var k :| k in m && m[k] == v; assert m'[k] == v; }
        if v == t { assert m'[Anonymous(t)] == t; }
      }
    }
  }

  /** One edge to a live resource node. */
  lemma AddEdgeLinks(g: Graph, c: Coordinate, t: Coordinate)
    requires Linked(g) && c in g.nodes && Emitted(g, t)
    ensures Linked(AddEdge(g, c, t))
  {
    var g' := AddEdge(g, c, t);
    AddEdgeIs(g, c, t);
    forall d, u | d in g'.edges && u in Targets(g', d) ensures d in g'.nodes && LinkOk(g', d, u) {
      if !(d == c && u == t) {
        assert u in Targets(g, d);
        assert d in g.edges;
        assert LinkOk(g, d, u);
      }
    }
    forall d | d in g'.edges ensures NamesOk(g'.edges[d]) {
      if d != c { assert g'.edges[d] == EdgesOf(g', d) == EdgesOf(g, d) && d in g.edges; }
    }
  }

  /** What a step of resolution adds to the edges of c: exactly the targets, and nothing anywhere else. */
  ghost predicate Adds(g: Graph, g': Graph, c: Coordinate, targets: set<Coordinate>) {
    && g'.nodes == g.nodes && Targets(g', c) == Targets(g, c) + targets
    && forall d :: d != c ==> EdgesOf(g', d) == EdgesOf(g, d)
  }

  function Wanted(g: Graph, matches: seq<Coordinate>): set<Coordinate> {
    set t | t in matches && !IsTombstone(g, t)
  }

  lemma {:induction false} AddEdgesLinks(g: Graph, c: Coordinate, matches: seq<Coordinate>)
    requires Linked(g) && c in g.nodes && SubKnown(g, Selector(matches))
    ensures Linked(AddEdges(g, c, matches)) && Adds(g, AddEdges(g, c, matches), c, Wanted(g, matches))
    decreases |matches|
  {
    if matches != [] {
      var t := matches[0];
      assert matches == [t] + matches[1..];
      if IsTombstone(g, t) {
        AddEdgesLinks(g, c, matches[1..]);
        assert Wanted(g, matches) == Wanted(g, matches[1..]);
      } else {
        var g1 := AddEdge(g, c, t);
        AddEdgeLinks(g, c, t);
        AddEdgeIs(g, c, t);
        assert Adds(g, g1, c, {t});
        hide Linked, AddEdge, LinkOk;
        AddEdgesLinks(g1, c, matches[1..]);
        assert Wanted(g, matches) == {t} + Wanted(g1, matches[1..]);
      }
    }
  }

  function AllWanted(g: Graph, subs: seq<Sub>): set<Coordinate> {
    if subs == [] then {}
    else (match subs[0] case Resource(t) => {t} case Selector(matches) => Wanted(g, matches)) + AllWanted(g, subs[1..])
  }

  /** Resolving the placeholders of c adds exactly what they refer to, less the tombstones of selectors, and keeps the links. */
  lemma {:induction false} ResolveLinks(g: Graph, c: Coordinate, subs: seq<Sub>)
    requires Linked(g) && c in g.nodes && Known(g, subs)
    ensures Resolve(g, c, subs).Some? ==>
              Linked(Resolve(g, c, subs).value) && Adds(g, Resolve(g, c, subs).value, c, AllWanted(g, subs))
    decreases |subs|, 0
  {
    if subs != [] {
      assert SubKnown(g, subs[0]);
      var rest := subs[1..];
      match subs[0] {
        case Resource(t) =>
          if !IsTombstone(g, t) {
            AddEdgeLinks(g, c, t);
            AddEdgeIs(g, c, t);
            ResolveOn(g, AddEdge(g, c, t), c, rest, {t});
          }
        case Selector(matches) =>
          AddEdgesLinks(g, c, matches);
          ResolveOn(g, AddEdges(g, c, matches), c, rest, Wanted(g, matches));
      }
    }
  }

  lemma {:induction false} ResolveOn(g: Graph, g1: Graph, c: Coordinate, rest: seq<Sub>, added: set<Coordinate>)
    requires Linked(g1) && c in g.nodes && Known(g, rest) && Adds(g, g1, c, added)
    ensures Resolve(g1, c, rest).Some? ==>
              Linked(Resolve(g1, c, rest).value) && Adds(g, Resolve(g1, c, rest).value, c, added + AllWanted(g, rest))
    decreases |rest|, 1
  {
    KnownStays(g, g1, rest);
    ResolveLinks(g1, c, rest);
    AllWantedStays(g, g1, rest);
  }

  lemma NoInputs(g: Graph)
    ensures Known(g, [])
  {
  }

  lemma KnownStays(g: Graph, g': Graph, subs: seq<Sub>)
    requires g'.nodes == g.nodes && Known(g, subs)
    ensures Known(g', subs)
  {
    forall k | 0 <= k < |subs| ensures SubKnown(g', subs[k]) { assert SubKnown(g, subs[k]); }
  }

  lemma {:induction false} AllWantedStays(g: Graph, g': Graph, subs: seq<Sub>)
    requires g'.nodes == g.nodes
    ensures AllWanted(g', subs) == AllWanted(g, subs)
    decreases |subs|
  {
    if subs != [] {
      AllWantedStays(g, g', subs[1..]);
      if subs[0].Selector? { assert Wanted(g', subs[0].matches) == Wanted(g, subs[0].matches); }
    }
  }

  lemma {:induction false} AllWantedHas(g: Graph, subs: seq<Sub>, k: nat)
    requires k < |subs|
    ensures match subs[k] case Resource(t) => t in AllWanted(g, subs) case Selector(matches) => Wanted(g, matches) <= AllWanted(g, subs)
    decreases |subs|
  {
    if k > 0 {
      assert subs[1..][k - 1] == subs[k];
      AllWantedHas(g, subs[1..], k - 1);
    }
  }

  // ---------------------------------------------------------------- the emitted blocks

  lemma {:induction false} EmittedStays(g: Graph, g': Graph, order: seq<Coordinate>)
    requires g'.nodes == g.nodes
    ensures EmittedOf(g', order) == EmittedOf(g, order)
    decreases |order|
  {
    if order != [] { EmittedStays(g, g', order[..|order| - 1]); }
  }

  /** The emitted sequence has exactly the emitted nodes of the order, each once. */
  lemma {:induction false} EmittedOfIs(g: Graph, order: seq<Coordinate>)
    requires forall j, k :: 0 <= j < k < |order| ==> order[j] != order[k]
    ensures forall c :: c in EmittedOf(g, order) <==> c in order && Emitted(g, c)
    ensures var e := EmittedOf(g, order); forall j, k :: 0 <= j < k < |e| ==> e[j] != e[k]
    decreases |order|
  {
    if order != [] {
      var front := order[..|order| - 1];
      EmittedOfIs(g, front);
      var c := order[|order| - 1];
      assert order == front + [c];
      assert c !in front;
      var e, e' := EmittedOf(g, order), EmittedOf(g, front);
      forall j, k | 0 <= j < k < |e| ensures e[j] != e[k] {
        assert e == e' || e == e' + [c];
        assert e[j] == e'[j] && e'[j] in EmittedOf(g, front);
        assert k < |e'| ==> e[k] == e'[k];
      }
    }
  }

  lemma BlocksStay(g: Graph, g': Graph, inputs: map<Coordinate, seq<Sub>>, blocks: seq<Block>, order: seq<Coordinate>, c: Coordinate)
    requires forall j :: 0 <= j < |blocks| ==> BlockOk(g, inputs, blocks[j])
    requires Coordinates(blocks) == EmittedOf(g, order) && c !in order
    requires g'.nodes == g.nodes && forall d :: d != c ==> EdgesOf(g', d) == EdgesOf(g, d)
    requires forall j, k :: 0 <= j < k < |order| ==> order[j] != order[k]
    ensures forall j :: 0 <= j < |blocks| ==> BlockOk(g', inputs, blocks[j])
  {
    EmittedOfIs(g, order);
    forall j | 0 <= j < |blocks| ensures BlockOk(g', inputs, blocks[j]) {
      assert Coordinates(blocks)[j] == blocks[j].coordinate;
      assert blocks[j].coordinate in EmittedOf(g, order);
      assert BlockOk(g, inputs, blocks[j]);
    }
  }

  /** One iteration of EmitModules on a live resource node. */
  lemma EmitStep(g0: Graph, g: Graph, g': Graph, inputs: map<Coordinate, seq<Sub>>, blocks: seq<Block>, order: seq<Coordinate>, k: nat)
    requires Linked(g) && g.nodes == g0.nodes && k < |order| && order[k].kind != WORKLOAD && IsLive(g, order[k])
    requires forall i, j :: 0 <= i < j < |order| ==> order[i] != order[j]
    requires forall c :: c in inputs ==> Known(g0, inputs[c])
    requires Coordinates(blocks) == EmittedOf(g, order[..k])
    requires forall j :: 0 <= j < |blocks| ==> BlockOk(g, inputs, blocks[j])
    requires Resolve(g, order[k], InputsOf(inputs, order[k])) == Some(g')
    ensures var blocks' := blocks + [Block(order[k], Targets(g', order[k]), InputsOf(inputs, order[k]))];
            && g'.nodes == g.nodes && Linked(g')
            && Coordinates(blocks') == EmittedOf(g', order[..k + 1])
            && (forall j :: 0 <= j < |blocks'| ==> BlockOk(g', inputs, blocks'[j]))
  {
    hide Linked, Known, BlockOk, Resolve, EdgesOf;
    var c := order[k];
    var subs := InputsOf(inputs, c);
    NoInputs(g0);
    KnownStays(g0, g, subs);
    ResolveLinks(g, c, subs);
    assert order[..k + 1][..k] == order[..k];
    EmittedStays(g, g', order[..k]);
    BlocksStay(g, g', inputs, blocks, order[..k], c);
    NewBlock(g, g', inputs, c);
  }

  lemma NewBlock(g: Graph, g': Graph, inputs: map<Coordinate, seq<Sub>>, c: Coordinate)
    requires Linked(g') && Emitted(g', c) && Adds(g, g', c, AllWanted(g, InputsOf(inputs, c)))
    ensures BlockOk(g', inputs, Block(c, Targets(g', c), InputsOf(inputs, c)))
  {
    var subs := InputsOf(inputs, c);
    forall t | t in Targets(g', c) ensures Emitted(g', t) {
      assert c in g'.edges;
      assert LinkOk(g', c, t);
    }
    forall k | 0 <= k < |subs| && subs[k].Resource? ensures subs[k].target in Targets(g', c) { AllWantedHas(g, subs, k); }
    forall k, j | 0 <= k < |subs| && subs[k].Selector? && 0 <= j < |subs[k].matches| && Emitted(g', subs[k].matches[j])
      ensures subs[k].matches[j] in Targets(g', c)
    {
      AllWantedHas(g, subs, k);
      assert subs[k].matches[j] in Wanted(g, subs[k].matches);
    }
  }
}
